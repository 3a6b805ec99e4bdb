/**
 * Clip configurations as the animation component exposes them: a JavaScript
 * object whose keys map to numbers, strings, nested objects/arrays or functions.
 * The timeline component copies such an object before handing it to the
 * timeline (`cloneConfig`) and stamps the copy with an absolute `offset`.
 */
module ClipConfig {

  /** A JavaScript value as far as `cloneConfig` distinguishes them.
      Functions are identified by an opaque identity: copying one shares it. */
  datatype Value =
    | Undefined
    | Null
    | Bool(b: bool)
    | Num(n: real)
    | Str(s: string)
    | Fn(id: nat)
    | Arr(items: seq<Value>)
    | Obj(fields: map<string, Value>)
  {
    /** `typeof v === 'function'`. */
    predicate IsFunction() {
      Fn?
    }

    /** `typeof v === 'object'` (arrays and `null` included). */
    predicate IsObject() {
      Arr? || Obj? || Null?
    }
  }

  /** A clip's configuration object. */
  type Config = map<string, Value>

  /** The key the timeline component overwrites on every added config. */
  const OffsetKey: string := "offset"

  /** The deep copy applied to object-valued entries: every nested container is
      rebuilt, every scalar and function carried over. */
  function CloneValue(v: Value): Value
  {
    match v
    case Arr(items) => Arr(seq(|items|, i requires 0 <= i < |items| => CloneValue(items[i])))
    case Obj(fields) => Obj(map k | k in fields :: CloneValue(fields[k]))
    case _ => v
  }

  /** A deep copy is equal, as a value, to what it copies. */
  lemma {:induction false} CloneValueIsCopy(v: Value)
    ensures CloneValue(v) == v
  {
    match v
    case Arr(items) =>
      forall i | 0 <= i < |items| {
        CloneValueIsCopy(items[i]);
      }
    case Obj(fields) =>
      forall k | k in fields {
        CloneValueIsCopy(fields[k]);
      }
      assert CloneValue(v).fields == fields;
    case _ =>
  }

  /** One entry of `cloneConfig`: functions are shared, objects deep-copied,
      everything else copied as is. */
  function CloneEntry(v: Value): (r: Value)
    ensures r == v
    ensures v.IsFunction() ==> r.Fn? && r.id == v.id
  {
    if v.IsFunction() then v
    else if v.IsObject() then CloneValueIsCopy(v); CloneValue(v)
    else v
  }

  /** `cloneConfig`: a copy with the same keys and value-equal entries. */
  function CloneConfig(c: Config): (r: Config)
    ensures r.Keys == c.Keys
    ensures forall k :: k in c ==> r[k] == c[k]
    ensures forall k :: k in c && c[k].IsFunction() ==> r[k].Fn? && r[k].id == c[k].id
  {
    map k | k in c :: CloneEntry(c[k])
  }

  /** `added` is what the timeline receives for source config `src` at `offset`:
      the source keys plus `offset`, every other entry unchanged. */
  ghost predicate StampOf(added: Config, src: Config, offset: real)
  {
    && added.Keys == src.Keys + {OffsetKey}
    && added[OffsetKey] == Num(offset)
    && forall k :: k in src && k != OffsetKey ==> added[k] == src[k]
  }

  /** The config actually added to the timeline: clone the source, overwrite
      `offset`, clone again. */
  function Stamp(c: Config, offset: real): (r: Config)
    ensures StampOf(r, c, offset)
    ensures forall k :: k in c && c[k].IsFunction() && k != OffsetKey ==> r[k] == c[k]
  {
    CloneConfig(CloneConfig(c)[OffsetKey := Num(offset)])
  }

  /** Stamping touches nothing but `offset`, and a second stamp replaces the first. */
  lemma StampOnlyOverwritesOffset(c: Config, a: real, b: real)
    ensures Stamp(c, a) - {OffsetKey} == c - {OffsetKey}
    ensures Stamp(Stamp(c, a), b) == Stamp(c, b)
  {
    var s, t, u := Stamp(c, a), Stamp(Stamp(c, a), b), Stamp(c, b);
    assert (s - {OffsetKey}).Keys == (c - {OffsetKey}).Keys;
    assert t.Keys == u.Keys;
  }

  /** A stamped config's offset, 0 when it carries none. */
  function OffsetOf(c: Config): real
  {
    if OffsetKey in c && c[OffsetKey].Num? then c[OffsetKey].n else 0.0
  }

  /** `config[key] || 0` for a timing field: a number stays, anything absent is 0. */
  function NumberOr0(c: Config, key: string): real
  {
    if key in c && c[key].Num? then c[key].n else 0.0
  }

  /** `(config.duration || 0) + (config.delay || 0)`: how long a clip occupies
      its slot before the next sequential member may start. */
  function ClipDuration(c: Config): real
  {
    NumberOr0(c, "duration") + NumberOr0(c, "delay")
  }

  /** Stamping a config does not change its timing. */
  lemma StampKeepsDuration(c: Config, offset: real)
    ensures ClipDuration(Stamp(c, offset)) == ClipDuration(c)
    ensures OffsetOf(Stamp(c, offset)) == offset
  {
  }
}
