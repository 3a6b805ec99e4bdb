/**
 * The `loop` schema property: the strings "true" and "false" become booleans,
 * every other string goes through `parseInt(value, 10)`.
 */
module LoopOption {
  import opened Wrappers

  /** A parsed `loop` value: a boolean or a repeat count. */
  datatype LoopValue = Flag(b: bool) | Count(n: int)

  /** The schema default, `0`. */
  const DefaultLoop: LoopValue := Count(0)

  /** `parseInt` found no digits: the result would be NaN. */
  datatype LoopError = NotANumber(text: string)

  /** The characters `parseInt` skips before the number (ECMAScript
      StrWhiteSpaceChar: white space and line terminators). */
  predicate IsSpace(c: char)
  {
    || c == '\t' || c == '\n' || c == '\U{B}' || c == '\U{C}' || c == '\r' || c == ' '
    || c == '\U{A0}' || c == '\U{1680}' || ('\U{2000}' <= c <= '\U{200A}')
    || c == '\U{2028}' || c == '\U{2029}' || c == '\U{202F}' || c == '\U{205F}'
    || c == '\U{3000}' || c == '\U{FEFF}'
  }

  predicate IsDigit(c: char)
  {
    '0' <= c <= '9'
  }

  function DigitValue(c: char): nat
    requires IsDigit(c)
  {
    (c as int) - ('0' as int)
  }

  function DigitChar(d: nat): (c: char)
    requires d < 10
    ensures IsDigit(c) && DigitValue(c) == d
  {
    ('0' as int + d) as char
  }

  predicate AllDigits(s: string)
  {
    forall i :: 0 <= i < |s| ==> IsDigit(s[i])
  }

  /** `s` with its leading white space removed. */
  function TrimStart(s: string): (r: string)
    ensures |r| > 0 ==> !IsSpace(r[0])
  {
    if |s| > 0 && IsSpace(s[0]) then TrimStart(s[1..]) else s
  }

  /** The longest prefix of `s` made of decimal digits. */
  function DigitPrefix(s: string): (r: string)
    ensures AllDigits(r)
  {
    if |s| > 0 && IsDigit(s[0]) then [s[0]] + DigitPrefix(s[1..]) else []
  }

  /** The number a digit string denotes in base 10 (most significant first). */
  function DecimalValue(ds: string): nat
    requires AllDigits(ds)
  {
    if |ds| == 0 then 0 else 10 * DecimalValue(ds[..|ds| - 1]) + DigitValue(ds[|ds| - 1])
  }

  /** `parseInt(s, 10)` on exact integers: skip leading white space, take one
      optional sign, then the longest run of digits; `None` (NaN) when that
      run is empty. Whatever follows the digits is ignored. */
  function ParseInt(s: string): (r: Option<int>)
    ensures var u := UnsignedPart(s); r.None? <==> |u| == 0 || !IsDigit(u[0])
  {
    var t := TrimStart(s);
    var negative := |t| > 0 && t[0] == '-';
    var digits := DigitPrefix(UnsignedPart(s));
    if digits == [] then None
    else
      var magnitude: int := DecimalValue(digits);
      Some(if negative then -magnitude else magnitude)
  }

  /** The text after the leading white space and the optional sign. */
  function UnsignedPart(s: string): string
  {
    var t := TrimStart(s);
    if |t| > 0 && (t[0] == '-' || t[0] == '+') then t[1..] else t
  }

  /** The loop schema's `parse`. */
  function ParseLoop(s: string): (r: Result<LoopValue, LoopError>)
    ensures s == "true" ==> r == Success(Flag(true))
    ensures s == "false" ==> r == Success(Flag(false))
    ensures r.Success? && r.value.Flag? ==> s == "true" || s == "false"
    ensures r.Failure? <==> s != "true" && s != "false" && ParseInt(s).None?
    ensures r.Success? && r.value.Count? ==> ParseInt(s) == Some(r.value.n)
  {
    if s == "true" then Success(Flag(true))
    else if s == "false" then Success(Flag(false))
    else match ParseInt(s)
      case Some(n) => Success(Count(n))
      case None => Failure(NotANumber(s))
  }

  /** Decimal digits of a natural number, without leading zeros. */
  function NatDigits(n: nat): (r: string)
    ensures |r| > 0 && AllDigits(r)
  {
    if n < 10 then [DigitChar(n)] else NatDigits(n / 10) + [DigitChar(n % 10)]
  }

  /** The canonical text of an integer: an optional `-` and its digits. */
  function FormatInt(n: int): string
  {
    if n < 0 then "-" + NatDigits(-n) else NatDigits(n)
  }

  /** The text a `loop` attribute would carry for a given value. */
  function FormatLoop(v: LoopValue): string
  {
    match v
    case Flag(b) => if b then "true" else "false"
    case Count(n) => FormatInt(n)
  }

  lemma {:induction false} DecimalOfNatDigits(n: nat)
    ensures DecimalValue(NatDigits(n)) == n
  {
    if n >= 10 {
      var ds := NatDigits(n);
      assert ds[..|ds| - 1] == NatDigits(n / 10);
      DecimalOfNatDigits(n / 10);
    }
  }

  /** The digit run of a digit string followed by a non-digit is that string. */
  lemma {:induction false} DigitPrefixOfDigits(ds: string, rest: string)
    requires AllDigits(ds)
    requires |rest| == 0 || !IsDigit(rest[0])
    ensures DigitPrefix(ds + rest) == ds
  {
    if |ds| > 0 {
      assert (ds + rest)[1..] == ds[1..] + rest;
      DigitPrefixOfDigits(ds[1..], rest);
    }
  }

  /** After a leading sign and digits, the unsigned part is the digits and what follows. */
  lemma UnsignedPartOfFormat(n: int, rest: string)
    ensures var m: nat := if n < 0 then -n else n;
      UnsignedPart(FormatInt(n) + rest) == NatDigits(m) + rest
    ensures TrimStart(FormatInt(n) + rest) == FormatInt(n) + rest
    ensures |FormatInt(n) + rest| > 0 && (FormatInt(n) + rest)[0] == '-' <==> n < 0
  {
    var m: nat := if n < 0 then -n else n;
    var ds := NatDigits(m);
    var s := FormatInt(n) + rest;
    assert !IsSpace(s[0]) by {
      if n < 0 { assert s[0] == '-'; } else { assert s[0] == ds[0]; }
    }
    assert TrimStart(s) == s;
    if n < 0 {
      assert s == ['-'] + (ds + rest);
      assert s[1..] == ds + rest;
    } else {
      assert s == ds + rest;
      assert s[0] == ds[0];
    }
  }

  /** `parseInt` reads back the canonical text of any integer, and stops at
      the first character that is not a digit. */
  lemma ParseFormatInt(n: int, rest: string)
    requires |rest| == 0 || !IsDigit(rest[0])
    ensures ParseInt(FormatInt(n) + rest) == Some(n)
  {
    var m: nat := if n < 0 then -n else n;
    var s := FormatInt(n) + rest;
    UnsignedPartOfFormat(n, rest);
    DigitPrefixOfDigits(NatDigits(m), rest);
    DecimalOfNatDigits(m);
    var digits := DigitPrefix(UnsignedPart(s));
    assert digits == NatDigits(m);
    assert DecimalValue(digits) == m;
    var t := TrimStart(s);
    assert (|t| > 0 && t[0] == '-') <==> n < 0;
  }

  /** Parsing the text of any loop value gives that value back. */
  lemma ParseFormatLoop(v: LoopValue)
    ensures ParseLoop(FormatLoop(v)) == Success(v)
  {
    if v.Count? {
      var s := FormatLoop(v);
      ParseFormatInt(v.n, []);
      assert s + [] == s;
      assert s != "true" && s != "false" by {
        assert IsDigit(s[0]) || s[0] == '-';
      }
    }
  }

  /** Text whose first non-blank, non-sign character is not a digit is rejected. */
  lemma ParseLoopRejectsNonNumeric(s: string)
    requires s != "true" && s != "false"
    requires var u := UnsignedPart(s); |u| == 0 || !IsDigit(u[0])
    ensures ParseLoop(s).Failure?
  {
  }

  /** Example: "3" is a repeat count. */
  lemma ParseLoopCountExample()
    ensures ParseLoop("3") == Success(Count(3))
  {
    assert FormatInt(3) == "3" by {
      assert NatDigits(3) == [DigitChar(3)];
    }
    ParseFormatInt(3, []);
    assert "3" + [] == "3";
  }

  /** `TrimStart` sees through any run of white space. */
  lemma {:induction false} TrimStartSkipsSpaces(ws: string, x: string)
    requires forall i :: 0 <= i < |ws| ==> IsSpace(ws[i])
    ensures TrimStart(ws + x) == TrimStart(x)
  {
    if |ws| > 0 {
      assert IsSpace(ws[0]);
      assert (ws + x)[0] == ws[0];
      assert (ws + x)[1..] == ws[1..] + x;
      TrimStartSkipsSpaces(ws[1..], x);
    } else {
      assert ws + x == x;
    }
  }

  /** `parseInt` skips leading white space: any run of it in front of a text
      leaves the result unchanged. */
  lemma ParseIntSkipsSpaces(ws: string, x: string)
    requires forall i :: 0 <= i < |ws| ==> IsSpace(ws[i])
    ensures ParseInt(ws + x) == ParseInt(x)
  {
    TrimStartSkipsSpaces(ws, x);
  }

  /** Behind white space and an optional sign, the unsigned part is the digits
      and whatever follows them; the trimmed text starts with `-` exactly
      when the sign is `-`. */
  lemma UnsignedPartOfParts(ws: string, sign: string, ds: string, rest: string)
    requires forall i :: 0 <= i < |ws| ==> IsSpace(ws[i])
    requires sign == "" || sign == "+" || sign == "-"
    requires |ds| > 0 && AllDigits(ds)
    ensures UnsignedPart(ws + (sign + (ds + rest))) == ds + rest
    ensures var t := TrimStart(ws + (sign + (ds + rest)));
      (|t| > 0 && t[0] == '-') <==> sign == "-"
  {
    var x := sign + (ds + rest);
    assert IsDigit(ds[0]);
    assert x[0] == (if sign == "" then ds[0] else sign[0]);
    TrimStartSkipsSpaces(ws, x);
    assert TrimStart(x) == x;
    if sign != "" {
      assert x[1..] == ds + rest;
    } else {
      assert x == ds + rest;
    }
  }

  /** `parseInt` once the digit run and the sign of a text are known. */
  lemma ParseIntFromDigits(s: string, ds: string, negative: bool)
    requires |ds| > 0 && AllDigits(ds)
    requires DigitPrefix(UnsignedPart(s)) == ds
    requires var t := TrimStart(s); (|t| > 0 && t[0] == '-') == negative
    ensures ParseInt(s) == Some(var n: int := DecimalValue(ds); if negative then -n else n)
  {
  }

  /** The value `parseInt(s, 10)` returns: for text made of white space, an
      optional sign, a run of digits and a tail that does not continue the
      run, the run's decimal value, negated after a `-`. Leading zeros and a
      `+` are accepted. */
  lemma ParseIntOfParts(ws: string, sign: string, ds: string, rest: string)
    requires forall i :: 0 <= i < |ws| ==> IsSpace(ws[i])
    requires sign == "" || sign == "+" || sign == "-"
    requires |ds| > 0 && AllDigits(ds)
    requires |rest| == 0 || !IsDigit(rest[0])
    ensures ParseInt(ws + (sign + (ds + rest)))
         == Some(var n: int := DecimalValue(ds); if sign == "-" then -n else n)
  {
    UnsignedPartOfParts(ws, sign, ds, rest);
    DigitPrefixOfDigits(ds, rest);
    ParseIntFromDigits(ws + (sign + (ds + rest)), ds, sign == "-");
  }

  /** Example: leading zeros do not count. */
  lemma DecimalValueExample()
    ensures DecimalValue("007") == 7
  {
    assert "007"[..2] == "00" && "00"[..1] == "0" && "0"[..0] == "";
  }

  /** Example: blanks, a `-`, leading zeros and a trailing unit give -7. */
  lemma ParseIntSignedExample()
    ensures ParseInt("  -007px") == Some(-7)
  {
    DecimalValueExample();
    assert "  " + ("-" + ("007" + "px")) == "  -007px";
    ParseIntOfParts("  ", "-", "007", "px");
  }

  /** Example: "abc" is not a loop value. */
  lemma ParseLoopTextExample()
    ensures ParseLoop("abc").Failure?
  {
    assert TrimStart("abc") == "abc";
    assert UnsignedPart("abc") == "abc";
    assert DigitPrefix("abc") == [];
  }
}
