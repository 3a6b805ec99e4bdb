/**
 * The offset layout of `beginAnimation`: a running cursor walks the
 * timeline's children; a group's clips all start at the cursor and the cursor
 * then moves past the group's longest clip, a standalone clip moves it by its
 * own duration, and each child may add an explicit extra offset.
 */
module Layout {
  import opened Wrappers
  import opened ClipConfig
  import opened Sequencing

  /** The resolved configs of one clip reference, one per entity the
      selector matched (never empty). */
  type ClipRef = s: seq<Config> | |s| > 0 witness [map[]]

  /** The config whose timing `addAnimationToTimeline` reports: the last match. */
  function Last(clip: ClipRef): Config
  {
    clip[|clip| - 1]
  }

  /** A child of the timeline element: a group of clips started together, a
      standalone clip, or any other element (ignored). `offsetAttr` is the
      numeric `offset` attribute, `None` when it is absent or empty. */
  datatype Child =
    | Group(clips: seq<ClipRef>, offsetAttr: Option<real>)
    | Single(clip: ClipRef, offsetAttr: Option<real>)
    | Other

  /** `parseFloat(el.getAttribute('offset') || 0)`. */
  function ExtraOffset(attr: Option<real>): real
  {
    attr.GetOr(0.0)
  }

  /** A resolved config and the absolute offset it is added to the timeline at. */
  datatype Placement = Placement(config: Config, offset: real)

  /** Every config of a clip reference, placed at `offset`. */
  function PlaceAll(clip: seq<Config>, offset: real): (r: seq<Placement>)
    ensures |r| == |clip|
  {
    seq(|clip|, i requires 0 <= i < |clip| => Placement(clip[i], offset))
  }

  /** What adding clips to the timeline produced: the placements, in order,
      and the duration reported back to the layout loop. */
  datatype Added = Added(placed: seq<Placement>, duration: real)

  /** `addAnimationToTimeline`: one placement per matched entity, in match
      order, all at the same offset; the reported duration is the last match's. */
  function AddAnimation(clip: ClipRef, offset: real): (r: Added)
    ensures r.placed == PlaceAll(clip, offset)
    ensures r.duration == ClipDuration(Last(clip))
    decreases |clip|
  {
    var first := Placement(clip[0], offset);
    if |clip| == 1 then Added([first], ClipDuration(clip[0]))
    else
      var rest := AddAnimation(clip[1..], offset);
      assert Last(clip[1..]) == Last(clip);
      Added([first] + rest.placed, rest.duration)
  }

  /** Every placement of a segment is at the same offset. */
  ghost predicate AllAt(placed: seq<Placement>, offset: real)
  {
    forall i :: 0 <= i < |placed| ==> placed[i].offset == offset
  }

  /** The reference duration of a group: the largest of its clips' durations,
      and never below 0 (an empty group lasts 0). */
  function Longest(clips: seq<ClipRef>): real
  {
    if |clips| == 0 then 0.0
    else
      var d := ClipDuration(Last(clips[|clips| - 1]));
      var m := Longest(clips[..|clips| - 1]);
      if d > m then d else m
  }

  /** `Longest` is the least non-negative upper bound of the durations. */
  lemma {:induction false} LongestIsMax(clips: seq<ClipRef>)
    ensures Longest(clips) >= 0.0
    ensures forall j :: 0 <= j < |clips| ==> ClipDuration(Last(clips[j])) <= Longest(clips)
    ensures Longest(clips) == 0.0 || exists j :: 0 <= j < |clips| && Longest(clips) == ClipDuration(Last(clips[j]))
  {
    if |clips| > 0 {
      var init := clips[..|clips| - 1];
      LongestIsMax(init);
      assert forall j :: 0 <= j < |init| ==> init[j] == clips[j];
      if Longest(clips) != 0.0 && Longest(clips) == Longest(init) {
        var j :| 0 <= j < |init| && Longest(init) == ClipDuration(Last(init[j]));
        assert Longest(clips) == ClipDuration(Last(clips[j]));
      }
    }
  }

  /** The group loop of `beginAnimation`: every clip added at the same offset;
      the running `longestDuration` starts at 0 and takes each larger reported
      duration. */
  function AddGroup(clips: seq<ClipRef>, offset: real): Added
  {
    if |clips| == 0 then Added([], 0.0)
    else
      var a := AddAnimation(clips[0], offset);
      var rest := AddGroup(clips[1..], offset);
      Added(a.placed + rest.placed, if a.duration > rest.duration then a.duration else rest.duration)
  }

  /** The duration a group reports is the largest of its clips' durations,
      and 0 when none is positive (in particular for an empty group). */
  lemma {:induction false} AddGroupDuration(clips: seq<ClipRef>, offset: real)
    ensures AddGroup(clips, offset).duration >= 0.0
    ensures forall j :: 0 <= j < |clips| ==> ClipDuration(Last(clips[j])) <= AddGroup(clips, offset).duration
    ensures var d := AddGroup(clips, offset).duration;
      d == 0.0 || exists j :: 0 <= j < |clips| && d == ClipDuration(Last(clips[j]))
  {
    if |clips| > 0 {
      var tail := clips[1..];
      AddGroupDuration(tail, offset);
      assert forall j :: 1 <= j < |clips| ==> clips[j] == tail[j - 1];
      var d := AddGroup(clips, offset).duration;
      var rd := AddGroup(tail, offset).duration;
      if d != 0.0 && d == rd {
        var j :| 0 <= j < |tail| && rd == ClipDuration(Last(tail[j]));
        assert d == ClipDuration(Last(clips[j + 1]));
      }
    }
  }

  /** Two non-negative least upper bounds of the same durations coincide. */
  lemma AddGroupIsLongest(clips: seq<ClipRef>, offset: real)
    ensures AddGroup(clips, offset).duration == Longest(clips)
  {
    LongestIsMax(clips);
    AddGroupDuration(clips, offset);
    var g := AddGroup(clips, offset).duration;
    var l := Longest(clips);
    if g != 0.0 {
      var j :| 0 <= j < |clips| && g == ClipDuration(Last(clips[j]));
    }
    if l != 0.0 {
      var j :| 0 <= j < |clips| && l == ClipDuration(Last(clips[j]));
    }
  }

  /** The cursor and the placements added so far. */
  datatype Progress = Progress(added: seq<Placement>, cursor: real)

  /** One iteration of the `beginAnimation` loop over the timeline's children. */
  function Step(acc: Progress, child: Child): Progress
  {
    match child
    case Group(clips, attr) =>
      var g := AddGroup(clips, acc.cursor);
      Progress(acc.added + g.placed, acc.cursor + g.duration + ExtraOffset(attr))
    case Single(clip, attr) =>
      var a := AddAnimation(clip, acc.cursor);
      Progress(acc.added + a.placed, acc.cursor + a.duration + ExtraOffset(attr))
    case Other =>
      acc
  }

  /** How one child moves the cursor: a standalone clip by its duration plus
      its extra offset, a group by its longest clip (at least 0) plus its
      extra offset, an empty group by its extra offset alone, any other
      element not at all. */
  lemma StepCursor(acc: Progress, child: Child)
    ensures child.Other? ==> Step(acc, child) == acc
    ensures child.Single? ==>
      Step(acc, child).cursor == acc.cursor + ClipDuration(Last(child.clip)) + ExtraOffset(child.offsetAttr)
    ensures child.Group? ==>
      Step(acc, child).cursor == acc.cursor + Longest(child.clips) + ExtraOffset(child.offsetAttr)
    ensures child.Group? && child.clips == [] ==>
      Step(acc, child) == Progress(acc.added, acc.cursor + ExtraOffset(child.offsetAttr))
  {
    if child.Group? {
      AddGroupIsLongest(child.clips, acc.cursor);
      if child.clips == [] {
        assert acc.added + [] == acc.added;
      }
    }
  }

  /** One child only appends to what was added before, and everything it
      appends starts at the cursor the child found. */
  lemma StepPlacesAtCursor(acc: Progress, child: Child)
    ensures |acc.added| <= |Step(acc, child).added|
    ensures Step(acc, child).added[..|acc.added|] == acc.added
    ensures AllAt(Step(acc, child).added[|acc.added|..], acc.cursor)
  {
    StepIsSegment(acc, child);
    SegmentAllAt(child, acc.cursor);
    var r := Step(acc, child);
    assert r.added[|acc.added|..] == Segment(child, acc.cursor);
  }

  /** The loop over the remaining children, from a given state. */
  function LayoutFrom(acc: Progress, children: seq<Child>): Progress
    decreases |children|
  {
    if |children| == 0 then acc else LayoutFrom(Step(acc, children[0]), children[1..])
  }

  /** `beginAnimation`'s layout: the cursor starts at 0 with nothing added. */
  function LayOut(children: seq<Child>): Progress
  {
    LayoutFrom(Progress([], 0.0), children)
  }

  // ---------------------------------------------------------------------
  // Reference schedule: closed forms for the start of every child.

  /** How far a child moves the cursor. */
  function Advance(child: Child): real
  {
    match child
    case Group(clips, attr) => Longest(clips) + ExtraOffset(attr)
    case Single(clip, attr) => ClipDuration(Last(clip)) + ExtraOffset(attr)
    case Other => 0.0
  }

  /** The total advance of a sequence of children. */
  function SumAdvance(children: seq<Child>): real
  {
    Sum(children, Advance)
  }

  /** The absolute start of child `i`: everything before it, added up. */
  function StartOf(children: seq<Child>, i: nat): real
    requires i <= |children|
  {
    SumAdvance(children[..i])
  }

  /** The placements of a group's clips, clip after clip. */
  function PlaceGroup(clips: seq<ClipRef>, offset: real): seq<Placement>
  {
    if |clips| == 0 then [] else PlaceAll(clips[0], offset) + PlaceGroup(clips[1..], offset)
  }

  /** What a child contributes to the timeline when it starts at `start`. */
  function Segment(child: Child, start: real): seq<Placement>
  {
    match child
    case Group(clips, _) => PlaceGroup(clips, start)
    case Single(clip, _) => PlaceAll(clip, start)
    case Other => []
  }

  /** The segments of all children, each at its own start. */
  function Segments(children: seq<Child>, start: real): seq<Placement>
  {
    Chain(children, start, Segment, Advance)
  }

  lemma {:induction false} AddGroupConfigs(clips: seq<ClipRef>, offset: real)
    ensures AddGroup(clips, offset).placed == PlaceGroup(clips, offset)
  {
    if |clips| > 0 {
      AddGroupConfigs(clips[1..], offset);
    }
  }

  /** One step of the loop is the reference step: append the child's segment
      at the cursor, move the cursor by the child's advance. */
  lemma StepIsSegment(acc: Progress, child: Child)
    ensures Step(acc, child) == Progress(acc.added + Segment(child, acc.cursor), acc.cursor + Advance(child))
  {
    match child
    case Group(clips, attr) =>
      AddGroupConfigs(clips, acc.cursor);
      AddGroupIsLongest(clips, acc.cursor);
    case Single(clip, attr) =>
    case Other =>
      assert acc.added + [] == acc.added;
  }

  /** The layout loop computes the reference schedule from any state. */
  lemma {:induction false} LayoutFromIsSegments(acc: Progress, children: seq<Child>)
    ensures LayoutFrom(acc, children).added == acc.added + Segments(children, acc.cursor)
    ensures LayoutFrom(acc, children).cursor == acc.cursor + SumAdvance(children)
    decreases |children|
  {
    if |children| == 0 {
      assert acc.added + [] == acc.added;
    } else {
      var c := children[0];
      var seg := Segment(c, acc.cursor);
      var next := Progress(acc.added + seg, acc.cursor + Advance(c));
      var rest := Segments(children[1..], next.cursor);
      LayoutFromUnfold(acc, children);
      LayoutFromIsSegments(next, children[1..]);
      assert LayoutFrom(acc, children).added == acc.added + Segments(children, acc.cursor) by {
        SegmentsUnfold(children, acc.cursor);
        ConcatAssoc(acc.added, seg, rest);
      }
    }
  }

  lemma SegmentsUnfold(children: seq<Child>, start: real)
    requires |children| > 0
    ensures Segments(children, start)
         == Segment(children[0], start) + Segments(children[1..], start + Advance(children[0]))
  {
  }

  lemma LayoutFromUnfold(acc: Progress, children: seq<Child>)
    requires |children| > 0
    ensures LayoutFrom(acc, children)
         == LayoutFrom(Progress(acc.added + Segment(children[0], acc.cursor), acc.cursor + Advance(children[0])), children[1..])
  {
    StepIsSegment(acc, children[0]);
  }

  lemma ConcatAssoc<T>(a: seq<T>, b: seq<T>, c: seq<T>)
    ensures (a + b) + c == a + (b + c)
  {
  }

  /** The whole layout: the reference schedule from 0, and the cursor ends at
      the sum of every child's advance. */
  lemma LayOutIsSchedule(children: seq<Child>)
    ensures LayOut(children).added == Segments(children, 0.0)
    ensures LayOut(children).cursor == SumAdvance(children)
  {
    LayoutFromIsSegments(Progress([], 0.0), children);
  }

  /** All placements of a group's clips share the group's offset. */
  lemma {:induction false} PlaceGroupAllAt(clips: seq<ClipRef>, offset: real)
    ensures AllAt(PlaceGroup(clips, offset), offset)
  {
    if |clips| > 0 {
      PlaceGroupAllAt(clips[1..], offset);
      var head := PlaceAll(clips[0], offset);
      var p := PlaceGroup(clips, offset);
      assert p == head + PlaceGroup(clips[1..], offset);
      forall i | 0 <= i < |p| ensures p[i].offset == offset {
        if i >= |head| {
          assert p[i] == PlaceGroup(clips[1..], offset)[i - |head|];
        }
      }
    }
  }

  /** A reference segment carries its start as every placement's offset. */
  lemma SegmentAllAt(child: Child, start: real)
    ensures AllAt(Segment(child, start), start)
  {
    if child.Group? {
      PlaceGroupAllAt(child.clips, start);
    }
  }

  /** After the first `i` children the running cursor is their start sum. */
  lemma {:induction false} CursorAfterPrefix(children: seq<Child>, i: nat)
    requires i <= |children|
    ensures LayOut(children[..i]).cursor == StartOf(children, i)
  {
    LayOutIsSchedule(children[..i]);
    assert children[..i][..i] == children[..i];
  }

  /** The reference segments split at any child: what comes before it, then
      the rest starting at the advance of the prefix. */
  lemma SegmentsSplit(children: seq<Child>, start: real, i: nat)
    requires i <= |children|
    ensures Segments(children, start)
         == Segments(children[..i], start) + Segments(children[i..], start + SumAdvance(children[..i]))
  {
    ChainSplit(children, start, i, Segment, Advance);
  }

  /** Where child `i` lands in the whole layout: right after the placements of
      the children before it, every one of its placements at the child's
      start (so all clips of a group share one offset). */
  lemma ChildPlacedAtStart(children: seq<Child>, i: nat)
    requires i < |children|
    ensures var pre := |Segments(children[..i], 0.0)|;
      var seg := Segment(children[i], StartOf(children, i));
      && pre + |seg| <= |LayOut(children).added|
      && LayOut(children).added[pre..pre + |seg|] == seg
      && AllAt(seg, StartOf(children, i))
  {
    var start := StartOf(children, i);
    LayOutAroundChild(children, i);
    SliceOfConcat(Segments(children[..i], 0.0), Segment(children[i], start),
      Segments(children[i + 1..], start + Advance(children[i])));
    SegmentAllAt(children[i], start);
  }

  /** The whole layout around child `i`: the children before it, its own
      segment at its start, and the children after it. */
  lemma LayOutAroundChild(children: seq<Child>, i: nat)
    requires i < |children|
    ensures LayOut(children).added
         == Segments(children[..i], 0.0)
          + (Segment(children[i], StartOf(children, i))
          + Segments(children[i + 1..], StartOf(children, i) + Advance(children[i])))
  {
    LayOutSplit(children, i);
    SegmentsOfSuffix(children, i, StartOf(children, i));
  }

  /** The whole layout split before child `i`. */
  lemma LayOutSplit(children: seq<Child>, i: nat)
    requires i <= |children|
    ensures LayOut(children).added == Segments(children[..i], 0.0) + Segments(children[i..], StartOf(children, i))
  {
    assert 0.0 + StartOf(children, i) == StartOf(children, i);
    LayOutIsSchedule(children);
    SegmentsSplit(children, 0.0, i);
  }

  /** The segments from child `i` on: child `i` first, then the rest after its advance. */
  lemma SegmentsOfSuffix(children: seq<Child>, i: nat, start: real)
    requires i < |children|
    ensures Segments(children[i..], start)
         == Segment(children[i], start) + Segments(children[i + 1..], start + Advance(children[i]))
  {
    ChainAt(children, i, start, Segment, Advance);
  }

  lemma SliceOfConcat<T>(a: seq<T>, b: seq<T>, c: seq<T>)
    ensures (a + (b + c))[|a|..|a| + |b|] == b
  {
  }

  // ---------------------------------------------------------------------
  // Monotonicity of offsets along the added configs.

  /** The added configs' offsets never decrease. */
  ghost predicate OffsetsSorted(configs: seq<Placement>)
  {
    forall p, q :: 0 <= p <= q < |configs| ==> configs[p].offset <= configs[q].offset
  }

  /** No added config starts after `bound`. */
  ghost predicate OffsetsAtMost(configs: seq<Placement>, bound: real)
  {
    forall p :: 0 <= p < |configs| ==> configs[p].offset <= bound
  }

  /** When no child moves the cursor backwards (durations and explicit offsets
      non-negative), every added config starts no earlier than the ones before
      it and no later than the final cursor. */
  lemma {:induction false} LayoutFromSorted(acc: Progress, children: seq<Child>)
    requires OffsetsSorted(acc.added) && OffsetsAtMost(acc.added, acc.cursor)
    requires forall i :: 0 <= i < |children| ==> Advance(children[i]) >= 0.0
    ensures OffsetsSorted(LayoutFrom(acc, children).added)
    ensures OffsetsAtMost(LayoutFrom(acc, children).added, LayoutFrom(acc, children).cursor)
    decreases |children|
  {
    if |children| > 0 {
      var next := Step(acc, children[0]);
      StepIsSegment(acc, children[0]);
      SegmentAllAt(children[0], acc.cursor);
      var seg := next.added[|acc.added|..];
      assert next.added == acc.added + seg;
      assert forall p :: 0 <= p < |seg| ==> seg[p].offset == acc.cursor;
      assert forall p :: 0 <= p < |next.added| ==> next.added[p].offset <= acc.cursor by {
        forall p | 0 <= p < |next.added|
          ensures next.added[p].offset <= acc.cursor
        {
          if p >= |acc.added| {
            assert next.added[p] == seg[p - |acc.added|];
          }
        }
      }
      assert OffsetsSorted(next.added) by {
        forall p, q | 0 <= p <= q < |next.added|
          ensures next.added[p].offset <= next.added[q].offset
        {
          if q >= |acc.added| {
            assert next.added[q] == seg[q - |acc.added|];
          }
        }
      }
      forall i | 0 <= i < |children[1..]|
        ensures Advance(children[1..][i]) >= 0.0
      {
        assert children[1..][i] == children[i + 1];
      }
      LayoutFromSorted(next, children[1..]);
    }
  }

  /** The timeline's offsets are non-decreasing when no child has a negative
      advance, and none lies beyond the total duration. */
  lemma LayOutSorted(children: seq<Child>)
    requires forall i :: 0 <= i < |children| ==> Advance(children[i]) >= 0.0
    ensures OffsetsSorted(LayOut(children).added)
    ensures OffsetsAtMost(LayOut(children).added, LayOut(children).cursor)
  {
    LayoutFromSorted(Progress([], 0.0), children);
  }

  // ---------------------------------------------------------------------
  // The worked example: [Group{A(1), B(2)}, C(1) with offset 0.5].

  function Timing(duration: real, delay: real): Config
  {
    map["duration" := Num(duration), "delay" := Num(delay)]
  }

  lemma LayOutExample()
    ensures var children := [
        Group([[Timing(1.0, 0.0)], [Timing(2.0, 0.0)]], None),
        Single([Timing(1.0, 0.0)], Some(0.5))
      ];
      var l := LayOut(children);
      && |l.added| == 3
      && (l.added[0]).offset == 0.0
      && (l.added[1]).offset == 0.0
      && (l.added[2]).offset == 2.0
      && l.cursor == 3.5
  {
    var a, b := Timing(1.0, 0.0), Timing(2.0, 0.0);
    var group := Group([[a], [b]], None);
    var single := Single([a], Some(0.5));
    assert ClipDuration(a) == 1.0 && ClipDuration(b) == 2.0;
    var s1 := Step(Progress([], 0.0), group);
    StepIsSegment(Progress([], 0.0), group);
    assert Longest([[a], [b]]) == 2.0 by {
      assert [[a], [b]][..1] == [[a]];
      assert Longest([[a]]) == 1.0 by {
        assert [[a]][..0] == [];
      }
    }
    assert s1.cursor == 2.0;
    assert PlaceAll([a], 0.0) == [Placement(a, 0.0)];
    assert PlaceAll([b], 0.0) == [Placement(b, 0.0)];
    assert PlaceGroup([[b]], 0.0) == PlaceAll([b], 0.0) + PlaceGroup([], 0.0);
    assert PlaceGroup([[a], [b]], 0.0) == PlaceAll([a], 0.0) + PlaceGroup([[b]], 0.0);
    assert s1.added == [Placement(a, 0.0), Placement(b, 0.0)];
    var s2 := Step(s1, single);
    assert s2.cursor == 3.5;
    assert s2.added == s1.added + [Placement(a, 2.0)];
    var children := [group, single];
    assert LayOut(children) == LayoutFrom(s1, children[1..]);
    assert LayoutFrom(s1, children[1..]) == LayoutFrom(s2, []);
  }
}
