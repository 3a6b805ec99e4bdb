/**
 * The playback driver of the `animation-timeline` component: its state
 * record, the schema-driven start (autoplay or start events), the per-frame
 * tick, and `beginAnimation`, which rebuilds the timeline from scratch.
 */
module Driver {
  import opened Wrappers
  import opened ClipConfig
  import opened LoopOption
  import opened Layout

  /** The component's parsed schema data. */
  datatype Data = Data(direction: string, loop: LoopValue, startEvents: seq<string>, timeline: string)

  /** The schema defaults: direction "normal", loop 0, no start events. */
  function DefaultData(timeline: string): Data
  {
    Data("normal", DefaultLoop, [], timeline)
  }

  /** The timeline object as this component sees it: the options it was built
      with, the configs added to it in order, and the absolute time it was
      last advanced to (its own playback semantics are not modelled). */
  datatype Timeline = Timeline(
    autoplay: bool,
    direction: string,
    loop: LoopValue,
    added: seq<Config>,
    lastTick: Option<real>)

  /** The component's state: `animationIsPlaying`, `time`, `timeline`. */
  datatype State = State(playing: bool, time: real, timeline: Option<Timeline>)

  /** The element the `timeline` selector resolves to: its tag name and its
      children, already resolved to clip configs. */
  datatype Element = Element(tagName: string, children: seq<Child>)

  /** Why `beginAnimation` throws: the selector matched nothing (reading
      `tagName` of `null`), or matched an element that is not a timeline. */
  datatype Error = NoElement | NotATimeline(tagName: string)

  /** The outcome of a handler: the state afterwards and what it threw. */
  datatype Reply = Reply(state: State, thrown: Option<Error>)

  const TimelineTag: string := "A-TIMELINE"

  /** `init`: not playing, time 0, no timeline. */
  function Init(): State
  {
    State(false, 0.0, None)
  }

  /** `timeline.tick(time)`: the timeline is advanced to an absolute time. */
  function TickTimeline(tl: Timeline, time: real): Timeline
  {
    tl.(lastTick := Some(time))
  }

  /** `tick(t, dt)`: nothing unless playing with a built timeline; otherwise
      the elapsed time grows by `dt` and the timeline is advanced to it. */
  function Tick(st: State, dt: real): (r: State)
    ensures !st.playing || st.timeline.None? ==> r == st
    ensures st.playing && st.timeline.Some? ==>
      && r.playing
      && r.time == st.time + dt
      && r.timeline.Some?
      && r.timeline.value.lastTick == Some(st.time + dt)
      && r.timeline.value == st.timeline.value.(lastTick := r.timeline.value.lastTick)
  {
    if !st.playing || st.timeline.None? then st
    else
      var time := st.time + dt;
      State(st.playing, time, Some(TickTimeline(st.timeline.value, time)))
  }

  /** The configs handed to `timeline.add`, one per placement, in order. */
  function Stamped(placed: seq<Placement>): (r: seq<Config>)
    ensures |r| == |placed|
    ensures forall i :: 0 <= i < |placed| ==> StampOf(r[i], placed[i].config, placed[i].offset)
  {
    if |placed| == 0 then []
    else [Stamp(placed[0].config, placed[0].offset)] + Stamped(placed[1..])
  }

  /** `beginAnimation`: throws, leaving the state as it was, unless the
      selector resolves to an `<a-timeline>`; otherwise starts playing from
      time 0 with a fresh, non-autoplaying timeline holding the layout of the
      element's children. */
  function BeginAnimation(st: State, data: Data, target: Option<Element>): (r: Reply)
    ensures target.None? ==> r == Reply(st, Some(NoElement))
    ensures target.Some? && target.value.tagName != TimelineTag ==>
      r == Reply(st, Some(NotATimeline(target.value.tagName)))
    ensures target.Some? && target.value.tagName == TimelineTag ==>
      var placed := LayOut(target.value.children).added;
      && r.thrown.None?
      && r.state.playing
      && r.state.time == 0.0
      && r.state.timeline.Some?
      && var tl := r.state.timeline.value;
      && !tl.autoplay && tl.direction == data.direction && tl.loop == data.loop
      && tl.lastTick.None?
      && |tl.added| == |placed|
      && forall i :: 0 <= i < |placed| ==> StampOf(tl.added[i], placed[i].config, placed[i].offset)
  {
    match target
    case None => Reply(st, Some(NoElement))
    case Some(el) =>
      if el.tagName != TimelineTag then Reply(st, Some(NotATimeline(el.tagName)))
      else
        var built := Timeline(false, data.direction, data.loop, [], None);
        var layout := LayOut(el.children);
        Reply(State(true, 0.0, Some(built.(added := Stamped(layout.added)))), None)
  }

  /** `play`: autoplay only when no start event is configured. */
  function Play(st: State, data: Data, target: Option<Element>): Reply
  {
    if |data.startEvents| > 0 then Reply(st, None) else BeginAnimation(st, data, target)
  }

  /** A DOM event reaching the component's element: one of the start events
      (listened to since `init`) triggers `beginAnimation`; any other is ignored. */
  function OnEvent(st: State, data: Data, name: string, target: Option<Element>): Reply
  {
    if name in data.startEvents then BeginAnimation(st, data, target) else Reply(st, None)
  }

  /** `play` starts the timeline exactly when no start event is configured;
      with start events it changes nothing. */
  lemma PlayStartsOnlyWithoutStartEvents(st: State, data: Data, el: Element)
    requires el.tagName == TimelineTag
    ensures var r := Play(st, data, Some(el));
      && r.thrown.None?
      && (|data.startEvents| > 0 ==> r.state == st)
      && (|data.startEvents| == 0 ==> r.state.playing && r.state.time == 0.0 && r.state.timeline.Some?)
  {
  }

  /** With the schema defaults, `play` starts at once: no start event is
      configured, so the timeline is built with direction "normal" and loop 0. */
  lemma DefaultsAutoplay(st: State, selector: string, el: Element)
    requires el.tagName == TimelineTag
    ensures var r := Play(st, DefaultData(selector), Some(el));
      && r.thrown.None?
      && r.state.playing
      && r.state.timeline.Some?
      && r.state.timeline.value.direction == "normal"
      && r.state.timeline.value.loop == Count(0)
  {
  }

  /** Only a configured start event restarts the timeline. */
  lemma OnlyStartEventsActivate(st: State, data: Data, name: string, target: Option<Element>)
    ensures name !in data.startEvents ==> OnEvent(st, data, name, target) == Reply(st, None)
    ensures name in data.startEvents && target.Some? && target.value.tagName == TimelineTag ==>
      OnEvent(st, data, name, target).state.time == 0.0 && OnEvent(st, data, name, target).state.playing
  {
  }

  /** Restart, not resume: a successful `beginAnimation` yields the same
      state whatever state it started from, so every earlier timeline and
      elapsed time is discarded. */
  lemma BeginDiscardsPrevious(st1: State, st2: State, data: Data, target: Option<Element>)
    ensures BeginAnimation(st1, data, target).thrown.None? ==>
      BeginAnimation(st1, data, target) == BeginAnimation(st2, data, target)
  {
  }

  /** A run of frames. */
  function Ticks(st: State, dts: seq<real>): State
    decreases |dts|
  {
    if |dts| == 0 then st else Ticks(Tick(st, dts[0]), dts[1..])
  }

  function Total(dts: seq<real>): real
  {
    if |dts| == 0 then 0.0 else dts[0] + Total(dts[1..])
  }

  /** Frames before any activation do nothing. */
  lemma {:induction false} TicksBeforeActivation(dts: seq<real>)
    ensures Ticks(Init(), dts) == Init()
  {
    if |dts| > 0 {
      TicksBeforeActivation(dts[1..]);
    }
  }

  /** While playing, a run of frames accumulates their deltas into the
      elapsed time, advances the timeline to exactly that time, and leaves
      everything else about the timeline as it was. */
  lemma {:induction false} TicksAccumulate(st: State, dts: seq<real>)
    requires st.playing && st.timeline.Some?
    decreases |dts|
    ensures var r := Ticks(st, dts);
      && r.playing
      && r.time == st.time + Total(dts)
      && r.timeline.Some?
      && r.timeline.value.(lastTick := None) == st.timeline.value.(lastTick := None)
      && (|dts| > 0 ==> r.timeline.value.lastTick == Some(r.time))
  {
    if |dts| > 0 {
      TicksAccumulate(Tick(st, dts[0]), dts[1..]);
    }
  }

  /** The elapsed time handed to the timeline never decreases while the
      frame deltas are non-negative. */
  lemma {:induction false} TicksMonotone(st: State, dts: seq<real>)
    requires forall k :: 0 <= k < |dts| ==> dts[k] >= 0.0
    ensures Ticks(st, dts).time >= st.time
    decreases |dts|
  {
    if |dts| > 0 {
      assert forall k :: 0 <= k < |dts[1..]| ==> dts[1..][k] == dts[k + 1];
      TicksMonotone(Tick(st, dts[0]), dts[1..]);
    }
  }

  /** After a successful start, the timeline's configs carry non-decreasing
      offsets whenever no child of the timeline moves the cursor backwards. */
  lemma BeginSchedulesInOrder(st: State, data: Data, el: Element)
    requires el.tagName == TimelineTag
    requires forall i :: 0 <= i < |el.children| ==> Advance(el.children[i]) >= 0.0
    ensures var tl := BeginAnimation(st, data, Some(el)).state.timeline.value;
      forall p, q :: 0 <= p <= q < |tl.added| ==> OffsetOf(tl.added[p]) <= OffsetOf(tl.added[q])
  {
    var placed := LayOut(el.children).added;
    LayOutSorted(el.children);
    var tl := BeginAnimation(st, data, Some(el)).state.timeline.value;
    assert forall p :: 0 <= p < |tl.added| ==> OffsetOf(tl.added[p]) == placed[p].offset;
  }
}
