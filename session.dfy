/** What a run of the page does over many inputs: clicks on the window and
    iterations of the frame loop, interleaved in any order. */
module Session {
  import opened Selection
  import opened Rendering

  /** A click (whose ray hit the clickable screen or not) or one frame. */
  datatype Input = Click(hit: bool) | Frame

  /** The selection after the inputs, from selection `selected`. */
  function SelectionAfter(selected: Camera, inputs: seq<Input>): Camera
    decreases |inputs|
  {
    if inputs == [] then selected
    else match inputs[0]
      case Click(hit) => SelectionAfter(if hit then NextCamera(selected) else selected, inputs[1..])
      case Frame => SelectionAfter(selected, inputs[1..])
  }

  /** The renderer calls the inputs cause, from selection `selected`. */
  function TraceOf(selected: Camera, inputs: seq<Input>): seq<RendererEvent>
    decreases |inputs|
  {
    if inputs == [] then []
    else match inputs[0]
      case Click(hit) => TraceOf(if hit then NextCamera(selected) else selected, inputs[1..])
      case Frame => FrameEvents(selected) + TraceOf(selected, inputs[1..])
  }

  /** The number of clicks that hit the screen. */
  function HitCount(inputs: seq<Input>): nat
    decreases |inputs|
  {
    if inputs == [] then 0
    else (if inputs[0] == Click(true) then 1 else 0) + HitCount(inputs[1..])
  }

  /** The number of frames. */
  function FrameCount(inputs: seq<Input>): nat
    decreases |inputs|
  {
    if inputs == [] then 0
    else (if inputs[0] == Frame then 1 else 0) + FrameCount(inputs[1..])
  }

  /** The selection in force at the start of each frame, in order. */
  function SelectionsAtFrames(selected: Camera, inputs: seq<Input>): seq<Camera>
    decreases |inputs|
  {
    if inputs == [] then []
    else match inputs[0]
      case Click(hit) => SelectionsAtFrames(if hit then NextCamera(selected) else selected, inputs[1..])
      case Frame => [selected] + SelectionsAtFrames(selected, inputs[1..])
  }

  /** A run makes eight renderer calls per frame and none per click. */
  lemma {:induction false} TraceLength(selected: Camera, inputs: seq<Input>)
    ensures |TraceOf(selected, inputs)| == 8 * FrameCount(inputs)
    decreases |inputs|
  {
    if inputs != [] {
      var next := if inputs[0] == Click(true) then NextCamera(selected) else selected;
      TraceLength(next, inputs[1..]);
    }
  }

  /** Frames and missed clicks leave the selection alone; each hit moves it one
      place round the cycle. */
  lemma {:induction false} HitsAdvanceSelection(selected: Camera, inputs: seq<Input>)
    requires selected.IsSecondary()
    ensures SelectionAfter(selected, inputs) == Advance(selected, HitCount(inputs))
    ensures SelectionAfter(selected, inputs) == CameraAt((Slot(selected) + HitCount(inputs)) % 3)
    decreases |inputs|
  {
    if inputs != [] {
      var next := if inputs[0] == Click(true) then NextCamera(selected) else selected;
      HitsAdvanceSelection(next, inputs[1..]);
    }
    AdvanceMovesBySlots(selected, HitCount(inputs));
  }

  /** The feed written into target 2 (the texture of the clickable screen) in
      each frame is the selection in force when that frame starts: never an
      earlier or a later one. */
  lemma {:induction false} FeedIsNeverStale(selected: Camera, inputs: seq<Input>)
    ensures CamerasDrawnInto(TraceOf(selected, inputs), RenderTarget2) == SelectionsAtFrames(selected, inputs)
    decreases |inputs|
  {
    if inputs != [] {
      match inputs[0]
      case Click(hit) =>
        FeedIsNeverStale(if hit then NextCamera(selected) else selected, inputs[1..]);
      case Frame =>
        FeedIsNeverStale(selected, inputs[1..]);
        FrameThenRest(selected, TraceOf(selected, inputs[1..]), RenderTarget2);
    }
  }

  /** Every destination other than target 2 (targets 3 and 4, and the
      display) gets one draw per frame, always from the same camera, whatever
      is clicked. */
  lemma {:induction false} FixedFeedsNeverChange(selected: Camera, inputs: seq<Input>, t: Target)
    requires t != RenderTarget2
    ensures CamerasDrawnInto(TraceOf(selected, inputs), t) == seq(FrameCount(inputs), _ => FrameWriter(selected, t))
    decreases |inputs|
  {
    if inputs != [] {
      var rest := inputs[1..];
      match inputs[0]
      case Click(hit) =>
        var next := if hit then NextCamera(selected) else selected;
        FixedFeedsNeverChange(next, rest, t);
        assert FrameWriter(next, t) == FrameWriter(selected, t);
      case Frame =>
        FixedFeedsNeverChange(selected, rest, t);
        FrameThenRest(selected, TraceOf(selected, rest), t);
        var w := FrameWriter(selected, t);
        assert seq(FrameCount(inputs), _ => w) == [w] + seq(FrameCount(rest), _ => w);
    }
  }

  /** Every draw of a whole run goes into the destination bound at that point,
      and the run ends with the display bound. */
  lemma {:induction false} RunKeepsBinding(selected: Camera, inputs: seq<Input>, before: seq<RendererEvent>)
    requires DrawsFollowBinding(before) && BoundAfter(before) == Display
    ensures DrawsFollowBinding(before + TraceOf(selected, inputs))
    ensures BoundAfter(before + TraceOf(selected, inputs)) == Display
    decreases |inputs|
  {
    if inputs == [] {
      assert before + TraceOf(selected, inputs) == before;
    } else {
      match inputs[0]
      case Click(hit) =>
        RunKeepsBinding(if hit then NextCamera(selected) else selected, inputs[1..], before);
      case Frame =>
        var frame, rest := FrameEvents(selected), TraceOf(selected, inputs[1..]);
        FrameKeepsBinding(before, selected);
        RunKeepsBinding(selected, inputs[1..], before + frame);
        assert TraceOf(selected, inputs) == frame + rest;
        assert before + frame + rest == before + (frame + rest);
    }
  }

  /** Extending a run by one input: a frame appends the calls of one frame for
      the selection reached so far, a hit advances the selection, and nothing
      else changes. */
  lemma RunExtendedByOne(selected: Camera, inputs: seq<Input>, last: Input)
    ensures SelectionAfter(selected, inputs + [last])
         == if last == Click(true) then NextCamera(SelectionAfter(selected, inputs))
            else SelectionAfter(selected, inputs)
    ensures TraceOf(selected, inputs + [last])
         == TraceOf(selected, inputs)
            + if last == Frame then FrameEvents(SelectionAfter(selected, inputs)) else []
    ensures FrameCount(inputs + [last]) == FrameCount(inputs) + if last == Frame then 1 else 0
  {
    SelectionExtendedByOne(selected, inputs, last);
    TraceExtendedByOne(selected, inputs, last);
    FrameCountExtendedByOne(inputs, last);
  }

  lemma {:induction false} SelectionExtendedByOne(selected: Camera, inputs: seq<Input>, last: Input)
    ensures SelectionAfter(selected, inputs + [last])
         == if last == Click(true) then NextCamera(SelectionAfter(selected, inputs))
            else SelectionAfter(selected, inputs)
    decreases |inputs|
  {
    if inputs == [] {
      assert inputs + [last] == [last] && [last][1..] == [];
    } else {
      assert (inputs + [last])[0] == inputs[0] && (inputs + [last])[1..] == inputs[1..] + [last];
      var next := if inputs[0] == Click(true) then NextCamera(selected) else selected;
      SelectionExtendedByOne(next, inputs[1..], last);
    }
  }

  lemma {:induction false} TraceExtendedByOne(selected: Camera, inputs: seq<Input>, last: Input)
    ensures TraceOf(selected, inputs + [last])
         == TraceOf(selected, inputs)
            + if last == Frame then FrameEvents(SelectionAfter(selected, inputs)) else []
    decreases |inputs|
  {
    if inputs == [] {
      assert [last][1..] == [];
    } else {
      var next := if inputs[0] == Click(true) then NextCamera(selected) else selected;
      assert (inputs + [last])[1..] == inputs[1..] + [last];
      TraceExtendedByOne(next, inputs[1..], last);
    }
  }

  lemma {:induction false} FrameCountExtendedByOne(inputs: seq<Input>, last: Input)
    ensures FrameCount(inputs + [last]) == FrameCount(inputs) + if last == Frame then 1 else 0
    decreases |inputs|
  {
    if inputs == [] {
      assert inputs + [last] == [last] && [last][1..] == [];
    } else {
      assert (inputs + [last])[0] == inputs[0] && (inputs + [last])[1..] == inputs[1..] + [last];
      FrameCountExtendedByOne(inputs[1..], last);
    }
  }

  /** The end-to-end walk-through: from cam1, hit, hit, miss, hit goes to cam2,
      cam3, stays at cam3, then wraps to cam1. */
  lemma ClickWalkThrough()
    ensures SelectionAfter(InitialSelection, [Click(true)]) == SecondaryCam2
    ensures SelectionAfter(InitialSelection, [Click(true), Click(true)]) == SecondaryCam3
    ensures SelectionAfter(InitialSelection, [Click(true), Click(true), Click(false)]) == SecondaryCam3
    ensures SelectionAfter(InitialSelection, [Click(true), Click(true), Click(false), Click(true)]) == SecondaryCam1
  {
    var inputs := [Click(true), Click(true), Click(false), Click(true)];
    assert inputs[1..] == [Click(true), Click(false), Click(true)];
    assert inputs[1..][1..] == [Click(false), Click(true)];
    assert inputs[1..][1..][1..] == [Click(true)];
  }
}
