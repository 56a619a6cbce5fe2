/** The renderer as the frame loop sees it: a currently bound destination and
    an append-only record of the bind and draw calls it has received. */
module Rendering {
  import opened Selection

  /** A draw destination: the display (`null` as render target) or one of the
      three offscreen render targets. */
  datatype Target = Display | RenderTarget2 | RenderTarget3 | RenderTarget4
  {
    predicate IsOffscreen() {
      !Display?
    }
  }

  /** One call received by the renderer: binding a destination, or drawing the
      scene through a camera into the destination bound at that moment. */
  datatype RendererEvent = Bind(target: Target) | Draw(target: Target, camera: Camera)

  /** The destination bound after the calls of a trace; the display until the
      first bind. */
  function BoundAfter(trace: seq<RendererEvent>): Target
    decreases |trace|
  {
    if trace == [] then Display
    else if trace[|trace| - 1].Bind? then trace[|trace| - 1].target
    else BoundAfter(trace[..|trace| - 1])
  }

  /** Every draw of the trace writes into the destination bound at that point. */
  ghost predicate DrawsFollowBinding(trace: seq<RendererEvent>)
    decreases |trace|
  {
    trace == [] ||
    (DrawsFollowBinding(trace[..|trace| - 1]) &&
     (trace[|trace| - 1].Draw? ==> trace[|trace| - 1].target == BoundAfter(trace[..|trace| - 1])))
  }

  /** The recursive definition says the same as "each draw at position i goes
      into the destination bound by the calls before i". */
  lemma {:induction false} DrawsFollowBindingAt(trace: seq<RendererEvent>, i: nat)
    requires DrawsFollowBinding(trace)
    requires i < |trace| && trace[i].Draw?
    ensures trace[i].target == BoundAfter(trace[..i])
    decreases |trace|
  {
    var n := |trace| - 1;
    if i < n {
      assert trace[..n][i] == trace[i] && trace[..n][..i] == trace[..i];
      DrawsFollowBindingAt(trace[..n], i);
    }
  }

  /** Appending a call consistent with the current binding keeps the trace
      consistent, and a bind changes the binding to its destination. */
  lemma AppendKeepsBinding(trace: seq<RendererEvent>, e: RendererEvent)
    requires DrawsFollowBinding(trace)
    requires e.Draw? ==> e.target == BoundAfter(trace)
    ensures DrawsFollowBinding(trace + [e])
    ensures BoundAfter(trace + [e]) == if e.Bind? then e.target else BoundAfter(trace)
  {
    assert (trace + [e])[..|trace|] == trace;
  }

  /** The renderer: the bound destination, the renderer size, and the
      history of bind and draw calls. */
  class Renderer {
    var target: Target
    var width: nat
    var height: nat
    var trace: seq<RendererEvent>

    ghost predicate Valid()
      reads this
    {
      target == BoundAfter(trace) && DrawsFollowBinding(trace)
    }

    constructor (width: nat, height: nat)
      ensures Valid()
      ensures target == Display && trace == []
      ensures this.width == width && this.height == height
    {
      target := Display;
      this.width := width;
      this.height := height;
      trace := [];
    }

    /** `setRenderTarget`: later draws go into `t`. */
    method SetRenderTarget(t: Target)
      requires Valid()
      modifies this`target, this`trace
      ensures Valid()
      ensures target == t
      ensures trace == old(trace) + [Bind(t)]
    {
      AppendKeepsBinding(trace, Bind(t));
      target := t;
      trace := trace + [Bind(t)];
    }

    /** `render`: draws the scene through `camera` into the bound destination. */
    method Render(camera: Camera)
      requires Valid()
      modifies this`trace
      ensures Valid()
      ensures trace == old(trace) + [Draw(target, camera)]
    {
      AppendKeepsBinding(trace, Draw(target, camera));
      trace := trace + [Draw(target, camera)];
    }

    /** One render pass: `setRenderTarget(t)` followed by `render` through
        `camera`, so the draw goes into `t`. */
    method Pass(t: Target, camera: Camera)
      requires Valid()
      modifies this`target, this`trace
      ensures Valid()
      ensures target == t
      ensures trace == old(trace) + [Bind(t), Draw(t, camera)]
    {
      SetRenderTarget(t);
      Render(camera);
    }

    /** `setSize`: sets the renderer size to the given width and height. */
    method SetSize(width: nat, height: nat)
      modifies this`width, this`height
      ensures this.width == width && this.height == height
    {
      this.width := width;
      this.height := height;
    }
  }

  /** The calls one frame of the loop makes, given the selection at its start:
      the selected feed into target 2, cam3 into target 3, cam2 into target 4,
      then back to the display for the primary camera. */
  function FrameEvents(selected: Camera): (evs: seq<RendererEvent>)
    ensures |evs| == 8
    ensures evs[|evs| - 1] == Draw(Display, PrimaryCamera)
  {
    [ Bind(RenderTarget2), Draw(RenderTarget2, selected),
      Bind(RenderTarget3), Draw(RenderTarget3, SecondaryCam3),
      Bind(RenderTarget4), Draw(RenderTarget4, SecondaryCam2),
      Bind(Display), Draw(Display, PrimaryCamera) ]
  }

  /** A frame alternates binds and draws, and each draw immediately follows
      the bind of its own destination. */
  lemma FrameAlternatesBindAndDraw(selected: Camera)
    ensures forall i :: 0 <= i < |FrameEvents(selected)| ==> (FrameEvents(selected)[i].Draw? <==> i % 2 == 1)
    ensures forall i :: 0 < i < |FrameEvents(selected)| && FrameEvents(selected)[i].Draw?
              ==> FrameEvents(selected)[i - 1] == Bind(FrameEvents(selected)[i].target)
  {
    var evs := FrameEvents(selected);
    forall i | 0 <= i < |evs|
      ensures evs[i].Draw? <==> i % 2 == 1
      ensures 0 < i && evs[i].Draw? ==> evs[i - 1] == Bind(evs[i].target)
    {
      assert i == 0 || i == 1 || i == 2 || i == 3 || i == 4 || i == 5 || i == 6 || i == 7;
    }
  }

  /** The cameras that drew into `t`, in trace order. */
  function CamerasDrawnInto(trace: seq<RendererEvent>, t: Target): seq<Camera>
    decreases |trace|
  {
    if trace == [] then []
    else (if trace[0].Draw? && trace[0].target == t then [trace[0].camera] else [])
         + CamerasDrawnInto(trace[1..], t)
  }

  lemma {:induction false} CamerasDrawnIntoAppend(a: seq<RendererEvent>, b: seq<RendererEvent>, t: Target)
    ensures CamerasDrawnInto(a + b, t) == CamerasDrawnInto(a, t) + CamerasDrawnInto(b, t)
    decreases |a|
  {
    if a != [] {
      assert (a + b)[0] == a[0] && (a + b)[1..] == a[1..] + b;
      CamerasDrawnIntoAppend(a[1..], b, t);
    } else {
      assert a + b == b;
    }
  }

  /** The camera that a frame assigns to each destination. */
  function FrameWriter(selected: Camera, t: Target): Camera {
    match t
    case RenderTarget2 => selected
    case RenderTarget3 => SecondaryCam3
    case RenderTarget4 => SecondaryCam2
    case Display => PrimaryCamera
  }

  /** Each destination is written exactly once per frame, by its camera; the
      one the clickable screen samples, target 2, by the selection. */
  lemma FrameWritesEachTargetOnce(selected: Camera, t: Target)
    ensures CamerasDrawnInto(FrameEvents(selected), t) == [FrameWriter(selected, t)]
  {
    var evs := FrameEvents(selected);
    assert evs[1..][1..][1..][1..][1..][1..][1..][1..] == [];
  }

  /** Before any later calls, a frame contributes exactly its one writer to
      the draws into each destination. */
  lemma FrameThenRest(selected: Camera, rest: seq<RendererEvent>, t: Target)
    ensures CamerasDrawnInto(FrameEvents(selected) + rest, t)
         == [FrameWriter(selected, t)] + CamerasDrawnInto(rest, t)
  {
    CamerasDrawnIntoAppend(FrameEvents(selected), rest, t);
    FrameWritesEachTargetOnce(selected, t);
  }

  /** A bind followed by a draw keeps the trace consistent, the draw going
      into the destination just bound. */
  lemma BindThenDraw(trace: seq<RendererEvent>, t: Target, camera: Camera)
    requires DrawsFollowBinding(trace)
    ensures DrawsFollowBinding(trace + [Bind(t), Draw(t, camera)])
    ensures BoundAfter(trace + [Bind(t), Draw(t, camera)]) == t
  {
    AppendKeepsBinding(trace, Bind(t));
    AppendKeepsBinding(trace + [Bind(t)], Draw(t, camera));
    assert trace + [Bind(t)] + [Draw(t, camera)] == trace + [Bind(t), Draw(t, camera)];
  }

  /** Whatever came before, a frame's draws each go into the destination the
      frame bound just before, and the frame leaves the display bound. */
  lemma {:induction false} FrameKeepsBinding(trace: seq<RendererEvent>, selected: Camera)
    requires DrawsFollowBinding(trace)
    ensures DrawsFollowBinding(trace + FrameEvents(selected))
    ensures BoundAfter(trace + FrameEvents(selected)) == Display
  {
    var t2 := trace + [Bind(RenderTarget2), Draw(RenderTarget2, selected)];
    BindThenDraw(trace, RenderTarget2, selected);
    var t3 := t2 + [Bind(RenderTarget3), Draw(RenderTarget3, SecondaryCam3)];
    BindThenDraw(t2, RenderTarget3, SecondaryCam3);
    var t4 := t3 + [Bind(RenderTarget4), Draw(RenderTarget4, SecondaryCam2)];
    BindThenDraw(t3, RenderTarget4, SecondaryCam2);
    var t5 := t4 + [Bind(Display), Draw(Display, PrimaryCamera)];
    BindThenDraw(t4, Display, PrimaryCamera);
    assert t5 == trace + FrameEvents(selected);
  }

  /** Within a frame every offscreen draw precedes the reset to the display,
      and the reset precedes the display draw. */
  lemma FrameOrdering(selected: Camera)
    ensures forall i, j :: (0 <= i < |FrameEvents(selected)| && 0 <= j < |FrameEvents(selected)|
              && FrameEvents(selected)[i].Draw? && FrameEvents(selected)[i].target.IsOffscreen()
              && FrameEvents(selected)[j] == Bind(Display)) ==> i < j
    ensures forall i, j :: (0 <= i < |FrameEvents(selected)| && 0 <= j < |FrameEvents(selected)|
              && FrameEvents(selected)[i] == Bind(Display)
              && FrameEvents(selected)[j].Draw? && FrameEvents(selected)[j].target == Display) ==> i < j
  {
    var evs := FrameEvents(selected);
    forall i | 0 <= i < |evs|
      ensures evs[i] == Bind(Display) <==> i == 6
      ensures (evs[i].Draw? && evs[i].target.IsOffscreen()) <==> i in {1, 3, 5}
      ensures (evs[i].Draw? && evs[i].target == Display) <==> i == 7
    {
      assert i == 0 || i == 1 || i == 2 || i == 3 || i == 4 || i == 5 || i == 6 || i == 7;
    }
  }
}
