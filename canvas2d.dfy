/**
 * The part of the browser's HTML canvas and its 2D rendering context that the
 * logo effect uses, as a record of calls and their meaning.
 *
 * A drawing is described by the commands issued on the context (`Command`);
 * `Step` gives each command's effect on the context's observable state
 * (`State`): the canvas size, the global alpha, the current path, the clip
 * stack and the images drawn so far, each with the alpha and the clip that
 * were in force when it was drawn. Pixels are not computed; `Coverage` gives
 * the alpha that the drawn layers leave at a point when the images drawn are
 * opaque.
 */
module Canvas2D {

  /** An axis-aligned rectangle with origin (x, y), width w and height h. */
  datatype Rect = Rect(x: real, y: real, w: real, h: real)

  predicate InRect(r: Rect, px: real, py: real)
  {
    r.x <= px <= r.x + r.w && r.y <= py <= r.y + r.h
  }

  function Sq(v: real): real { v * v }

  /**
   * A closed sub-path: a full circle (`arc` from 0 to 2π) or a rectangle with
   * every corner rounded by the same radius (`roundRect` with one radius).
   */
  datatype Region =
    | Disc(cx: real, cy: real, radius: real)
    | RoundedBox(box: Rect, radius: real)

  /**
   * How far (px, py) lies beyond the straight part of a rounded box along one
   * axis: 0 between the two corner arcs, otherwise the distance into the
   * corner square of that axis.
   */
  function CornerDepth(lo: real, len: real, radius: real, p: real): real
  {
    if p < lo + radius then lo + radius - p
    else if p > lo + len - radius then p - (lo + len - radius)
    else 0.0
  }

  predicate InRegion(g: Region, px: real, py: real)
  {
    match g
    case Disc(cx, cy, rad) =>
      Sq(px - cx) + Sq(py - cy) <= Sq(rad)
    case RoundedBox(b, rad) =>
      InRect(b, px, py) &&
      Sq(CornerDepth(b.x, b.w, rad, px)) + Sq(CornerDepth(b.y, b.h, rad, py)) <= Sq(rad)
  }

  /** A path fills the union of its sub-paths. */
  predicate InPath(path: seq<Region>, px: real, py: real)
  {
    exists i :: 0 <= i < |path| && InRegion(path[i], px, py)
  }

  /** Each `clip()` intersects the clip region with the current path. */
  predicate InClip(clip: seq<seq<Region>>, px: real, py: real)
  {
    forall j :: 0 <= j < |clip| ==> InPath(clip[j], px, py)
  }

  /** One `drawImage` call, with the alpha and the clip in force at that moment. */
  datatype Draw = Draw(src: Rect, dst: Rect, alpha: real, clip: seq<seq<Region>>)

  /** What the context's calls so far have established. */
  datatype State = State(
    width: nat,
    height: nat,
    alpha: real,
    path: seq<Region>,
    clip: seq<seq<Region>>,
    draws: seq<Draw>)

  /** One call on the canvas or on its 2D context. */
  datatype Command =
    | SetWidth(width: nat)            // canvas.width = …
    | SetHeight(height: nat)          // canvas.height = …
    | SetGlobalAlpha(alpha: real)     // ctx.globalAlpha = …
    | BeginPath                       // ctx.beginPath()
    | Arc(cx: real, cy: real, radius: real)   // ctx.arc(cx, cy, radius, 0, 2π)
    | RoundRect(box: Rect, radius: real)      // ctx.roundRect(x, y, w, h, radius)
    | Clip                            // ctx.clip()
    | DrawImage(src: Rect, dst: Rect) // ctx.drawImage(img, sx, sy, sw, sh, dx, dy, dw, dh)

  /** A canvas of the given size with a freshly reset context and nothing drawn. */
  function Reset(width: nat, height: nat): State
  {
    State(width, height, 1.0, [], [], [])
  }

  /** A newly created canvas element is 300 by 150 pixels. */
  const DefaultWidth: nat := 300
  const DefaultHeight: nat := 150

  function Fresh(): State
  {
    Reset(DefaultWidth, DefaultHeight)
  }

  /** The alpha a draw gets after `globalAlpha = a`: values outside [0, 1] are ignored. */
  function AlphaAfter(current: real, a: real): real
  {
    if 0.0 <= a <= 1.0 then a else current
  }

  function Step(s: State, c: Command): State
  {
    match c
    // Setting either dimension clears the bitmap and resets the context.
    case SetWidth(w) => Reset(w, s.height)
    case SetHeight(h) => Reset(s.width, h)
    case SetGlobalAlpha(a) => s.(alpha := AlphaAfter(s.alpha, a))
    case BeginPath => s.(path := [])
    case Arc(cx, cy, r) => s.(path := s.path + [Disc(cx, cy, r)])
    case RoundRect(b, r) => s.(path := s.path + [RoundedBox(b, r)])
    case Clip => s.(clip := s.clip + [s.path])
    // A source rectangle of zero width or height paints nothing (the call returns early).
    case DrawImage(src, dst) =>
      if src.w == 0.0 || src.h == 0.0 then s
      else s.(draws := s.draws + [Draw(src, dst, s.alpha, s.clip)])
  }

  /** The state after issuing `cmds` in order, starting from `s`. */
  function Run(s: State, cmds: seq<Command>): State
    decreases |cmds|
  {
    if cmds == [] then s else Run(Step(s, cmds[0]), cmds[1..])
  }

  lemma {:induction false} RunConcat(s: State, a: seq<Command>, b: seq<Command>)
    ensures Run(s, a + b) == Run(Run(s, a), b)
    decreases |a|
  {
    if a == [] {
      assert a + b == b;
    } else {
      assert (a + b)[0] == a[0];
      assert (a + b)[1..] == a[1..] + b;
      RunConcat(Step(s, a[0]), a[1..], b);
    }
  }

  /** Every alpha the state holds is a valid opacity. */
  predicate AlphasInRange(s: State)
  {
    && 0.0 <= s.alpha <= 1.0
    && forall i :: 0 <= i < |s.draws| ==> 0.0 <= s.draws[i].alpha <= 1.0
  }

  /** The context never holds an alpha outside [0, 1], whatever is assigned to it. */
  lemma {:induction false} RunKeepsAlphasInRange(s: State, cmds: seq<Command>)
    requires AlphasInRange(s)
    ensures AlphasInRange(Run(s, cmds))
    decreases |cmds|
  {
    if cmds != [] {
      var t := Step(s, cmds[0]);
      assert AlphasInRange(t) by {
        if cmds[0].DrawImage? && cmds[0].src.w != 0.0 && cmds[0].src.h != 0.0 {
          assert t.draws == s.draws + [Draw(cmds[0].src, cmds[0].dst, s.alpha, s.clip)];
        }
      }
      RunKeepsAlphasInRange(t, cmds[1..]);
    }
  }

  predicate Covers(d: Draw, px: real, py: real)
  {
    InRect(d.dst, px, py) && InClip(d.clip, px, py)
  }

  /**
   * The alpha left at (px, py) by the draws, composited source-over in order,
   * when every source pixel drawn is opaque; 0 where nothing was drawn.
   */
  function Coverage(draws: seq<Draw>, px: real, py: real): (a: real)
    ensures (forall i :: 0 <= i < |draws| ==> 0.0 <= draws[i].alpha <= 1.0) ==> 0.0 <= a <= 1.0
    ensures (forall i :: 0 <= i < |draws| ==> !Covers(draws[i], px, py)) ==> a == 0.0
    decreases |draws|
  {
    if draws == [] then 0.0
    else
      var d := draws[|draws| - 1];
      var below := Coverage(draws[..|draws| - 1], px, py);
      if Covers(d, px, py) then
        OverStaysInRange(d.alpha, below);
        d.alpha + below * (1.0 - d.alpha)
      else below
  }

  /** Source-over of two valid alphas is a valid alpha. */
  lemma OverStaysInRange(top: real, below: real)
    ensures 0.0 <= top <= 1.0 && 0.0 <= below <= 1.0 ==> 0.0 <= top + below * (1.0 - top) <= 1.0
  {
    if 0.0 <= top <= 1.0 && 0.0 <= below <= 1.0 {
      assert below * (1.0 - top) >= 0.0;
      assert (1.0 - top) * (1.0 - below) >= 0.0;
    }
  }

  /** (px, py) lies on the canvas. */
  predicate OnCanvas(s: State, px: real, py: real)
  {
    0.0 <= px <= s.width as real && 0.0 <= py <= s.height as real
  }

  /** A canvas element together with its 2D context, recording the calls made on it. */
  class Canvas {
    var trace: seq<Command>

    constructor ()
      ensures trace == []
    {
      trace := [];
    }

    /** What the calls so far have established, from a new canvas. */
    function Current(): State
      reads this
    {
      Run(Fresh(), trace)
    }

    method Issue(c: Command)
      modifies this
      ensures trace == old(trace) + [c]
      ensures Current() == Step(old(Current()), c)
    {
      RunConcat(Fresh(), trace, [c]);
      trace := trace + [c];
    }
  }
}
