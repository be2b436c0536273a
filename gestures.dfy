/** The per-hand gesture step of the painter as functions on values: the
    state it keeps between hands and frames, one step per detected hand,
    the reset on a frame without hands, and whole sessions of frames. */
module Gestures {
  import opened Geometry
  import opened Palette

  /** The three fingertips a step looks at, in frame pixels. */
  datatype Fingertips = Fingertips(index: Point, thumb: Point, middle: Point)

  /** What one hand does in one frame; the first matching test wins. */
  datatype Gesture =
    | Select  // index and thumb pinched: pick a colour, lift the pen
    | Draw    // index and middle pinched (thumb apart): draw
    | Hover   // neither: lift the pen

  function Classify(h: Fingertips): (g: Gesture)
    ensures g == Select <==> Close(h.index, h.thumb)
    ensures g == Draw <==> !Close(h.index, h.thumb) && Close(h.index, h.middle)
    ensures g == Hover <==> !Close(h.index, h.thumb) && !Close(h.index, h.middle)
  {
    if Close(h.index, h.thumb) then Select
    else if Close(h.index, h.middle) then Draw
    else Hover
  }

  /** One line drawn on the canvas. */
  datatype Segment = Segment(from: Point, to: Point, color: Bgr, thickness: nat)

  /** Everything the painter keeps between hands: the last drawn point
      (Unset when the pen is lifted), the brush colour, and the canvas as
      the ordered log of the lines drawn on it. */
  datatype PaintState = PaintState(prev: Point, color: Bgr, canvas: seq<Segment>)

  /** A fresh session: pen lifted, green brush, blank canvas. */
  const Initial := PaintState(Unset, InitialColor, [])

  /** Lifts the pen: the next stroke starts afresh. */
  function Lift(s: PaintState): PaintState
  {
    s.(prev := Unset)
  }

  /** The step for one detected hand. */
  function Step(s: PaintState, h: Fingertips): PaintState
  {
    match Classify(h)
    case Select =>
      PaintState(Unset, SelectColor(h.index, s.color), s.canvas)
    case Draw =>
      var from := if s.prev == Unset then h.index else s.prev;
      PaintState(h.index, s.color, s.canvas + [Segment(from, h.index, s.color, Thickness(s.color))])
    case Hover =>
      Lift(s)
  }

  /** The steps of several hands of one frame, in detection order, each
      starting from the state the previous one left. */
  function Hands(s: PaintState, hs: seq<Fingertips>): PaintState
  {
    if hs == [] then s else Step(Hands(s, hs[..|hs| - 1]), hs[|hs| - 1])
  }

  /** One frame: a frame without hands lifts the pen. */
  function Frame(s: PaintState, hs: seq<Fingertips>): PaintState
  {
    if hs == [] then Lift(s) else Hands(s, hs)
  }

  /** A session of frames, in order. */
  function Run(s: PaintState, frames: seq<seq<Fingertips>>): PaintState
  {
    if frames == [] then s else Frame(Run(s, frames[..|frames| - 1]), frames[|frames| - 1])
  }

  /** The hands of all frames, in order. */
  function Flatten(frames: seq<seq<Fingertips>>): seq<Fingertips>
  {
    if frames == [] then [] else Flatten(frames[..|frames| - 1]) + frames[|frames| - 1]
  }

  /** How many of the hands draw. */
  function Draws(hs: seq<Fingertips>): nat
  {
    if hs == [] then 0
    else Draws(hs[..|hs| - 1]) + (if Classify(hs[|hs| - 1]) == Draw then 1 else 0)
  }
}
