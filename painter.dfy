/** The painter as the program runs it: mutable state that each detected
    hand updates in place, proved to follow the step functions of Gestures. */
module VirtualPainter {
  import opened Geometry
  import opened Palette
  import opened Gestures
  import GestureProperties

  class Painter {
    /** Last drawn point; (0, 0) means the pen is lifted. */
    var prevX: int
    var prevY: int
    var drawColor: Bgr
    /** The canvas, as the ordered log of lines drawn on it. */
    var canvas: seq<Segment>

    /** The painter's state as a value. */
    function State(): PaintState
      reads this
    {
      PaintState(Point(prevX, prevY), drawColor, canvas)
    }

    /** The brush is a palette colour and every drawn line is well formed. */
    predicate Valid()
      reads this
    {
      GestureProperties.Consistent(State())
    }

    /** Start of a session: blank canvas, pen lifted, green brush. */
    constructor ()
      ensures Valid()
      ensures State() == Initial
    {
      canvas := [];
      prevX, prevY := 0, 0;
      drawColor := Bgr(0, 255, 0);
    }

    /** One detected hand, given its index, thumb and middle fingertips. */
    method Step(ix: int, iy: int, tx: int, ty: int, mx: int, my: int)
      requires Valid()
      modifies this
      ensures Valid()
      ensures State() == Gestures.Step(old(State()), Fingertips(Point(ix, iy), Point(tx, ty), Point(mx, my)))
    {
      ghost var h := Fingertips(Point(ix, iy), Point(tx, ty), Point(mx, my));
      ghost var before := State();
      var distSelect := (ix - tx) * (ix - tx) + (iy - ty) * (iy - ty);
      var distDraw := (ix - mx) * (ix - mx) + (iy - my) * (iy - my);
      assert distSelect < 40 * 40 <==> Close(h.index, h.thumb);
      assert distDraw < 40 * 40 <==> Close(h.index, h.middle);
      if distSelect < 40 * 40 {
        prevX, prevY := 0, 0;
        if 0 < ix < 200 && 0 < iy < 100 {
          drawColor := Bgr(0, 0, 255);
          SelectInside(h.index, before.color, 0);
        } else if 220 < ix < 420 && 0 < iy < 100 {
          drawColor := Bgr(0, 255, 0);
          SelectInside(h.index, before.color, 1);
        } else if 440 < ix < 640 && 0 < iy < 100 {
          drawColor := Bgr(255, 0, 0);
          SelectInside(h.index, before.color, 2);
        } else if 1080 < ix < 1280 && 0 < iy < 100 {
          drawColor := Bgr(0, 0, 0);
          SelectInside(h.index, before.color, 3);
        } else {
          SelectOutside(h.index, before.color);
        }
        GestureProperties.SelectHasPriority(before, h);
      } else if distDraw < 40 * 40 {
        var thickness := if drawColor == Bgr(0, 0, 0) then EraserThickness else BrushThickness;
        if prevX == 0 && prevY == 0 {
          prevX, prevY := ix, iy;
        }
        canvas := canvas + [Segment(Point(prevX, prevY), Point(ix, iy), drawColor, thickness)];
        prevX, prevY := ix, iy;
      } else {
        prevX, prevY := 0, 0;
      }
      GestureProperties.StepConsistent(before, h);
    }

    /** A frame in which no hand was detected. */
    method NoHands()
      requires Valid()
      modifies this
      ensures Valid()
      ensures State() == Frame(old(State()), [])
    {
      prevX, prevY := 0, 0;
    }

    /** One frame: every detected hand in order, or the no-hand reset. */
    method ProcessFrame(hands: seq<Fingertips>)
      requires Valid()
      modifies this
      ensures Valid()
      ensures State() == Frame(old(State()), hands)
    {
      if hands == [] {
        NoHands();
        return;
      }
      for i := 0 to |hands|
        invariant Valid()
        invariant State() == Hands(old(State()), hands[..i])
      {
        var h := hands[i];
        assert hands[..i + 1][..i] == hands[..i];
        Step(h.index.x, h.index.y, h.thumb.x, h.thumb.y, h.middle.x, h.middle.y);
      }
      assert hands[..|hands|] == hands;
    }

    /** A session: the frames as the camera delivers them, in order. */
    method ProcessFrames(frames: seq<seq<Fingertips>>)
      requires Valid()
      modifies this
      ensures Valid()
      ensures State() == Run(old(State()), frames)
    {
      for i := 0 to |frames|
        invariant Valid()
        invariant State() == Run(old(State()), frames[..i])
      {
        assert frames[..i + 1][..i] == frames[..i];
        ProcessFrame(frames[i]);
      }
      assert frames[..|frames|] == frames;
    }
  }
}
