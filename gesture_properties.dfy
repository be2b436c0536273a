/** What the gesture step guarantees, for one hand and for whole sessions. */
module GestureProperties {
  import opened Geometry
  import opened Palette
  import opened Gestures

  // ---------------------------------------------------------------------
  // One hand
  // ---------------------------------------------------------------------

  /** The select pinch wins over the draw pinch: it never draws, lifts the
      pen and at most changes the colour, wherever the middle finger is. */
  lemma SelectHasPriority(s: PaintState, h: Fingertips)
    requires Close(h.index, h.thumb)
    ensures Step(s, h).canvas == s.canvas
    ensures Step(s, h).prev == Unset
    ensures Step(s, h).color == SelectColor(h.index, s.color)
  {
  }

  /** A select pinch on a button switches to that button's colour. */
  lemma SelectOnButton(s: PaintState, h: Fingertips, k: nat)
    requires Close(h.index, h.thumb)
    requires k < |Toolbar| && StrictlyInside(h.index, Toolbar[k].area)
    ensures Step(s, h).color == Toolbar[k].color
  {
    SelectInside(h.index, s.color, k);
  }

  /** A select pinch off every button keeps the colour. */
  lemma SelectOffButtons(s: PaintState, h: Fingertips)
    requires Close(h.index, h.thumb)
    requires forall k :: 0 <= k < |Toolbar| ==> !StrictlyInside(h.index, Toolbar[k].area)
    ensures Step(s, h).color == s.color
  {
    SelectOutside(h.index, s.color);
  }

  /** A draw step with the pen lifted draws a single dot at the index tip
      and puts the pen down there. */
  lemma DrawStartsWithDot(s: PaintState, h: Fingertips)
    requires Classify(h) == Draw && s.prev == Unset
    ensures Step(s, h).canvas == s.canvas + [Segment(h.index, h.index, s.color, Thickness(s.color))]
    ensures Step(s, h).prev == h.index
  {
  }

  /** A draw step with the pen down continues the stroke from the last point. */
  lemma DrawContinues(s: PaintState, h: Fingertips)
    requires Classify(h) == Draw && s.prev != Unset
    ensures Step(s, h).canvas == s.canvas + [Segment(s.prev, h.index, s.color, Thickness(s.color))]
    ensures Step(s, h).prev == h.index
  {
  }

  /** A drawn line is 100 pixels wide exactly when the colour is the black
      eraser, and 15 pixels wide otherwise. */
  lemma DrawThickness(s: PaintState, h: Fingertips)
    requires Classify(h) == Draw
    ensures |Step(s, h).canvas| == |s.canvas| + 1
    ensures Step(s, h).canvas[|s.canvas|].thickness == 100 <==> s.color == Eraser
    ensures Step(s, h).canvas[|s.canvas|].thickness == 15 <==> s.color != Eraser
  {
  }

  /** A hand that neither selects nor draws only lifts the pen. */
  lemma HoverLifts(s: PaintState, h: Fingertips)
    requires Classify(h) == Hover
    ensures Step(s, h).prev == Unset
    ensures Step(s, h).color == s.color && Step(s, h).canvas == s.canvas
  {
  }

  /** A frame without hands only lifts the pen. */
  lemma NoHandsLifts(s: PaintState)
    ensures Frame(s, []).prev == Unset
    ensures Frame(s, []).color == s.color && Frame(s, []).canvas == s.canvas
  {
  }

  // ---------------------------------------------------------------------
  // The session invariant: the colour and every drawn line are well formed
  // ---------------------------------------------------------------------

  /** The brush colour is a palette colour, and every line on the canvas has
      a palette colour and the thickness that goes with it. */
  predicate Consistent(s: PaintState)
  {
    && InPalette(s.color)
    && forall i :: 0 <= i < |s.canvas| ==>
         InPalette(s.canvas[i].color) && s.canvas[i].thickness == Thickness(s.canvas[i].color)
  }

  lemma InitialConsistent()
    ensures Consistent(Initial)
    ensures Initial.color == Green && Initial.prev == Unset && Initial.canvas == []
  {
  }

  lemma StepConsistent(s: PaintState, h: Fingertips)
    requires Consistent(s)
    ensures Consistent(Step(s, h))
  {
  }

  lemma {:induction false} HandsConsistent(s: PaintState, hs: seq<Fingertips>)
    requires Consistent(s)
    ensures Consistent(Hands(s, hs))
  {
    if hs != [] {
      HandsConsistent(s, hs[..|hs| - 1]);
      StepConsistent(Hands(s, hs[..|hs| - 1]), hs[|hs| - 1]);
    }
  }

  /** Whatever the hands do, the brush colour stays one of the four palette
      colours and the canvas holds only well-formed lines. */
  lemma {:induction false} RunConsistent(s: PaintState, frames: seq<seq<Fingertips>>)
    requires Consistent(s)
    ensures Consistent(Run(s, frames))
  {
    if frames != [] {
      var before := Run(s, frames[..|frames| - 1]);
      RunConsistent(s, frames[..|frames| - 1]);
      if frames[|frames| - 1] != [] {
        HandsConsistent(before, frames[|frames| - 1]);
      }
    }
  }

  // ---------------------------------------------------------------------
  // The canvas only grows
  // ---------------------------------------------------------------------

  /** Hands append to the canvas log, one line per drawing hand, and never
      remove or alter the lines already in the log. (On the pixel canvas an
      eraser line paints over earlier strokes; the log still keeps them.) */
  lemma {:induction false} HandsCanvas(s: PaintState, hs: seq<Fingertips>)
    ensures |Hands(s, hs).canvas| == |s.canvas| + Draws(hs)
    ensures Hands(s, hs).canvas[..|s.canvas|] == s.canvas
  {
    if hs != [] {
      HandsCanvas(s, hs[..|hs| - 1]);
    }
  }

  lemma {:induction false} HandsAppend(s: PaintState, a: seq<Fingertips>, b: seq<Fingertips>)
    ensures Hands(s, a + b) == Hands(Hands(s, a), b)
  {
    if b != [] {
      assert (a + b)[..|a + b| - 1] == a + b[..|b| - 1];
      HandsAppend(s, a, b[..|b| - 1]);
    } else {
      assert a + b == a;
    }
  }

  lemma {:induction false} DrawsAppend(a: seq<Fingertips>, b: seq<Fingertips>)
    ensures Draws(a + b) == Draws(a) + Draws(b)
  {
    if b != [] {
      assert (a + b)[..|a + b| - 1] == a + b[..|b| - 1];
      DrawsAppend(a, b[..|b| - 1]);
    } else {
      assert a + b == a;
    }
  }

  /** When every frame has at least one hand, a session is just the steps
      of all its hands in order: the state carries across hands and frames. */
  lemma {:induction false} RunIsHands(s: PaintState, frames: seq<seq<Fingertips>>)
    requires forall k :: 0 <= k < |frames| ==> frames[k] != []
    ensures Run(s, frames) == Hands(s, Flatten(frames))
  {
    if frames != [] {
      var init := frames[..|frames| - 1];
      RunIsHands(s, init);
      HandsAppend(s, Flatten(init), frames[|frames| - 1]);
    }
  }

  /** Over a whole session the canvas keeps every earlier line and gains
      exactly one line per drawing hand. */
  lemma {:induction false} RunCanvas(s: PaintState, frames: seq<seq<Fingertips>>)
    ensures |Run(s, frames).canvas| == |s.canvas| + Draws(Flatten(frames))
    ensures Run(s, frames).canvas[..|s.canvas|] == s.canvas
  {
    if frames != [] {
      var init := frames[..|frames| - 1];
      var last := frames[|frames| - 1];
      var before := Run(s, init);
      RunCanvas(s, init);
      DrawsAppend(Flatten(init), last);
      if last != [] {
        HandsCanvas(before, last);
      }
      assert before.canvas[..|s.canvas|] == s.canvas;
      assert Run(s, frames).canvas[..|before.canvas|] == before.canvas;
      assert Run(s, frames).canvas[..|s.canvas|] == before.canvas[..|s.canvas|];
    }
  }

  // ---------------------------------------------------------------------
  // Strokes
  // ---------------------------------------------------------------------

  /** Consecutive drawing hands draw a connected polyline through their
      index tips: line k ends at hand k's tip and starts where line k-1
      ended; the first starts at the pen position, or is a dot when the pen
      was lifted; every line has the brush colour and its thickness. Tips
      at the origin are excluded, except for the last one, because the
      origin is also the lifted-pen marker. */
  lemma {:induction false} DrawRunIsPolyline(s: PaintState, hs: seq<Fingertips>)
    requires forall k :: 0 <= k < |hs| ==> Classify(hs[k]) == Draw
    requires forall k :: 0 <= k < |hs| - 1 ==> hs[k].index != Unset
    ensures |Hands(s, hs).canvas| == |s.canvas| + |hs|
    ensures Hands(s, hs).canvas[..|s.canvas|] == s.canvas
    ensures forall k :: 0 <= k < |hs| ==> Hands(s, hs).canvas[|s.canvas| + k].to == hs[k].index
    ensures forall line :: line in Hands(s, hs).canvas[|s.canvas|..] ==>
              line.color == s.color && line.thickness == Thickness(s.color)
    ensures forall k :: 0 <= k < |hs| - 1 ==> Hands(s, hs).canvas[|s.canvas| + k + 1].from == hs[k].index
    ensures |hs| > 0 ==> Hands(s, hs).canvas[|s.canvas|].from == if s.prev == Unset then hs[0].index else s.prev
    ensures |hs| > 0 ==> Hands(s, hs).prev == hs[|hs| - 1].index
    ensures Hands(s, hs).color == s.color
  {
    if hs != [] {
      var init := hs[..|hs| - 1];
      var before := Hands(s, init);
      DrawRunIsPolyline(s, init);
      var after := Hands(s, hs);
      assert after.canvas == before.canvas + [after.canvas[|before.canvas|]];
      forall k | 0 <= k < |hs|
        ensures after.canvas[|s.canvas| + k].to == hs[k].index
      {
        if k < |init| {
          assert after.canvas[|s.canvas| + k] == before.canvas[|s.canvas| + k];
        }
      }
      forall k | 0 <= k < |hs| - 1
        ensures after.canvas[|s.canvas| + k + 1].from == hs[k].index
      {
        if k + 1 < |init| {
          assert after.canvas[|s.canvas| + k + 1] == before.canvas[|s.canvas| + k + 1];
        }
      }
      assert after.canvas[..|s.canvas|] == before.canvas[..|s.canvas|];
      assert after.canvas[|s.canvas|..] == before.canvas[|s.canvas|..] + [after.canvas[|before.canvas|]];
    }
  }

  /** A stroke interrupted by a hand that does not draw never reconnects to
      its old end: the next drawing hand starts with a dot. */
  lemma InterruptedStrokeRestarts(s: PaintState, h1: Fingertips, h2: Fingertips)
    requires Classify(h1) != Draw && Classify(h2) == Draw
    ensures var t := Step(s, h1);
            Step(t, h2).canvas == t.canvas + [Segment(h2.index, h2.index, t.color, Thickness(t.color))]
  {
  }

  /** Likewise after a frame without hands. */
  lemma EmptyFrameRestarts(s: PaintState, h: Fingertips)
    requires Classify(h) == Draw
    ensures Run(s, [[], [h]]).canvas == s.canvas + [Segment(h.index, h.index, s.color, Thickness(s.color))]
  {
    var frames: seq<seq<Fingertips>> := [[], [h]];
    assert frames[..1] == [[]];
    assert frames[..1][..0] == [];
    assert Run(s, frames[..1]) == Lift(s);
    assert [h][..0] == [];
    assert Hands(Lift(s), [h]) == Step(Lift(s), h);
  }

  /** With two drawing hands in one frame, when the first hand's tip is off
      the origin, the second hand's line starts at the first hand's tip: the
      pen is shared between hands. */
  lemma TwoHandsShareThePen(s: PaintState, h1: Fingertips, h2: Fingertips)
    requires Classify(h1) == Draw && Classify(h2) == Draw && h1.index != Unset
    ensures |Frame(s, [h1, h2]).canvas| == |s.canvas| + 2
    ensures Frame(s, [h1, h2]).canvas[|s.canvas| + 1] ==
            Segment(h1.index, h2.index, s.color, Thickness(s.color))
  {
    assert [h1, h2][..1] == [h1];
    assert [h1][..0] == [];
    var t1 := Step(s, h1);
    assert Hands(s, [h1]) == t1;
    assert Frame(s, [h1, h2]) == Step(t1, h2);
  }

  /** A drawing hand whose tip is at the origin leaves the pen looking
      lifted, so the next drawing hand starts a new stroke with a dot
      instead of a line from the origin. */
  lemma OriginBreaksStroke(s: PaintState, h1: Fingertips, h2: Fingertips)
    requires Classify(h1) == Draw && h1.index == Unset && Classify(h2) == Draw
    ensures Step(Step(s, h1), h2).canvas ==
            Step(s, h1).canvas + [Segment(h2.index, h2.index, s.color, Thickness(s.color))]
  {
  }
}
