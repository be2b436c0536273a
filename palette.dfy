/** The four toolbar buttons, the colours they select and the stroke
    thickness that goes with a colour. Colours are (blue, green, red)
    triples, as the drawing library orders them. */
module Palette {
  import opened Geometry

  datatype Bgr = Bgr(b: int, g: int, r: int)

  const Red := Bgr(0, 0, 255)
  const Green := Bgr(0, 255, 0)
  const Blue := Bgr(255, 0, 0)
  /** Black doubles as the eraser: drawing black over the canvas clears it. */
  const Eraser := Bgr(0, 0, 0)

  /** The colour a fresh session starts with. */
  const InitialColor := Green

  const BrushThickness := 15
  const EraserThickness := 100

  /** The colours the painter can ever hold. */
  predicate InPalette(c: Bgr)
  {
    c == Red || c == Green || c == Blue || c == Eraser
  }

  /** A toolbar button: the rectangle it occupies and the colour it selects. */
  datatype Swatch = Swatch(area: Rect, color: Bgr)

  /** The toolbar, left to right, in the order the selection tests it.
      All four buttons span the rows 0..100. */
  const Toolbar: seq<Swatch> := [
    Swatch(Rect(0, 0, 200, 100), Red),
    Swatch(Rect(220, 0, 420, 100), Green),
    Swatch(Rect(440, 0, 640, 100), Blue),
    Swatch(Rect(1080, 0, 1280, 100), Eraser)
  ]

  /** The colour of the first swatch of `table` whose area strictly contains
      `p`, or `current` when none does. */
  function Pick(p: Point, table: seq<Swatch>, current: Bgr): (c: Bgr)
    ensures forall k :: 0 <= k < |table| && StrictlyInside(p, table[k].area)
                        && (forall j :: 0 <= j < k ==> !StrictlyInside(p, table[j].area))
                        ==> c == table[k].color
    ensures (forall k :: 0 <= k < |table| ==> !StrictlyInside(p, table[k].area)) ==> c == current
    ensures c == current || exists k :: 0 <= k < |table| && c == table[k].color
  {
    if table == [] then current
    else if StrictlyInside(p, table[0].area) then table[0].color
    else
      var c := Pick(p, table[1..], current);
      assert forall k :: 1 <= k < |table| ==> table[k] == table[1..][k - 1];
      c
  }

  /** The colour after a select pinch with the index tip at `p`. */
  function SelectColor(p: Point, current: Bgr): (c: Bgr)
    ensures InPalette(current) ==> InPalette(c)
  {
    Pick(p, Toolbar, current)
  }

  /** No point lies strictly inside two toolbar buttons. */
  lemma ToolbarDisjoint(p: Point, j: nat, k: nat)
    requires j < k < |Toolbar|
    ensures !(StrictlyInside(p, Toolbar[j].area) && StrictlyInside(p, Toolbar[k].area))
  {
  }

  /** A select pinch strictly inside a button picks that button's colour,
      whichever button it is (the order of the tests does not matter). */
  lemma SelectInside(p: Point, current: Bgr, k: nat)
    requires k < |Toolbar| && StrictlyInside(p, Toolbar[k].area)
    ensures SelectColor(p, current) == Toolbar[k].color
  {
    forall j | 0 <= j < k
      ensures !StrictlyInside(p, Toolbar[j].area)
    {
      ToolbarDisjoint(p, j, k);
    }
  }

  /** A select pinch outside every button, on a border or in a gap keeps
      the current colour. */
  lemma SelectOutside(p: Point, current: Bgr)
    requires forall k :: 0 <= k < |Toolbar| ==> !StrictlyInside(p, Toolbar[k].area)
    ensures SelectColor(p, current) == current
  {
  }

  /** The stroke thickness for a colour: the wide eraser for black, the
      normal brush for every other colour. */
  function Thickness(c: Bgr): nat
  {
    if c == Eraser then EraserThickness else BrushThickness
  }
}
