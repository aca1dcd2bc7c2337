/** Colours of the path-finding grid. A node's state is nothing but the colour
    it is painted, so the colour constants are the state alphabet. */
module Palette {

  datatype Option<T> = None | Some(value: T)

  /** An RGB triple as pygame takes it. */
  datatype Rgb = Rgb(red: int, green: int, blue: int)

  /** Every channel is an 8-bit intensity. */
  predicate IsChannel(v: int) { 0 <= v <= 255 }

  predicate IsDrawable(c: Rgb) {
    IsChannel(c.red) && IsChannel(c.green) && IsChannel(c.blue)
  }

  // The colours the node setters write (path_finding.py:26-35). YELLOW, GREY
  // and BLUE are declared there too but never assigned to a node.
  const RED: Rgb := Rgb(255, 0, 0)
  const GREEN: Rgb := Rgb(0, 255, 0)
  const WHITE: Rgb := Rgb(255, 255, 255)
  const BLACK: Rgb := Rgb(0, 0, 0)
  const PURPLE: Rgb := Rgb(128, 0, 128)
  const ORANGE: Rgb := Rgb(255, 165, 0)
  const TURQUOISE: Rgb := Rgb(64, 224, 208)

  /** One constructor per node setter: `reset` paints Blank, `make_start`
      paints Start, and so on. */
  datatype Paint = Blank | Start | Closed | Open | Barrier | End | Path

  /** The colour each setter writes into `color`. */
  function ColorOf(p: Paint): (c: Rgb)
    ensures IsDrawable(c)
  {
    match p
    case Blank => WHITE
    case Start => ORANGE
    case Closed => RED
    case Open => GREEN
    case Barrier => BLACK
    case End => TURQUOISE
    case Path => PURPLE
  }

  /** Reads a colour back as the setter that writes it, if any. */
  function PaintOf(c: Rgb): (r: Option<Paint>)
    ensures forall p :: r == Some(p) <==> ColorOf(p) == c
  {
    if c == WHITE then Some(Blank)
    else if c == ORANGE then Some(Start)
    else if c == RED then Some(Closed)
    else if c == GREEN then Some(Open)
    else if c == BLACK then Some(Barrier)
    else if c == TURQUOISE then Some(End)
    else if c == PURPLE then Some(Path)
    else None
  }

  /** The seven colours are pairwise distinct: no two setters leave a node
      in the same state. */
  lemma ColorOfInjective(p: Paint, q: Paint)
    ensures ColorOf(p) == ColorOf(q) ==> p == q
  {
    if ColorOf(p) == ColorOf(q) {
      assert PaintOf(ColorOf(p)) == Some(p);
    }
  }
}
