/** A square of the path-finding grid. The node's state is its colour: the
    `Make…` setters and `Reset` overwrite it, the `Is…` queries compare it
    with one colour each. */
module Nodes {
  import opened Palette

  /** The colour of a node that started as `start` after the setter calls
      `calls`, made one after the other. */
  function Replay(start: Rgb, calls: seq<Paint>): Rgb
    decreases |calls|
  {
    if calls == [] then start else Replay(ColorOf(calls[0]), calls[1..])
  }

  /** Each setter overwrites the colour outright: whatever came before, the
      last call decides the colour. */
  lemma {:induction false} LastCallWins(start: Rgb, calls: seq<Paint>, p: Paint)
    ensures Replay(start, calls + [p]) == ColorOf(p)
    decreases |calls|
  {
    if calls != [] {
      assert (calls + [p])[1..] == calls[1..] + [p];
      LastCallWins(ColorOf(calls[0]), calls[1..], p);
    }
  }

  /** Calling the same setter twice leaves the node as calling it once. */
  lemma {:induction false} SetterIdempotent(start: Rgb, calls: seq<Paint>, p: Paint)
    ensures Replay(start, calls + [p, p]) == Replay(start, calls + [p])
  {
    assert calls + [p, p] == (calls + [p]) + [p];
    LastCallWins(start, calls + [p], p);
    LastCallWins(start, calls, p);
  }

  /** Everything a node holds except its colour and its ghost call history. */
  datatype Layout = Layout(row: int, col: int, x: int, y: int, width: int,
                           totalRow: int, neighbors: seq<Node>)

  class Node {
    var row: int
    var col: int
    var x: int          // left edge in pixels
    var y: int          // top edge in pixels
    var color: Rgb
    var neighbors: seq<Node>
    var width: int      // side length in pixels
    var totalRow: int

    /** The setter calls made on this node since it was built. */
    ghost var Calls: seq<Paint>

    /** The pixel position is the grid position scaled by the side length,
        and the colour is the one the setter calls leave. */
    ghost predicate Valid()
      reads this
    {
      x == row * width && y == col * width && color == Replay(WHITE, Calls)
    }

    ghost function Frame(): Layout
      reads this
    {
      Layout(row, col, x, y, width, totalRow, neighbors)
    }

    constructor (row: int, col: int, width: int, totalRow: int)
      ensures Valid() && Calls == []
      ensures this.row == row && this.col == col
      ensures this.width == width && this.totalRow == totalRow
      ensures x == row * width && y == col * width
      ensures color == WHITE && neighbors == []
    {
      this.row := row;
      this.col := col;
      this.x := row * width;
      this.y := col * width;
      this.color := WHITE;
      this.neighbors := [];
      this.width := width;
      this.totalRow := totalRow;
      Calls := [];
    }

    /** The grid position, row first: the pixel pair is this pair scaled by
        the side length, in the same order. */
    function GetPos(): (pos: (int, int))
      reads this
      ensures Valid() ==> pos.0 * width == x && pos.1 * width == y
      ensures pos.0 == row && pos.1 == col
    {
      (row, col)
    }

    /** The node is in the closed set: its colour is the one `MakeClosed` writes. */
    predicate IsClosed(): (b: bool)
      reads this
      ensures b <==> PaintOf(color) == Some(Closed)
    {
      color == RED
    }

    /** The node is in the open set: its colour is the one `MakeOpen` writes. */
    predicate IsOpen(): (b: bool)
      reads this
      ensures b <==> PaintOf(color) == Some(Open)
    {
      color == GREEN
    }

    /** The node is a wall: its colour is the one `MakeBarrier` writes. */
    predicate IsBarrier(): (b: bool)
      reads this
      ensures b <==> PaintOf(color) == Some(Barrier)
    {
      color == BLACK
    }

    /** The node is the start: its colour is the one `MakeStart` writes. */
    predicate IsStart(): (b: bool)
      reads this
      ensures b <==> PaintOf(color) == Some(Start)
    {
      color == ORANGE
    }

    /** The node is the end: its colour is the one `MakeEnd` writes. */
    predicate IsEnd(): (b: bool)
      reads this
      ensures b <==> PaintOf(color) == Some(End)
    {
      color == TURQUOISE
    }

    /** The five queries give exactly the answers a node painted `p` gives:
        only the query of `p` holds, and none holds for Blank or Path. */
    ghost predicate Answers(p: Paint)
      reads this
    {
      (IsClosed() <==> p == Closed) && (IsOpen() <==> p == Open) &&
      (IsBarrier() <==> p == Barrier) && (IsStart() <==> p == Start) &&
      (IsEnd() <==> p == End)
    }

    method Reset()
      requires Valid()
      modifies this
      ensures Valid() && Calls == old(Calls) + [Blank]
      ensures color == WHITE && Answers(Blank) && Frame() == old(Frame())
    {
      color := WHITE;
      LastCallWins(WHITE, Calls, Blank);
      Calls := Calls + [Blank];
    }

    method MakeStart()
      requires Valid()
      modifies this
      ensures Valid() && Calls == old(Calls) + [Start]
      ensures color == ORANGE && Answers(Start) && Frame() == old(Frame())
    {
      color := ORANGE;
      LastCallWins(WHITE, Calls, Start);
      Calls := Calls + [Start];
    }

    method MakeClosed()
      requires Valid()
      modifies this
      ensures Valid() && Calls == old(Calls) + [Closed]
      ensures color == RED && Answers(Closed) && Frame() == old(Frame())
    {
      color := RED;
      LastCallWins(WHITE, Calls, Closed);
      Calls := Calls + [Closed];
    }

    method MakeOpen()
      requires Valid()
      modifies this
      ensures Valid() && Calls == old(Calls) + [Open]
      ensures color == GREEN && Answers(Open) && Frame() == old(Frame())
    {
      color := GREEN;
      LastCallWins(WHITE, Calls, Open);
      Calls := Calls + [Open];
    }

    method MakeBarrier()
      requires Valid()
      modifies this
      ensures Valid() && Calls == old(Calls) + [Barrier]
      ensures color == BLACK && Answers(Barrier) && Frame() == old(Frame())
    {
      color := BLACK;
      LastCallWins(WHITE, Calls, Barrier);
      Calls := Calls + [Barrier];
    }

    method MakeEnd()
      requires Valid()
      modifies this
      ensures Valid() && Calls == old(Calls) + [End]
      ensures color == TURQUOISE && Answers(End) && Frame() == old(Frame())
    {
      color := TURQUOISE;
      LastCallWins(WHITE, Calls, End);
      Calls := Calls + [End];
    }

    method MakePath()
      requires Valid()
      modifies this
      ensures Valid() && Calls == old(Calls) + [Path]
      ensures color == PURPLE && Answers(Path) && Frame() == old(Frame())
    {
      color := PURPLE;
      LastCallWins(WHITE, Calls, Path);
      Calls := Calls + [Path];
    }
  }

  /** At most one of the five queries holds, whatever the colour. */
  lemma AtMostOneQuery(n: Node)
    ensures n.IsClosed() ==> !n.IsOpen() && !n.IsBarrier() && !n.IsStart() && !n.IsEnd()
    ensures n.IsOpen() ==> !n.IsBarrier() && !n.IsStart() && !n.IsEnd()
    ensures n.IsBarrier() ==> !n.IsStart() && !n.IsEnd()
    ensures n.IsStart() ==> !n.IsEnd()
  {
  }

  /** A node's queries answer as its latest setter call says; a node no
      setter has touched is still white and answers none. */
  lemma {:induction false} StateIsLastCall(n: Node)
    requires n.Valid()
    ensures n.Calls == [] ==> n.color == WHITE && n.Answers(Blank)
    ensures n.Calls != [] ==> n.color == ColorOf(n.Calls[|n.Calls| - 1])
                              && n.Answers(n.Calls[|n.Calls| - 1])
  {
    if n.Calls != [] {
      var k := |n.Calls| - 1;
      assert n.Calls == n.Calls[..k] + [n.Calls[k]];
      LastCallWins(WHITE, n.Calls[..k], n.Calls[k]);
    }
  }
}
