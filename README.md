# Path-finding visualiser: the grid node

This project models the `Node` class of the path-finding visualiser
(`path_finding.py`). A node is one square of the grid. Its state is its
colour, stored in the field `color`:

- the setters `reset`, `make_start`, `make_closed`, `make_open`,
  `make_barrier`, `make_end` and `make_path` overwrite that colour;
- the queries `is_closed`, `is_open`, `is_barrier`, `is_start` and `is_end`
  compare it with one colour constant each.

The model has two modules:

- `Palette` (`palette.dfy`) holds the colours as RGB integer triples. The
  enumeration `Paint` has one value per setter. `ColorOf` maps a setter to
  the colour it writes, and `PaintOf` is its inverse.
- `Nodes` (`node.dfy`) holds `class Node` with the source's fields and
  methods. Every setter assigns `color` and, in ghost state, appends to
  `Calls`, the record of the setter calls made so far; it assigns no other
  field. The invariant `Valid()` says
  two things: the pixel position is the grid position times `width`, and
  `color == Replay(WHITE, Calls)`. `Replay` is the colour after those calls
  made one after the other. The queries stay literal equality tests on
  `color`.

The source has no search algorithm. `update_neighbors` is an empty stub,
and the `PriorityQueue` import is never used. So the model contains no
search.

Integers are unbounded, as Python's are, so `x = row * width` cannot wrap
around.

## Model

| member | source | states |
|---|---|---|
| `Palette.ColorOf` | path_finding.py:86-109 | Every colour a setter writes is a drawable RGB triple: each channel lies in 0..255 |
| `Palette.PaintOf` | path_finding.py:26-35 | Reads a colour back as the setter that writes it. The result is `Some(p)` exactly when `ColorOf(p)` is that colour, and `None` when no setter writes it |
| `Palette.ColorOfInjective` | path_finding.py:26-35 | RED, GREEN, BLACK, ORANGE, TURQUOISE, WHITE and PURPLE are pairwise distinct, so two different setters never leave the same colour |
| `Nodes.Node.constructor` | path_finding.py:51-59 | `row`, `col`, `width` and `total_row` are stored unchanged. `x == row*width` and `y == col*width`. The colour is WHITE, `neighbors` is empty and no setter has been called |
| `Nodes.Node.GetPos` | path_finding.py:61-62 | Returns `(row, col)` in that order. Scaling that pair by `width` gives the pixel pair `(x, y)` |
| `Nodes.Node.Reset` | path_finding.py:86-91 | The colour becomes WHITE and all five queries are false. Every other field is unchanged, and the call is appended to the history |
| `Nodes.Node.MakeStart` | path_finding.py:93-94 | The colour becomes ORANGE. `IsStart` holds and the other four queries are false. Every other field is unchanged |
| `Nodes.Node.MakeClosed` | path_finding.py:96-97 | The colour becomes RED. `IsClosed` holds and the other four queries are false. Every other field is unchanged |
| `Nodes.Node.MakeOpen` | path_finding.py:99-100 | The colour becomes GREEN. `IsOpen` holds and the other four queries are false. Every other field is unchanged |
| `Nodes.Node.MakeBarrier` | path_finding.py:102-103 | The colour becomes BLACK. `IsBarrier` holds and the other four queries are false. Every other field is unchanged |
| `Nodes.Node.MakeEnd` | path_finding.py:105-106 | The colour becomes TURQUOISE. `IsEnd` holds and the other four queries are false. Every other field is unchanged |
| `Nodes.Node.MakePath` | path_finding.py:108-109 | The colour becomes PURPLE and all five queries are false, because PURPLE is none of the colours they test. Every other field is unchanged |
| `Nodes.LastCallWins` | path_finding.py:86-109 | After any sequence of setter calls, from any starting colour, the colour is the one the last call writes |
| `Nodes.SetterIdempotent` | path_finding.py:86-109 | Calling the same setter twice leaves the same colour as calling it once, after any earlier calls |
| `Nodes.Node.IsClosed` | path_finding.py:64-69 | Holds exactly when `color == RED`, that is when `PaintOf` reads the colour back as `Closed`. `AtMostOneQuery` shows it excludes the other four queries |
| `Nodes.Node.IsOpen` | path_finding.py:71-75 | Holds exactly when `color == GREEN`, that is when `PaintOf` reads the colour back as `Open`. `AtMostOneQuery` shows it excludes the other four queries |
| `Nodes.Node.IsBarrier` | path_finding.py:77-78 | Holds exactly when `color == BLACK`, that is when `PaintOf` reads the colour back as `Barrier`. `AtMostOneQuery` shows it excludes the other four queries |
| `Nodes.Node.IsStart` | path_finding.py:80-81 | Holds exactly when `color == ORANGE`, that is when `PaintOf` reads the colour back as `Start`. `AtMostOneQuery` shows it excludes the other four queries |
| `Nodes.Node.IsEnd` | path_finding.py:83-84 | Holds exactly when `color == TURQUOISE`, that is when `PaintOf` reads the colour back as `End`. `AtMostOneQuery` shows it excludes the other four queries |
| `Nodes.AtMostOneQuery` | path_finding.py:64-84 | At most one of `is_closed`, `is_open`, `is_barrier`, `is_start` and `is_end` holds, whatever the colour |
| `Nodes.StateIsLastCall` | path_finding.py:51-109 | A node with no setter calls is WHITE and answers no query. Otherwise its colour and its five answers are those of the latest setter call |

## Left out

- `Node.draw` (path_finding.py:111-117) and the window creation and caption (path_finding.py:21-23): these are pygame rendering and I/O.
- `Node.update_neighbors` (path_finding.py:119-120): its body is `pass`, so there is no adjacency rule to model. `neighbors` appears only as the empty sequence the constructor sets, and no operation changes it.
- YELLOW, GREY and BLUE (path_finding.py:28-29, 34): no node is ever given these colours. BLUE is defined equal to GREEN, but nothing assigns it.
- `WIDTH` (path_finding.py:20): the window size in pixels. It is never used by `Node`.
- The unused `math` and `PriorityQueue` imports (path_finding.py:13-14). The module docstring (path_finding.py:1-8) announces path-finding algorithms, but this file implements none.
- Direct writes to a node's public fields (for example assigning `color` from outside the class): the setters require `Valid()`, so the model covers nodes that change only through the constructor and the setters.
