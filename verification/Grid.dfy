/** Cells and headings of the rectangular board. */
module Grid {
  import opened Prelude

  datatype Point = Point(x: int, y: int)

  datatype Dir = Up | Down | Left | Right

  function Opposite(d: Dir): Dir {
    match d
    case Up => Down
    case Down => Up
    case Left => Right
    case Right => Left
  }

  /** The cell one step from `p`; y grows downwards. */
  function Move(p: Point, d: Dir): Point {
    match d
    case Up => Point(p.x, p.y - 1)
    case Down => Point(p.x, p.y + 1)
    case Left => Point(p.x - 1, p.y)
    case Right => Point(p.x + 1, p.y)
  }

  predicate InBounds(p: Point, w: nat, h: nat) {
    0 <= p.x < w && 0 <= p.y < h
  }

  function Cells(w: nat, h: nat): set<Point> {
    set x, y | 0 <= x < w && 0 <= y < h :: Point(x, y)
  }

  function Column(x: int, h: nat): set<Point> {
    set y | 0 <= y < h :: Point(x, y)
  }

  lemma {:induction false} ColumnCount(x: int, h: nat)
    ensures |Column(x, h)| == h
    decreases h
  {
    if h == 0 {
      assert Column(x, h) == {};
    } else {
      ColumnCount(x, h - 1);
      assert Column(x, h) == Column(x, h - 1) + {Point(x, h - 1)};
    }
  }

  /** A W by H board has W*H cells. */
  lemma {:induction false} CellsCount(w: nat, h: nat)
    ensures |Cells(w, h)| == w * h
    decreases w
  {
    if w == 0 {
      assert Cells(w, h) == {};
    } else {
      CellsCount(w - 1, h);
      ColumnCount(w - 1, h);
      assert Cells(w, h) == Cells(w - 1, h) + Column(w - 1, h);
      assert Cells(w - 1, h) !! Column(w - 1, h);
      assert w * h == (w - 1) * h + h;
    }
  }
}
