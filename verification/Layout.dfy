/** The pairwise overlap test on a dashboard, what it means for grid cells, and the space a clean layout can use. */
module Layouts {
  import opened Dashboards

  type Cell = (int, int)

  /** The grid cells a component covers. */
  function Cells(p: Position): set<Cell> {
    set cx, cy | p.x <= cx < p.x + p.width && p.y <= cy < p.y + p.height :: (cx, cy)
  }

  /** The four strict comparisons of the source. */
  predicate Overlaps(a: Position, b: Position) {
    && a.x < b.x + b.width
    && a.x + a.width > b.x
    && a.y < b.y + b.height
    && a.y + a.height > b.y
  }

  ghost predicate Disjoint(components: seq<Component>) {
    forall i, j :: 0 <= i < j < |components| ==> Cells(components[i].position) !! Cells(components[j].position)
  }

  /** Some two components overlap. */
  predicate AnyOverlap(components: seq<Component>) {
    exists i :: 0 <= i < |components| &&
      exists j :: i < j < |components| && Overlaps(components[i].position, components[j].position)
  }

  /** For components of at least one cell the comparisons decide exactly whether a cell is shared. */
  lemma OverlapIsSharedCell(a: Position, b: Position)
    requires a.width >= 1 && a.height >= 1 && b.width >= 1 && b.height >= 1
    ensures Overlaps(a, b) <==> !(Cells(a) !! Cells(b))
  {
    if Overlaps(a, b) {
      var cx := if a.x < b.x then b.x else a.x;
      var cy := if a.y < b.y then b.y else a.y;
      assert (cx, cy) in Cells(a) && (cx, cy) in Cells(b);
    }
  }

  lemma AnyOverlapIsNotDisjoint(components: seq<Component>)
    requires forall c :: c in components ==> ValidPosition(c.position)
    ensures AnyOverlap(components) <==> !Disjoint(components)
  {
    forall i, j | 0 <= i < j < |components|
      ensures Overlaps(components[i].position, components[j].position) <==>
              !(Cells(components[i].position) !! Cells(components[j].position))
    {
      OverlapIsSharedCell(components[i].position, components[j].position);
    }
  }

  /** The nested index loop over all pairs: it reports no clash exactly when no two components share a cell. */
  method HasOverlap(components: seq<Component>) returns (clash: bool)
    requires forall c :: c in components ==> ValidPosition(c.position)
    ensures clash <==> !Disjoint(components)
  {
    for left := 0 to |components|
      invariant forall i, j :: 0 <= i < left && i < j < |components| ==>
                                 Cells(components[i].position) !! Cells(components[j].position)
    {
      for right := left + 1 to |components|
        invariant forall j :: left < j < right ==> Cells(components[left].position) !! Cells(components[j].position)
      {
        var a, b := components[left].position, components[right].position;
        OverlapIsSharedCell(a, b);
        if Overlaps(a, b) {
          return true;
        }
      }
    }
    return false;
  }

  lemma {:induction false} ColumnSize(x: int, y: int, height: nat)
    ensures |Cells(Position(x, y, 1, height))| == height
  {
    var all := Cells(Position(x, y, 1, height));
    if height == 0 {
      assert all == {};
    } else {
      ColumnSize(x, y, height - 1);
      assert all == Cells(Position(x, y, 1, height - 1)) + {(x, y + height - 1)};
    }
  }

  lemma UnionSize<T>(a: set<T>, b: set<T>)
    requires a !! b
    ensures |a + b| == |a| + |b|
  {
  }

  /** A component is its left part and its last column. */
  lemma LastColumn(p: Position)
    requires p.width >= 1
    ensures |Cells(p)| == |Cells(p.(width := p.width - 1))| + |Cells(Position(p.x + p.width - 1, p.y, 1, p.height))|
  {
    var left, column := Cells(p.(width := p.width - 1)), Cells(Position(p.x + p.width - 1, p.y, 1, p.height));
    assert Cells(p) == left + column;
    UnionSize(left, column);
  }

  lemma {:induction false} CellCount(p: Position)
    requires p.width >= 0 && p.height >= 0
    ensures |Cells(p)| == p.width * p.height
    decreases p.width
  {
    if p.width == 0 {
      assert Cells(p) == {};
    } else {
      LastColumn(p);
      ColumnSize(p.x + p.width - 1, p.y, p.height);
      CellCount(p.(width := p.width - 1));
      Distribute(p.width, p.height);
    }
  }

  lemma Distribute(w: int, h: int)
    ensures w * h == (w - 1) * h + h
  {
  }

  function Area(components: seq<Component>): int {
    if components == [] then 0
    else components[0].position.width * components[0].position.height + Area(components[1..])
  }

  /** The largest y + height in the layout. */
  function Bottom(components: seq<Component>): int {
    if components == [] then 0
    else
      var p, rest := components[0].position, Bottom(components[1..]);
      if p.y + p.height > rest then p.y + p.height else rest
  }

  function AllCells(components: seq<Component>): set<Cell> {
    set c, cell | c in components && cell in Cells(c.position) :: cell
  }

  lemma {:induction false} BottomBounds(components: seq<Component>)
    ensures Bottom(components) >= 0
    ensures forall c :: c in components ==> c.position.y + c.position.height <= Bottom(components)
    ensures Bottom(components) == 0 || exists c :: c in components && c.position.y + c.position.height == Bottom(components)
  {
    if components == [] {
    } else {
      BottomBounds(components[1..]);
      assert components == [components[0]] + components[1..];
    }
  }

  lemma {:induction false} DisjointCellsAddUp(components: seq<Component>)
    requires forall c :: c in components ==> c.position.width >= 0 && c.position.height >= 0
    requires Disjoint(components)
    ensures |AllCells(components)| == Area(components)
  {
    if components == [] {
      assert AllCells(components) == {};
    } else {
      var head, rest := components[0], components[1..];
      assert components == [head] + rest;
      forall i, j | 0 <= i < j < |rest|
        ensures Cells(rest[i].position) !! Cells(rest[j].position)
      {
        assert rest[i] == components[i + 1] && rest[j] == components[j + 1];
      }
      DisjointCellsAddUp(rest);
      CellCount(head.position);
      assert AllCells(components) == Cells(head.position) + AllCells(rest);
      forall c | c in rest
        ensures Cells(head.position) !! Cells(c.position)
      {
        var j :| 0 <= j < |rest| && rest[j] == c;
        assert components[j + 1] == c;
      }
    }
  }

  lemma {:induction false} SubsetSize<T>(small: set<T>, large: set<T>)
    requires small <= large
    ensures |small| <= |large|
  {
    if small == {} {
    } else {
      var x :| x in small;
      SubsetSize(small - {x}, large - {x});
    }
  }

  /** The packing bound: a layout that passes the overlap test fits in 24 columns down to its lowest edge. */
  lemma PackingBound(components: seq<Component>)
    requires forall c :: c in components ==> ValidPosition(c.position)
    requires !AnyOverlap(components)
    ensures Area(components) <= GRID_COLUMNS * Bottom(components)
    ensures components != [] ==>
              exists c :: c in components && c.position.y + c.position.height == Bottom(components)
  {
    AnyOverlapIsNotDisjoint(components);
    BottomBounds(components);
    var grid := Position(0, 0, GRID_COLUMNS, Bottom(components));
    forall cell | cell in AllCells(components)
      ensures cell in Cells(grid)
    {
      var c :| c in components && cell in Cells(c.position);
    }
    DisjointCellsAddUp(components);
    CellCount(grid);
    SubsetSize(AllCells(components), Cells(grid));
  }
}
