/** view.go: where chainDiagram puts its boxes. */
module Layout {
  import opened Prelude
  import opened Diagram

  const BOX_W := 150
  const BOX_H := 36
  const COL_GAP := 70
  const ROW_GAP := 22
  const PAD_X := 12
  const PAD_Y := 12
  const COL_W := BOX_W + COL_GAP
  const ROW_H := BOX_H + ROW_GAP

  /** The order of names in a column. */
  predicate Less(a: string, b: string) {
    if b == "" then false
    else if a == "" then true
    else if a[0] != b[0] then a[0] < b[0]
    else Less(a[1..], b[1..])
  }

  lemma {:induction false} LessIsIrreflexive(a: string)
    ensures !Less(a, a)
  {
    if a != "" {
      LessIsIrreflexive(a[1..]);
    }
  }

  lemma {:induction false} LessIsTotal(a: string, b: string)
    ensures Less(a, b) || a == b || Less(b, a)
    ensures !(Less(a, b) && Less(b, a)) && !Less(a, a)
  {
    if a != "" && b != "" && a[0] == b[0] {
      LessIsTotal(a[1..], b[1..]);
      assert a == [a[0]] + a[1..] && b == [b[0]] + b[1..];
    }
    if a != "" {
      LessIsIrreflexive(a);
    }
  }

  lemma {:induction false} LessIsTransitive(a: string, b: string, d: string)
    requires Less(a, b) && Less(b, d)
    ensures Less(a, d)
  {
    if a != "" && a[0] == b[0] && b[0] == d[0] {
      LessIsTransitive(a[1..], b[1..], d[1..]);
    }
  }

  lemma SameHead(a: string, b: string, k: nat)
    requires 0 < k <= |a| && k <= |b| && a[..k] == b[..k]
    ensures a[0] == b[0]
  {
    assert a[..k][0] == b[..k][0];
  }

  /** It is the order of Go's strings: a proper prefix, or smaller where they first differ. */
  lemma {:induction false} LessIs(a: string, b: string)
    ensures Less(a, b) <==> a < b || exists k :: 0 <= k < |a| && k < |b| && a[..k] == b[..k] && a[k] < b[k]
  {
    if a != "" && b != "" && a[0] == b[0] {
      LessIs(a[1..], b[1..]);
      assert a == [a[0]] + a[1..] && b == [b[0]] + b[1..];
      assert a < b <==> a[1..] < b[1..];
      if k :| 0 <= k < |a[1..]| && k < |b[1..]| && a[1..][..k] == b[1..][..k] && a[1..][k] < b[1..][k] {
        assert a[..k + 1] == [a[0]] + a[1..][..k] && b[..k + 1] == [b[0]] + b[1..][..k];
      }
      if k :| 0 <= k < |a| && k < |b| && a[..k] == b[..k] && a[k] < b[k] {
        assert k > 0 && a[1..][..k - 1] == a[..k][1..] && b[1..][..k - 1] == b[..k][1..];
      }
    } else if a != "" && b != "" {
      if k :| 0 <= k < |a| && k < |b| && a[..k] == b[..k] && a[k] < b[k] {
        if k > 0 {
          SameHead(a, b, k);
        }
      }
      assert a[..0] == b[..0];
    }
  }

  ghost predicate Sorted(names: seq<string>) {
    forall i, k :: 0 <= i < k < |names| ==> Less(names[i], names[k])
  }

  /** sort.Slice by name, one name at a time. */
  method Insert(names: seq<string>, name: string) returns (r: seq<string>)
    requires Sorted(names) && name !in names
    ensures Sorted(r) && (forall n :: n in r <==> n in names || n == name) && |r| == |names| + 1
  {
    var i := 0;
    while i < |names| && Less(names[i], name)
      invariant 0 <= i <= |names|
      invariant forall k :: 0 <= k < i ==> Less(names[k], name)
    {
      i := i + 1;
    }
    if i < |names| {
      LessIsTotal(names[i], name);
      forall k | i < k < |names|
        ensures Less(name, names[k])
      {
        LessIsTransitive(name, names[i], names[k]);
      }
    }
    r := names[..i] + [name] + names[i..];
    assert names == names[..i] + names[i..];
  }

  /** Columns and extents, as the loops over the nodes leave them. */
  datatype Columns = Columns(byLevel: map<int, seq<string>>, minLevel: int, maxLevel: int, maxRows: nat)

  function Column(cols: Columns, level: int): seq<string> {
    if level in cols.byLevel then cols.byLevel[level] else []
  }

  /** Every node is in the column of its level, each column is sorted, and the extents are extents. */
  ghost predicate Arranged(nodes: map<string, Node>, cols: Columns) {
    && cols.minLevel <= 0 <= cols.maxLevel
    && (forall n :: n in nodes ==>
          cols.minLevel <= nodes[n].level <= cols.maxLevel && n in Column(cols, nodes[n].level))
    && (forall l, n :: n in Column(cols, l) ==> n in nodes && nodes[n].level == l)
    && (forall l :: Sorted(Column(cols, l)) && |Column(cols, l)| <= cols.maxRows)
  }

  /** The part of the drawing that is already in columns. */
  function Part(nodes: map<string, Node>, names: set<string>): map<string, Node> {
    map n | n in nodes && n in names :: nodes[n]
  }

  /** The extents are reached. */
  ghost predicate Tight(nodes: map<string, Node>, cols: Columns) {
    && (cols.minLevel == 0 || exists n :: n in nodes && nodes[n].level == cols.minLevel)
    && (cols.maxLevel == 0 || exists n :: n in nodes && nodes[n].level == cols.maxLevel)
    && (cols.maxRows == 0 || exists l :: |Column(cols, l)| == cols.maxRows)
  }

  function Place(cols: Columns, level: int, column: seq<string>): Columns {
    Columns(cols.byLevel[level := column],
            Min(cols.minLevel, level), Max(cols.maxLevel, level), Max(cols.maxRows, |column|))
  }

  lemma PlacedIsArranged(part: map<string, Node>, more: map<string, Node>, cols: Columns, n: string, column: seq<string>)
    requires Arranged(part, cols) && n !in part && n in more && more.Keys == part.Keys + {n}
    requires forall m :: m in part ==> more[m] == part[m]
    requires Sorted(column) && forall m :: m in column <==> m in Column(cols, more[n].level) || m == n
    ensures Arranged(more, Place(cols, more[n].level, column))
  {
    hide Sorted;
    var cols' := Place(cols, more[n].level, column);
    assert Column(cols', more[n].level) == column;
    forall l | l != more[n].level
      ensures Column(cols', l) == Column(cols, l)
    {
    }
    hide Column;
  }

  lemma PlacedIsTight(part: map<string, Node>, more: map<string, Node>, cols: Columns, n: string, column: seq<string>)
    requires Arranged(part, cols) && Tight(part, cols) && n !in part && n in more && more.Keys == part.Keys + {n}
    requires forall m :: m in part ==> more[m] == part[m]
    requires |column| > |Column(cols, more[n].level)|
    ensures Tight(more, Place(cols, more[n].level, column))
  {
    var cols' := Place(cols, more[n].level, column);
    assert Column(cols', more[n].level) == column;
    if cols'.maxRows != |column| {
      var l :| |Column(cols, l)| == cols.maxRows;
      assert Column(cols', l) == Column(cols, l);
    }
    if cols'.minLevel != 0 && cols'.minLevel != more[n].level {
      var m :| m in part && part[m].level == cols.minLevel;
      assert more[m].level == cols'.minLevel;
    }
    if cols'.maxLevel != 0 && cols'.maxLevel != more[n].level {
      var m :| m in part && part[m].level == cols.maxLevel;
      assert more[m].level == cols'.maxLevel;
    }
  }

  lemma NothingIsArranged(part: map<string, Node>, cols: Columns)
    requires part == map[] && cols == Columns(map[], 0, 0, 0)
    ensures Arranged(part, cols) && Tight(part, cols)
  {
  }

  lemma ColumnIsSorted(nodes: map<string, Node>, cols: Columns, level: int, n: string)
    requires Arranged(nodes, cols) && n !in nodes
    ensures Sorted(Column(cols, level)) && n !in Column(cols, level)
  {
  }

  /** Nodes come in any order, as from a Go map. */
  method Arrange(nodes: map<string, Node>) returns (cols: Columns)
    ensures Arranged(nodes, cols) && Tight(nodes, cols)
  {
    hide Arranged, Tight, Sorted;
    cols := Columns(map[], 0, 0, 0);
    var left := nodes.Keys;
    NothingIsArranged(Part(nodes, nodes.Keys - left), cols);
    while left != {}
      invariant left <= nodes.Keys
      invariant Arranged(Part(nodes, nodes.Keys - left), cols) && Tight(Part(nodes, nodes.Keys - left), cols)
    {
      var n :| n in left;
      ghost var part, more := Part(nodes, nodes.Keys - left), Part(nodes, nodes.Keys - (left - {n}));
      ColumnIsSorted(part, cols, nodes[n].level, n);
      var column := Insert(Column(cols, nodes[n].level), n);
      PlacedIsArranged(part, more, cols, n, column);
      PlacedIsTight(part, more, cols, n, column);
      cols := Place(cols, nodes[n].level, column);
      left := left - {n};
    }
    assert Part(nodes, nodes.Keys - left) == nodes;
  }

  function Width(cols: Columns): int {
    var n := cols.maxLevel - cols.minLevel + 1;
    PAD_X * 2 + n * BOX_W + (n - 1) * COL_GAP
  }

  function StackHeight(rows: int): int {
    rows * BOX_H + Max(0, rows - 1) * ROW_GAP
  }

  function Height(cols: Columns): int {
    PAD_Y * 2 + StackHeight(cols.maxRows)
  }

  function XOf(cols: Columns, level: int): int {
    PAD_X + (level - cols.minLevel) * COL_W
  }

  /** Go's division, which truncates, is of a number that is never negative here. */
  function YOf(cols: Columns, level: int, row: int): int {
    PAD_Y + (Height(cols) - PAD_Y * 2 - StackHeight(|Column(cols, level)|)) / 2 + row * ROW_H
  }

  datatype Box = Box(x: int, y: int)

  predicate Apart(a: Box, b: Box) {
    || a.x + BOX_W < b.x || b.x + BOX_W < a.x
    || a.y + BOX_H < b.y || b.y + BOX_H < a.y
  }

  predicate Inside(a: Box, cols: Columns) {
    && PAD_X <= a.x && a.x + BOX_W <= Width(cols) - PAD_X
    && PAD_Y <= a.y && a.y + BOX_H <= Height(cols) - PAD_Y
  }

  /** Name n is drawn in this box: its row is its place in its column. */
  ghost predicate DrawnAt(nodes: map<string, Node>, cols: Columns, n: string, box: Box) {
    && n in nodes
    && exists row :: 0 <= row < |Column(cols, nodes[n].level)| && Column(cols, nodes[n].level)[row] == n
         && box == Box(XOf(cols, nodes[n].level), YOf(cols, nodes[n].level, row))
  }

  lemma SortedIsDistinct(names: seq<string>)
    requires Sorted(names)
    ensures forall i, k :: 0 <= i < k < |names| ==> names[i] != names[k]
  {
    forall i, k | 0 <= i < k < |names|
      ensures names[i] != names[k]
    {
      LessIsIrreflexive(names[i]);
    }
  }

  lemma RowsFit(count: int, maxRows: int, row: int)
    requires 0 <= row < count <= maxRows
    ensures 0 <= StackHeight(count) <= StackHeight(maxRows)
    ensures row * ROW_H + BOX_H <= StackHeight(count)
  {
  }

  lemma CenteredFits(total: int, stack: int, at: int)
    requires 0 <= at && at + BOX_H <= stack <= total
    ensures 0 <= (total - stack) / 2 + at && (total - stack) / 2 + at + BOX_H <= total
  {
  }

  lemma RowIsInside(cols: Columns, level: int, row: nat)
    requires row < |Column(cols, level)| <= cols.maxRows
    ensures PAD_Y <= YOf(cols, level, row) && YOf(cols, level, row) + BOX_H <= Height(cols) - PAD_Y
  {
    var count := |Column(cols, level)|;
    RowsFit(count, cols.maxRows, row);
    CenteredFits(StackHeight(cols.maxRows), StackHeight(count), row * ROW_H);
  }

  lemma ColumnIsInside(cols: Columns, level: int)
    requires cols.minLevel <= level <= cols.maxLevel
    ensures PAD_X <= XOf(cols, level) && XOf(cols, level) + BOX_W <= Width(cols) - PAD_X
  {
  }

  lemma BoxIsInside(nodes: map<string, Node>, cols: Columns, n: string, a: Box)
    requires Arranged(nodes, cols) && DrawnAt(nodes, cols, n, a)
    ensures Inside(a, cols)
  {
    hide XOf, YOf, Width, Height, Column, Sorted;
    var level := nodes[n].level;
    var column := Column(cols, level);
    var row :| 0 <= row < |column| && column[row] == n && a == Box(XOf(cols, level), YOf(cols, level, row));
    ColumnIsInside(cols, level);
    RowIsInside(cols, level, row);
  }

  /** For every graph: each node has one box, inside the padded picture, and boxes of different nodes keep apart. */
  lemma BoxesKeepApart(nodes: map<string, Node>, cols: Columns, n: string, m: string, a: Box, b: Box)
    requires Arranged(nodes, cols) && DrawnAt(nodes, cols, n, a) && DrawnAt(nodes, cols, m, b)
    ensures Inside(a, cols) && Inside(b, cols)
    ensures n != m ==> Apart(a, b)
    ensures n == m ==> a == b
  {
    BoxIsInside(nodes, cols, n, a);
    BoxIsInside(nodes, cols, m, b);
    SortedIsDistinct(Column(cols, nodes[n].level));
  }

  lemma EveryNodeHasABox(nodes: map<string, Node>, cols: Columns, n: string)
    requires Arranged(nodes, cols) && n in nodes
    ensures exists box :: DrawnAt(nodes, cols, n, box)
  {
    var level := nodes[n].level;
    var row :| 0 <= row < |Column(cols, level)| && Column(cols, level)[row] == n;
    assert DrawnAt(nodes, cols, n, Box(XOf(cols, level), YOf(cols, level, row)));
  }

  // Where the boxes are to one another.

  /** Levels go from left to right, one column each, the lowest at the padding. */
  lemma ColumnsGoRight(nodes: map<string, Node>, cols: Columns, n: string, m: string, a: Box, b: Box)
    requires Arranged(nodes, cols) && DrawnAt(nodes, cols, n, a) && DrawnAt(nodes, cols, m, b)
    ensures nodes[n].level < nodes[m].level ==> a.x + BOX_W < b.x
    ensures nodes[n].level == nodes[m].level ==> a.x == b.x
    ensures nodes[m].level == nodes[n].level + 1 ==> b.x == a.x + BOX_W + COL_GAP
    ensures nodes[n].level == cols.minLevel ==> a.x == PAD_X
    ensures nodes[n].level == cols.maxLevel ==> a.x + BOX_W == Width(cols) - PAD_X
  {
  }

  /** The order of the rows is the order of the names. */
  lemma RowsInOrder(column: seq<string>, i: nat, k: nat)
    requires Sorted(column) && i < |column| && k < |column| && Less(column[i], column[k])
    ensures i < k && (k > i + 1 ==> Less(column[i], column[i + 1]) && Less(column[i + 1], column[k]))
  {
    LessIsTotal(column[i], column[k]);
  }

  lemma RowsApart(cols: Columns, level: int, i: nat, k: nat)
    requires i < k
    ensures YOf(cols, level, i) + BOX_H + ROW_GAP <= YOf(cols, level, k)
    ensures k == i + 1 ==> YOf(cols, level, k) == YOf(cols, level, i) + BOX_H + ROW_GAP
  {
  }

  /** Within a level the names go down in order, one below the other. */
  lemma {:induction false} NamesGoDown(nodes: map<string, Node>, cols: Columns, n: string, m: string, a: Box, b: Box)
    requires Arranged(nodes, cols) && DrawnAt(nodes, cols, n, a) && DrawnAt(nodes, cols, m, b)
    requires nodes[n].level == nodes[m].level && Less(n, m)
    ensures a.y + BOX_H + ROW_GAP <= b.y
    ensures (forall o :: o in nodes && nodes[o].level == nodes[n].level ==> !(Less(n, o) && Less(o, m))) ==>
      b.y == a.y + BOX_H + ROW_GAP
  {
    hide XOf, YOf, Less, Sorted;
    var level := nodes[n].level;
    var column := Column(cols, level);
    var i :| 0 <= i < |column| && column[i] == n && a == Box(XOf(cols, level), YOf(cols, level, i));
    var k :| 0 <= k < |column| && column[k] == m && b == Box(XOf(cols, level), YOf(cols, level, k));
    RowsInOrder(column, i, k);
    RowsApart(cols, level, i, k);
    assert k > i + 1 ==> column[i + 1] in column;
  }

  lemma StackIsCentred(cols: Columns, level: int)
    requires 0 < |Column(cols, level)| <= cols.maxRows
    ensures var first, last := YOf(cols, level, 0), YOf(cols, level, |Column(cols, level)| - 1);
      && 0 <= (Height(cols) - (last + BOX_H)) - first <= 1
      && (|Column(cols, level)| == cols.maxRows ==> first == PAD_Y && last + BOX_H == Height(cols) - PAD_Y)
  {
  }

  /** A column is centred: the space above its first box and below its last differ by at most one unit. */
  lemma {:induction false} ColumnsAreCentred(nodes: map<string, Node>, cols: Columns, n: string, m: string, a: Box, b: Box)
    requires Arranged(nodes, cols) && DrawnAt(nodes, cols, n, a) && DrawnAt(nodes, cols, m, b)
    requires nodes[n].level == nodes[m].level
    requires forall o :: o in nodes && nodes[o].level == nodes[n].level ==> !Less(o, n) && !Less(m, o)
    ensures 0 <= (Height(cols) - (b.y + BOX_H)) - a.y <= 1
    ensures |Column(cols, nodes[n].level)| == cols.maxRows ==> a.y == PAD_Y && b.y + BOX_H == Height(cols) - PAD_Y
  {
    hide XOf, YOf, Height, Less;
    var level := nodes[n].level;
    var column := Column(cols, level);
    var i :| 0 <= i < |column| && column[i] == n && a == Box(XOf(cols, level), YOf(cols, level, i));
    var k :| 0 <= k < |column| && column[k] == m && b == Box(XOf(cols, level), YOf(cols, level, k));
    assert column[0] in column && column[|column| - 1] in column;
    assert i == 0 && k == |column| - 1;
    StackIsCentred(cols, level);
  }
}
