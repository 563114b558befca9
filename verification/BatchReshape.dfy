// Folding and unfolding the batch dimension, and unfolding column chunks, in verl/protocol.py.
module BatchReshape {
  import opened Arithmetic
  import opened Options
  import opened Tensors

  // ---- fold_batch_dim and unfold_batch_dim ----

  // A row, or several rows folded into one.
  datatype Row<T> = Cell(value: T) | Folded(rows: seq<Row<T>>)

  type Columns<T> = map<string, seq<Row<T>>>

  function FoldRows<T>(col: seq<Row<T>>, n: nat): seq<Row<T>>
    requires n >= 1 && |col| % n == 0
  {
    assert |col| == n * (|col| / n);
    Wrap(Blocks(col, n, |col| / n))
  }

  function Wrap<T>(blocks: seq<seq<Row<T>>>): (r: seq<Row<T>>)
    ensures |r| == |blocks|
    ensures forall i :: 0 <= i < |r| ==> r[i] == Folded(blocks[i])
  {
    if blocks == [] then [] else [Folded(blocks[0])] + Wrap(blocks[1..])
  }

  function UnfoldRows<T>(col: seq<Row<T>>): seq<Row<T>> {
    if col == [] then [] else (if col[0].Folded? then col[0].rows else []) + UnfoldRows(col[1..])
  }

  lemma {:induction false} UnfoldWrapped<T>(blocks: seq<seq<Row<T>>>)
    ensures UnfoldRows(Wrap(blocks)) == Flat(blocks)
  {
    if blocks != [] { UnfoldWrapped(blocks[1..]); }
  }

  lemma {:induction false} UnfoldFolded<T>(col: seq<Row<T>>, n: nat)
    requires n >= 1 && |col| % n == 0
    ensures |FoldRows(col, n)| == n && UnfoldRows(FoldRows(col, n)) == col
  {
    assert |col| == n * (|col| / n);
    BlocksShape(col, n, |col| / n);
    UnfoldWrapped(Blocks(col, n, |col| / n));
  }

  // Row i of a folded column holds rows i * size up to (i + 1) * size, size being rows / n.
  lemma {:induction false} FoldedRow<T>(col: seq<Row<T>>, n: nat, i: nat)
    requires n >= 1 && |col| % n == 0 && i < n
    ensures var size := |col| / n;
      && |FoldRows(col, n)| == n && i * size <= (i + 1) * size <= |col|
      && FoldRows(col, n)[i] == Folded(col[i * size..(i + 1) * size])
  {
    assert |col| == n * (|col| / n);
    BlocksShape(col, n, |col| / n);
    BlockAt(col, n, |col| / n, i);
  }

  // Unfolding lays the rows of all folded rows behind each other.
  lemma {:induction false} UnfoldedRows<T>(a: seq<Row<T>>, rows: seq<Row<T>>, b: seq<Row<T>>)
    ensures UnfoldRows(a + [Folded(rows)] + b) == UnfoldRows(a) + rows + UnfoldRows(b)
    ensures UnfoldRows<T>([]) == []
    decreases |a|
  {
    var all := a + [Folded(rows)] + b;
    if a == [] {
      assert all[0] == Folded(rows) && all[1..] == b;
    } else {
      assert all[0] == a[0] && all[1..] == a[1..] + [Folded(rows)] + b;
      UnfoldedRows(a[1..], rows, b);
    }
  }

  function FoldAll<T>(t: Columns<T>, rows: nat, n: nat): Columns<T>
    requires n >= 1 && rows % n == 0 && forall k :: k in t ==> |t[k]| == rows
  {
    map k | k in t :: FoldRows(t[k], n)
  }

  function UnfoldAll<T>(t: Columns<T>): Columns<T> { map k | k in t :: UnfoldRows(t[k]) }

  lemma {:induction false} UnfoldFoldAll<T>(t: Columns<T>, rows: nat, n: nat)
    requires n >= 1 && rows % n == 0 && forall k :: k in t ==> |t[k]| == rows
    ensures UnfoldAll(FoldAll(t, rows, n)) == t
  {
    forall k | k in t ensures UnfoldRows(FoldRows(t[k], n)) == t[k] { UnfoldFolded(t[k], n); }
  }

  // The dictionary of non-tensor columns, which batches can share.
  class Dict<T> {
    var columns: Columns<T>

    constructor (columns: Columns<T>)
      ensures this.columns == columns
    {
      this.columns := columns;
    }
  }

  class Batch<T> {
    var rows: nat
    var tensors: Columns<T>
    const others: Dict<T>

    constructor (rows: nat, tensors: Columns<T>, others: Dict<T>)
      ensures this.rows == rows && this.tensors == tensors && this.others == others
    {
      this.rows, this.tensors, this.others := rows, tensors, others;
    }

    ghost predicate Consistent()
      reads this, others
    {
      && (forall k :: k in tensors ==> |tensors[k]| == rows)
      && (forall k :: k in others.columns ==> |others.columns[k]| == rows)
    }
  }

  // None where the assertion on the new size fails or it is 0.  The dictionary of non-tensor columns
  // is rewritten in place and handed on: the argument's own tensors keep their old shape.
  method FoldBatchDim<T>(data: Batch<T>, n: nat) returns (r: Option<Batch<T>>)
    requires data.Consistent()
    modifies data.others
    ensures r.Some? <==> n >= 1 && data.rows % n == 0
    ensures r.None? ==> data.others.columns == old(data.others.columns)
    ensures r.Some? ==>
      && fresh(r.value) && r.value.others == data.others && r.value.rows == n
      && r.value.tensors == FoldAll(data.tensors, data.rows, n)
      && data.others.columns == FoldAll(old(data.others.columns), data.rows, n)
      && (data.others.columns == old(data.others.columns) <==> old(data.others.columns) == map[])
  {
    if n == 0 || data.rows % n != 0 { return None; }
    var todo := data.others.columns.Keys;
    while todo != {}
      invariant todo <= data.others.columns.Keys == old(data.others.columns.Keys)
      invariant forall k :: k in old(data.others.columns) ==>
        data.others.columns[k] == if k in todo then old(data.others.columns)[k]
                                  else FoldRows(old(data.others.columns)[k], n)
      decreases todo
    {
      var k :| k in todo;
      data.others.columns := data.others.columns[k := FoldRows(data.others.columns[k], n)];
      todo := todo - {k};
    }
    var folded := new Batch(n, FoldAll(data.tensors, data.rows, n), data.others);
    ArgumentKept(old(data.others.columns), data.rows, n);
    r := Some(folded);
  }

  // rows is the product of the first two dimensions, as the tensor dictionary infers it.
  method UnfoldBatchDim<T>(data: Batch<T>, rows: nat) returns (r: Batch<T>)
    ensures fresh(r) && fresh(r.others) && r.rows == rows
    ensures r.tensors == UnfoldAll(data.tensors) && r.others.columns == UnfoldAll(data.others.columns)
  {
    var columns: Columns<T> := map[];
    var todo := data.others.columns.Keys;
    while todo != {}
      invariant todo <= data.others.columns.Keys && columns.Keys == data.others.columns.Keys - todo
      invariant forall k :: k in columns ==> columns[k] == UnfoldRows(data.others.columns[k])
      decreases todo
    {
      var k :| k in todo;
      columns := columns[k := UnfoldRows(data.others.columns[k])];
      todo := todo - {k};
    }
    var others := new Dict(columns);
    r := new Batch(rows, UnfoldAll(data.tensors), others);
  }

  // Folding and unfolding gives back what the batch held.
  method FoldUnfold<T>(data: Batch<T>, n: nat) returns (r: Batch<T>)
    requires data.Consistent() && n >= 1 && data.rows % n == 0
    modifies data.others
    ensures r.tensors == data.tensors && r.others.columns == old(data.others.columns) && r.Consistent()
  {
    var f := FoldBatchDim(data, n);
    UnfoldFoldAll(data.tensors, data.rows, n);
    UnfoldFoldAll(old(data.others.columns), data.rows, n);
    r := UnfoldBatchDim(f.value, data.rows);
  }

  // Because the dictionary is shared, the argument's columns no longer agree on the number of rows
  // after folding, unless there are no non-tensor columns or the number of rows did not change.
  lemma {:induction false} ArgumentAfterFold<T>(columns: Columns<T>, rows: nat, n: nat)
    requires n >= 1 && rows % n == 0 && forall k :: k in columns ==> |columns[k]| == rows
    ensures (forall k :: k in FoldAll(columns, rows, n) ==> |FoldAll(columns, rows, n)[k]| == rows)
       <==> columns == map[] || n == rows
  {
    var f := FoldAll(columns, rows, n);
    forall k | k in columns ensures |f[k]| == n { UnfoldFolded(columns[k], n); }
    if columns != map[] && n != rows {
      var k :| k in columns;
      assert k in f && |f[k]| != rows;
    }
  }

  lemma {:induction false} NotItself<T>(x: Row<T>)
    ensures x != Folded([x])
  {
    if x.Folded? && |x.rows| == 1 { NotItself(x.rows[0]); }
  }

  // Folding changes every column, also one that keeps its number of rows, and an empty one.
  lemma {:induction false} FoldChanges<T>(col: seq<Row<T>>, n: nat)
    requires n >= 1 && |col| % n == 0
    ensures FoldRows(col, n) != col
  {
    hide FoldRows;
    UnfoldFolded(col, n);
    if |col| == n {
      FoldedSingly(col);
      NotItself(col[0]);
    }
  }

  lemma {:induction false} FoldedSingly<T>(col: seq<Row<T>>)
    requires col != []
    ensures |col| % |col| == 0 && |FoldRows(col, |col|)| == |col|
    ensures FoldRows(col, |col|)[0] == Folded([col[0]])
  {
    hide Wrap;
    Quotient(|col|, |col|, 1, 0);
    UnfoldFolded(col, |col|);
    assert Blocks(col, |col|, 1)[0] == col[..1] == [col[0]];
  }

  // Folding leaves the shared dictionary as it was if and only if there are no non-tensor columns.
  lemma {:induction false} ArgumentKept<T>(columns: Columns<T>, rows: nat, n: nat)
    requires n >= 1 && rows % n == 0 && forall k :: k in columns ==> |columns[k]| == rows
    ensures FoldAll(columns, rows, n) == columns <==> columns == map[]
  {
    if columns != map[] {
      var k :| k in columns;
      FoldChanges(columns[k], n);
      assert FoldAll(columns, rows, n)[k] == FoldRows(columns[k], n);
    }
  }

  // ---- unfold_column_chunks ----

  // A column without a second dimension, or with one of the given width.
  datatype Column<T> = Narrow(values: seq<T>) | Wide(width: nat, rows: seq<seq<T>>)

  function Height<T>(c: Column<T>): nat { if c.Narrow? then |c.values| else |c.rows| }

  predicate Shaped<T>(c: Column<T>) { c.Wide? ==> AllOf(c.rows, c.width) }

  // Where reshape(rows * n, width // n, ...) works.
  predicate CanSplit<T>(c: Column<T>, n: nat) {
    c.Wide? && n >= 1 && (|c.rows| == 0 || c.width % n == 0)
  }

  // That is, where there is a second dimension, n is not 0, and the new shape has as many cells.
  lemma {:induction false} CanSplitIff<T>(c: Column<T>, n: nat)
    ensures CanSplit(c, n) <==> c.Wide? && n >= 1 && (|c.rows| * n) * (c.width / n) == |c.rows| * c.width
  {
    if c.Wide? && n >= 1 && |c.rows| > 0 {
      var q, m := c.width / n, c.width % n;
      assert c.width == n * q + m;
      Products(|c.rows|, n, q);
      assert |c.rows| * c.width == |c.rows| * (n * q) + |c.rows| * m;
      if m > 0 { Times(|c.rows|, m); }
    }
  }

  // reshape is row-major: all cells in a line, cut anew.
  function SplitColumn<T>(c: Column<T>, n: nat): Column<T>
    requires Shaped(c) && CanSplit(c, n)
  {
    FlatShape(c.rows, c.width);
    SplitSize(|c.rows|, c.width, n);
    Recut(Flat(c.rows), |c.rows| * n, c.width / n)
  }

  function Recut<T>(cells: seq<T>, rows: nat, width: nat): Column<T>
    requires |cells| == rows * width
  {
    Wide(width, Blocks(cells, rows, width))
  }

  lemma {:induction false} SplitSize(rows: nat, width: nat, n: nat)
    requires n >= 1 && (rows == 0 || width % n == 0)
    ensures rows * n >= 0 && width / n >= 0 && rows * width == (rows * n) * (width / n)
  {
    Product(rows, n);
    if rows > 0 {
      assert width == n * (width / n);
      Products(rows, n, width / n);
    }
  }

  function RepeatColumn<T>(c: Column<T>, n: nat): Column<T> {
    match c
    case Narrow(v) => Narrow(Interleaved(v, n))
    case Wide(w, r) => Wide(w, Interleaved(r, n))
  }

  datatype Proto<T> = Proto(tensors: map<string, Column<T>>, others: map<string, Column<T>>)

  // split_keys=None takes no key for a tensor, but `key in None` raises for a non-tensor key.
  predicate Chosen(keys: Option<set<string>>, k: string) { keys.Some? && k in keys.value }

  ghost predicate CanUnfold<T>(d: Proto<T>, n: nat, keys: Option<set<string>>) {
    && (keys.None? ==> d.others == map[])
    && (forall k :: k in d.tensors && Chosen(keys, k) ==> CanSplit(d.tensors[k], n))
    && (forall k :: k in d.others && Chosen(keys, k) ==> CanSplit(d.others[k], n))
  }

  predicate AllShaped<T>(t: map<string, Column<T>>) { forall k :: k in t ==> Shaped(t[k]) }

  // The loops over the two kinds of columns; false where a call raises.
  method UnfoldColumns<T>(t: map<string, Column<T>>, n: nat, keys: Option<set<string>>)
    returns (ok: bool, r: map<string, Column<T>>)
    requires AllShaped(t)
    ensures ok <==> forall k :: k in t && Chosen(keys, k) ==> CanSplit(t[k], n)
    ensures ok ==> r.Keys == t.Keys && forall k :: k in t ==>
      r[k] == if Chosen(keys, k) then SplitColumn(t[k], n) else RepeatColumn(t[k], n)
  {
    r := map[];
    var todo := t.Keys;
    while todo != {}
      invariant todo <= t.Keys && r.Keys == t.Keys - todo
      invariant forall k :: k in r && Chosen(keys, k) ==> CanSplit(t[k], n)
      invariant forall k :: k in r ==>
        r[k] == if Chosen(keys, k) then SplitColumn(t[k], n) else RepeatColumn(t[k], n)
      decreases todo
    {
      var k :| k in todo;
      if Chosen(keys, k) {
        if !CanSplit(t[k], n) { return false, map[]; }
        r := r[k := SplitColumn(t[k], n)];
      } else {
        r := r[k := RepeatColumn(t[k], n)];
      }
      todo := todo - {k};
    }
    ok := true;
  }

  // Row i of a split column is block i mod n of row i / n; row i of any other column is row i / n.
  ghost predicate RowFrom<T>(c: Column<T>, split: bool, n: nat, r: Column<T>, i: nat)
    requires n >= 1 && i < Height(r) && i / n < Height(c)
  {
    if split then
      && c.Wide? && r.Wide? && r.width * n == c.width
      && (i % n) * r.width <= (i % n + 1) * r.width <= |c.rows[i / n]|
      && r.rows[i] == c.rows[i / n][(i % n) * r.width..(i % n + 1) * r.width]
    else if c.Narrow? then r.Narrow? && r.values[i] == c.values[i / n]
    else r.Wide? && r.width == c.width && r.rows[i] == c.rows[i / n]
  }

  lemma {:induction false} RepeatedRow<T>(c: Column<T>, n: nat, i: nat)
    requires n >= 1 && Shaped(c) && i < Height(c) * n
    ensures Height(RepeatColumn(c, n)) == Height(c) * n && i / n < Height(c)
    ensures RowFrom(c, false, n, RepeatColumn(c, n), i)
  {
    match c
    case Narrow(v) => InterleavedAt(v, n, i);
    case Wide(w, r) => InterleavedAt(r, n, i);
  }

  // Row q of a tensor of width w is cells q * w up to (q + 1) * w of all its cells.
  lemma {:induction false} FlatRow<T>(rows: seq<seq<T>>, w: nat, q: nat)
    requires AllOf(rows, w) && q < |rows|
    ensures q * w <= (q + 1) * w <= |Flat(rows)| && rows[q] == Flat(rows)[q * w..(q + 1) * w]
  {
    FlatShape(rows, w);
    BlockAt(Flat(rows), |rows|, w, q);
  }

  lemma {:induction false} CellOffset(i: nat, n: nat, b: nat, w: nat)
    requires n >= 1 && w == n * b
    ensures i * b == (i / n) * w + (i % n) * b
    ensures (i + 1) * b == (i / n) * w + (i % n + 1) * b
    ensures (i % n) * b <= (i % n + 1) * b <= w
  {
    var q, m := i / n, i % n;
    assert i == q * n + m;
    Regroup(q, n, m, b);
    assert n * b == b * n;
    assert (i + 1) * b == i * b + b && (m + 1) * b == m * b + b;
    Monotone(m + 1, n, b);
  }

  lemma {:induction false} SubSlice<T>(s: seq<T>, a: nat, b: nat, c: nat, d: nat)
    requires a <= b <= |s| && c <= d <= b - a
    ensures s[a..b][c..d] == s[a + c..a + d]
  {
    var t, u := s[a..b][c..d], s[a + c..a + d];
    forall i | 0 <= i < d - c ensures t[i] == u[i] { assert t[i] == s[a..b][c + i]; }
    assert t == u;
  }

  lemma {:induction false} SplitRow<T>(c: Column<T>, n: nat, i: nat)
    requires Shaped(c) && CanSplit(c, n) && i < Height(c) * n
    ensures Height(SplitColumn(c, n)) == Height(c) * n && i / n < Height(c)
    ensures RowFrom(c, true, n, SplitColumn(c, n), i)
  {
    hide Blocks, Flat;
    var b, w, cells := c.width / n, c.width, Flat(c.rows);
    QuotientBelow(i, |c.rows|, n);
    assert w == n * b;
    FlatShape(c.rows, w);
    SplitSize(|c.rows|, w, n);
    BlocksShape(cells, |c.rows| * n, b);
    BlockAt(cells, |c.rows| * n, b, i);
    FlatRow(c.rows, w, i / n);
    CellOffset(i, n, b, w);
    Products(i / n + 1, w, 1);
    SubSlice(cells, (i / n) * w, (i / n + 1) * w, (i % n) * b, (i % n + 1) * b);
  }

  // n consecutive rows of a split column make up the original row again.
  lemma {:induction false} JoinRows<T>(c: Column<T>, n: nat, q: nat)
    requires Shaped(c) && CanSplit(c, n) && q < Height(c)
    ensures Height(SplitColumn(c, n)) == Height(c) * n && q * n <= (q + 1) * n <= Height(c) * n
    ensures Flat(SplitColumn(c, n).rows[q * n..(q + 1) * n]) == c.rows[q]
  {
    hide Blocks, Flat;
    var b, w, cells := c.width / n, c.width, Flat(c.rows);
    assert w == n * b;
    FlatShape(c.rows, w);
    SplitSize(|c.rows|, w, n);
    var r := SplitColumn(c, n).rows;
    BlocksShape(cells, |c.rows| * n, b);
    Between(|c.rows|, n, q);
    FlatPart(r, b, q * n, (q + 1) * n);
    FlatRow(c.rows, w, q);
    Products(q, n, b);
    Products(q + 1, n, b);
  }

  // The cells of rows from a up to z.
  lemma {:induction false} FlatPart<T>(rows: seq<seq<T>>, b: nat, a: nat, z: nat)
    requires AllOf(rows, b) && a <= z <= |rows|
    ensures a * b <= z * b <= |Flat(rows)| && Flat(rows[a..z]) == Flat(rows)[a * b..z * b]
  {
    FlatAppend(rows[..z], rows[z..]);
    FlatAppend(rows[..a], rows[a..z]);
    assert rows[..z] + rows[z..] == rows && rows[..a] + rows[a..z] == rows[..z];
    FlatShape(rows[..z], b);
    FlatShape(rows[..a], b);
    Monotone(a, z, b);
  }

  method UnfoldColumnChunks<T>(d: Proto<T>, n: nat, keys: Option<set<string>>) returns (r: Option<Proto<T>>)
    requires AllShaped(d.tensors) && AllShaped(d.others)
    ensures r.Some? <==> CanUnfold(d, n, keys)
    ensures r.Some? ==> r.value.tensors.Keys == d.tensors.Keys && r.value.others.Keys == d.others.Keys
    ensures r.Some? ==> forall k :: k in d.tensors ==>
      r.value.tensors[k] ==
        if keys.Some? && k in keys.value then SplitColumn(d.tensors[k], n) else RepeatColumn(d.tensors[k], n)
    ensures r.Some? ==> forall k :: k in d.others ==>
      r.value.others[k] ==
        if keys.Some? && k in keys.value then SplitColumn(d.others[k], n) else RepeatColumn(d.others[k], n)
  {
    var ok, tensors := UnfoldColumns(d.tensors, n, keys);
    if !ok { return None; }
    if keys.None? && d.others.Keys != {} { return None; }
    var fine, others := UnfoldColumns(d.others, n, keys);
    r := if fine then Some(Proto(tensors, others)) else None;
  }
}
