// The batch algebra of verl/protocol.py.  A batch holds tensor columns and non-tensor columns; every
// operation below cuts, repeats or joins the two kinds by different library calls.  What makes a
// row a row is that all columns are taken at the same indices, which `Pick` states.
module DataProto {
  import opened Arithmetic
  import opened Options
  import opened Tensors

  // batch may be None; then `rows` is what the non-tensor columns have.
  datatype Proto<T> = Proto(hasBatch: bool, rows: nat, tensors: map<string, seq<T>>, others: map<string, seq<T>>)

  type Table<T> = map<string, seq<T>>

  predicate Tall<T>(t: Table<T>, rows: nat) { forall k :: k in t ==> |t[k]| == rows }

  predicate Valid<T>(d: Proto<T>) {
    && Tall(d.tensors, d.rows) && Tall(d.others, d.rows)
    && (!d.hasBatch ==> d.tensors == map[]) && (d.rows >= 1 ==> d.hasBatch || d.others != map[])
  }

  // ---- taking rows at indices ----

  predicate Within(idxs: seq<nat>, rows: nat) { forall i :: 0 <= i < |idxs| ==> idxs[i] < rows }

  function At<T>(col: seq<T>, idxs: seq<nat>): seq<T> {
    if idxs == [] then []
    else (if idxs[0] < |col| then [col[idxs[0]]] else []) + At(col, idxs[1..])
  }

  function AtRows<T>(t: Table<T>, idxs: seq<nat>): Table<T> { map k | k in t :: At(t[k], idxs) }

  // The given rows of every column.
  function Pick<T>(d: Proto<T>, idxs: seq<nat>): Proto<T> {
    Proto(d.hasBatch, |idxs|, AtRows(d.tensors, idxs), AtRows(d.others, idxs))
  }

  lemma {:induction false} AtEach<T>(col: seq<T>, idxs: seq<nat>)
    requires Within(idxs, |col|)
    ensures |At(col, idxs)| == |idxs| && forall i :: 0 <= i < |idxs| ==> At(col, idxs)[i] == col[idxs[i]]
  {
    if idxs != [] {
      AtEach(col, idxs[1..]);
      assert forall i :: 0 < i < |idxs| ==> idxs[i] == idxs[1..][i - 1];
    }
  }

  lemma {:induction false} AtAppend<T>(col: seq<T>, a: seq<nat>, b: seq<nat>)
    ensures At(col, a + b) == At(col, a) + At(col, b)
  {
    if a == [] {
      assert a + b == b;
    } else {
      assert (a + b)[1..] == a[1..] + b;
      AtAppend(col, a[1..], b);
    }
  }

  function Range(a: nat, b: nat): (r: seq<nat>)
    requires a <= b
    ensures |r| == b - a && forall i :: 0 <= i < |r| ==> r[i] == a + i
  {
    seq(b - a, i requires 0 <= i < b - a => a + i)
  }

  lemma {:induction false} AtRange<T>(col: seq<T>, a: nat, b: nat)
    requires a <= b <= |col|
    ensures At(col, Range(a, b)) == col[a..b]
  {
    AtEach(col, Range(a, b));
  }

  lemma {:induction false} AllRows<T>(t: Table<T>, rows: nat)
    requires Tall(t, rows)
    ensures AtRows(t, Range(0, rows)) == t
  {
    forall k | k in t ensures At(t[k], Range(0, rows)) == t[k] { AtRange(t[k], 0, rows); }
  }

  lemma {:induction false} PickAll<T>(d: Proto<T>)
    requires Valid(d)
    ensures Pick(d, Range(0, d.rows)) == d
  {
    AllRows(d.tensors, d.rows);
    AllRows(d.others, d.rows);
  }

  lemma {:induction false} TallRows<T>(t: Table<T>, rows: nat, idxs: seq<nat>)
    requires Tall(t, rows) && Within(idxs, rows)
    ensures Tall(AtRows(t, idxs), |idxs|) && AtRows(t, idxs).Keys == t.Keys
  {
    forall k | k in t ensures |At(t[k], idxs)| == |idxs| { AtEach(t[k], idxs); }
  }

  lemma {:induction false} PickValid<T>(d: Proto<T>, idxs: seq<nat>)
    requires Valid(d) && Within(idxs, d.rows)
    ensures Valid(Pick(d, idxs)) && Pick(d, idxs).rows == |idxs|
  {
    hide AtRows;
    TallRows(d.tensors, d.rows, idxs);
    TallRows(d.others, d.rows, idxs);
    if idxs != [] { assert idxs[0] < d.rows; }
    assert d.others != map[] ==> AtRows(d.others, idxs) != map[] by {
      if d.others != map[] {
        var k :| k in d.others.Keys;
        assert k in AtRows(d.others, idxs).Keys;
      }
    }
  }

  // ---- slicing: data[a:b], clamped to the rows there are ----

  function SliceRows(rows: nat, a: nat, b: nat): (r: seq<nat>)
    ensures Within(r, rows)
  {
    if a <= b <= rows then Range(a, b) else if a <= rows < b then Range(a, rows) else []
  }

  function CutRows<T>(t: Table<T>, a: nat, b: nat): Table<T> { map k | k in t :: Clamp(t[k], a, b) }

  function Slice<T>(d: Proto<T>, a: nat, b: nat): Proto<T> {
    Proto(d.hasBatch, |SliceRows(d.rows, a, b)|, CutRows(d.tensors, a, b), CutRows(d.others, a, b))
  }

  lemma {:induction false} CutIsAt<T>(t: Table<T>, rows: nat, a: nat, b: nat)
    requires Tall(t, rows)
    ensures CutRows(t, a, b) == AtRows(t, SliceRows(rows, a, b))
  {
    forall k | k in t ensures Clamp(t[k], a, b) == At(t[k], SliceRows(rows, a, b)) {
      if a <= b <= rows { AtRange(t[k], a, b); }
      if a <= rows < b { AtRange(t[k], a, rows); }
    }
  }

  lemma {:induction false} SliceIsPick<T>(d: Proto<T>, a: nat, b: nat)
    requires Valid(d)
    ensures Slice(d, a, b) == Pick(d, SliceRows(d.rows, a, b))
  {
    CutIsAt(d.tensors, d.rows, a, b);
    CutIsAt(d.others, d.rows, a, b);
  }

  // data.slice(start, end, step): bounds may be missing or count from the end.  Tensors refuse a step
  // below 1.
  function Bound(x: Option<int>, missing: nat, n: nat): (r: nat)
    requires missing <= n
    ensures r <= n
  {
    match x
    case None => missing
    case Some(i) => if i + n < 0 then 0 else if i < 0 then n + i else if i <= n then i else n
  }

  // Every step-th element from lo to hi.
  function Strided<T>(s: seq<T>, lo: nat, hi: nat, step: nat): seq<T>
    requires step >= 1 && hi <= |s|
    decreases hi - lo
  {
    if lo >= hi then [] else [s[lo]] + Strided(s, lo + step, hi, step)
  }

  function StridedRows(rows: nat, lo: nat, hi: nat, step: nat): (r: seq<nat>)
    requires step >= 1 && hi <= rows
    ensures Within(r, rows) && |r| == (if lo >= hi then 0 else (hi - lo - 1) / step + 1)
    ensures forall i :: 0 <= i < |r| ==> r[i] == lo + i * step
    decreases hi - lo
  {
    if lo >= hi then [] else
      StrideCount(lo, hi, step);
      [lo] + StridedRows(rows, lo + step, hi, step)
  }

  lemma {:induction false} StrideCount(lo: nat, hi: nat, step: nat)
    requires step >= 1 && lo < hi
    ensures (hi - lo - 1) / step == if lo + step >= hi then 0 else (hi - (lo + step) - 1) / step + 1
  {
    if lo + step < hi {
      var m := hi - lo - 1;
      Quotient(m, step, (m - step) / step + 1, (m - step) % step);
    } else {
      Quotient(hi - lo - 1, step, 0, hi - lo - 1);
    }
  }

  function CutStrided<T>(t: Table<T>, start: Option<int>, end: Option<int>, step: nat): Table<T>
    requires step >= 1
  {
    map k | k in t :: Strided(t[k], Bound(start, 0, |t[k]|), Bound(end, |t[k]|, |t[k]|), step)
  }

  function SliceBy<T>(d: Proto<T>, start: Option<int>, end: Option<int>, step: nat): Proto<T>
    requires step >= 1
  {
    Proto(d.hasBatch, |SlicedRows(d.rows, start, end, step)|,
          CutStrided(d.tensors, start, end, step), CutStrided(d.others, start, end, step))
  }

  function SlicedRows(rows: nat, start: Option<int>, end: Option<int>, step: nat): seq<nat>
    requires step >= 1
  {
    StridedRows(rows, Bound(start, 0, rows), Bound(end, rows, rows), step)
  }

  lemma {:induction false} StridedIsAt<T>(col: seq<T>, lo: nat, hi: nat, step: nat)
    requires step >= 1 && hi <= |col|
    ensures Strided(col, lo, hi, step) == At(col, StridedRows(|col|, lo, hi, step))
    decreases hi - lo
  {
    if lo < hi {
      StridedIsAt(col, lo + step, hi, step);
      var rest := StridedRows(|col|, lo + step, hi, step);
      assert ([lo] + rest)[0] == lo && ([lo] + rest)[1..] == rest;
    }
  }

  // A slice takes rows lo, lo + step, ... of every column, the same of each.
  lemma {:induction false} SliceByIsPick<T>(d: Proto<T>, start: Option<int>, end: Option<int>, step: nat)
    requires Valid(d) && step >= 1
    ensures SliceBy(d, start, end, step) == Pick(d, SlicedRows(d.rows, start, end, step))
  {
    CutStridedIs(d.tensors, d.rows, start, end, step);
    CutStridedIs(d.others, d.rows, start, end, step);
  }

  // Where a bound of a slice falls: missing, counted from the end, or beyond either end.
  predicate BoundIs(x: Option<int>, missing: nat, n: nat, b: nat) {
    match x
    case None => b == missing
    case Some(i) =>
      if i >= 0 then b == i || (i > n && b == n) else b == n + i || (n + i < 0 && b == 0)
  }

  // Row p is in the slice if it is between the bounds and a whole number of steps from the first.
  lemma {:induction false} SlicedAre(rows: nat, start: Option<int>, end: Option<int>, step: nat, p: nat)
    returns (lo: nat, hi: nat)
    requires step >= 1
    ensures BoundIs(start, 0, rows, lo) && BoundIs(end, rows, rows, hi) && lo <= rows && hi <= rows
    ensures Ascending(SlicedRows(rows, start, end, step))
    ensures p in SlicedRows(rows, start, end, step) <==> lo <= p < hi && (p - lo) % step == 0
  {
    hide StridedRows;
    lo, hi := Bound(start, 0, rows), Bound(end, rows, rows);
    StridedAscend(rows, lo, hi, step);
    StridedHas(rows, lo, hi, step, p);
  }

  lemma {:induction false} StridedAscend(rows: nat, lo: nat, hi: nat, step: nat)
    requires step >= 1 && hi <= rows
    ensures Ascending(StridedRows(rows, lo, hi, step))
  {
    hide StridedRows;
    var r := StridedRows(rows, lo, hi, step);
    forall i, j | 0 <= i < j < |r| ensures r[i] < r[j] {
      assert j * step == i * step + (j - i) * step;
      Arithmetic.Times(j - i, step);
    }
  }

  lemma {:induction false} StridedHas(rows: nat, lo: nat, hi: nat, step: nat, p: nat)
    requires step >= 1 && hi <= rows
    ensures p in StridedRows(rows, lo, hi, step) <==> lo <= p < hi && (p - lo) % step == 0
    decreases hi - lo
  {
    if lo < hi {
      StridedHas(rows, lo + step, hi, step, p);
      var rest := StridedRows(rows, lo + step, hi, step);
      assert StridedRows(rows, lo, hi, step) == [lo] + rest;
      if p >= lo { OneLess(p - lo, step); }
    }
  }

  lemma {:induction false} CutStridedIs<T>(t: Table<T>, rows: nat, start: Option<int>, end: Option<int>, step: nat)
    requires Tall(t, rows) && step >= 1
    ensures CutStrided(t, start, end, step) == AtRows(t, SlicedRows(rows, start, end, step))
  {
    hide At, Strided, StridedRows, Bound;
    forall k | k in t ensures CutStrided(t, start, end, step)[k] == At(t[k], SlicedRows(rows, start, end, step)) {
      StridedIsAt(t[k], Bound(start, 0, rows), Bound(end, rows, rows), step);
    }
  }

  // ---- select_idxs: a mask, or positions that may count from the end ----

  datatype Selector = Mask(flags: seq<bool>) | Positions(idxs: seq<int>)

  predicate Fits(sel: Selector, rows: nat) {
    match sel
    case Mask(flags) => |flags| == rows
    case Positions(idxs) => forall i :: 0 <= i < |idxs| ==> 0 <= idxs[i] + rows && idxs[i] < rows
  }

  // col[flags]
  function Masked<T>(col: seq<T>, flags: seq<bool>): seq<T>
    requires |flags| == |col|
  {
    if col == [] then []
    else Masked(col[..|col| - 1], flags[..|col| - 1]) + (if flags[|col| - 1] then [col[|col| - 1]] else [])
  }

  function Wrap(i: int, n: nat): nat
    requires 0 <= i + n && i < n
  {
    if i < 0 then n + i else i
  }

  function Indexed<T>(col: seq<T>, sel: Selector): seq<T>
    requires Fits(sel, |col|)
  {
    match sel
    case Mask(flags) => Masked(col, flags)
    case Positions(idxs) => seq(|idxs|, i requires 0 <= i < |idxs| => col[Wrap(idxs[i], |col|)])
  }

  // The positions of a mask's true entries.
  function Flagged(flags: seq<bool>): (r: seq<nat>)
    ensures Within(r, |flags|)
  {
    if flags == [] then []
    else Flagged(flags[..|flags| - 1]) + (if flags[|flags| - 1] then [|flags| - 1] else [])
  }

  predicate Ascending(s: seq<nat>) { forall i, j :: 0 <= i < j < |s| ==> s[i] < s[j] }

  // All of them, once each and in order.
  lemma {:induction false} FlaggedAll(flags: seq<bool>, p: nat)
    ensures Ascending(Flagged(flags))
    ensures p in Flagged(flags) <==> p < |flags| && flags[p]
  {
    if flags != [] {
      var n := |flags| - 1;
      FlaggedAll(flags[..n], p);
      assert Within(Flagged(flags[..n]), n);
    }
  }

  function SelectedRows(sel: Selector, rows: nat): (r: seq<nat>)
    requires Fits(sel, rows)
    ensures Within(r, rows)
  {
    match sel
    case Mask(flags) => Flagged(flags)
    case Positions(idxs) => seq(|idxs|, i requires 0 <= i < |idxs| => Wrap(idxs[i], rows))
  }

  // None where a column cannot be indexed; without columns nothing is.
  function SelectIdxs<T>(d: Proto<T>, sel: Selector): Option<Proto<T>>
    requires Valid(d)
  {
    var size := match sel case Mask(flags) => |Flagged(flags)| case Positions(idxs) => |idxs|;
    if d.tensors == map[] && d.others == map[] then Some(Proto(d.hasBatch, size, map[], map[]))
    else if !Fits(sel, d.rows) then None
    else Some(Proto(d.hasBatch, size, IndexTable(d.tensors, d.rows, sel),
                    IndexTable(d.others, d.rows, sel)))
  }

  function IndexTable<T>(t: Table<T>, rows: nat, sel: Selector): Table<T>
    requires Tall(t, rows) && Fits(sel, rows)
  {
    map k | k in t :: Indexed(t[k], sel)
  }

  lemma {:induction false} IndexTableIs<T>(t: Table<T>, rows: nat, sel: Selector)
    requires Tall(t, rows) && Fits(sel, rows)
    ensures IndexTable(t, rows, sel) == AtRows(t, SelectedRows(sel, rows))
  {
    hide At, Indexed, SelectedRows, Fits;
    forall k | k in t ensures Indexed(t[k], sel) == At(t[k], SelectedRows(sel, rows)) { IndexedIsAt(t[k], sel); }
  }

  lemma {:induction false} AtPrefix<T>(col: seq<T>, n: nat, idxs: seq<nat>)
    requires n <= |col| && Within(idxs, n)
    ensures At(col[..n], idxs) == At(col, idxs)
  {
    hide At;
    AtEach(col[..n], idxs);
    AtEach(col, idxs);
  }

  lemma {:induction false} AtOne<T>(col: seq<T>, n: nat)
    requires n < |col|
    ensures At(col, [n]) == [col[n]] && At(col, []) == []
  {
    assert [n][1..] == [];
  }

  lemma {:induction false} MaskedIsAt<T>(col: seq<T>, flags: seq<bool>)
    requires |flags| == |col|
    ensures Masked(col, flags) == At(col, Flagged(flags))
  {
    hide At, Within;
    if col == [] {
      assert Flagged(flags) == [];
      AtNone(col);
    } else {
      var n := |col| - 1;
      MaskedIsAt(col[..n], flags[..n]);
      AtPrefix(col, n, Flagged(flags[..n]));
      AtOne(col, n);
      AtAppend(col, Flagged(flags[..n]), if flags[n] then [n] else []);
    }
  }

  lemma {:induction false} AtNone<T>(col: seq<T>)
    ensures At(col, []) == []
  {}

  lemma {:induction false} IndexedIsAt<T>(col: seq<T>, sel: Selector)
    requires Fits(sel, |col|)
    ensures Indexed(col, sel) == At(col, SelectedRows(sel, |col|))
  {
    match sel
    case Mask(flags) => MaskedIsAt(col, flags);
    case Positions(_) => AtEach(col, SelectedRows(sel, |col|));
  }

  // Selecting takes the same rows of every column, or fails where the selector does not fit.
  lemma {:induction false} SelectIsPick<T>(d: Proto<T>, sel: Selector)
    requires Valid(d)
    ensures Fits(sel, d.rows) ==> SelectIdxs(d, sel) == Some(Pick(d, SelectedRows(sel, d.rows)))
    ensures SelectIdxs(d, sel).None? <==> !Fits(sel, d.rows) && (d.tensors != map[] || d.others != map[])
  {
    if Fits(sel, d.rows) {
      IndexTableIs(d.tensors, d.rows, sel);
      IndexTableIs(d.others, d.rows, sel);
    }
  }

  // Position i of a selection is that row, counted from the end if it is negative; of a mask, the flagged
  // rows in order.
  lemma {:induction false} SelectedAre(sel: Selector, rows: nat)
    requires Fits(sel, rows)
    ensures sel.Positions? ==> |SelectedRows(sel, rows)| == |sel.idxs| && forall i :: 0 <= i < |sel.idxs| ==>
      SelectedRows(sel, rows)[i] == if sel.idxs[i] >= 0 then sel.idxs[i] else rows + sel.idxs[i]
    ensures sel.Mask? ==> Ascending(SelectedRows(sel, rows)) && forall p: nat ::
      p in SelectedRows(sel, rows) <==> p < rows && sel.flags[p]
  {
    if sel.Mask? {
      FlaggedAll(sel.flags, 0);
      forall p: nat ensures p in Flagged(sel.flags) <==> p < rows && sel.flags[p] { FlaggedAll(sel.flags, p); }
    }
  }

  // ---- concat: torch.cat on the tensors, np.concatenate on the others ----

  predicate SameKeys<T>(a: Proto<T>, b: Proto<T>) {
    a.hasBatch == b.hasBatch && a.tensors.Keys == b.tensors.Keys && a.others.Keys == b.others.Keys
  }

  predicate Alike<T>(ds: seq<Proto<T>>) {
    |ds| >= 1 && forall i :: 0 <= i < |ds| ==> SameKeys(ds[0], ds[i])
  }

  function JoinRows<T>(a: Table<T>, b: Table<T>): Table<T>
    requires a.Keys == b.Keys
  {
    map k | k in a :: a[k] + b[k]
  }

  function Join<T>(a: Proto<T>, b: Proto<T>): Proto<T>
    requires SameKeys(a, b)
  {
    Proto(a.hasBatch, a.rows + b.rows, JoinRows(a.tensors, b.tensors), JoinRows(a.others, b.others))
  }

  // The keys of all parts have to be the same: the source asserts it.
  function Concat<T>(ds: seq<Proto<T>>): (r: Proto<T>)
    requires Alike(ds)
    ensures SameKeys(ds[0], r)
  {
    if |ds| == 1 then ds[0]
    else
      assert Alike(ds[..|ds| - 1]);
      Join(Concat(ds[..|ds| - 1]), ds[|ds| - 1])
  }

  lemma {:induction false} JoinAt<T>(t: Table<T>, a: seq<nat>, b: seq<nat>)
    ensures AtRows(t, a).Keys == AtRows(t, b).Keys == t.Keys
    ensures JoinRows(AtRows(t, a), AtRows(t, b)) == AtRows(t, a + b)
  {
    forall k | k in t ensures At(t[k], a) + At(t[k], b) == At(t[k], a + b) { AtAppend(t[k], a, b); }
  }

  lemma {:induction false} JoinPicks<T>(d: Proto<T>, a: seq<nat>, b: seq<nat>)
    ensures SameKeys(Pick(d, a), Pick(d, b)) && Join(Pick(d, a), Pick(d, b)) == Pick(d, a + b)
  {
    hide AtRows, JoinRows;
    JoinAt(d.tensors, a, b);
    JoinAt(d.others, a, b);
  }

  // parts are picks of d whose indices follow each other to idxs.
  ghost predicate Picks<T>(d: Proto<T>, parts: seq<Proto<T>>, idxs: seq<nat>) {
    Alike(parts) && Concat(parts) == Pick(d, idxs)
  }

  lemma {:induction false} FirstPick<T>(d: Proto<T>, idxs: seq<nat>)
    ensures Picks(d, [Pick(d, idxs)], idxs)
  {}

  lemma {:induction false} NextPick<T>(d: Proto<T>, parts: seq<Proto<T>>, idxs: seq<nat>, more: seq<nat>)
    requires Picks(d, parts, idxs)
    ensures Picks(d, parts + [Pick(d, more)], idxs + more)
  {
    hide Pick, Join;
    var all := parts + [Pick(d, more)];
    JoinPicks(d, idxs, more);
    assert all[..|parts|] == parts;
    assert SameKeys(all[0], Pick(d, idxs)) && Alike(all);
  }

  // ---- padding to a multiple of a divisor ----

  // Row i of the padded batch is row i mod rows of the original.
  function Wrapped(rows: nat, n: nat): (r: seq<nat>)
    requires rows >= 1
    ensures |r| == n && Within(r, rows) && forall i :: 0 <= i < n ==> r[i] == i % rows
  {
    seq(n, i requires 0 <= i < n => i % rows)
  }

  function Least(rows: nat, divisor: nat): (n: nat)
    requires divisor >= 1
    ensures n % divisor == 0 && rows <= n < rows + divisor
  {
    var r := rows % divisor;
    assert rows == rows / divisor * divisor + r;
    if r == 0 then rows
    else
      assert rows + divisor - r == (rows / divisor + 1) * divisor;
      Quotient(rows + divisor - r, divisor, rows / divisor + 1, 0);
      rows + divisor - r
  }

  // Up to take more rows, starting where a whole number of copies has been laid.
  lemma {:induction false} WrapMore(rows: nat, n: nat, take: nat)
    requires rows >= 1 && n % rows == 0 && take <= rows
    ensures Wrapped(rows, n) + Range(0, take) == Wrapped(rows, n + take)
    ensures take == rows ==> (n + take) % rows == 0
  {
    var q := n / rows;
    assert n == q * rows;
    forall i | 0 <= i < take ensures (n + i) % rows == Range(0, take)[i] {
      if i < rows { Quotient(n + i, rows, q, i); }
    }
    if take == rows {
      assert n + rows == (q + 1) * rows;
      Quotient(n + rows, rows, q + 1, 0);
    }
  }

  lemma {:induction false} PadSize(rows: nat, divisor: nat)
    requires divisor >= 1
    ensures rows % divisor == 0 ==> Least(rows, divisor) == rows
    ensures rows % divisor != 0 ==> rows >= 1 && Least(rows, divisor) == rows + (divisor - rows % divisor)
  {}

  lemma {:induction false} WrapOnce<T>(d: Proto<T>)
    requires Valid(d) && d.rows >= 1
    ensures Pick(d, Wrapped(d.rows, d.rows)) == d && d.rows % d.rows == 0
  {
    PickAll(d);
    WrapMore(d.rows, 0, d.rows);
    assert Wrapped(d.rows, 0) + Range(0, d.rows) == Range(0, d.rows);
  }

  method PadToDivisor<T>(data: Proto<T>, divisor: nat) returns (padded: Proto<T>, padSize: nat)
    requires Valid(data) && divisor >= 1
    ensures padSize == Least(data.rows, divisor) - data.rows
    ensures data.rows == 0 ==> padded == data
    ensures data.rows >= 1 ==> padded == Pick(data, Wrapped(data.rows, Least(data.rows, divisor)))
  {
    hide Pick, Concat, Picks, Slice, Valid, Least, Wrapped, Alike;
    PadSize(data.rows, divisor);
    if data.rows >= 1 { WrapOnce(data); }
    if data.rows % divisor != 0 {
      padSize := divisor - data.rows % divisor;
      var parts: seq<Proto<T>>, remaining: nat := [], padSize;
      ghost var n := data.rows;
      FirstPick(data, Wrapped(data.rows, n));
      assert [data] + parts == [data];
      while remaining > 0
        invariant n + remaining == Least(data.rows, divisor)
        invariant remaining > 0 ==> n % data.rows == 0
        invariant Picks(data, [data] + parts, Wrapped(data.rows, n))
      {
        var take := if remaining <= data.rows then remaining else data.rows;
        var part := Slice(data, 0, take);
        SliceIsPick(data, 0, take);
        WrapMore(data.rows, n, take);
        NextPick(data, [data] + parts, Wrapped(data.rows, n), Range(0, take));
        assert ([data] + parts) + [part] == [data] + (parts + [part]);
        parts := parts + [part];
        n, remaining := n + take, remaining - take;
      }
      PicksMeans(data, [data] + parts, Wrapped(data.rows, n));
      padded := Concat([data] + parts);
    } else {
      padSize, padded := 0, data;
    }
  }

  lemma {:induction false} PicksMeans<T>(d: Proto<T>, parts: seq<Proto<T>>, idxs: seq<nat>)
    requires Picks(d, parts, idxs)
    ensures Alike(parts) && Concat(parts) == Pick(d, idxs)
  {}

  // data[:-pad]
  function Unpad<T>(d: Proto<T>, pad: nat): Proto<T> {
    if pad == 0 then d else Slice(d, 0, if pad <= d.rows then d.rows - pad else 0)
  }

  lemma {:induction false} UnpadIs<T>(d: Proto<T>, pad: nat)
    requires Valid(d)
    ensures Unpad(d, pad) == Pick(d, Range(0, if pad <= d.rows then d.rows - pad else 0))
  {
    hide Pick, Slice, Valid;
    if pad == 0 { PickAll(d); } else { SliceIsPick(d, 0, if pad <= d.rows then d.rows - pad else 0); }
  }

  lemma {:induction false} AtAt<T>(t: Table<T>, rows: nat, a: seq<nat>, b: seq<nat>, c: seq<nat>)
    requires Tall(t, rows) && Within(a, rows) && Within(b, |a|) && |c| == |b|
    requires forall i :: 0 <= i < |b| ==> c[i] == a[b[i]]
    ensures AtRows(AtRows(t, a), b) == AtRows(t, c)
  {
    assert Within(c, rows);
    forall k | k in t ensures At(At(t[k], a), b) == At(t[k], c) {
      AtEach(t[k], a);
      AtEach(At(t[k], a), b);
      AtEach(t[k], c);
    }
  }

  // Rows b of rows a of d.
  lemma {:induction false} PickPick<T>(d: Proto<T>, a: seq<nat>, b: seq<nat>, c: seq<nat>)
    requires Valid(d) && Within(a, d.rows) && Within(b, |a|) && |c| == |b|
    requires forall i :: 0 <= i < |b| ==> c[i] == a[b[i]]
    ensures Pick(Pick(d, a), b) == Pick(d, c)
  {
    hide AtRows;
    AtAt(d.tensors, d.rows, a, b, c);
    AtAt(d.others, d.rows, a, b, c);
  }

  lemma {:induction false} WrappedStart(rows: nat, n: nat, i: nat)
    requires i < rows <= n
    ensures |Wrapped(rows, n)| == n && Wrapped(rows, n)[i] == i
  {
    hide Wrapped;
    Quotient(i, rows, 0, i);
  }

  // Unpadding takes back what padding added.
  lemma {:induction false} PadUnpad<T>(d: Proto<T>, divisor: nat)
    requires Valid(d) && divisor >= 1 && d.rows >= 1
    ensures var n := Least(d.rows, divisor);
      Unpad(Pick(d, Wrapped(d.rows, n)), n - d.rows) == d
  {
    hide Pick, Slice, Least, Wrapped, Range, Valid;
    var n := Least(d.rows, divisor);
    var padded := Pick(d, Wrapped(d.rows, n));
    PickValid(d, Wrapped(d.rows, n));
    WrapOnce(d);
    if n > d.rows {
      SliceIsPick(padded, 0, d.rows);
      var b := Range(0, d.rows);
      forall i | 0 <= i < d.rows ensures Wrapped(d.rows, n)[b[i]] == b[i] { WrappedStart(d.rows, n, i); }
      PickPick(d, Wrapped(d.rows, n), b, b);
      PickAll(d);
    }
  }

  // ---- split, chunk and back ----

  // [self[i : i + size] for i in range(from, len(self), size)]
  function Split<T>(d: Proto<T>, from: nat, size: nat): seq<Proto<T>>
    requires size >= 1
    decreases d.rows - from
  {
    if from >= d.rows then [] else [Slice(d, from, from + size)] + Split(d, from + size, size)
  }

  lemma {:induction false} SplitPicks<T>(d: Proto<T>, from: nat, size: nat, done: seq<Proto<T>>)
    requires Valid(d) && size >= 1 && from < d.rows && Picks(d, done, Range(0, from))
    ensures Picks(d, done + Split(d, from, size), Range(0, d.rows))
    decreases d.rows - from
  {
    hide Pick, Slice, Picks, Valid;
    var end := if from + size <= d.rows then from + size else d.rows;
    SliceIsPick(d, from, from + size);
    NextPick(d, done, Range(0, from), Range(from, end));
    assert Range(0, from) + Range(from, end) == Range(0, end);
    var next := done + [Slice(d, from, from + size)];
    if end < d.rows {
      SplitPicks(d, end, size, next);
      assert next + Split(d, end, size) == done + Split(d, from, size);
    } else {
      assert Split(d, from, size) == [Slice(d, from, from + size)] + Split(d, from + size, size);
      assert done + Split(d, from, size) == next;
    }
  }

  // Concatenating the parts of a split restores the batch.
  lemma {:induction false} SplitConcat<T>(d: Proto<T>, size: nat)
    requires Valid(d) && size >= 1 && d.rows >= 1
    ensures Alike(Split(d, 0, size)) && Concat(Split(d, 0, size)) == d
  {
    hide Pick, Slice, Picks, Valid;
    var end := if size <= d.rows then size else d.rows;
    SliceIsPick(d, 0, size);
    var first := [Slice(d, 0, size)];
    FirstPick(d, Range(0, end));
    assert Split(d, 0, size) == first + Split(d, size, size);
    if end < d.rows { SplitPicks(d, end, size, first); } else { assert first + [] == first; }
    PicksMeans(d, Split(d, 0, size), Range(0, d.rows));
    PickAll(d);
  }

  // Part i holds rows i * size up to (i + 1) * size, or to the end; there are as many as it takes.
  lemma {:induction false} SplitParts<T>(d: Proto<T>, size: nat, i: nat)
    requires Valid(d) && size >= 1
    ensures var parts := Split(d, 0, size);
      if d.rows == 0 then parts == [] else (|parts| - 1) * size < d.rows <= |parts| * size
    ensures i < |Split(d, 0, size)| ==> var a, z := i * size, (i + 1) * size;
      a < d.rows && Split(d, 0, size)[i] == Pick(d, Range(a, if z <= d.rows then z else d.rows))
  {
    hide Pick, Slice, Valid;
    SplitFrom(d, 0, size, i);
    assert 0 * size == 0;
  }

  // The parts from row k * size on.
  lemma {:induction false} SplitFrom<T>(d: Proto<T>, k: nat, size: nat, i: nat)
    requires Valid(d) && size >= 1
    ensures k * size >= 0
    ensures var n := |Split(d, k * size, size)|;
      && (n == 0 <==> d.rows <= k * size) && d.rows <= (k + n) * size && (n > 0 ==> (k + n - 1) * size < d.rows)
    ensures i < |Split(d, k * size, size)| ==> var a, z := (k + i) * size, (k + i + 1) * size;
      && 0 <= a < d.rows && a <= z
      && Split(d, k * size, size)[i] == Pick(d, Range(a, if z <= d.rows then z else d.rows))
    decreases d.rows - k * size
  {
    hide Pick, Slice, Valid;
    Product(k, size);
    assert (k + 1) * size == k * size + size;
    if k * size < d.rows {
      SplitFrom(d, k + 1, size, if i == 0 then 0 else i - 1);
      SliceIsPick(d, k * size, k * size + size);
      var rest := Split(d, (k + 1) * size, size);
      assert Split(d, k * size, size) == [Slice(d, k * size, k * size + size)] + rest;
      if i > 0 && i - 1 < |rest| { assert k + 1 + (i - 1) == k + i; }
    }
  }

  // Piece i of every tensor column, and of every non-tensor column: cut at the sizes of the tensor
  // pieces if there are tensors, into even sections otherwise.
  function TensorPiece<T>(col: seq<T>, chunks: nat, i: nat): seq<T>
    requires chunks >= 1
  {
    if i < |Chunk(col, chunks)| then Chunk(col, chunks)[i] else []
  }

  // batch_size[0] of the tensor pieces
  function BatchSizes<T>(d: Proto<T>, chunks: nat): (r: seq<nat>)
    requires chunks >= 1 && d.rows >= 1
    ensures |r| >= 1
  {
    Sizes(d.rows, CeilDiv(d.rows, chunks))
  }

  function OtherPiece<T>(d: Proto<T>, col: seq<T>, chunks: nat, i: nat): seq<T>
    requires chunks >= 1 && d.rows >= 1
  {
    var cuts := Cumsum(BatchSizes(d, chunks), 0);
    var pieces :=
      if d.hasBatch then SplitAt(col, if cuts == [] then [] else cuts[..|cuts| - 1], 0) else Sections(col, chunks);
    if i < |pieces| then pieces[i] else []
  }

  function PieceRows<T>(d: Proto<T>, chunks: nat, i: nat): nat
    requires chunks >= 1 && d.rows >= 1
  {
    if d.hasBatch then (if i < |BatchSizes(d, chunks)| then BatchSizes(d, chunks)[i] else 0)
    else if SectionStart(d.rows, chunks, i) <= SectionStart(d.rows, chunks, i + 1) then
      SectionStart(d.rows, chunks, i + 1) - SectionStart(d.rows, chunks, i)
    else 0
  }

  // None where it raises: for unequal chunks without padding, for no chunks, and where the tensors
  // come apart into fewer pieces.
  function Chunks<T>(d: Proto<T>, chunks: nat, padding: bool): Option<seq<Proto<T>>>
    requires d.rows >= 1
  {
    if chunks == 0 || (!padding && d.rows % chunks != 0) || (d.hasBatch && |BatchSizes(d, chunks)| != chunks) then None
    else Some(seq(chunks, i requires 0 <= i < chunks =>
      Proto(d.hasBatch, PieceRows(d, chunks, i), map k | k in d.tensors :: TensorPiece(d.tensors[k], chunks, i),
            map k | k in d.others :: OtherPiece(d, d.others[k], chunks, i))))
  }

  // Chunk i begins at this row: equal pieces and a shorter last one, or sections of which the first
  // ones are longer by one.
  function Edge<T>(d: Proto<T>, chunks: nat, i: nat): nat
    requires chunks >= 1
  {
    if d.hasBatch then PieceStart(d.rows, CeilDiv(d.rows, chunks), i) else SectionStart(d.rows, chunks, i)
  }

  lemma {:induction false} SectionsGrow(n: nat, k: nat, i: nat)
    requires i < k
    ensures SectionStart(n, k, 0) == 0 && SectionStart(n, k, k) == n
    ensures SectionStart(n, k, i) <= SectionStart(n, k, i + 1) <= n
  {
    var q, m := n / k, n % k;
    assert n == k * q + m;
    assert (i + 1) * q == i * q + q;
    Monotone(i + 1, k, q);
    assert 0 * q == 0;
  }

  lemma {:induction false} Edges<T>(d: Proto<T>, chunks: nat, i: nat)
    requires d.rows >= 1 && i < chunks && (d.hasBatch ==> |BatchSizes(d, chunks)| == chunks)
    ensures Edge(d, chunks, 0) == 0 && Edge(d, chunks, chunks) == d.rows
    ensures Edge(d, chunks, i) <= Edge(d, chunks, i + 1) <= d.rows
    ensures PieceRows(d, chunks, i) == Edge(d, chunks, i + 1) - Edge(d, chunks, i)
  {
    hide SectionStart, PieceEnd, Sizes;
    if d.hasBatch {
      var size := CeilDiv(d.rows, chunks);
      CumsumIs(d.rows, size, 0, i);
      PieceIs(Range(0, d.rows), size, i);
      PieceIs(Range(0, d.rows), size, chunks - 1);
    } else {
      SectionsGrow(d.rows, chunks, i);
    }
  }

  lemma {:induction false} TensorPieceIs<T>(d: Proto<T>, col: seq<T>, chunks: nat, i: nat)
    requires d.hasBatch && |col| == d.rows >= 1 && i < chunks && |BatchSizes(d, chunks)| == chunks
    ensures Edge(d, chunks, i) <= Edge(d, chunks, i + 1) <= |col|
    ensures TensorPiece(col, chunks, i) == col[Edge(d, chunks, i)..Edge(d, chunks, i + 1)]
  {
    hide PieceEnd, Sizes, Pieces;
    PieceIs(col, CeilDiv(d.rows, chunks), i);
  }

  lemma {:induction false} SplitPieceIs<T>(d: Proto<T>, col: seq<T>, chunks: nat, i: nat)
    requires d.hasBatch && |col| == d.rows >= 1 && i < chunks && |BatchSizes(d, chunks)| == chunks
    ensures Edge(d, chunks, i) <= Edge(d, chunks, i + 1) <= |col|
    ensures OtherPiece(d, col, chunks, i) == col[Edge(d, chunks, i)..Edge(d, chunks, i + 1)]
  {
    hide PieceEnd, Sizes, SplitAt, Cumsum, Pieces;
    var size := CeilDiv(d.rows, chunks);
    PieceIs(col, size, i);
    CumsumIs(d.rows, size, 0, i);
    if i > 0 { CumsumIs(d.rows, size, 0, i - 1); }
    var cuts := Cumsum(BatchSizes(d, chunks), 0)[..chunks - 1];
    SplitAtEach(col, cuts, 0, i);
  }

  lemma {:induction false} SectionIs<T>(d: Proto<T>, col: seq<T>, chunks: nat, i: nat)
    requires !d.hasBatch && |col| == d.rows >= 1 && i < chunks
    ensures Edge(d, chunks, i) <= Edge(d, chunks, i + 1) <= |col|
    ensures OtherPiece(d, col, chunks, i) == col[Edge(d, chunks, i)..Edge(d, chunks, i + 1)]
  {
    hide SectionStart;
    SectionsGrow(d.rows, chunks, i);
  }

  // Every chunk takes the same rows of every column.
  lemma {:induction false} ChunkAligned<T>(d: Proto<T>, chunks: nat, padding: bool, i: nat)
    requires Valid(d) && d.rows >= 1 && i < chunks && Chunks(d, chunks, padding).Some?
    ensures |Chunks(d, chunks, padding).value| == chunks
    ensures Edge(d, chunks, 0) == 0 && Edge(d, chunks, chunks) == d.rows
    ensures Edge(d, chunks, i) <= Edge(d, chunks, i + 1) <= d.rows
    ensures Chunks(d, chunks, padding).value[i] == Pick(d, Range(Edge(d, chunks, i), Edge(d, chunks, i + 1)))
  {
    hide TensorPiece, OtherPiece, Edge, PieceRows, At;
    Edges(d, chunks, i);
    var r := Range(Edge(d, chunks, i), Edge(d, chunks, i + 1));
    forall k | k in d.tensors ensures TensorPiece(d.tensors[k], chunks, i) == At(d.tensors[k], r) {
      TensorPieceIs(d, d.tensors[k], chunks, i);
      AtRange(d.tensors[k], Edge(d, chunks, i), Edge(d, chunks, i + 1));
    }
    forall k | k in d.others ensures OtherPiece(d, d.others[k], chunks, i) == At(d.others[k], r) {
      if d.hasBatch { SplitPieceIs(d, d.others[k], chunks, i); } else { SectionIs(d, d.others[k], chunks, i); }
      AtRange(d.others[k], Edge(d, chunks, i), Edge(d, chunks, i + 1));
    }
    var c, p := Chunks(d, chunks, padding).value[i], Pick(d, r);
    assert c.tensors == p.tensors && c.others == p.others;
  }

  // The chunks together are the batch.
  lemma {:induction false} ChunkConcat<T>(d: Proto<T>, chunks: nat, padding: bool, n: nat)
    requires Valid(d) && d.rows >= 1 && 1 <= n <= chunks && Chunks(d, chunks, padding).Some?
    ensures |Chunks(d, chunks, padding).value| == chunks
    ensures Picks(d, Chunks(d, chunks, padding).value[..n], Range(0, Edge(d, chunks, n)))
    ensures n == chunks ==> Concat(Chunks(d, chunks, padding).value) == d
    decreases n
  {
    hide Pick, Chunks, Picks, Valid, Edge;
    ChunkAligned(d, chunks, padding, n - 1);
    var all := Chunks(d, chunks, padding).value;
    var a, b := Edge(d, chunks, n - 1), Edge(d, chunks, n);
    if n == 1 {
      assert all[..1] == [all[0]];
      FirstPick(d, Range(0, b));
    } else {
      ChunkConcat(d, chunks, padding, n - 1);
      NextPick(d, all[..n - 1], Range(0, a), Range(a, b));
      assert all[..n - 1] + [all[n - 1]] == all[..n];
      assert Range(0, a) + Range(a, b) == Range(0, b);
    }
    if n == chunks {
      assert all[..n] == all;
      PicksMeans(d, all, Range(0, d.rows));
      PickAll(d);
    }
  }

  // Which numbers of chunks it serves: those that divide the rows, and with padding those that the
  // pieces of rows / chunks rows, rounded up, make up, or any if there are no tensors.
  lemma {:induction false} ChunksIff<T>(d: Proto<T>, chunks: nat, padding: bool)
    requires d.rows >= 1 && chunks >= 1
    ensures Chunks(d, chunks, padding).Some? <==>
      d.rows % chunks == 0 || (padding && (d.hasBatch ==> CeilDiv(d.rows, chunks) * (chunks - 1) < d.rows))
    ensures d.rows % chunks == 0 ==> forall i :: 0 <= i <= chunks ==> Edge(d, chunks, i) == i * (d.rows / chunks)
  {
    hide Sizes, SectionStart, PieceEnd;
    var n, size := d.rows, CeilDiv(d.rows, chunks);
    SizesCount(n, size);
    CeilBounds(n, chunks);
    CeilCount(n, size, chunks);
    if n % chunks == 0 {
      EvenSize(n, chunks);
      forall i | 0 <= i <= chunks ensures Edge(d, chunks, i) == i * (n / chunks) { EvenEdge(d, chunks, i); }
    }
  }

  // How many rows each chunk has: with tensors the rounded-up quotient, but for the last; without any,
  // the first remainder many have one row more than the others.
  lemma {:induction false} ChunkRows<T>(d: Proto<T>, chunks: nat, padding: bool, i: nat)
    requires Valid(d) && d.rows >= 1 && i < chunks && Chunks(d, chunks, padding).Some?
    ensures |Chunks(d, chunks, padding).value| == chunks
    ensures var n := Chunks(d, chunks, padding).value[i].rows;
      if d.hasBatch && d.rows % chunks != 0 then
        if i < chunks - 1 then n == d.rows / chunks + 1 else n == d.rows - (chunks - 1) * (d.rows / chunks + 1)
      else n == d.rows / chunks + (if i < d.rows % chunks then 1 else 0)
  {
    hide Pick, Valid, TensorPiece, OtherPiece, Sizes, Edge, Chunks, CeilDiv;
    ChunkAligned(d, chunks, padding, i);
    PickRows(d, Edge(d, chunks, i), Edge(d, chunks, i + 1));
    ChunksIff(d, chunks, padding);
    EdgeIs(d, chunks, i);
    EdgeIs(d, chunks, i + 1);
    CeilIs(d.rows, chunks);
    EdgeStep(d.rows, chunks, i);
  }

  lemma {:induction false} EdgeStep(n: nat, k: nat, i: nat)
    requires n >= 1 && i < k
    ensures (i + 1) * (n / k) == i * (n / k) + n / k
    ensures var size := n / k + 1;
      n % k != 0 && size * (k - 1) < n ==>
        && i * size <= n && (i < k - 1 ==> (i + 1) * size == i * size + size <= n)
        && (i == k - 1 ==> i * size == (k - 1) * size && (i + 1) * size >= n)
    ensures n % k == 0 ==> (i + 1) * (n / k) <= n
  {
    var q, size := n / k, n / k + 1;
    assert n == q * k + n % k;
    Monotone(i, k - 1, size);
    Monotone(i + 1, k, q);
    if i < k - 1 { Monotone(i + 1, k - 1, size); }
    assert (i + 1) * size == i * size + size;
    assert k * size == q * k + k;
  }

  lemma {:induction false} PickRows<T>(d: Proto<T>, a: nat, b: nat)
    requires a <= b
    ensures Pick(d, Range(a, b)).rows == b - a
  {}

  lemma {:induction false} CeilIs(n: nat, k: nat)
    requires n >= 1 && k >= 1
    ensures CeilDiv(n, k) == if n % k == 0 then n / k else n / k + 1
  {
    var q, m := n / k, n % k;
    assert n == q * k + m;
    if m == 0 { EvenSize(n, k); } else { Quotient(n - 1, k, q, m - 1); }
  }

  lemma {:induction false} EdgeIs<T>(d: Proto<T>, chunks: nat, i: nat)
    requires d.rows >= 1 && chunks >= 1 && i <= chunks
    ensures var size := CeilDiv(d.rows, chunks);
      d.hasBatch ==> Edge(d, chunks, i) == (if i * size <= d.rows then i * size else d.rows)
    ensures !d.hasBatch ==>
      Edge(d, chunks, i) == i * (d.rows / chunks) + (if i <= d.rows % chunks then i else d.rows % chunks)
  {
    assert 0 * CeilDiv(d.rows, chunks) == 0;
  }

  lemma {:induction false} CeilBounds(n: nat, k: nat)
    requires n >= 1 && k >= 1
    ensures CeilDiv(n, k) * k >= n && (CeilDiv(n, k) - 1) * k < n
  {
    var q, m := (n - 1) / k, (n - 1) % k;
    assert n - 1 == q * k + m;
    assert (q + 1) * k == q * k + k;
  }

  // size rows a piece make k pieces of n rows.
  lemma {:induction false} CeilCount(n: nat, size: nat, k: nat)
    requires n >= 1 && size >= 1 && k >= 1 && size * k >= n
    ensures CeilDiv(n, size) == k <==> size * (k - 1) < n
  {
    var p := CeilDiv(n, size);
    CeilBounds(n, size);
    if p > k { Monotone(k, p - 1, size); }
    if p < k { Monotone(p, k - 1, size); }
  }

  lemma {:induction false} EvenSize(n: nat, k: nat)
    requires n >= 1 && k >= 1 && n % k == 0
    ensures CeilDiv(n, k) == n / k && (n / k) * (k - 1) < n && n == k * (n / k)
  {
    var q := n / k;
    assert n == q * k;
    Positive(q, k);
    assert n - 1 == (q - 1) * k + (k - 1);
    Quotient(n - 1, k, q - 1, k - 1);
    assert q * k == q * (k - 1) + q;
  }

  lemma {:induction false} EvenEdge<T>(d: Proto<T>, chunks: nat, i: nat)
    requires d.rows >= 1 && 0 <= i <= chunks && chunks >= 1 && d.rows % chunks == 0
    ensures Edge(d, chunks, i) == i * (d.rows / chunks)
  {
    var q := d.rows / chunks;
    EvenSize(d.rows, chunks);
    Monotone(i, chunks, q);
    assert 0 * q == 0;
  }

  // ---- repeat ----

  function Repeat<T>(d: Proto<T>, times: nat, interleave: bool): Proto<T> {
    if interleave then
      Proto(d.hasBatch, d.rows * times, map k | k in d.tensors :: Interleaved(d.tensors[k], times),
            map k | k in d.others :: Interleaved(d.others[k], times))
    else
      Proto(d.hasBatch, d.rows * times, map k | k in d.tensors :: Tiled(d.tensors[k], times),
            map k | k in d.others :: Tiled(d.others[k], times))
  }

  // Row i of the repeated batch is row i / times, or row i mod rows.
  function RepeatRows(rows: nat, times: nat, interleave: bool): (r: seq<nat>)
    ensures |r| == rows * times && Within(r, rows)
    ensures forall i :: 0 <= i < |r| ==> rows >= 1 && times >= 1 && r[i] == if interleave then i / times else i % rows
  {
    if rows * times == 0 then []
    else
      Positive(rows, times);
      assert forall i :: 0 <= i < rows * times ==> i / times < rows by {
        forall i | 0 <= i < rows * times ensures i / times < rows { QuotientBelow(i, rows, times); }
      }
      seq(rows * times, i requires 0 <= i < rows * times => if interleave then i / times else i % rows)
  }

  lemma {:induction false} RepeatColumn<T>(col: seq<T>, times: nat, interleave: bool)
    ensures var r := RepeatRows(|col|, times, interleave);
      (if interleave then Interleaved(col, times) else Tiled(col, times)) == At(col, r)
  {
    var r := RepeatRows(|col|, times, interleave);
    AtEach(col, r);
    InterleavedAt(col, times, 0);
    TiledAt(col, times, 0);
    forall i | 0 <= i < |r|
      ensures (if interleave then Interleaved(col, times) else Tiled(col, times))[i] == At(col, r)[i]
    {
      InterleavedAt(col, times, i);
      TiledAt(col, times, i);
    }
  }

  lemma {:induction false} RepeatAligned<T>(d: Proto<T>, times: nat, interleave: bool)
    requires Valid(d)
    ensures Repeat(d, times, interleave) == Pick(d, RepeatRows(d.rows, times, interleave))
  {
    hide Interleaved, Tiled, At, RepeatRows;
    var r := RepeatRows(d.rows, times, interleave);
    forall k | k in d.tensors
      ensures (if interleave then Interleaved(d.tensors[k], times) else Tiled(d.tensors[k], times))
           == At(d.tensors[k], r)
    {
      RepeatColumn(d.tensors[k], times, interleave);
    }
    forall k | k in d.others
      ensures (if interleave then Interleaved(d.others[k], times) else Tiled(d.others[k], times)) == At(d.others[k], r)
    {
      RepeatColumn(d.others[k], times, interleave);
    }
    var a, b := Repeat(d, times, interleave), Pick(d, r);
    assert a.tensors == b.tensors && a.others == b.others;
  }
}
