// The leave-one-out baseline and the returns of recipe/prime/prime_core_algos.py, over the reals.
// A tensor is a list of rows, one per sample; n consecutive samples answer the same prompt.
module Rloo {
  import Arithmetic
  import opened Options

  function Times(a: real, b: real): real { a * b }

  // ---- means over the masked tokens of a row ----

  function MaskedSum(row: seq<real>, mask: seq<bool>): real
    requires |row| == |mask|
  {
    if row == [] then 0.0 else (if mask[0] then row[0] else 0.0) + MaskedSum(row[1..], mask[1..])
  }

  function Count(mask: seq<bool>): nat {
    if mask == [] then 0 else (if mask[0] then 1 else 0) + Count(mask[1..])
  }

  // reward_tensor[pos][mask[pos]].mean()
  function MaskedMean(row: seq<real>, mask: seq<bool>): real
    requires |row| == |mask| && Count(mask) >= 1
  {
    MaskedSum(row, mask) / (Count(mask) as real)
  }

  // reward_tensor[~mask] = 0
  function Zeroed(row: seq<real>, mask: seq<bool>): (r: seq<real>)
    requires |row| == |mask|
    ensures |r| == |row|
  {
    if row == [] then [] else [if mask[0] then row[0] else 0.0] + Zeroed(row[1..], mask[1..])
  }

  // The masked tokens scaled and shifted, the others left.
  function Affine(row: seq<real>, mask: seq<bool>, c: real, b: real): (r: seq<real>)
    requires |row| == |mask|
    ensures |r| == |row|
    ensures forall j :: 0 <= j < |row| ==> r[j] == if mask[j] then Times(row[j], c) - b else row[j]
  {
    if row == [] then [] else [if mask[0] then Times(row[0], c) - b else row[0]] + Affine(row[1..], mask[1..], c, b)
  }

  predicate Shaped(rows: seq<seq<real>>, masks: seq<seq<bool>>) {
    |rows| == |masks| && forall i :: 0 <= i < |rows| ==> |rows[i]| == |masks[i]|
  }

  // Rows lo..hi are there, and each has a masked token.
  predicate Sized(rows: seq<seq<real>>, masks: seq<seq<bool>>, lo: nat, hi: nat) {
    && Shaped(rows, masks) && lo <= hi <= |rows|
    && forall i :: lo <= i < hi ==> Count(masks[i]) >= 1
  }

  // The sum of the means of rows lo..hi.
  function SumOfMeans(rows: seq<seq<real>>, masks: seq<seq<bool>>, lo: nat, hi: nat): real
    requires Sized(rows, masks, lo, hi)
  {
    if lo == hi then 0.0 else SumOfMeans(rows, masks, lo, hi - 1) + MaskedMean(rows[hi - 1], masks[hi - 1])
  }

  function Ratio(n: nat): real
    requires n >= 2
  {
    (n as real) / ((n - 1) as real)
  }

  function Baseline(sum: real, n: nat): real
    requires n >= 2
  {
    sum / ((n - 1) as real)
  }

  // Row i after masked_rloo, its group beginning at row start.
  function RlooRow(rows: seq<seq<real>>, masks: seq<seq<bool>>, n: nat, start: nat, i: nat): (r: seq<real>)
    requires n >= 2 && Sized(rows, masks, start, start + n) && start <= i < start + n
    ensures |r| == |rows[i]|
  {
    Affine(Zeroed(rows[i], masks[i]), masks[i], Ratio(n),
           Baseline(SumOfMeans(rows, masks, start, start + n), n))
  }

  // ---- not a number ----

  // The mean of no token is not a number, and nothing computed from it is.
  datatype Num = Nan | Real(r: real)

  function Plus(a: Num, b: Num): Num { if a.Real? && b.Real? then Real(a.r + b.r) else Nan }

  function Lift(row: seq<real>): seq<Num> { seq(|row|, j requires 0 <= j < |row| => Real(row[j])) }

  // The masked tokens scaled and shifted by the baseline of a group.
  function Shifted(row: seq<Num>, mask: seq<bool>, n: nat, sum: Num): (r: seq<Num>)
    requires |row| == |mask| && n >= 2
    ensures |r| == |row|
  {
    seq(|row|, j requires 0 <= j < |row| =>
      if !mask[j] then row[j]
      else if row[j].Real? && sum.Real? then Real(Times(row[j].r, Ratio(n)) - Baseline(sum.r, n))
      else Nan)
  }

  // Row i of the result, its group beginning at row g: no number where the group is not complete or
  // one of its rows has no masked token.
  predicate IsRow(r: seq<Num>, rows: seq<seq<real>>, masks: seq<seq<bool>>, n: nat, g: nat, i: nat)
    requires n >= 2 && Shaped(rows, masks) && g <= i < g + n && i < |rows|
  {
    if Sized(rows, masks, g, g + n) then r == Lift(RlooRow(rows, masks, n, g, i))
    else |r| == |rows[i]| && forall j :: 0 <= j < |r| ==> r[j] == if masks[i][j] then Nan else Real(0.0)
  }

  // ---- the loop ----

  lemma {:induction false} ZeroedSum(row: seq<real>, mask: seq<bool>)
    requires |row| == |mask|
    ensures |Zeroed(row, mask)| == |row| && MaskedSum(Zeroed(row, mask), mask) == MaskedSum(row, mask)
    ensures forall j :: 0 <= j < |row| ==> Zeroed(row, mask)[j] == if mask[j] then row[j] else 0.0
  {
    if row != [] { ZeroedSum(row[1..], mask[1..]); }
  }

  // The rewards of a row as they are before its group's turn.
  function Cleared(rows: seq<seq<real>>, masks: seq<seq<bool>>, i: nat): seq<Num>
    requires Shaped(rows, masks) && i < |rows|
  {
    Lift(Zeroed(rows[i], masks[i]))
  }

  function Reals(row: seq<Num>): (r: seq<real>)
    ensures |r| == |row|
  {
    seq(|row|, j requires 0 <= j < |row| => if row[j].Real? then row[j].r else 0.0)
  }

  lemma {:induction false} RealsLift(row: seq<real>)
    ensures Reals(Lift(row)) == row
  {}

  // Rows start and up hold the zeroed rewards, those before are done.
  ghost predicate Progress(t: seq<seq<Num>>, rows: seq<seq<real>>, masks: seq<seq<bool>>, n: nat, start: nat)
    requires Shaped(rows, masks) && n >= 2
  {
    && |t| == |rows|
    && (forall i :: start <= i < |rows| ==> t[i] == Cleared(rows, masks, i))
    && (forall g, i :: 0 <= g < start && g % n == 0 && g <= i < g + n && i < |rows| ==>
          IsRow(t[i], rows, masks, n, g, i))
  }

  // What the sum of the means of rows start..hi is.
  predicate IsSum(sum: Num, rows: seq<seq<real>>, masks: seq<seq<bool>>, start: nat, hi: nat)
    requires Shaped(rows, masks)
  {
    sum == if Sized(rows, masks, start, hi) then Real(SumOfMeans(rows, masks, start, hi)) else Nan
  }

  method GroupSum(t: array<seq<Num>>, ghost rows: seq<seq<real>>, masks: seq<seq<bool>>, start: nat, n: nat)
    returns (sum: Num)
    requires Shaped(rows, masks) && start < |rows| == t.Length
    requires forall i :: start <= i < |rows| ==> t[i] == Cleared(rows, masks, i)
    ensures IsSum(sum, rows, masks, start, start + n)
  {
    hide Zeroed, Reals, Lift;
    sum := Real(0.0);
    for pos := start to start + n
      invariant IsSum(sum, rows, masks, start, pos)
    {
      var mean := Nan;
      if pos < t.Length && Count(masks[pos]) >= 1 {
        ZeroedSum(rows[pos], masks[pos]);
        RealsLift(Zeroed(rows[pos], masks[pos]));
        mean := Real(MaskedMean(Reals(t[pos]), masks[pos]));
      }
      sum := Plus(sum, mean);
    }
  }

  lemma {:induction false} ShiftedIsRow(rows: seq<seq<real>>, masks: seq<seq<bool>>, n: nat, start: nat, i: nat,
                                        sum: Num)
    requires Shaped(rows, masks) && n >= 2 && start <= i < start + n && i < |rows|
    requires IsSum(sum, rows, masks, start, start + n)
    ensures |Cleared(rows, masks, i)| == |masks[i]|
    ensures IsRow(Shifted(Cleared(rows, masks, i), masks[i], n, sum), rows, masks, n, start, i)
  {
    ZeroedSum(rows[i], masks[i]);
  }

  // One pass of the loop: the rows of a group are replaced in place.
  method UpdateGroup(t: array<seq<Num>>, ghost rows: seq<seq<real>>, masks: seq<seq<bool>>, start: nat, n: nat)
    requires Shaped(rows, masks) && n >= 2 && start < |rows| == t.Length
    requires forall i :: start <= i < |rows| ==> t[i] == Cleared(rows, masks, i)
    modifies t
    ensures forall i :: 0 <= i < t.Length && !(start <= i < start + n) ==> t[i] == old(t[i])
    ensures forall i :: start <= i < start + n && i < t.Length ==> IsRow(t[i], rows, masks, n, start, i)
  {
    hide Cleared, Shifted, IsSum, IsRow;
    var sum := GroupSum(t, rows, masks, start, n);
    var end := if start + n <= t.Length then start + n else t.Length;
    for pos := start to end
      invariant forall i :: 0 <= i < t.Length && !(start <= i < pos) ==> t[i] == old(t[i])
      invariant forall i :: start <= i < pos ==> IsRow(t[i], rows, masks, n, start, i)
    {
      assert t[pos] == Cleared(rows, masks, pos);
      ShiftedIsRow(rows, masks, n, start, pos, sum);
      t[pos] := Shifted(t[pos], masks[pos], n, sum);
    }
  }

  method ZeroUnmasked(rows: seq<seq<real>>, masks: seq<seq<bool>>) returns (t: array<seq<Num>>)
    requires Shaped(rows, masks)
    ensures fresh(t) && t.Length == |rows|
    ensures forall i :: 0 <= i < t.Length ==> t[i] == Cleared(rows, masks, i)
  {
    hide Zeroed, Lift;
    t := new seq<Num>[|rows|](i requires 0 <= i < |rows| => Lift(rows[i]));
    for i := 0 to t.Length
      invariant forall k :: 0 <= k < i ==> t[k] == Cleared(rows, masks, k)
      invariant forall k :: i <= k < t.Length ==> t[k] == Lift(rows[k])
    {
      RealsLift(rows[i]);
      t[i] := Lift(Zeroed(Reals(t[i]), masks[i]));
    }
  }

  predicate IsShare(y: real, x: real, sum: real, n: nat) { y * (n as real - 1.0) == x * (n as real) - sum }

  // What each token of row i gets, whatever the mask: n / (n - 1) times its reward less 1 / (n - 1) of the
  // sum of its group's means, or no number without those; and 0 where it is masked out.
  predicate TokensAre(r: seq<Num>, rows: seq<seq<real>>, masks: seq<seq<bool>>, n: nat, g: nat, i: nat)
    requires n >= 2 && Shaped(rows, masks) && g <= i < g + n && i < |rows|
  {
    && |r| == |rows[i]|
    && (forall j :: 0 <= j < |r| && !masks[i][j] ==> r[j] == Real(0.0))
    && (forall j :: 0 <= j < |r| && masks[i][j] ==>
          if Sized(rows, masks, g, g + n) then
            r[j].Real? && IsShare(r[j].r, rows[i][j], SumOfMeans(rows, masks, g, g + n), n)
          else r[j].Nan?)
  }

  lemma {:induction false} RlooAt(rows: seq<seq<real>>, masks: seq<seq<bool>>, n: nat, g: nat, i: nat)
    requires n >= 2 && Sized(rows, masks, g, g + n) && g <= i < g + n
    ensures var r := RlooRow(rows, masks, n, g, i);
      && (forall j :: 0 <= j < |r| && !masks[i][j] ==> r[j] == 0.0)
      && (forall j :: 0 <= j < |r| && masks[i][j] ==>
            r[j] == Times(rows[i][j], Ratio(n)) - Baseline(SumOfMeans(rows, masks, g, g + n), n))
  {
    hide SumOfMeans, Times, Ratio, Baseline;
    ZeroedSum(rows[i], masks[i]);
  }

  lemma {:induction false} RowTokens(r: seq<Num>, rows: seq<seq<real>>, masks: seq<seq<bool>>, n: nat, g: nat, i: nat)
    requires n >= 2 && Shaped(rows, masks) && g <= i < g + n && i < |rows| && IsRow(r, rows, masks, n, g, i)
    ensures TokensAre(r, rows, masks, n, g, i)
  {
    if Sized(rows, masks, g, g + n) {
      hide SumOfMeans, Times, Ratio, Baseline, RlooRow, Count, IsShare;
      RlooAt(rows, masks, n, g, i);
      var sum := SumOfMeans(rows, masks, g, g + n);
      forall j | 0 <= j < |r| && masks[i][j]
        ensures r[j].Real? && IsShare(r[j].r, rows[i][j], sum, n)
      {
        Scaled(rows[i][j], sum, n);
      }
    }
  }

  lemma {:induction false} Scaled(x: real, sum: real, n: nat)
    requires n >= 2
    ensures IsShare(Times(x, Ratio(n)) - Baseline(sum, n), x, sum, n)
  {
    var d, q := (n - 1) as real, 1.0 / ((n - 1) as real);
    assert q * d == 1.0;
    DivideIs(n as real, d, q);
    DivideIs(sum, d, q);
    assert (x * (n as real * q) - sum * q) * d == x * (n as real) * (q * d) - sum * (q * d);
  }

  // None where range() or a division raises.  The rewards are cloned first: the argument is left as
  // it was.
  method MaskedRloo(rows: seq<seq<real>>, masks: seq<seq<bool>>, n: nat) returns (r: Option<array<seq<Num>>>)
    requires Shaped(rows, masks)
    ensures r.None? <==> n == 0 || (n == 1 && rows != [])
    ensures r.Some? ==> fresh(r.value) && r.value.Length == |rows|
    ensures r.Some? && n >= 2 ==> forall g, i :: 0 <= g && g % n == 0 && g <= i < g + n && i < |rows| ==>
      IsRow(r.value[i], rows, masks, n, g, i) && TokensAre(r.value[i], rows, masks, n, g, i)
  {
    hide Cleared, IsRow, Progress, TokensAre;
    if n == 0 || (n == 1 && rows != []) { return None; }
    var t := ZeroUnmasked(rows, masks);
    r := Some(t);
    if n >= 2 {
      ProgressStart(t[..], rows, masks, n);
      var start := 0;
      while start < t.Length
        invariant start % n == 0 && t.Length == |rows|
        invariant Progress(t[..], rows, masks, n, start)
        decreases t.Length - start
      {
        ghost var before := t[..];
        ProgressIs(before, rows, masks, n, start);
        UpdateGroup(t, rows, masks, start, n);
        ProgressNext(before, t[..], rows, masks, n, start);
        start := start + n;
      }
      ProgressIs(t[..], rows, masks, n, start);
      forall g, i | 0 <= g && g % n == 0 && g <= i < g + n && i < |rows| ensures TokensAre(t[i], rows, masks, n, g, i) {
        RowTokens(t[i], rows, masks, n, g, i);
      }
    }
  }

  lemma {:induction false} ProgressStart(t: seq<seq<Num>>, rows: seq<seq<real>>, masks: seq<seq<bool>>, n: nat)
    requires Shaped(rows, masks) && n >= 2 && |t| == |rows|
    requires forall i :: 0 <= i < |t| ==> t[i] == Cleared(rows, masks, i)
    ensures Progress(t, rows, masks, n, 0) && 0 % n == 0
  {}

  lemma {:induction false} ProgressIs(t: seq<seq<Num>>, rows: seq<seq<real>>, masks: seq<seq<bool>>, n: nat,
                                      start: nat)
    requires Shaped(rows, masks) && n >= 2 && Progress(t, rows, masks, n, start)
    ensures |t| == |rows|
    ensures forall i :: start <= i < |rows| ==> t[i] == Cleared(rows, masks, i)
    ensures forall g, i :: 0 <= g < start && g % n == 0 && g <= i < g + n && i < |rows| ==>
      IsRow(t[i], rows, masks, n, g, i)
  {}

  // The next multiple of n.
  lemma {:induction false} NextGroup(start: nat, n: nat, other: nat)
    requires n >= 2 && start % n == 0
    ensures (start + n) % n == 0 && (other % n == 0 && start < other ==> start + n <= other)
  {
    var a, b := start / n, other / n;
    assert start == a * n;
    assert (a + 1) * n == a * n + n;
    Arithmetic.Quotient(start + n, n, a + 1, 0);
    if other % n == 0 && start < other {
      assert other == b * n;
      if a >= b { Arithmetic.Monotone(b, a, n); }
      Arithmetic.Monotone(a + 1, b, n);
    }
  }

  lemma {:induction false} ProgressNext(before: seq<seq<Num>>, t: seq<seq<Num>>, rows: seq<seq<real>>,
                                        masks: seq<seq<bool>>, n: nat, start: nat)
    requires Shaped(rows, masks) && n >= 2 && start % n == 0 && start < |rows|
    requires Progress(before, rows, masks, n, start) && |t| == |rows|
    requires forall i :: 0 <= i < |t| && !(start <= i < start + n) ==> t[i] == before[i]
    requires forall i :: start <= i < start + n && i < |t| ==> IsRow(t[i], rows, masks, n, start, i)
    ensures Progress(t, rows, masks, n, start + n) && (start + n) % n == 0
  {
    hide IsRow, Cleared;
    NextGroup(start, n, 0);
    forall g, i | 0 <= g < start + n && g % n == 0 && g <= i < g + n && i < |rows|
      ensures IsRow(t[i], rows, masks, n, g, i)
    {
      NextGroup(g, n, start);
      NextGroup(start, n, g);
    }
  }

  // ---- what the baseline does ----

  lemma {:induction false} AffineSum(row: seq<real>, mask: seq<bool>, c: real, b: real)
    requires |row| == |mask|
    ensures MaskedSum(Affine(row, mask, c, b), mask)
         == Times(MaskedSum(row, mask), c) - Times(Count(mask) as real, b)
  {
    if row != [] {
      AffineSum(row[1..], mask[1..], c, b);
      var x, s, k := row[0], MaskedSum(row[1..], mask[1..]), Count(mask[1..]) as real;
      if mask[0] {
        Distribute(x, s, c);
        Distribute(1.0, k, b);
      } else {
        Distribute(0.0, s, c);
      }
    } else {
      Distribute(0.0, 0.0, c);
      Distribute(0.0, 0.0, b);
    }
  }

  lemma {:induction false} Distribute(x: real, y: real, c: real)
    ensures Times(x + y, c) == Times(x, c) + Times(y, c)
    ensures Times(0.0, c) == 0.0 && Times(1.0, c) == c
  {}

  lemma {:induction false} DivideAffine(s: real, k: real, c: real, b: real)
    requires k > 0.0
    ensures (Times(s, c) - Times(k, b)) / k == Times(s / k, c) - b
  {
    var m := s / k;
    assert s == m * k;
    assert Times(s, c) - Times(k, b) == (m * c - b) * k;
    assert (m * c - b) * k / k == m * c - b;
  }

  lemma {:induction false} AffineMean(row: seq<real>, mask: seq<bool>, c: real, b: real)
    requires |row| == |mask| && Count(mask) >= 1
    ensures MaskedMean(Affine(row, mask, c, b), mask) == Times(MaskedMean(row, mask), c) - b
  {
    AffineSum(row, mask, c, b);
    DivideAffine(MaskedSum(row, mask), Count(mask) as real, c, b);
  }

  // A row's mean becomes its old mean less the average of the means of the other n - 1 rows.
  lemma {:induction false} LeaveOneOut(rows: seq<seq<real>>, masks: seq<seq<bool>>, n: nat, start: nat, i: nat)
    requires n >= 2 && Sized(rows, masks, start, start + n) && start <= i < start + n
    ensures var own, sum := MaskedMean(rows[i], masks[i]), SumOfMeans(rows, masks, start, start + n);
      MaskedMean(RlooRow(rows, masks, n, start, i), masks[i]) == own - (sum - own) / ((n - 1) as real)
  {
    var own, sum := MaskedMean(rows[i], masks[i]), SumOfMeans(rows, masks, start, start + n);
    ZeroedSum(rows[i], masks[i]);
    AffineMean(Zeroed(rows[i], masks[i]), masks[i], Ratio(n), Baseline(sum, n));
    OwnLessOthers(own, sum, (n - 1) as real, n as real);
  }

  lemma {:induction false} OwnLessOthers(own: real, sum: real, others: real, all: real)
    requires others > 0.0 && all == others + 1.0
    ensures Times(own, all / others) - sum / others == own - (sum - own) / others
  {
    var q := 1.0 / others;
    assert q * others == 1.0;
    DivideIs(all, others, q);
    DivideIs(sum, others, q);
    DivideIs(sum - own, others, q);
    assert all / others == 1.0 + q;
    assert own * (1.0 + q) == own + own * q;
    assert (sum - own) * q == sum * q - own * q;
  }

  lemma {:induction false} DivideIs(x: real, d: real, q: real)
    requires d > 0.0 && q * d == 1.0
    ensures x / d == x * q
  {
    assert x * q * d == x;
  }

  // With one masked token per sample, that token gets its reward less the mean of the others.
  lemma {:induction false} OneToken(rows: seq<seq<real>>, masks: seq<seq<bool>>, n: nat, start: nat, i: nat, j: nat)
    requires n >= 2 && Sized(rows, masks, start, start + n) && start <= i < start + n
    requires j < |rows[i]| && masks[i][j] && Count(masks[i]) == 1
    ensures MaskedMean(rows[i], masks[i]) == rows[i][j]
    ensures RlooRow(rows, masks, n, start, i)[j]
         == rows[i][j] - (SumOfMeans(rows, masks, start, start + n) - rows[i][j]) / ((n - 1) as real)
  {
    OnlyToken(rows[i], masks[i], j);
    var r := RlooRow(rows, masks, n, start, i);
    ZeroedSum(rows[i], masks[i]);
    OnlyToken(r, masks[i], j);
    LeaveOneOut(rows, masks, n, start, i);
  }

  lemma {:induction false} OnlyToken(row: seq<real>, mask: seq<bool>, j: nat)
    requires |row| == |mask| && j < |row| && mask[j] && Count(mask) == 1
    ensures MaskedSum(row, mask) == row[j]
  {
    if j == 0 {
      NoTokens(row[1..], mask[1..]);
    } else {
      SomeToken(mask[1..], j - 1);
      OnlyToken(row[1..], mask[1..], j - 1);
    }
  }

  lemma {:induction false} SomeToken(mask: seq<bool>, j: nat)
    requires j < |mask| && mask[j]
    ensures Count(mask) >= 1
  {
    if j > 0 { SomeToken(mask[1..], j - 1); }
  }

  lemma {:induction false} NoTokens(row: seq<real>, mask: seq<bool>)
    requires |row| == |mask| && Count(mask) == 0
    ensures MaskedSum(row, mask) == 0.0
  {
    if row != [] { NoTokens(row[1..], mask[1..]); }
  }

  // The sum over rows start..k of a group of the means after the baseline.
  function SumAfter(rows: seq<seq<real>>, masks: seq<seq<bool>>, n: nat, start: nat, k: nat): real
    requires n >= 2 && Sized(rows, masks, start, start + n) && start <= k <= start + n
    decreases k
  {
    if k == start then 0.0
    else SumAfter(rows, masks, n, start, k - 1) + MaskedMean(RlooRow(rows, masks, n, start, k - 1), masks[k - 1])
  }

  lemma {:induction false} SumAfterIs(rows: seq<seq<real>>, masks: seq<seq<bool>>, n: nat, start: nat, k: nat)
    requires n >= 2 && Sized(rows, masks, start, start + n) && start <= k <= start + n
    ensures var part, sum := SumOfMeans(rows, masks, start, k), SumOfMeans(rows, masks, start, start + n);
      SumAfter(rows, masks, n, start, k) == Times(part, Ratio(n)) - Times((k - start) as real, Baseline(sum, n))
    decreases k
  {
    hide Affine, Zeroed, Times;
    var b := Baseline(SumOfMeans(rows, masks, start, start + n), n);
    if k > start {
      SumAfterIs(rows, masks, n, start, k - 1);
      ZeroedSum(rows[k - 1], masks[k - 1]);
      AffineMean(Zeroed(rows[k - 1], masks[k - 1]), masks[k - 1], Ratio(n), b);
      Distribute(SumOfMeans(rows, masks, start, k - 1), MaskedMean(rows[k - 1], masks[k - 1]), Ratio(n));
      Distribute((k - 1 - start) as real, 1.0, b);
    } else {
      Distribute(0.0, 0.0, Ratio(n));
      Distribute(0.0, 0.0, b);
    }
  }

  // The means of each group sum to zero.
  lemma {:induction false} ZeroSum(rows: seq<seq<real>>, masks: seq<seq<bool>>, n: nat, start: nat)
    requires n >= 2 && Sized(rows, masks, start, start + n)
    ensures SumAfter(rows, masks, n, start, start + n) == 0.0
  {
    SumAfterIs(rows, masks, n, start, start + n);
    Balanced(SumOfMeans(rows, masks, start, start + n), n as real, (n - 1) as real);
  }

  lemma {:induction false} Balanced(s: real, n: real, d: real)
    requires d > 0.0
    ensures Times(s, n / d) == Times(n, s / d)
  {
    var q := 1.0 / d;
    assert q * d == 1.0;
    DivideIs(n, d, q);
    DivideIs(s, d, q);
    assert s * (n * q) == n * (s * q);
  }

  // ---- returns: flip, cumsum, flip ----

  function Flip(v: seq<real>): seq<real> { if v == [] then [] else Flip(v[1..]) + [v[0]] }

  function Cumsum(v: seq<real>): seq<real> {
    if v == [] then [] else Cumsum(v[..|v| - 1]) + [Total(v)]
  }

  function Total(v: seq<real>): real { if v == [] then 0.0 else Total(v[..|v| - 1]) + v[|v| - 1] }

  function SuffixSum(v: seq<real>): real { if v == [] then 0.0 else v[0] + SuffixSum(v[1..]) }

  // (final_reward_tensor * response_mask).flip.cumsum.flip for one row
  function Returns(rewards: seq<real>, mask: seq<bool>): seq<real>
    requires |rewards| == |mask|
  {
    Flip(Cumsum(Flip(Zeroed(rewards, mask))))
  }

  lemma {:induction false} FlipAt(v: seq<real>, i: nat)
    ensures |Flip(v)| == |v| && (i < |v| ==> Flip(v)[i] == v[|v| - 1 - i])
  {
    if v != [] { FlipAt(v[1..], if i < |v| - 1 then i else 0); }
  }

  lemma {:induction false} CumsumAt(v: seq<real>, i: nat)
    ensures |Cumsum(v)| == |v| && (i < |v| ==> Cumsum(v)[i] == Total(v[..i + 1]))
  {
    if v != [] {
      CumsumAt(v[..|v| - 1], if i < |v| - 1 then i else 0);
      if i == |v| - 1 {
        assert v[..i + 1] == v;
      } else if i < |v| - 1 {
        assert v[..|v| - 1][..i + 1] == v[..i + 1];
      }
    }
  }

  // The first i values of the flipped row are the last i of the row.
  lemma {:induction false} TotalFlip(v: seq<real>, i: nat)
    requires i <= |v|
    ensures |Flip(v)| == |v| && Total(Flip(v)[..i]) == SuffixSum(v[|v| - i..])
  {
    FlipAt(v, 0);
    if i > 0 {
      TotalFlip(v, i - 1);
      FlipAt(v, i - 1);
      assert Flip(v)[..i][..i - 1] == Flip(v)[..i - 1];
      assert v[|v| - i..][1..] == v[|v| - (i - 1)..];
    }
  }

  // The return at a position is the sum of the masked rewards from there on.
  lemma {:induction false} ReturnsAre(rewards: seq<real>, mask: seq<bool>, i: nat)
    requires |rewards| == |mask| && i < |rewards|
    ensures |Returns(rewards, mask)| == |rewards|
    ensures Returns(rewards, mask)[i] == MaskedSum(rewards[i..], mask[i..])
  {
    ZeroedSum(rewards, mask);
    var v := Zeroed(rewards, mask);
    var f := Flip(v);
    FlipAt(v, 0);
    CumsumAt(f, |v| - 1 - i);
    FlipAt(Cumsum(f), i);
    TotalFlip(v, |v| - i);
    SuffixOfZeroed(rewards, mask, i);
  }

  lemma {:induction false} SuffixOfZeroed(rewards: seq<real>, mask: seq<bool>, i: nat)
    requires |rewards| == |mask| && i <= |rewards|
    ensures |Zeroed(rewards, mask)| == |rewards|
    ensures SuffixSum(Zeroed(rewards, mask)[i..]) == MaskedSum(rewards[i..], mask[i..])
    decreases |rewards| - i
  {
    ZeroedSum(rewards, mask);
    var v := Zeroed(rewards, mask);
    if i < |rewards| {
      SuffixOfZeroed(rewards, mask, i + 1);
      assert v[i..][1..] == v[i + 1..] && rewards[i..][1..] == rewards[i + 1..] && mask[i..][1..] == mask[i + 1..];
    }
  }
}
