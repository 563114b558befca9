// Dynamic sampling in recipe/dapo/dapo_ray_trainer.py (and, the same, in
// recipe/entropy/entropy_ray_trainer.py): prompts whose responses all get the same reward are
// dropped, whole groups are collected over several generation rounds, and the batch is cut to size.
module GroupFilter {
  import opened Tensors

  // One trajectory: the prompt it belongs to, its metric and the rest of its row.
  datatype Row = Row(uid: nat, metric: real, data: int)

  // ---- np.std, up to the square root ----

  function Sum(v: seq<real>): real { if v == [] then 0.0 else v[0] + Sum(v[1..]) }

  function Mean(v: seq<real>): real
    requires v != []
  {
    Sum(v) / (|v| as real)
  }

  function Times(a: real, b: real): real { a * b }

  function Square(d: real): real { Times(d, d) }

  function Squares(v: seq<real>, m: real): real {
    if v == [] then 0.0 else Square(v[0] - m) + Squares(v[1..], m)
  }

  function Variance(v: seq<real>): real
    requires v != []
  {
    Squares(v, Mean(v)) / (|v| as real)
  }

  predicate AllEqual(v: seq<real>) { forall i, j :: 0 <= i < |v| && 0 <= j < |v| ==> v[i] == v[j] }

  lemma {:induction false} TimesSign(a: real, b: real)
    ensures a == 0.0 ==> Times(a, b) == 0.0
    ensures a > 0.0 && b > 0.0 ==> Times(a, b) > 0.0
    ensures a < 0.0 && b < 0.0 ==> Times(a, b) > 0.0
  {}

  lemma {:induction false} SquaresZero(v: seq<real>, m: real)
    ensures Squares(v, m) >= 0.0
    ensures Squares(v, m) == 0.0 <==> forall i :: 0 <= i < |v| ==> v[i] == m
  {
    hide Times;
    if v != [] {
      SquaresZero(v[1..], m);
      TimesSign(v[0] - m, v[0] - m);
      assert forall i :: 0 < i < |v| ==> v[i] == v[1..][i - 1];
      if forall i :: 0 <= i < |v| ==> v[i] == m { assert v[0] == m; }
    }
  }

  lemma {:induction false} SumConstant(v: seq<real>, m: real)
    requires forall i :: 0 <= i < |v| ==> v[i] == m
    ensures Sum(v) == (|v| as real) * m
  {
    if v != [] { SumConstant(v[1..], m); }
  }

  // The variance is positive exactly when the values are not all equal.
  lemma {:induction false} VariancePositive(v: seq<real>)
    requires v != []
    ensures Variance(v) > 0.0 <==> !AllEqual(v)
  {
    var n, m := |v| as real, Mean(v);
    SquaresZero(v, m);
    assert Squares(v, m) / n > 0.0 <==> Squares(v, m) > 0.0;
    if AllEqual(v) {
      SumConstant(v, v[0]);
      assert m == v[0];
    }
  }

  // ---- one round of filtering ----

  function MetricsOf(rows: seq<Row>, uid: nat): seq<real> {
    if rows == [] then []
    else (if rows[0].uid == uid then [rows[0].metric] else []) + MetricsOf(rows[1..], uid)
  }

  // std > 0 or a single value
  predicate Keep(values: seq<real>) { values != [] && (Variance(values) > 0.0 || |values| == 1) }

  // The rows of a part whose prompts are kept, judged by all rows, in order.
  function Kept(rows: seq<Row>, part: seq<Row>): seq<Row> {
    if part == [] then []
    else (if Keep(MetricsOf(rows, part[0].uid)) then [part[0]] else []) + Kept(rows, part[1..])
  }

  lemma {:induction false} MetricsAppend(a: seq<Row>, b: seq<Row>, uid: nat)
    ensures MetricsOf(a + b, uid) == MetricsOf(a, uid) + MetricsOf(b, uid)
  {
    if a == [] {
      assert a + b == b;
    } else {
      var ab := a + b;
      assert ab[0] == a[0] && ab[1..] == a[1..] + b;
      MetricsAppend(a[1..], b, uid);
      assert MetricsOf(ab, uid) == (if a[0].uid == uid then [a[0].metric] else []) + MetricsOf(a[1..] + b, uid);
    }
  }

  lemma {:induction false} KeptAppend(rows: seq<Row>, a: seq<Row>, b: seq<Row>)
    ensures Kept(rows, a + b) == Kept(rows, a) + Kept(rows, b)
  {
    hide Keep;
    if a == [] {
      assert a + b == b;
    } else {
      assert (a + b)[1..] == a[1..] + b;
      KeptAppend(rows, a[1..], b);
    }
  }

  lemma {:induction false} MetricsNext(rows: seq<Row>, i: nat, uid: nat)
    requires i < |rows|
    ensures MetricsOf(rows[..i + 1], uid)
         == MetricsOf(rows[..i], uid) + (if rows[i].uid == uid then [rows[i].metric] else [])
  {
    assert rows[..i + 1] == rows[..i] + [rows[i]];
    MetricsAppend(rows[..i], [rows[i]], uid);
    assert [rows[i]][1..] == [];
  }

  // The dictionary from prompts to their metric values, with its keys in insertion order.
  method CollectMetrics(rows: seq<Row>) returns (uids: seq<nat>, values: map<nat, seq<real>>)
    ensures forall i, j :: 0 <= i < j < |uids| ==> uids[i] != uids[j]
    ensures forall u :: u in uids <==> u in values
    ensures forall u :: u in values <==> MetricsOf(rows, u) != []
    ensures forall u :: u in values ==> values[u] == MetricsOf(rows, u)
  {
    uids, values := [], map[];
    for i := 0 to |rows|
      invariant forall i, j :: 0 <= i < j < |uids| ==> uids[i] != uids[j]
      invariant forall u :: u in uids <==> u in values
      invariant forall u :: u in values <==> MetricsOf(rows[..i], u) != []
      invariant forall u :: u in values ==> values[u] == MetricsOf(rows[..i], u)
    {
      forall u: nat
        ensures MetricsOf(rows[..i + 1], u)
             == MetricsOf(rows[..i], u) + (if rows[i].uid == u then [rows[i].metric] else [])
      {
        MetricsNext(rows, i, u);
      }
      var uid := rows[i].uid;
      if uid in values {
        values := values[uid := values[uid] + [rows[i].metric]];
      } else {
        uids, values := uids + [uid], values[uid := [rows[i].metric]];
      }
    }
    assert rows[..|rows|] == rows;
  }

  // [uid for uid, std in ... if std > 0 or len(values[uid]) == 1]
  method KeptPrompts(uids: seq<nat>, values: map<nat, seq<real>>) returns (keptUids: seq<nat>)
    requires forall i, j :: 0 <= i < j < |uids| ==> uids[i] != uids[j]
    requires forall u :: u in uids ==> u in values
    ensures forall i, j :: 0 <= i < j < |keptUids| ==> keptUids[i] != keptUids[j]
    ensures forall u :: u in keptUids <==> u in uids && Keep(values[u])
  {
    hide Keep;
    keptUids := [];
    for i := 0 to |uids|
      invariant forall a, b :: 0 <= a < b < |keptUids| ==> keptUids[a] != keptUids[b]
      invariant forall u :: u in keptUids <==> u in uids[..i] && Keep(values[u])
    {
      assert uids[..i + 1] == uids[..i] + [uids[i]];
      if Keep(values[uids[i]]) { keptUids := keptUids + [uids[i]]; }
    }
    assert uids[..|uids|] == uids;
  }

  method FilterGroups(rows: seq<Row>) returns (kept: seq<Row>, keptUids: seq<nat>)
    ensures kept == Kept(rows, rows)
    ensures forall i, j :: 0 <= i < j < |keptUids| ==> keptUids[i] != keptUids[j]
    ensures forall u :: u in keptUids <==> Keep(MetricsOf(rows, u))
  {
    hide Keep, Kept, MetricsOf;
    var uids, values := CollectMetrics(rows);
    keptUids := KeptPrompts(uids, values);
    NothingKept();
    kept := SelectRows(rows, keptUids);
  }

  // The rows whose prompt is kept, in order.
  method SelectRows(rows: seq<Row>, keptUids: seq<nat>) returns (kept: seq<Row>)
    requires forall u :: u in keptUids <==> Keep(MetricsOf(rows, u))
    ensures kept == Kept(rows, rows)
  {
    hide Keep, Kept, MetricsOf;
    kept := [];
    KeptNone(rows);
    for i := 0 to |rows|
      invariant kept == Kept(rows, rows[..i])
    {
      KeptNext(rows, i);
      if rows[i].uid in keptUids { kept := kept + [rows[i]]; }
    }
    assert rows[..|rows|] == rows;
  }

  lemma {:induction false} KeptNone(rows: seq<Row>)
    ensures Kept(rows, rows[..0]) == []
  {}

  lemma {:induction false} KeptNext(rows: seq<Row>, i: nat)
    requires i < |rows|
    ensures Kept(rows, rows[..i + 1])
         == Kept(rows, rows[..i]) + (if Keep(MetricsOf(rows, rows[i].uid)) then [rows[i]] else [])
  {
    hide Keep, MetricsOf;
    assert rows[..i + 1] == rows[..i] + [rows[i]];
    KeptAppend(rows, rows[..i], [rows[i]]);
    assert [rows[i]][1..] == [];
  }

  lemma {:induction false} NothingKept()
    ensures !Keep([])
  {}

  // ---- which rows those are ----

  predicate Same(rows: seq<Row>, u: nat, i: nat) { i < |rows| && rows[i].uid == u }

  predicate Ascending(s: seq<nat>) { forall i, j :: 0 <= i < j < |s| ==> s[i] < s[j] }

  // The prompt's rows among the first n.
  ghost predicate OwnRows(rows: seq<Row>, u: nat, n: nat, own: seq<nat>)
    requires n <= |rows|
  {
    && Ascending(own) && (forall i: nat :: i in own <==> i < n && Same(rows, u, i))
    && |MetricsOf(rows[..n], u)| == |own|
    && forall k :: 0 <= k < |own| ==> own[k] < n && MetricsOf(rows[..n], u)[k] == rows[own[k]].metric
  }

  lemma {:induction false} Own(rows: seq<Row>, u: nat, n: nat) returns (own: seq<nat>)
    requires n <= |rows|
    ensures OwnRows(rows, u, n, own)
  {
    if n == 0 {
      own := [];
    } else {
      own := Own(rows, u, n - 1);
      assert rows[..n] == rows[..n - 1] + [rows[n - 1]];
      MetricsAppend(rows[..n - 1], [rows[n - 1]], u);
      assert [rows[n - 1]][1..] == [];
      if rows[n - 1].uid == u { own := own + [n - 1]; }
    }
  }

  ghost predicate Alone(rows: seq<Row>, u: nat) {
    exists i: nat :: Same(rows, u, i) && forall j: nat :: Same(rows, u, j) ==> j == i
  }

  ghost predicate Differ(rows: seq<Row>, u: nat) {
    exists i: nat, j: nat :: Same(rows, u, i) && Same(rows, u, j) && rows[i].metric != rows[j].metric
  }

  // The prompt has a single response, or two with different metrics.
  ghost predicate WorthKeeping(rows: seq<Row>, u: nat) { Alone(rows, u) || Differ(rows, u) }

  lemma {:induction false} AloneIff(rows: seq<Row>, u: nat, own: seq<nat>)
    requires Ascending(own) && forall i: nat :: i in own <==> Same(rows, u, i)
    ensures |own| == 1 <==> Alone(rows, u)
  {
    if |own| == 1 { assert own[0] in own; }
    if |own| >= 2 { assert own[0] in own && own[1] in own && own[0] < own[1]; }
    if i: nat :| Same(rows, u, i) { assert i in own; }
  }

  lemma {:induction false} DifferIff(rows: seq<Row>, u: nat, own: seq<nat>, v: seq<real>)
    requires |v| == |own| && forall i: nat :: i in own <==> Same(rows, u, i)
    requires forall k :: 0 <= k < |own| ==> own[k] < |rows| && v[k] == rows[own[k]].metric
    ensures !AllEqual(v) <==> Differ(rows, u)
  {
    if !AllEqual(v) {
      var a, b :| 0 <= a < |v| && 0 <= b < |v| && v[a] != v[b];
      assert own[a] in own && own[b] in own;
    }
    if i: nat, j: nat :| Same(rows, u, i) && Same(rows, u, j) && rows[i].metric != rows[j].metric {
      assert i in own && j in own;
      var a :| 0 <= a < |own| && own[a] == i;
      var b :| 0 <= b < |own| && own[b] == j;
      assert v[a] != v[b];
    }
  }

  lemma {:induction false} KeepIff(rows: seq<Row>, u: nat)
    ensures Keep(MetricsOf(rows, u)) <==> WorthKeeping(rows, u)
  {
    hide Variance, MetricsOf, Alone, Differ;
    var own := Own(rows, u, |rows|);
    assert rows[..|rows|] == rows;
    var v := MetricsOf(rows, u);
    AloneIff(rows, u, own);
    DifferIff(rows, u, own, v);
    if v != [] { VariancePositive(v); }
  }

  // The indices of the rows kept: those of the prompts worth keeping, in order.
  lemma {:induction false} KeptRows(rows: seq<Row>) returns (idxs: seq<nat>)
    ensures Ascending(idxs) && forall i: nat :: i in idxs <==> i < |rows| && WorthKeeping(rows, rows[i].uid)
    ensures |Kept(rows, rows)| == |idxs|
    ensures forall k :: 0 <= k < |idxs| ==> idxs[k] < |rows| && Kept(rows, rows)[k] == rows[idxs[k]]
  {
    idxs := KeptUpTo(rows, |rows|);
    assert rows[..|rows|] == rows;
  }

  lemma {:induction false} KeptUpTo(rows: seq<Row>, n: nat) returns (idxs: seq<nat>)
    requires n <= |rows|
    ensures Ascending(idxs) && forall i: nat :: i in idxs <==> i < n && WorthKeeping(rows, rows[i].uid)
    ensures |Kept(rows, rows[..n])| == |idxs|
    ensures forall k :: 0 <= k < |idxs| ==> idxs[k] < n && Kept(rows, rows[..n])[k] == rows[idxs[k]]
  {
    hide Kept, Keep, MetricsOf, WorthKeeping;
    if n == 0 {
      idxs := [];
      KeptNone(rows);
    } else {
      idxs := KeptUpTo(rows, n - 1);
      KeptNext(rows, n - 1);
      KeepIff(rows, rows[n - 1].uid);
      if WorthKeeping(rows, rows[n - 1].uid) { idxs := idxs + [n - 1]; }
    }
  }

  // ---- groups ----

  // The n responses of one prompt.
  predicate IsGroup(g: seq<Row>, n: nat) {
    |g| == n && n >= 1 && forall i :: 0 <= i < n ==> g[i].uid == g[0].uid
  }

  predicate Groups(gs: seq<seq<Row>>, n: nat) {
    && (forall i :: 0 <= i < |gs| ==> IsGroup(gs[i], n))
    && forall i, j :: 0 <= i < j < |gs| ==> gs[i][0].uid != gs[j][0].uid
  }

  function Metrics(g: seq<Row>): seq<real> {
    if g == [] then [] else [g[0].metric] + Metrics(g[1..])
  }

  // A group worth training on: rewards that differ, or a single response.
  predicate Mixed(g: seq<Row>) {
    |g| == 1 || !(forall i, j :: 0 <= i < |g| && 0 <= j < |g| ==> g[i].metric == g[j].metric)
  }

  function Chosen(gs: seq<seq<Row>>): seq<seq<Row>> {
    if gs == [] then [] else (if Mixed(gs[0]) then [gs[0]] else []) + Chosen(gs[1..])
  }

  lemma {:induction false} MetricsAt(g: seq<Row>)
    ensures |Metrics(g)| == |g| && forall i :: 0 <= i < |g| ==> Metrics(g)[i] == g[i].metric
  {
    if g != [] { MetricsAt(g[1..]); }
  }

  lemma {:induction false} KeepMixed(g: seq<Row>)
    requires g != []
    ensures Keep(Metrics(g)) <==> Mixed(g)
  {
    hide Variance;
    MetricsAt(g);
    VariancePositive(Metrics(g));
    var m := Metrics(g);
    if AllEqual(m) {
      forall i, j | 0 <= i < |g| && 0 <= j < |g| ensures g[i].metric == g[j].metric { assert m[i] == m[j]; }
    } else {
      var i, j :| 0 <= i < |m| && 0 <= j < |m| && m[i] != m[j];
      assert g[i].metric != g[j].metric;
    }
  }

  lemma {:induction false} MetricsOfGroup(g: seq<Row>, uid: nat, same: bool)
    requires forall i :: 0 <= i < |g| ==> (g[i].uid == uid <==> same)
    ensures MetricsOf(g, uid) == if same then Metrics(g) else []
  {
    if g != [] { MetricsOfGroup(g[1..], uid, same); }
  }

  lemma {:induction false} MetricsOfOthers(gs: seq<seq<Row>>, n: nat, uid: nat)
    requires Groups(gs, n) && forall i :: 0 <= i < |gs| ==> gs[i][0].uid != uid
    ensures MetricsOf(Flat(gs), uid) == []
  {
    if gs != [] {
      MetricsOfOthers(gs[1..], n, uid);
      MetricsAppend(gs[0], Flat(gs[1..]), uid);
      MetricsOfGroup(gs[0], uid, false);
    }
  }

  lemma {:induction false} MetricsOfOwn(gs: seq<seq<Row>>, n: nat, i: nat)
    requires Groups(gs, n) && i < |gs|
    ensures MetricsOf(Flat(gs), gs[i][0].uid) == Metrics(gs[i])
  {
    var uid := gs[i][0].uid;
    MetricsAppend(gs[0], Flat(gs[1..]), uid);
    if i == 0 {
      MetricsOfGroup(gs[0], uid, true);
      MetricsOfOthers(gs[1..], n, uid);
    } else {
      MetricsOfGroup(gs[0], uid, false);
      MetricsOfOwn(gs[1..], n, i - 1);
    }
  }

  lemma {:induction false} KeptGroup(rows: seq<Row>, g: seq<Row>, keep: bool)
    requires forall i :: 0 <= i < |g| ==> (Keep(MetricsOf(rows, g[i].uid)) <==> keep)
    ensures Kept(rows, g) == if keep then g else []
  {
    hide Keep;
    if g != [] { KeptGroup(rows, g[1..], keep); }
  }

  lemma {:induction false} KeptRest(all: seq<seq<Row>>, n: nat, k: nat)
    requires Groups(all, n) && k <= |all|
    ensures Kept(Flat(all), Flat(all[k..])) == Flat(Chosen(all[k..]))
    decreases |all| - k
  {
    hide Keep, Mixed;
    if k < |all| {
      var rows, g := Flat(all), all[k];
      assert all[k..][1..] == all[k + 1..];
      KeptRest(all, n, k + 1);
      MetricsOfOwn(all, n, k);
      KeepMixed(g);
      forall i | 0 <= i < |g| ensures MetricsOf(rows, g[i].uid) == Metrics(g) { assert g[i].uid == g[0].uid; }
      KeptGroup(rows, g, Mixed(g));
      KeptAppend(rows, g, Flat(all[k + 1..]));
      FlatAppend(if Mixed(g) then [g] else [], Chosen(all[k + 1..]));
      assert Flat([g]) == g + Flat([g][1..]) && [g][1..] == [];
    }
  }

  lemma {:induction false} ChosenIn(gs: seq<seq<Row>>, i: nat) returns (j: nat)
    requires i < |Chosen(gs)|
    ensures j < |gs| && Chosen(gs)[i] == gs[j] && Mixed(gs[j])
    ensures forall k: nat :: k < i ==> exists m: nat :: m < j && Chosen(gs)[k] == gs[m]
  {
    hide Mixed;
    if Mixed(gs[0]) {
      if i == 0 {
        j := 0;
      } else {
        j := ChosenIn(gs[1..], i - 1);
        forall k: nat | k < i ensures exists m: nat :: m < j + 1 && Chosen(gs)[k] == gs[m] {
          if k == 0 {
            assert Chosen(gs)[0] == gs[0];
          } else {
            assert Chosen(gs)[k] == Chosen(gs[1..])[k - 1];
            var m: nat :| m < j && Chosen(gs[1..])[k - 1] == gs[1..][m];
            assert gs[1..][m] == gs[m + 1];
          }
        }
        j := j + 1;
      }
    } else {
      j := ChosenIn(gs[1..], i);
      forall k: nat | k < i ensures exists m: nat :: m < j + 1 && Chosen(gs)[k] == gs[m] {
        var m: nat :| m < j && Chosen(gs[1..])[k] == gs[1..][m];
        assert gs[1..][m] == gs[m + 1];
      }
      j := j + 1;
    }
  }

  lemma {:induction false} ChosenGroups(gs: seq<seq<Row>>, n: nat)
    requires Groups(gs, n)
    ensures Groups(Chosen(gs), n)
    ensures forall i :: 0 <= i < |Chosen(gs)| ==> Mixed(Chosen(gs)[i]) && Chosen(gs)[i] in gs
  {
    hide Mixed, Chosen;
    var c := Chosen(gs);
    forall i | 0 <= i < |c| ensures Mixed(c[i]) && c[i] in gs && IsGroup(c[i], n) {
      var j := ChosenIn(gs, i);
    }
    forall i, k | 0 <= k < i < |c| ensures c[k][0].uid != c[i][0].uid {
      var j := ChosenIn(gs, i);
      var m: nat :| m < j && c[k] == gs[m];
    }
  }

  // How many prompts are kept.
  lemma {:induction false} KeptCount(gs: seq<seq<Row>>, n: nat, uids: seq<nat>)
    requires Groups(gs, n)
    requires forall i, j :: 0 <= i < j < |uids| ==> uids[i] != uids[j]
    requires forall u :: u in uids <==> Keep(MetricsOf(Flat(gs), u))
    ensures |uids| == |Chosen(gs)|
  {
    hide Keep, Mixed;
    ChosenGroups(gs, n);
    var c := Chosen(gs);
    var ids := Ids(c);
    forall u | u in uids ensures u in ids {
      if forall i :: 0 <= i < |gs| ==> gs[i][0].uid != u {
        MetricsOfOthers(gs, n, u);
        NothingKept();
      } else {
        var i :| 0 <= i < |gs| && gs[i][0].uid == u;
        MetricsOfOwn(gs, n, i);
        KeepMixed(gs[i]);
        ChosenIf(gs, i);
        var j :| 0 <= j < |c| && c[j] == gs[i];
        assert ids[j] == u;
      }
    }
    forall u | u in ids ensures u in uids {
      var j :| 0 <= j < |ids| && ids[j] == u;
      var i :| 0 <= i < |gs| && gs[i] == c[j];
      MetricsOfOwn(gs, n, i);
      KeepMixed(gs[i]);
    }
    SameSize(uids, ids);
  }

  lemma {:induction false} ChosenIf(gs: seq<seq<Row>>, i: nat)
    requires i < |gs| && Mixed(gs[i])
    ensures gs[i] in Chosen(gs)
  {
    hide Mixed;
    if i > 0 { ChosenIf(gs[1..], i - 1); }
  }

  function Ids(gs: seq<seq<Row>>): (r: seq<nat>)
    requires forall i :: 0 <= i < |gs| ==> gs[i] != []
    ensures |r| == |gs| && forall i :: 0 <= i < |gs| ==> r[i] == gs[i][0].uid
  {
    seq(|gs|, i requires 0 <= i < |gs| => gs[i][0].uid)
  }

  // Two lists of distinct elements with the same members have the same length.
  lemma {:induction false} SameSize(a: seq<nat>, b: seq<nat>)
    requires forall i, j :: 0 <= i < j < |a| ==> a[i] != a[j]
    requires forall i, j :: 0 <= i < j < |b| ==> b[i] != b[j]
    requires forall u :: u in a <==> u in b
    ensures |a| == |b|
  {
    SetSize(a);
    SetSize(b);
    assert Members(a) == Members(b);
  }

  function Members(a: seq<nat>): set<nat> { set u | u in a }

  lemma {:induction false} SetSize(a: seq<nat>)
    requires forall i, j :: 0 <= i < j < |a| ==> a[i] != a[j]
    ensures |Members(a)| == |a|
  {
    if a != [] {
      SetSize(a[1..]);
      var tail := Members(a[1..]);
      assert a[0] !in tail by {
        forall i | 0 <= i < |a[1..]| ensures a[1..][i] != a[0] { assert a[1..][i] == a[i + 1]; }
      }
      assert a == [a[0]] + a[1..];
      assert Members(a) == tail + {a[0]};
    }
  }

  // ---- the loop ----

  datatype Outcome = Continue | Train(batch: seq<Row>) | TooManyRounds

  // What fit carries from one generation round to the next.
  class DynamicSampling {
    const trainBatchSize: nat
    const n: nat
    const maxRounds: int
    var batch: seq<Row>      // None and an empty batch are the same here
    var numPromptInBatch: nat
    var numGenBatches: nat
    ghost var generated: seq<seq<Row>>   // all groups since the last update

    ghost predicate Valid()
      reads this
    {
      n >= 1 && Groups(generated, n) && batch == Flat(Chosen(generated)) && numPromptInBatch == |Chosen(generated)|
    }

    constructor (trainBatchSize: nat, n: nat, maxRounds: int)
      requires n >= 1
      ensures Valid() && generated == [] && numGenBatches == 0
      ensures this.trainBatchSize == trainBatchSize && this.n == n && this.maxRounds == maxRounds
    {
      this.trainBatchSize, this.n, this.maxRounds := trainBatchSize, n, maxRounds;
      batch, numPromptInBatch, numGenBatches, generated := [], 0, 0, [];
    }

    // One generation round: groups of n rows each, under prompt ids not seen before.
    method Round(rows: seq<Row>, ghost groups: seq<seq<Row>>) returns (o: Outcome)
      requires Valid() && rows == Flat(groups) && Groups(generated + groups, n)
      modifies this
      ensures Valid() && generated == old(generated) + groups && numGenBatches == old(numGenBatches) + 1
      ensures o.Train? <==> |Chosen(generated)| >= trainBatchSize
      ensures o.TooManyRounds? <==> |Chosen(generated)| < trainBatchSize && 0 < maxRounds <= numGenBatches
      ensures o.Train? ==> o.batch == Flat(Chosen(generated)[..trainBatchSize])
      ensures o.Train? ==> |o.batch| == trainBatchSize * n
    {
      numGenBatches := numGenBatches + 1;
      var kept, keptUids := FilterGroups(rows);
      RoundKeeps(generated, groups, n, keptUids);
      numPromptInBatch := numPromptInBatch + |keptUids|;
      batch := batch + kept;
      generated := generated + groups;
      if numPromptInBatch < trainBatchSize {
        o := if maxRounds <= 0 || numGenBatches < maxRounds then Continue else TooManyRounds;
      } else {
        Aligned(Chosen(generated), trainBatchSize, n);
        o := Train(batch[..trainBatchSize * n]);
      }
    }

    // After the update of the actor.
    method Reset()
      requires Valid()
      modifies this
      ensures Valid() && generated == [] && numGenBatches == 0
    {
      batch, numPromptInBatch, numGenBatches, generated := [], 0, 0, [];
    }
  }

  lemma {:induction false} ChosenAppend(a: seq<seq<Row>>, b: seq<seq<Row>>)
    ensures Chosen(a + b) == Chosen(a) + Chosen(b)
  {
    hide Mixed;
    if a == [] {
      assert a + b == b;
    } else {
      assert (a + b)[1..] == a[1..] + b;
      ChosenAppend(a[1..], b);
    }
  }

  lemma {:induction false} RoundKeeps(before: seq<seq<Row>>, groups: seq<seq<Row>>, n: nat, keptUids: seq<nat>)
    requires Groups(before + groups, n)
    requires forall i, j :: 0 <= i < j < |keptUids| ==> keptUids[i] != keptUids[j]
    requires forall u :: u in keptUids <==> Keep(MetricsOf(Flat(groups), u))
    ensures |Chosen(before + groups)| == |Chosen(before)| + |keptUids|
    ensures Flat(Chosen(before + groups)) == Flat(Chosen(before)) + Kept(Flat(groups), Flat(groups))
    ensures Groups(Chosen(before + groups), n)
  {
    hide Keep, Mixed;
    var all := before + groups;
    assert Groups(groups, n) by {
      forall i | 0 <= i < |groups| ensures IsGroup(groups[i], n) { assert all[|before| + i] == groups[i]; }
      forall i, j | 0 <= i < j < |groups| ensures groups[i][0].uid != groups[j][0].uid {
        assert all[|before| + i] == groups[i] && all[|before| + j] == groups[j];
      }
    }
    ChosenAppend(before, groups);
    FlatAppend(Chosen(before), Chosen(groups));
    KeptRest(groups, n, 0);
    assert groups[0..] == groups;
    KeptCount(groups, n, keptUids);
    ChosenGroups(all, n);
  }

  // batch[:size * n] is the first size groups, whole.
  lemma {:induction false} Aligned(gs: seq<seq<Row>>, size: nat, n: nat)
    requires Groups(gs, n) && size <= |gs|
    ensures 0 <= size * n <= |Flat(gs)| && Flat(gs)[..size * n] == Flat(gs[..size])
  {
    FlatAppend(gs[..size], gs[size..]);
    assert gs[..size] + gs[size..] == gs;
    FlatShape(gs[..size], n);
  }

  // The batch handed to training: whole groups of prompts that differ, each worth training on.
  lemma {:induction false} TrainedGroups(generated: seq<seq<Row>>, size: nat, n: nat)
    requires Groups(generated, n) && size <= |Chosen(generated)|
    ensures var gs := Chosen(generated)[..size];
      |gs| == size && Groups(gs, n) && forall i :: 0 <= i < size ==> Mixed(gs[i]) && gs[i] in generated
  {
    ChosenGroups(generated, n);
  }
}
