// Attention weights between the two scripts: scripts/converter_hf_to_mcore.py interleaves q, k and
// v per key/value group, scripts/legacy_model_merger.py takes tensor-parallel shards apart again.
// A tensor is the sequence of its rows.
module QkvLayout {
  import opened Arithmetic
  import opened Options
  import opened Tensors

  // ---- the converter ----

  // torch.cat([q, k, v], dim=1): the three blocks of each group next to each other.
  function Beside<T>(q: seq<seq<T>>, k: seq<seq<T>>, v: seq<seq<T>>): (r: seq<seq<T>>)
    requires |q| == |k| == |v|
    ensures |r| == |q|
    ensures forall i :: 0 <= i < |r| ==> r[i] == q[i] + k[i] + v[i]
  {
    if q == [] then [] else [q[0] + k[0] + v[0]] + Beside(q[1..], k[1..], v[1..])
  }

  datatype Heads = Heads(query: nat, keyValue: nat, dim: nat)

  // The sizes both scripts assume: heads divide by key/value heads.
  predicate Grouped(h: Heads) { h.keyValue >= 1 && h.query % h.keyValue == 0 && h.dim >= 1 }

  function QueryRows(h: Heads): nat
    requires h.keyValue >= 1
  {
    h.dim * h.query / h.keyValue
  }

  predicate Sized<T>(h: Heads, q: seq<T>, k: seq<T>, v: seq<T>) {
    && Grouped(h) && |q| == h.keyValue * QueryRows(h)
    && |k| == h.keyValue * h.dim && |v| == h.keyValue * h.dim
  }

  function KvGroups<T>(h: Heads, q: seq<T>, k: seq<T>, v: seq<T>): seq<seq<T>>
    requires Sized(h, q, k, v)
  {
    BlocksShape(q, h.keyValue, QueryRows(h));
    BlocksShape(k, h.keyValue, h.dim);
    BlocksShape(v, h.keyValue, h.dim);
    Beside(Blocks(q, h.keyValue, QueryRows(h)), Blocks(k, h.keyValue, h.dim), Blocks(v, h.keyValue, h.dim))
  }

  // ... .view(-1, hidden_dim)
  function Interleave<T>(h: Heads, q: seq<T>, k: seq<T>, v: seq<T>): seq<T>
    requires Sized(h, q, k, v)
  {
    Flat(KvGroups(h, q, k, v))
  }

  // ---- the merger ----

  // The pieces of all shards in order.
  function Groups<T>(shards: seq<seq<T>>, perShard: nat): seq<seq<T>>
    requires perShard >= 1
  {
    if shards == [] then [] else Chunk(shards[0], perShard) + Groups(shards[1..], perShard)
  }

  function Part<T>(group: seq<T>, lo: nat, hi: nat): seq<T> {
    if lo <= hi <= |group| then group[lo..hi] else []
  }

  // Rows lo..hi of every group.
  function Parts<T>(groups: seq<seq<T>>, lo: nat, hi: nat): seq<seq<T>> {
    if groups == [] then [] else [Part(groups[0], lo, hi)] + Parts(groups[1..], lo, hi)
  }

  // Rows q, k and v of a group, as chunk.split([a, b, b]) gives them.
  datatype Sizes = Sizes(perShard: nat, a: nat, b: nat)

  // The sizes the merger works out from the first shard, or None where an assertion or a division fails.
  function MergeSizes<T>(h: Heads, shards: seq<seq<T>>, tp: nat): Option<Sizes> {
    if shards == [] || tp == 0 || h.keyValue == 0 || h.query % h.keyValue != 0 then None
    else
      var perKv := h.query / h.keyValue;
      if |shards[0]| % (perKv + 2) != 0 then None
      else
        var kvSize, perShard := |shards[0]| / (perKv + 2), h.keyValue / tp;
        if perShard == 0 then None
        else Some(SplitSizes(kvSize, perKv, perShard))
  }

  function SplitSizes(kvSize: nat, perKv: nat, perShard: nat): Sizes
    requires perShard >= 1
  {
    assert kvSize * perKv >= 0;
    Sizes(perShard, kvSize * perKv / perShard, kvSize / perShard)
  }

  function MergeAcrossTp<T>(h: Heads, shards: seq<seq<T>>, tp: nat): Option<(seq<T>, seq<T>, seq<T>)> {
    match MergeSizes(h, shards, tp)
    case None => None
    case Some(z) =>
      var groups := Groups(shards, z.perShard);
      if AllOf(groups, z.a + 2 * z.b) then
        Some((Flat(Parts(groups, 0, z.a)), Flat(Parts(groups, z.a, z.a + z.b)),
              Flat(Parts(groups, z.a + z.b, z.a + 2 * z.b))))
      else None
  }

  lemma {:induction false} PartsAppend<T>(groups: seq<seq<T>>, group: seq<T>, lo: nat, hi: nat)
    ensures Parts(groups + [group], lo, hi) == Parts(groups, lo, hi) + [Part(group, lo, hi)]
    decreases |groups|
  {
    if groups == [] {
      assert groups + [group] == [group];
    } else {
      PartsAppend(groups[1..], group, lo, hi);
      assert (groups + [group])[1..] == groups[1..] + [group];
    }
  }

  lemma {:induction false} GroupsAppend<T>(a: seq<seq<T>>, b: seq<seq<T>>, n: nat)
    requires n >= 1
    ensures Groups(a + b, n) == Groups(a, n) + Groups(b, n)
    decreases |a|
  {
    hide Chunk;
    if a == [] {
      assert a + b == b;
    } else {
      GroupsAppend(a[1..], b, n);
      assert (a + b)[1..] == a[1..] + b;
    }
  }

  lemma {:induction false} GroupsSplit<T>(s: seq<seq<T>>, i: nat, n: nat)
    requires n >= 1 && i < |s|
    ensures Groups(s[..i + 1], n) == Groups(s[..i], n) + Chunk(s[i], n)
    ensures Groups(s[..i + 1], n) <= Groups(s, n)
  {
    hide Chunk;
    assert s[..i + 1] == s[..i] + [s[i]] && s == s[..i + 1] + s[i + 1..];
    GroupsAppend(s[..i], [s[i]], n);
    GroupsAppend(s[..i + 1], s[i + 1..], n);
    assert [s[i]][1..] == [];
    assert Groups([s[i]], n) == Chunk(s[i], n) + Groups([], n) == Chunk(s[i], n);
  }

  // The lists that the loops fill, once the groups done have been split.
  ghost predicate Filled<T>(done: seq<seq<T>>, z: Sizes, q: seq<seq<T>>, k: seq<seq<T>>, v: seq<seq<T>>) {
    && AllOf(done, z.a + 2 * z.b) && q == Parts(done, 0, z.a) && k == Parts(done, z.a, z.a + z.b)
    && v == Parts(done, z.a + z.b, z.a + 2 * z.b)
  }

  lemma {:induction false} FilledNext<T>(done: seq<seq<T>>, z: Sizes, q: seq<seq<T>>, k: seq<seq<T>>, v: seq<seq<T>>,
                                         chunk: seq<T>)
    requires Filled(done, z, q, k, v) && |chunk| == z.a + 2 * z.b
    ensures Filled(done + [chunk], z, q + [chunk[0..z.a]], k + [chunk[z.a..z.a + z.b]],
                   v + [chunk[z.a + z.b..z.a + 2 * z.b]])
  {
    PartsAppend(done, chunk, 0, z.a);
    PartsAppend(done, chunk, z.a, z.a + z.b);
    PartsAppend(done, chunk, z.a + z.b, z.a + 2 * z.b);
  }

  // The loops of _merge_across_tp: every piece of every shard is split, unless one has another length.
  method SplitShards<T>(tpData: seq<seq<T>>, z: Sizes)
    returns (ok: bool, q: seq<seq<T>>, k: seq<seq<T>>, v: seq<seq<T>>)
    requires z.perShard >= 1
    ensures ok <==> AllOf(Groups(tpData, z.perShard), z.a + 2 * z.b)
    ensures ok ==> Filled(Groups(tpData, z.perShard), z, q, k, v)
  {
    hide Groups, Chunk, Filled, AllOf;
    q, k, v := [], [], [];
    ghost var done: seq<seq<T>> := [];
    NothingFilled<T>(z);
    for i := 0 to |tpData|
      invariant done == Groups(tpData[..i], z.perShard) && Filled(done, z, q, k, v)
    {
      var chunks := Chunk(tpData[i], z.perShard);
      ghost var before := done;
      GroupsSplit(tpData, i, z.perShard);
      for j := 0 to |chunks|
        invariant done == before + chunks[..j] && Filled(done, z, q, k, v)
      {
        var chunk := chunks[j];
        if |chunk| != z.a + 2 * z.b {
          assert Groups(tpData, z.perShard)[|before| + j] == chunk;
          NotAllOf(Groups(tpData, z.perShard), z.a + 2 * z.b, |before| + j);
          return false, [], [], [];
        }
        FilledNext(done, z, q, k, v, chunk);
        q, k, v := q + [chunk[0..z.a]], k + [chunk[z.a..z.a + z.b]], v + [chunk[z.a + z.b..z.a + 2 * z.b]];
        done := done + [chunk];
      }
      assert chunks[..|chunks|] == chunks;
    }
    assert tpData[..|tpData|] == tpData;
    FilledMeans(done, z, q, k, v);
    ok := true;
  }

  method Merge<T>(h: Heads, tpData: seq<seq<T>>, tp: nat) returns (r: Option<(seq<T>, seq<T>, seq<T>)>)
    ensures r == MergeAcrossTp(h, tpData, tp)
  {
    hide Groups, Parts, AllOf;
    if tpData == [] || tp == 0 || h.keyValue == 0 || h.query % h.keyValue != 0 { return None; }
    var perKv := h.query / h.keyValue;
    if |tpData[0]| % (perKv + 2) != 0 { return None; }
    var kvSize, perShard := |tpData[0]| / (perKv + 2), h.keyValue / tp;
    if perShard == 0 { return None; }
    var ok, q, k, v := SplitShards(tpData, SplitSizes(kvSize, perKv, perShard));
    r := if ok then Some((Flat(q), Flat(k), Flat(v))) else None;
  }

  lemma {:induction false} NotAllOf<T>(groups: seq<seq<T>>, size: nat, i: nat)
    requires i < |groups| && |groups[i]| != size
    ensures !AllOf(groups, size)
  {}

  lemma {:induction false} NothingFilled<T>(z: Sizes)
    ensures z.perShard >= 1 ==> Groups<T>([], z.perShard) == []
    ensures Filled<T>([], z, [], [], [])
  {}

  lemma {:induction false} FilledMeans<T>(done: seq<seq<T>>, z: Sizes, q: seq<seq<T>>, k: seq<seq<T>>, v: seq<seq<T>>)
    requires Filled(done, z, q, k, v)
    ensures AllOf(done, z.a + 2 * z.b) && q == Parts(done, 0, z.a) && k == Parts(done, z.a, z.a + z.b)
    ensures v == Parts(done, z.a + z.b, z.a + 2 * z.b)
  {}

  // ---- the round trip ----

  // The pieces of all shards, of w rows each, are the groups of the whole tensor.
  lemma {:induction false} GroupsOfShards<T>(rows: seq<T>, tp: nat, n: nat, size: nat, w: nat)
    requires n >= 1 && size >= 1 && w == n * size && |rows| == tp * w
    ensures |rows| == (tp * n) * size
    ensures Groups(Blocks(rows, tp, w), n) == Blocks(rows, tp * n, size)
    decreases tp
  {
    hide Chunk;
    Products(tp, n, size);
    if tp == 0 {
      assert tp * n == 0;
    } else {
      var m := Fits(tp, w);
      var first, rest := rows[..m], rows[m..];
      assert first + rest == rows;
      ChunkIsBlocks(first, n, size);
      GroupsOfShards(rest, tp - 1, n, size, w);
      GroupsOfMore(first, rest, tp, n, (tp - 1) * n, size, w);
    }
  }

  lemma {:induction false} GroupsOfMore<T>(first: seq<T>, rest: seq<T>, tp: nat, n: nat, more: nat, size: nat, w: nat)
    requires tp >= 1 && n >= 1 && |first| == n * size && |first| == w && |rest| == (tp - 1) * w
    requires |rest| == more * size && Chunk(first, n) == Blocks(first, n, size)
    requires Groups(Blocks(rest, tp - 1, w), n) == Blocks(rest, more, size)
    requires |first + rest| == tp * w && |first + rest| == (n + more) * size
    ensures Groups(Blocks(first + rest, tp, w), n) == Blocks(first + rest, n + more, size)
  {
    hide Chunk;
    BlocksAppend(first, n, rest, more, size);
    var rows := first + rest;
    assert rows[..w] == first && rows[w..] == rest;
    assert Blocks(rows, tp, w)[1..] == Blocks(rest, tp - 1, w);
  }

  lemma {:induction false} PartsOfBeside<T>(q: seq<seq<T>>, k: seq<seq<T>>, v: seq<seq<T>>, a: nat, b: nat)
    requires |q| == |k| == |v| && AllOf(q, a) && AllOf(k, b) && AllOf(v, b)
    ensures var g := Beside(q, k, v);
      AllOf(g, a + 2 * b) && Parts(g, 0, a) == q && Parts(g, a, a + b) == k && Parts(g, a + b, a + 2 * b) == v
    decreases |q|
  {
    var g := Beside(q, k, v);
    if q != [] {
      PartsOfBeside(q[1..], k[1..], v[1..], a, b);
      assert g[0][0..a] == q[0] && g[0][a..a + b] == k[0] && g[0][a + b..a + 2 * b] == v[0];
      assert Parts(g, 0, a)[1..] == q[1..];
      assert Parts(g, a, a + b)[1..] == k[1..];
      assert Parts(g, a + b, a + 2 * b)[1..] == v[1..];
    }
  }

  // The sizes of one group, and of one shard of n groups.
  lemma {:induction false} GroupSizes(h: Heads, perKv: nat)
    requires Grouped(h) && perKv == h.query / h.keyValue
    ensures QueryRows(h) == h.dim * perKv && QueryRows(h) + 2 * h.dim == h.dim * (perKv + 2)
  {
    assert h.query == h.keyValue * perKv;
    assert h.dim * h.query == (h.dim * perKv) * h.keyValue by { Products(h.dim, perKv, h.keyValue); }
    Quotient(h.dim * h.query, h.keyValue, h.dim * perKv, 0);
  }

  lemma {:induction false} ShardSizes(n: nat, dim: nat, perKv: nat)
    requires n >= 1
    ensures n * (dim * (perKv + 2)) % (perKv + 2) == 0
    ensures n * (dim * (perKv + 2)) / (perKv + 2) == n * dim
    ensures SplitSizes(n * dim, perKv, n) == Sizes(n, dim * perKv, dim)
  {
    Products(n, dim, perKv + 2);
    Quotient(n * (dim * (perKv + 2)), perKv + 2, n * dim, 0);
    assert (n * dim) * perKv == (dim * perKv) * n by { Products(n, dim, perKv); }
    Quotient((n * dim) * perKv, n, dim * perKv, 0);
    Quotient(n * dim, n, dim, 0);
  }

  lemma {:induction false} SizesFound<T>(h: Heads, shards: seq<seq<T>>, tp: nat, n: nat)
    requires Grouped(h) && tp >= 1 && h.keyValue == tp * n && |shards| == tp
    requires |shards[0]| == n * (QueryRows(h) + 2 * h.dim)
    ensures MergeSizes(h, shards, tp) == Some(Sizes(n, QueryRows(h), h.dim))
  {
    var perKv := h.query / h.keyValue;
    GroupSizes(h, perKv);
    Positive(tp, n);
    ShardSizes(n, h.dim, perKv);
    assert h.keyValue / tp == n by { Quotient(h.keyValue, tp, n, 0); }
  }

  // Rows of one group and of one shard.
  function GroupRows(h: Heads): nat
    requires h.keyValue >= 1
  {
    QueryRows(h) + 2 * h.dim
  }

  lemma {:induction false} InterleavedSize<T>(h: Heads, q: seq<T>, k: seq<T>, v: seq<T>)
    requires Sized(h, q, k, v)
    ensures |Interleave(h, q, k, v)| == h.keyValue * GroupRows(h)
    ensures Blocks(Interleave(h, q, k, v), h.keyValue, GroupRows(h)) == KvGroups(h, q, k, v)
  {
    hide Blocks, Flat, QueryRows;
    BlocksShape(q, h.keyValue, QueryRows(h));
    BlocksShape(k, h.keyValue, h.dim);
    BlocksShape(v, h.keyValue, h.dim);
    FlatShape(KvGroups(h, q, k, v), GroupRows(h));
  }

  // At `at` the rows hold a rows of q from `qAt`, then d rows of k from `from`, then those of v.
  predicate GroupStands<T(==)>(rows: seq<T>, at: int, a: nat, d: nat,
                               q: seq<T>, qAt: int, k: seq<T>, v: seq<T>, from: int, i: nat) {
    && 0 <= at && at + a + 2 * d <= |rows| && 0 <= qAt && qAt + a <= |q| && 0 <= from && from + d <= |k| == |v|
    && (i < a ==> rows[at + i] == q[qAt + i])
    && (i < d ==> rows[at + a + i] == k[from + i] && rows[at + a + d + i] == v[from + i])
  }

  // Where each row comes to stand: group g has the rows of its query heads, then dim rows of k, then dim
  // rows of v.
  lemma {:induction false} InterleavedRows<T>(h: Heads, q: seq<T>, k: seq<T>, v: seq<T>, g: nat, i: nat)
    requires Sized(h, q, k, v) && g < h.keyValue
    ensures var a, d := h.dim * (h.query / h.keyValue), h.dim;
      GroupStands(Interleave(h, q, k, v), g * (a + 2 * d), a, d, q, g * a, k, v, g * d, i)
  {
    hide Blocks, Flat, QueryRows, Interleave;
    var a, d, w := QueryRows(h), h.dim, GroupRows(h);
    GroupSizes(h, h.query / h.keyValue);
    var rows := Interleave(h, q, k, v);
    InterleavedSize(h, q, k, v);
    BlockRow(rows, h.keyValue, w, g);
    BlockRow(q, h.keyValue, a, g);
    BlockRow(k, h.keyValue, d, g);
    BlockRow(v, h.keyValue, d, g);
    var block := Blocks(rows, h.keyValue, w)[g];
    assert block == Blocks(q, h.keyValue, a)[g] + Blocks(k, h.keyValue, d)[g] + Blocks(v, h.keyValue, d)[g];
    if i < a { assert rows[g * w + i] == block[i]; }
    if i < d { assert rows[g * w + a + i] == block[a + i] && rows[g * w + a + d + i] == block[a + d + i]; }
  }

  lemma {:induction false} BlockRow<T>(s: seq<T>, n: nat, size: nat, g: nat)
    requires |s| == n * size && g < n
    ensures 0 <= g * size && g * size + size <= |s| && |Blocks(s, n, size)| == n
    ensures Blocks(s, n, size)[g] == s[g * size..g * size + size]
  {
    BlocksShape(s, n, size);
    BlockAt(s, n, size, g);
    assert (g + 1) * size == g * size + size;
  }

  // Merging works exactly if heads divide by key/value heads, of which each shard has at least one, the
  // rows of the first shard divide by the rows of a group per row of k, and every piece of every shard
  // has as many rows as the first shard's sizes say.
  lemma {:induction false} MergeIff<T>(h: Heads, shards: seq<seq<T>>, tp: nat)
    ensures MergeAcrossTp(h, shards, tp).Some? <==>
      && shards != [] && 1 <= tp <= h.keyValue && h.query % h.keyValue == 0
      && var perKv, n := h.query / h.keyValue, h.keyValue / tp;
      && n >= 1 && |shards[0]| % (perKv + 2) == 0
      && var kv := |shards[0]| / (perKv + 2);
      && kv * perKv >= 0
      && forall i, j :: 0 <= i < |shards| && 0 <= j < |Chunk(shards[i], n)| ==>
           |Chunk(shards[i], n)[j]| == kv * perKv / n + 2 * (kv / n)
  {
    hide Chunk;
    if tp >= 1 {
      if h.keyValue >= tp { AtLeastOne(h.keyValue, tp); } else { Quotient(h.keyValue, tp, 0, h.keyValue); }
    }
    match MergeSizes(h, shards, tp)
    case None =>
    case Some(z) => AllPieces(shards, z.perShard, z.a + 2 * z.b);
  }

  lemma {:induction false} AtLeastOne(n: nat, d: nat)
    requires 1 <= d <= n
    ensures n / d >= 1
  {
    OneLess(n, d);
    Product(1, 1);
  }

  lemma {:induction false} AllPieces<T>(shards: seq<seq<T>>, n: nat, size: nat)
    requires n >= 1
    ensures AllOf(Groups(shards, n), size) <==>
      forall i, j :: 0 <= i < |shards| && 0 <= j < |Chunk(shards[i], n)| ==> |Chunk(shards[i], n)[j]| == size
  {
    hide Chunk;
    if shards != [] {
      var first, rest := Chunk(shards[0], n), Groups(shards[1..], n);
      AllPieces(shards[1..], n, size);
      AllOfBoth(first, rest, size);
      forall i | 0 <= i < |shards[1..]| ensures shards[1..][i] == shards[i + 1] {}
      if forall i, j :: 0 <= i < |shards| && 0 <= j < |Chunk(shards[i], n)| ==> |Chunk(shards[i], n)[j]| == size {
        forall i, j | 0 <= i < |shards[1..]| && 0 <= j < |Chunk(shards[1..][i], n)|
          ensures |Chunk(shards[1..][i], n)[j]| == size
        {
          assert shards[1..][i] == shards[i + 1];
        }
      }
      if AllOf(first + rest, size) {
        forall i, j | 0 <= i < |shards| && 0 <= j < |Chunk(shards[i], n)| ensures |Chunk(shards[i], n)[j]| == size {
          if i > 0 { assert shards[i] == shards[1..][i - 1]; }
        }
      }
    }
  }

  lemma {:induction false} AllOfBoth<T>(a: seq<seq<T>>, b: seq<seq<T>>, size: nat)
    ensures AllOf(a + b, size) <==> AllOf(a, size) && AllOf(b, size)
  {
    if AllOf(a + b, size) {
      forall i | 0 <= i < |a| ensures |a[i]| == size { assert (a + b)[i] == a[i]; }
      forall i | 0 <= i < |b| ensures |b[i]| == size { assert (a + b)[|a| + i] == b[i]; }
    }
  }

  // Interleaving, cutting into tp equal shards and merging gives q, k and v back.
  lemma {:induction false} RoundTrip<T>(h: Heads, q: seq<T>, k: seq<T>, v: seq<T>, tp: nat, n: nat)
    requires Sized(h, q, k, v) && tp >= 1 && h.keyValue == tp * n
    ensures var rows := Interleave(h, q, k, v);
      && |rows| == tp * (n * GroupRows(h))
      && MergeAcrossTp(h, Blocks(rows, tp, n * GroupRows(h)), tp) == Some((q, k, v))
  {
    hide Blocks, Flat, QueryRows, Groups, Parts, Interleave, MergeSizes;
    var g, w := h.keyValue, GroupRows(h);
    var rows := Interleave(h, q, k, v);
    InterleavedSize(h, q, k, v);
    Products(tp, n, w);
    Positive(tp, n);
    GroupsOfShards(rows, tp, n, w, n * w);
    BlocksShape(rows, tp, n * w);
    SizesFound(h, Blocks(rows, tp, n * w), tp, n);
    BlocksShape(q, g, QueryRows(h));
    BlocksShape(k, g, h.dim);
    BlocksShape(v, g, h.dim);
    PartsOfBeside(Blocks(q, g, QueryRows(h)), Blocks(k, g, h.dim), Blocks(v, g, h.dim), QueryRows(h), h.dim);
  }

  lemma {:induction false} BesideParts<T>(groups: seq<seq<T>>, a: nat, b: nat)
    requires AllOf(groups, a + 2 * b)
    ensures var q, k, v := Parts(groups, 0, a), Parts(groups, a, a + b), Parts(groups, a + b, a + 2 * b);
      && |q| == |k| == |v| == |groups| && AllOf(q, a) && AllOf(k, b) && AllOf(v, b) && Beside(q, k, v) == groups
    decreases |groups|
  {
    if groups != [] {
      BesideParts(groups[1..], a, b);
      var g := groups[0];
      assert g[0..a] + g[a..a + b] + g[a + b..a + 2 * b] == g;
    }
  }

  // Merging shards of the right size and interleaving what comes out gives the shards back.
  lemma {:induction false} MergeInverts<T>(h: Heads, shards: seq<seq<T>>, tp: nat, n: nat)
    requires Grouped(h) && tp >= 1 && h.keyValue == tp * n && |shards| == tp && AllOf(shards, n * GroupRows(h))
    ensures MergeAcrossTp(h, shards, tp).Some?
    ensures var (q, k, v) := MergeAcrossTp(h, shards, tp).value;
      Sized(h, q, k, v) && Interleave(h, q, k, v) == Flat(shards)
  {
    hide Blocks, Flat, QueryRows, Groups, Parts, MergeSizes;
    var a, b, w := QueryRows(h), h.dim, GroupRows(h);
    Positive(tp, n);
    SizesFound(h, shards, tp, n);
    var rows := Flat(shards);
    FlatShape(shards, n * w);
    GroupsOfShards(rows, tp, n, w, n * w);
    var groups := Blocks(rows, tp * n, w);
    BlocksShape(rows, tp * n, w);
    BesideParts(groups, a, b);
    var q, k, v := Parts(groups, 0, a), Parts(groups, a, a + b), Parts(groups, a + b, a + 2 * b);
    FlatShape(q, a);
    FlatShape(k, b);
    FlatShape(v, b);
    assert MergeAcrossTp(h, shards, tp) == Some((Flat(q), Flat(k), Flat(v)));
  }

  // ---- gate and up of the first feed-forward layer ----

  function Halves<T>(shards: seq<seq<T>>): Option<(seq<T>, seq<T>)> {
    if shards == [] then Some(([], []))
    else
      var c := Chunk(shards[0], 2);
      if |c| != 2 then None
      else
        After(c[0], c[1], Halves(shards[1..]))
  }

  // The loop over the shards for linear_fc1; None where the two names cannot be unpacked.
  method MergeFc1<T>(tpData: seq<seq<T>>) returns (r: Option<(seq<T>, seq<T>)>)
    ensures r == Halves(tpData)
  {
    hide Chunk;
    var gate: seq<T>, up: seq<T> := [], [];
    var i := 0;
    assert tpData[0..] == tpData;
    AfterNext(gate, up, [], [], Halves(tpData));
    while i < |tpData|
      invariant i <= |tpData| && Halves(tpData) == After(gate, up, Halves(tpData[i..]))
    {
      var c := Chunk(tpData[i], 2);
      assert tpData[i..][1..] == tpData[i + 1..];
      if |c| != 2 { return None; }
      AfterNext(gate, up, c[0], c[1], Halves(tpData[i + 1..]));
      gate, up := gate + c[0], up + c[1];
      i := i + 1;
    }
    assert tpData[i..] == [] && gate + [] == gate && up + [] == up;
    r := Some((gate, up));
  }

  // The two lists so far and what the rest of the shards adds to them.
  function After<T>(gate: seq<T>, up: seq<T>, rest: Option<(seq<T>, seq<T>)>): Option<(seq<T>, seq<T>)> {
    match rest
    case None => None
    case Some(x) => Some((gate + x.0, up + x.1))
  }

  lemma {:induction false} AfterNext<T>(gate: seq<T>, up: seq<T>, g: seq<T>, u: seq<T>,
                                        rest: Option<(seq<T>, seq<T>)>)
    ensures After(gate, up, After(g, u, rest)) == After(gate + g, up + u, rest)
    ensures After([], [], rest) == rest
  {
    if rest.Some? {
      assert gate + (g + rest.value.0) == gate + g + rest.value.0;
      assert up + (u + rest.value.1) == up + u + rest.value.1;
      assert [] + rest.value.0 == rest.value.0 && [] + rest.value.1 == rest.value.1;
    }
  }

  lemma {:induction false} TwoHalves<T>(a: seq<T>, b: seq<T>)
    requires |a| == |b|
    ensures Chunk(a + b, 2) == [a, b]
  {
    var s := a + b;
    if s == [] { return; }
    ChunkIsBlocks(s, 2, |a|);
    assert s[..|a|] == a && s[|a|..] == b && b[..|a|] == b;
    assert Blocks(s, 2, |a|) == [a] + Blocks(b, 1, |a|);
    assert Blocks(b, 1, |a|) == [b] + Blocks(b[|a|..], 0, |a|);
  }

  lemma {:induction false} ChunkOfTwo<T>(s: seq<T>)
    ensures |Chunk(s, 2)| == if |s| == 1 then 1 else 2
    ensures |s| != 1 ==> Chunk(s, 2) == [s[..(|s| + 1) / 2], s[(|s| + 1) / 2..]]
  {
    if |s| >= 1 {
      var size := CeilDiv(|s|, 2);
      assert size == (|s| + 1) / 2;
      if |s| > size { assert Pieces(s[size..], size) == [s[size..]]; }
    } else {
      assert s[..0] == s && s[0..] == s;
    }
  }

  function FirstHalves<T>(shards: seq<seq<T>>): seq<seq<T>> {
    seq(|shards|, i requires 0 <= i < |shards| => shards[i][..(|shards[i]| + 1) / 2])
  }

  function SecondHalves<T>(shards: seq<seq<T>>): seq<seq<T>> {
    seq(|shards|, i requires 0 <= i < |shards| => shards[i][(|shards[i]| + 1) / 2..])
  }

  // It works unless a shard has a single row; the gate rows are the first halves of all shards, rounded
  // up, and the up rows the others.
  lemma {:induction false} HalvesAre<T>(shards: seq<seq<T>>)
    ensures Halves(shards).Some? <==> forall i :: 0 <= i < |shards| ==> |shards[i]| != 1
    ensures Halves(shards).Some? ==> Halves(shards).value == (Flat(FirstHalves(shards)), Flat(SecondHalves(shards)))
  {
    hide Chunk;
    if shards != [] {
      var rest := shards[1..];
      ChunkOfTwo(shards[0]);
      HalvesAre(rest);
      assert FirstHalves(shards)[1..] == FirstHalves(rest) && SecondHalves(shards)[1..] == SecondHalves(rest);
      assert forall i :: 0 <= i < |rest| ==> rest[i] == shards[i + 1];
      if Halves(rest).None? {
        var i :| 0 <= i < |rest| && |rest[i]| == 1;
        assert |shards[i + 1]| == 1;
      }
    }
  }

  // Shards of gate rows over as many up rows come apart into all gate rows and all up rows.
  lemma {:induction false} Fc1Merged<T>(gates: seq<seq<T>>, ups: seq<seq<T>>, shards: seq<seq<T>>)
    requires |gates| == |ups| == |shards|
    requires forall i :: 0 <= i < |gates| ==> |gates[i]| == |ups[i]| && shards[i] == gates[i] + ups[i]
    ensures Halves(shards) == Some((Flat(gates), Flat(ups)))
    decreases |gates|
  {
    hide Chunk;
    if shards != [] {
      TwoHalves(gates[0], ups[0]);
      Fc1Merged(gates[1..], ups[1..], shards[1..]);
    }
  }
}
