// Rows of a tensor or an array, and the library calls that cut them.
module Tensors {
  import opened Arithmetic

  // ---- cutting rows into blocks ----

  function Flat<T>(blocks: seq<seq<T>>): seq<T> {
    if blocks == [] then [] else blocks[0] + Flat(blocks[1..])
  }

  // view([n, size, -1]): n blocks of size rows each.
  function Blocks<T>(s: seq<T>, n: nat, size: nat): seq<seq<T>>
    requires |s| == n * size
    decreases n
  {
    if n == 0 then [] else [s[..Fits(n, size)]] + Blocks(s[Fits(n, size)..], n - 1, size)
  }

  // size, known to be at most n * size.
  function Fits(n: nat, size: nat): (r: nat)
    requires n >= 1
    ensures r == size && r <= n * size && n * size - r == (n - 1) * size
  {
    assert n * size == (n - 1) * size + size;
    size
  }

  predicate AllOf<T>(blocks: seq<seq<T>>, size: nat) {
    forall i :: 0 <= i < |blocks| ==> |blocks[i]| == size
  }

  lemma {:induction false} BlocksShape<T>(s: seq<T>, n: nat, size: nat)
    requires |s| == n * size
    ensures |Blocks(s, n, size)| == n && AllOf(Blocks(s, n, size), size) && Flat(Blocks(s, n, size)) == s
    decreases n
  {
    if n > 0 {
      var r := s[Fits(n, size)..];
      BlocksShape(r, n - 1, size);
      assert Blocks(s, n, size)[1..] == Blocks(r, n - 1, size);
      assert s[..size] + r == s;
    }
  }

  lemma {:induction false} FlatShape<T>(blocks: seq<seq<T>>, size: nat)
    requires AllOf(blocks, size)
    ensures |Flat(blocks)| == |blocks| * size
    ensures Blocks(Flat(blocks), |blocks|, size) == blocks
    decreases |blocks|
  {
    if blocks != [] {
      FlatShape(blocks[1..], size);
      var n, s := |blocks|, Flat(blocks);
      assert n * size == (n - 1) * size + size;
      assert s[..size] == blocks[0] && s[size..] == Flat(blocks[1..]);
    } else {
      assert |blocks| * size == 0;
    }
  }

  lemma {:induction false} FlatAppend<T>(a: seq<seq<T>>, b: seq<seq<T>>)
    ensures Flat(a + b) == Flat(a) + Flat(b)
    decreases |a|
  {
    if a == [] {
      assert a + b == b;
    } else {
      FlatAppend(a[1..], b);
      assert (a + b)[1..] == a[1..] + b;
    }
  }

  // torch.chunk: pieces of ceil(len / n) rows, the last one possibly shorter; n empty ones of none.
  function Pieces<T>(s: seq<T>, size: nat): seq<seq<T>>
    requires size >= 1
    decreases |s|
  {
    if |s| <= size then [s] else [s[..size]] + Pieces(s[size..], size)
  }

  function Chunk<T>(s: seq<T>, n: nat): seq<seq<T>>
    requires n >= 1
  {
    if s == [] then seq(n, _ => s) else Pieces(s, CeilDiv(|s|, n))
  }

  function CeilDiv(a: nat, n: nat): (r: nat)
    requires n >= 1
    ensures a >= 1 ==> r >= 1
  {
    if a >= 1 then 1 + (a - 1) / n else 0
  }

  lemma {:induction false} PiecesAreBlocks<T>(s: seq<T>, n: nat, size: nat)
    requires n >= 1 && size >= 1 && |s| == n * size
    ensures Pieces(s, size) == Blocks(s, n, size)
    decreases n
  {
    var m := Fits(n, size);
    if n == 1 {
      assert s[..m] == s && Blocks(s[m..], 0, size) == [];
    } else {
      assert (n - 1) * size >= size by { assert (n - 1) * size == (n - 2) * size + size && (n - 2) * size >= 0; }
      PiecesAreBlocks(s[m..], n - 1, size);
    }
  }

  lemma {:induction false} ChunkIsBlocks<T>(s: seq<T>, n: nat, size: nat)
    requires n >= 1 && size >= 1 && |s| == n * size
    ensures Chunk(s, n) == Blocks(s, n, size)
  {
    assert |s| >= 1 by { var m := Fits(n, size); }
    assert CeilDiv(|s|, n) == size by {
      assert |s| - 1 == (size - 1) * n + (n - 1);
      Quotient(|s| - 1, n, size - 1, n - 1);
    }
    PiecesAreBlocks(s, n, size);
  }

  lemma {:induction false} BlocksAppend<T>(a: seq<T>, n: nat, b: seq<T>, m: nat, size: nat)
    requires |a| == n * size && |b| == m * size
    ensures |a + b| == (n + m) * size && Blocks(a + b, n + m, size) == Blocks(a, n, size) + Blocks(b, m, size)
  {
    assert (n + m) * size == n * size + m * size;
    BlocksShape(a, n, size);
    BlocksShape(b, m, size);
    var all := Blocks(a, n, size) + Blocks(b, m, size);
    FlatAppend(Blocks(a, n, size), Blocks(b, m, size));
    FlatShape(all, size);
  }

  // Block i holds rows i * size up to (i + 1) * size.
  lemma {:induction false} BlockAt<T>(s: seq<T>, n: nat, size: nat, i: nat)
    requires |s| == n * size && i < n
    ensures i * size <= (i + 1) * size <= |s|
    ensures i < |Blocks(s, n, size)| && Blocks(s, n, size)[i] == s[i * size..(i + 1) * size]
    decreases n
  {
    BlocksShape(s, n, size);
    Between(n, size, i);
    var m := Fits(n, size);
    if i == 0 {
      assert 0 * size == 0 && 1 * size == size;
    } else {
      BlockAt(s[m..], n - 1, size, i - 1);
      Products(i, size, 1);
      Products(i + 1, size, 1);
      assert Blocks(s, n, size)[i] == Blocks(s[m..], n - 1, size)[i - 1];
      assert s[m..][(i - 1) * size..i * size] == s[i * size..(i + 1) * size];
    }
  }

  lemma {:induction false} Between(n: nat, size: nat, i: nat)
    requires i < n
    ensures i * size <= (i + 1) * size <= n * size
  {
    Product(n - i - 1, size);
    assert n * size == (n - i - 1) * size + (i + 1) * size;
    assert (i + 1) * size == i * size + size;
  }

  // ---- pieces whose number need not divide the rows ----

  // How many rows torch.chunk gives each piece of n rows.
  function Sizes(n: nat, size: nat): seq<nat>
    requires size >= 1
  {
    if n <= size then [n] else [size] + Sizes(n - size, size)
  }

  // np.cumsum
  function Cumsum(sizes: seq<nat>, from: nat): seq<nat> {
    if sizes == [] then [] else [from + sizes[0]] + Cumsum(sizes[1..], from + sizes[0])
  }

  function Least(a: nat, b: nat): nat { if a <= b then a else b }

  // Piece i ends after so many rows.
  function PieceEnd(n: nat, size: nat, i: nat): (r: nat)
    ensures r <= n
  {
    Product(i + 1, size);
    Least((i + 1) * size, n)
  }

  function PieceStart(n: nat, size: nat, i: nat): (r: nat)
    ensures r <= n
  {
    if i == 0 then 0 else PieceEnd(n, size, i - 1)
  }

  lemma {:induction false} FirstPiece(n: nat, size: nat)
    ensures PieceStart(n, size, 0) == 0 && PieceEnd(n, size, 0) == Least(size, n)
  {}

  lemma {:induction false} NextPiece(n: nat, size: nat, i: nat)
    requires size < n && i >= 1
    ensures PieceStart(n, size, i) == size + PieceStart(n - size, size, i - 1)
    ensures PieceEnd(n, size, i) == size + PieceEnd(n - size, size, i - 1)
  {
    assert (i + 1) * size == size + i * size;
    assert i * size == size + (i - 1) * size;
  }

  lemma {:induction false} SizesCount(n: nat, size: nat)
    requires n >= 1 && size >= 1
    ensures |Sizes(n, size)| == CeilDiv(n, size)
  {
    OneLess(n - 1, size);
    if n > size { SizesCount(n - size, size); }
  }

  lemma {:induction false} PieceIs<T>(s: seq<T>, size: nat, i: nat)
    requires size >= 1 && i < |Sizes(|s|, size)|
    ensures |Pieces(s, size)| == |Sizes(|s|, size)|
    ensures PieceStart(|s|, size, i) <= PieceEnd(|s|, size, i)
    ensures Pieces(s, size)[i] == s[PieceStart(|s|, size, i)..PieceEnd(|s|, size, i)]
    ensures i == |Sizes(|s|, size)| - 1 ==> PieceEnd(|s|, size, i) == |s|
    decreases |s|
  {
    hide PieceStart, PieceEnd;
    FirstPiece(|s|, size);
    if |s| > size {
      PieceIs(s[size..], size, if i == 0 then 0 else i - 1);
      if i >= 1 { NextPiece(|s|, size, i); }
    }
  }

  lemma {:induction false} CumsumIs(n: nat, size: nat, from: nat, i: nat)
    requires size >= 1 && i < |Sizes(n, size)|
    ensures |Cumsum(Sizes(n, size), from)| == |Sizes(n, size)|
    ensures Cumsum(Sizes(n, size), from)[i] == from + PieceEnd(n, size, i)
    ensures Sizes(n, size)[i] == PieceEnd(n, size, i) - PieceStart(n, size, i)
    decreases n
  {
    hide PieceStart, PieceEnd;
    FirstPiece(n, size);
    if n > size {
      CumsumIs(n - size, size, from + size, if i == 0 then 0 else i - 1);
      if i >= 1 { NextPiece(n, size, i); }
    }
  }

  // np.array_split at given positions: the pieces between them, and what is left.
  function SplitAt<T>(s: seq<T>, cuts: seq<nat>, from: nat): seq<seq<T>>
    decreases |cuts|
  {
    if cuts == [] then [Clamp(s, from, |s|)]
    else [Clamp(s, from, cuts[0])] + SplitAt(s, cuts[1..], cuts[0])
  }

  function Clamp<T>(s: seq<T>, a: nat, b: nat): seq<T> {
    if a <= b <= |s| then s[a..b] else if a <= |s| < b then s[a..] else []
  }

  // Where section i of n rows in k sections begins for np.array_split(a, k): the first n % k
  // sections are one longer.
  function SectionStart(n: nat, k: nat, i: nat): nat
    requires k >= 1
  {
    Product(i, n / k);
    i * (n / k) + (if i <= n % k then i else n % k)
  }

  function Sections<T>(s: seq<T>, k: nat): seq<seq<T>>
    requires k >= 1
  {
    seq(k, i requires 0 <= i < k => Clamp(s, SectionStart(|s|, k, i), SectionStart(|s|, k, i + 1)))
  }

  lemma {:induction false} SplitAtEach<T>(s: seq<T>, cuts: seq<nat>, from: nat, i: nat)
    requires i <= |cuts|
    ensures |SplitAt(s, cuts, from)| == |cuts| + 1
    ensures SplitAt(s, cuts, from)[i]
         == Clamp(s, if i == 0 then from else cuts[i - 1], if i == |cuts| then |s| else cuts[i])
    decreases |cuts|
  {
    if cuts != [] { SplitAtEach(s, cuts[1..], cuts[0], if i == 0 then 0 else i - 1); }
  }

  // ---- repeating ----

  // torch.repeat_interleave and np.repeat: every row n times.
  function Interleaved<T>(s: seq<T>, n: nat): seq<T> {
    if s == [] then [] else seq(n, _ => s[0]) + Interleaved(s[1..], n)
  }

  // expand and reshape, and np.tile: all rows, n times.
  function Tiled<T>(s: seq<T>, n: nat): seq<T> {
    if n == 0 then [] else s + Tiled(s, n - 1)
  }

  lemma {:induction false} InterleavedAt<T>(s: seq<T>, n: nat, i: nat)
    ensures |Interleaved(s, n)| == |s| * n
    ensures i < |s| * n ==> n >= 1 && i / n < |s| && Interleaved(s, n)[i] == s[i / n]
    decreases |s|
  {
    if s == [] {
      assert |s| * n == 0;
    } else {
      Products(|s|, n, 1);
      InterleavedAt(s[1..], n, if i >= n then i - n else 0);
      if i < |s| * n {
        Positive(|s|, n);
        OneLess(i, n);
      }
    }
  }

  lemma {:induction false} TiledAt<T>(s: seq<T>, n: nat, i: nat)
    ensures |Tiled(s, n)| == n * |s|
    ensures i < n * |s| ==> |s| >= 1 && Tiled(s, n)[i] == s[i % |s|]
    decreases n
  {
    if n == 0 {
      assert n * |s| == 0;
    } else {
      Products(n, |s|, 1);
      TiledAt(s, n - 1, if i >= |s| then i - |s| else 0);
      if i < n * |s| {
        Positive(n, |s|);
        OneLess(i, |s|);
      }
    }
  }
}
