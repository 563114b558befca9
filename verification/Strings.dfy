// The string operations that parameter names go through: replace, split and join at dots, numbers.
module Strings {
  // ---- numbers ----

  // str() of a number that is not negative
  function Digits(n: nat): string {
    if n < 10 then ['0' + n as char] else Digits(n / 10) + ['0' + (n % 10) as char]
  }

  predicate Decimals(s: string) { forall i :: 0 <= i < |s| ==> '0' <= s[i] <= '9' }

  // int() of decimal digits
  function Number(s: string): nat
    requires Decimals(s)
  {
    if s == "" then 0 else 10 * Number(s[..|s| - 1]) + (s[|s| - 1] as int - '0' as int)
  }

  lemma {:induction false} DigitsAreDecimals(n: nat)
    ensures |Digits(n)| >= 1 && Decimals(Digits(n))
  {
    if n >= 10 { DigitsAreDecimals(n / 10); }
  }

  lemma {:induction false} DigitsRead(n: nat)
    ensures Decimals(Digits(n)) && Number(Digits(n)) == n
  {
    DigitsAreDecimals(n);
    if n >= 10 {
      DigitsRead(n / 10);
      assert Digits(n)[..|Digits(n)| - 1] == Digits(n / 10);
    } else {
      assert Digits(n)[..0] == "";
    }
  }

  // ---- in, startswith, endswith ----

  predicate StartsWith(s: string, p: string) { |p| <= |s| && s[..|p|] == p }

  predicate EndsWith(s: string, p: string) { |p| <= |s| && s[|s| - |p|..] == p }

  predicate Contains(s: string, sub: string) { StartsWith(s, sub) || (s != "" && Contains(s[1..], sub)) }

  lemma {:induction false} ContainsAt(s: string, sub: string) returns (u: string, v: string)
    requires Contains(s, sub)
    ensures s == u + sub + v
  {
    if StartsWith(s, sub) {
      u, v := "", s[|sub|..];
    } else {
      u, v := ContainsAt(s[1..], sub);
      u := [s[0]] + u;
    }
  }

  lemma {:induction false} ContainsMiddle(u: string, sub: string, v: string)
    ensures Contains(u + sub + v, sub)
  {
    var s := u + sub + v;
    if u == "" {
      assert s[..|sub|] == sub;
    } else {
      assert s[1..] == u[1..] + sub + v;
      ContainsMiddle(u[1..], sub, v);
    }
  }

  // ---- replace ----

  function Replace(s: string, from: string, to: string): string
    requires |from| >= 1
  {
    if |s| < |from| then s
    else if StartsWith(s, from) then to + Replace(s[|from|..], from, to)
    else [s[0]] + Replace(s[1..], from, to)
  }

  lemma {:induction false} ReplaceStep(s: string, from: string, to: string)
    requires |from| >= 1
    ensures StartsWith(s, from) ==> Replace(s, from, to) == to + Replace(s[|from|..], from, to)
    ensures s != "" && !StartsWith(s, from) ==> Replace(s, from, to) == [s[0]] + Replace(s[1..], from, to)
    ensures s == "" ==> Replace(s, from, to) == ""
  {}

  lemma {:induction false} StartsAround(a: string, c: char, b: string, from: string)
    requires |from| >= 1 && c !in from
    ensures StartsWith(a + [c] + b, from) <==> StartsWith(a, from)
  {
    var s := a + [c] + b;
    assert |from| <= |a| ==> s[..|from|] == a[..|from|];
    assert s[|a|] == c;
  }

  // A character that does not occur in `from` separates what is replaced before and after it.
  lemma {:induction false} ReplaceAround(a: string, c: char, b: string, from: string, to: string)
    requires |from| >= 1 && c !in from
    ensures Replace(a + [c] + b, from, to) == Replace(a, from, to) + [c] + Replace(b, from, to)
    decreases |a|
  {
    hide Replace;
    var s := a + [c] + b;
    ReplaceStep(s, from, to);
    ReplaceStep(a, from, to);
    StartsAround(a, c, b, from);
    if a == "" {
      assert s[0] == c && s[1..] == b;
    } else if StartsWith(a, from) {
      assert s[|from|..] == a[|from|..] + [c] + b;
      ReplaceAround(a[|from|..], c, b, from, to);
    } else {
      assert s[0] == a[0] && s[1..] == a[1..] + [c] + b;
      ReplaceAround(a[1..], c, b, from, to);
    }
  }

  lemma {:induction false} NothingReplaced(s: string, from: string, to: string)
    requires |from| >= 1 && from[0] !in s
    ensures Replace(s, from, to) == s
  {
    if |s| >= |from| {
      assert s[0] in s;
      NothingReplaced(s[1..], from, to);
    }
  }

  lemma {:induction false} Brought(s: string, from: string, to: string)
    requires |from| >= 1 && |to| >= 1 && StartsWith(s, from)
    ensures to[0] in Replace(s, from, to)
  {
    assert Replace(s, from, to)[0] == to[0];
  }

  lemma {:induction false} NothingAdded(s: string, from: string, to: string)
    requires |from| >= 1 && |to| >= 1 && to[0] !in Replace(s, from, to)
    ensures Replace(s, from, to) == s
  {
    if |s| >= |from| {
      var r := Replace(s, from, to);
      if StartsWith(s, from) {
        Brought(s, from, to);
      } else {
        assert r[1..] == Replace(s[1..], from, to);
        NothingAdded(s[1..], from, to);
      }
    }
  }

  lemma {:induction false} NoneBrought(s: string, c: char, from: string, to: string)
    requires |from| >= 1 && c !in to && c !in s
    ensures c !in Replace(s, from, to)
  {
    if |s| >= |from| {
      if StartsWith(s, from) { NoneBrought(s[|from|..], c, from, to); } else { NoneBrought(s[1..], c, from, to); }
    }
  }

  lemma {:induction false} LastOf(s: string, c: char) returns (y: string, z: string)
    requires c in s
    ensures s == y + [c] + z && c !in z
  {
    if s[|s| - 1] == c {
      y, z := s[..|s| - 1], "";
    } else {
      y, z := LastOf(s[..|s| - 1], c);
      z := z + [s[|s| - 1]];
    }
  }

  lemma {:induction false} SameLast(y: string, z: string, y': string, z': string, c: char)
    requires y + [c] + z == y' + [c] + z' && c !in z && c !in z'
    ensures y == y' && z == z'
  {
    var s := y + [c] + z;
    assert s[|y|] == c && s[|y'|] == c;
    forall i | |y| < i < |s| ensures s[i] in z { assert s[i] == z[i - |y| - 1]; }
    forall i | |y'| < i < |s| ensures s[i] in z' { assert s[i] == z'[i - |y'| - 1]; }
    assert y == s[..|y|] && z == s[|y| + 1..];
  }

  // A suffix without what is replaced or put in its place stays, and none appears.
  lemma {:induction false} SuffixStays(s: string, c: char, w: string, from: string, to: string)
    requires |from| >= 1 && |to| >= 1 && c !in from && c !in to && c !in w && from[0] !in w && to[0] !in w
    ensures EndsWith(Replace(s, from, to), [c] + w) <==> EndsWith(s, [c] + w)
  {
    var r := Replace(s, from, to);
    if c !in s {
      NoneBrought(s, c, from, to);
      EndsWithIn(r, c, w);
      EndsWithIn(s, c, w);
    } else {
      var y, z := LastOf(s, c);
      ReplaceAround(y, c, z, from, to);
      NoneBrought(z, c, from, to);
      var y', z' := Replace(y, from, to), Replace(z, from, to);
      SuffixIs(y, c, z, w);
      SuffixIs(y', c, z', w);
      if z == w { NothingReplaced(z, from, to); }
      if z' == w { NothingAdded(z, from, to); }
    }
  }

  lemma {:induction false} EndsWithIn(s: string, c: char, w: string)
    ensures EndsWith(s, [c] + w) ==> c in s
  {
    assert EndsWith(s, [c] + w) ==> s[|s| - |w| - 1] == ([c] + w)[0];
  }

  lemma {:induction false} SuffixIs(y: string, c: char, z: string, w: string)
    requires c !in z && c !in w
    ensures EndsWith(y + [c] + z, [c] + w) <==> z == w
  {
    var s := y + [c] + z;
    if EndsWith(s, [c] + w) {
      var x := s[..|s| - |w| - 1];
      assert s == x + ([c] + w) == x + [c] + w;
      SameLast(y, z, x, w, c);
    }
    if z == w { assert s[|s| - |w| - 1..] == [c] + w; }
  }

  // ---- split(".") and ".".join ----

  function Split(s: string): (r: seq<string>)
    ensures |r| >= 1
  {
    if s == "" then [""]
    else if s[0] == '.' then [""] + Split(s[1..])
    else var r := Split(s[1..]); [[s[0]] + r[0]] + r[1..]
  }

  function Join(parts: seq<string>): string
    requires |parts| >= 1
  {
    if |parts| == 1 then parts[0] else parts[0] + ['.'] + Join(parts[1..])
  }

  predicate Dotless(parts: seq<string>) { forall i :: 0 <= i < |parts| ==> '.' !in parts[i] }

  lemma {:induction false} SplitDotless(s: string)
    ensures Dotless(Split(s)) && Join(Split(s)) == s
  {
    if s != "" {
      SplitDotless(s[1..]);
      var r, t := Split(s), Split(s[1..]);
      if s[0] == '.' {
        assert r[1..] == t;
      } else {
        assert r[1..] == t[1..];
        assert |t| > 1 ==> [s[0]] + (t[0] + ['.'] + Join(t[1..])) == r[0] + ['.'] + Join(r[1..]);
      }
    }
  }

  lemma {:induction false} SplitFirst(a: string, rest: string)
    requires '.' !in a
    ensures Split(a) == [a] && Split(a + ['.'] + rest) == [a] + Split(rest)
  {
    var s := a + ['.'] + rest;
    if a == "" {
      assert s[1..] == rest;
    } else {
      assert a[0] in a && s[0] == a[0] && s[1..] == a[1..] + ['.'] + rest;
      SplitFirst(a[1..], rest);
      assert [a[0]] + a[1..] == a;
      assert ([a[1..]] + Split(rest))[1..] == Split(rest);
    }
  }

  lemma {:induction false} SplitJoin(parts: seq<string>)
    requires |parts| >= 1 && Dotless(parts)
    ensures Split(Join(parts)) == parts
  {
    if |parts| == 1 {
      SplitFirst(parts[0], "");
    } else {
      SplitJoin(parts[1..]);
      SplitFirst(parts[0], Join(parts[1..]));
    }
  }

  lemma {:induction false} JoinBoth(a: seq<string>, b: seq<string>)
    requires |a| >= 1 && |b| >= 1
    ensures Join(a + b) == Join(a) + ['.'] + Join(b)
  {
    if |a| == 1 {
      assert (a + b)[1..] == b;
    } else {
      assert (a + b)[1..] == a[1..] + b;
      JoinBoth(a[1..], b);
    }
  }

  // ---- replacing inside the parts ----

  function ReplaceAll(parts: seq<string>, from: string, to: string): (r: seq<string>)
    requires |from| >= 1
    ensures |r| == |parts| && forall i :: 0 <= i < |r| ==> r[i] == Replace(parts[i], from, to)
  {
    if parts == [] then [] else [Replace(parts[0], from, to)] + ReplaceAll(parts[1..], from, to)
  }

  lemma {:induction false} ReplaceJoin(parts: seq<string>, from: string, to: string)
    requires |parts| >= 1 && |from| >= 1 && '.' !in from
    ensures Replace(Join(parts), from, to) == Join(ReplaceAll(parts, from, to))
  {
    var r := ReplaceAll(parts, from, to);
    if |parts| > 1 {
      ReplaceJoin(parts[1..], from, to);
      ReplaceAround(parts[0], '.', Join(parts[1..]), from, to);
      assert r[1..] == ReplaceAll(parts[1..], from, to);
    }
  }

  lemma {:induction false} ReplaceDotless(parts: seq<string>, from: string, to: string)
    requires |from| >= 1 && '.' !in to && Dotless(parts)
    ensures Dotless(ReplaceAll(parts, from, to))
  {
    var r := ReplaceAll(parts, from, to);
    forall i | 0 <= i < |r| ensures '.' !in r[i] { NoneBrought(parts[i], '.', from, to); }
  }
}
