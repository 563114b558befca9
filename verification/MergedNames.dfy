// The names of `_merge_state_dicts` letter by letter: how a key is read, and what the parts of a layer's
// attention and feed-forward tensors are stored under.
module MergedNames {
  import opened LayerNumbers
  import opened Options
  import opened Strings

  // ---- replacing one occurrence ----

  lemma {:induction false} StartIsContained(s: string, sub: string, i: nat)
    requires i <= |s| && StartsWith(s[i..], sub)
    ensures Contains(s, sub)
  {
    assert s == s[..i] + sub + s[i + |sub|..];
    ContainsMiddle(s[..i], sub, s[i + |sub|..]);
  }

  lemma {:induction false} NoneContained(s: string, from: string, to: string)
    requires |from| >= 1 && !Contains(s, from)
    ensures Replace(s, from, to) == s
  {
    if |s| >= |from| { NoneContained(s[1..], from, to); }
  }

  // The only occurrence of `from` is replaced, whatever is around it.
  lemma {:induction false} ReplaceOnce(a: string, from: string, b: string, to: string)
    requires |from| >= 1 && !Contains(a + from[..|from| - 1], from) && !Contains(b, from)
    ensures Replace(a + from + b, from, to) == a + to + b
    decreases |a|
  {
    hide Replace;
    var s := a + from + b;
    ReplaceStep(s, from, to);
    if a == "" {
      assert s[..|from|] == from && s[|from|..] == b;
      NoneContained(b, from, to);
    } else {
      var near := a + from[..|from| - 1];
      assert near[1..] == a[1..] + from[..|from| - 1];
      assert s[..|from|] == near[..|from|];
      assert s[1..] == a[1..] + from + b && s[0] == a[0];
      ReplaceOnce(a[1..], from, b, to);
      assert [a[0]] + (a[1..] + to + b) == a + to + b;
    }
  }

  // Nothing can begin before and end inside a text whose last character it has only once.
  lemma {:induction false} NoneAcross(a: string, from: string)
    requires |from| >= 1 && from[|from| - 1] !in from[..|from| - 1] && !Contains(a, from)
    ensures !Contains(a + from[..|from| - 1], from)
  {
    var s := a + from[..|from| - 1];
    if Contains(s, from) {
      var u, v := ContainsAt(s, from);
      var end := |u| + |from|;
      assert s[end - 1] == from[|from| - 1];
      forall i | |a| <= i < |s| ensures s[i] in from[..|from| - 1] { assert s[i] == from[..|from| - 1][i - |a|]; }
      assert end <= |a|;
      assert a == u + from + a[end..] by { assert a == s[..|a|]; }
      ContainsMiddle(u, from, a[end..]);
    }
  }

  lemma {:induction false} StartsHead(s: string, p: string)
    requires |p| >= 1
    ensures StartsWith(s, p) ==> s != "" && s[0] == p[0]
  {}

  // Nor begin in a text without its first character.
  lemma {:induction false} NoneBefore(p: string, a: string, from: string)
    requires |from| >= 1 && from[0] !in p && !Contains(a, from)
    ensures !Contains(p + a, from)
  {
    var s := p + a;
    if p == "" {
      assert s == a;
    } else {
      assert s[0] == p[0] && s[1..] == p[1..] + a && p[0] in p;
      StartsHead(s, from);
      NoneBefore(p[1..], a, from);
    }
  }

  // ---- the names of a layer ----

  // model.layers.<n>.<rest>
  function LayerAt(n: nat, rest: string): string { "model.layers." + Digits(n) + "." + rest }

  lemma {:induction false} LayerSplit(n: nat, rest: string)
    ensures Split(LayerAt(n, rest)) == ["model", "layers", Digits(n)] + Split(rest)
    ensures LayerAt(n, rest) == Join(["model", "layers", Digits(n)] + Split(rest))
    ensures Contains(LayerAt(n, rest), MARK)
  {
    hide Join, Split;
    var d := Digits(n);
    DigitsAreDecimals(n);
    assert '.' !in d;
    SplitFirst(d, rest);
    SplitFirst("layers", d + ['.'] + rest);
    SplitFirst("model", "layers" + ['.'] + (d + ['.'] + rest));
    assert "model.layers." == "model" + ['.'] + "layers" + ['.'];
    assert LayerAt(n, rest) == "model" + ['.'] + ("layers" + ['.'] + (d + ['.'] + rest));
    assert ["model"] + (["layers"] + ([d] + Split(rest))) == ["model", "layers", d] + Split(rest);
    SplitDotless(LayerAt(n, rest));
    assert LayerAt(n, rest) == "" + MARK + (d + "." + rest);
    ContainsMiddle("", MARK, d + "." + rest);
  }

  // Renumbering changes the number and nothing else.
  lemma {:induction false} Renumbered(k: Key, l: nat, rest: string, offset: nat)
    requires k.Layer? && k.name == LayerAt(l, rest)
    ensures Local(k) == l && FullName(k, offset) == LayerAt(l + offset, rest)
  {
    hide LayerAt, Join, Split, Digits;
    LayerSplit(l, rest);
    DigitsRead(l);
    LayerSplit(l + offset, rest);
    var parts := ["model", "layers", Digits(l)] + Split(rest);
    assert parts[2 := Digits(l + offset)] == ["model", "layers", Digits(l + offset)] + Split(rest);
  }

  lemma {:induction false} NoLetters(n: nat, a: string, from: string)
    requires from == "qkv" || from == "gate_up"
    requires !Contains(a, from)
    ensures !Contains(LayerAt(n, a), from)
  {
    DigitsAreDecimals(n);
    var p := "model.layers." + Digits(n) + ".";
    assert from[0] !in p;
    assert LayerAt(n, a) == p + a;
    NoneBefore(p, a, from);
  }

  lemma {:induction false} SwappedOnce(n: nat, a: string, from: string, b: string, to: string)
    requires from == "qkv" || from == "gate_up"
    requires !Contains(a, from) && !Contains(b, from)
    ensures Replace(LayerAt(n, a + from + b), from, to) == LayerAt(n, a + to + b)
  {
    hide Contains, Replace, LayerAt;
    NoLetters(n, a, from);
    LastOnce(from);
    NoneAcross(LayerAt(n, a), from);
    ReplaceOnce(LayerAt(n, a), from, b, to);
    LayerAtMore(n, a, from, b);
    LayerAtMore(n, a, to, b);
  }

  lemma {:induction false} LastOnce(from: string)
    requires from == "qkv" || from == "gate_up"
    ensures |from| >= 1 && from[|from| - 1] !in from[..|from| - 1]
  {}

  lemma {:induction false} LayerAtMore(n: nat, a: string, x: string, b: string)
    ensures LayerAt(n, a + x + b) == LayerAt(n, a) + x + b
  {
    hide Digits;
  }

  // Place q holds the name, written no earlier than p.
  predicate HeldBy(dict: map<string, Place>, name: string, p: Place) {
    name in dict && !LayerNumbers.Before(dict[name], p)
  }

  // The query, key and value rows of a layer whose mapped name holds "qkv" once are stored under that
  // name with q, k and v in its place, in that order, and the layer renumbered.
  lemma {:induction false} QkvStored(stages: seq<seq<Key>>, dict: map<string, Place>, s: nat, i: nat, l: nat,
                                     a: string, b: string)
    requires Written(stages, Place(|stages|, 0, 0), dict) && s < |stages| && i < |stages[s]|
    requires stages[s][i].Layer? && stages[s][i].cut.Qkv? && stages[s][i].name == LayerAt(l, a + "qkv" + b)
    requires !Contains(a, "qkv") && !Contains(b, "qkv")
    ensures var n := l + Offset(stages, s);
      && HeldBy(dict, "model.layers." + Digits(n) + "." + a + "q" + b, Place(s, i, 0))
      && HeldBy(dict, "model.layers." + Digits(n) + "." + a + "k" + b, Place(s, i, 1))
      && HeldBy(dict, "model.layers." + Digits(n) + "." + a + "v" + b, Place(s, i, 2))
  {
    hide LayerAt, FullName, Offset, Digits, Replace, Contains;
    var k, n := stages[s][i], l + Offset(stages, s);
    Renumbered(k, l, a + "qkv" + b, Offset(stages, s));
    SwappedOnce(n, a, "qkv", b, "q");
    SwappedOnce(n, a, "qkv", b, "k");
    SwappedOnce(n, a, "qkv", b, "v");
    LayerAtIs(n, a, "q", b);
    LayerAtIs(n, a, "k", b);
    LayerAtIs(n, a, "v", b);
    HeldPart(stages, dict, Place(s, i, 0));
    HeldPart(stages, dict, Place(s, i, 1));
    HeldPart(stages, dict, Place(s, i, 2));
  }

  // Likewise the gate and the up rows, where it holds "gate_up".
  lemma {:induction false} GateUpStored(stages: seq<seq<Key>>, dict: map<string, Place>, s: nat, i: nat, l: nat,
                                        a: string, b: string)
    requires Written(stages, Place(|stages|, 0, 0), dict) && s < |stages| && i < |stages[s]|
    requires stages[s][i].Layer? && stages[s][i].cut.GateUp? && stages[s][i].name == LayerAt(l, a + "gate_up" + b)
    requires !Contains(a, "gate_up") && !Contains(b, "gate_up")
    ensures var n := l + Offset(stages, s);
      && HeldBy(dict, "model.layers." + Digits(n) + "." + a + "gate" + b, Place(s, i, 0))
      && HeldBy(dict, "model.layers." + Digits(n) + "." + a + "up" + b, Place(s, i, 1))
  {
    hide LayerAt, FullName, Offset, Digits, Replace, Contains;
    var k, n := stages[s][i], l + Offset(stages, s);
    Renumbered(k, l, a + "gate_up" + b, Offset(stages, s));
    SwappedOnce(n, a, "gate_up", b, "gate");
    SwappedOnce(n, a, "gate_up", b, "up");
    LayerAtIs(n, a, "gate", b);
    LayerAtIs(n, a, "up", b);
    HeldPart(stages, dict, Place(s, i, 0));
    HeldPart(stages, dict, Place(s, i, 1));
  }

  // Any other tensor of a layer keeps its mapped name, renumbered.
  lemma {:induction false} WholeStored(stages: seq<seq<Key>>, dict: map<string, Place>, s: nat, i: nat, l: nat,
                                       rest: string)
    requires Written(stages, Place(|stages|, 0, 0), dict) && s < |stages| && i < |stages[s]|
    requires stages[s][i].Layer? && stages[s][i].cut.Whole? && stages[s][i].name == LayerAt(l, rest)
    ensures HeldBy(dict, "model.layers." + Digits(l + Offset(stages, s)) + "." + rest, Place(s, i, 0))
  {
    hide FullName, Offset, Digits;
    Renumbered(stages[s][i], l, rest, Offset(stages, s));
    HeldPart(stages, dict, Place(s, i, 0));
  }

  lemma {:induction false} LayerAtIs(n: nat, a: string, x: string, b: string)
    ensures LayerAt(n, a + x + b) == "model.layers." + Digits(n) + "." + a + x + b
  {
    hide Digits;
  }

  lemma {:induction false} HeldPart(stages: seq<seq<Key>>, dict: map<string, Place>, p: Place)
    requires Written(stages, Place(|stages|, 0, 0), dict) && InRange(stages, p)
    ensures HeldBy(dict, NameOf(stages, p), p)
  {
    hide NameOf;
    assert LayerNumbers.Before(p, Place(|stages|, 0, 0));
  }

  // ---- how a key is read ----

  // Some name of the table occurs in the key.
  predicate InTable(key: string, mapping: Mapping) { exists i :: 0 <= i < |mapping| && Contains(key, mapping[i].0) }

  // Skipped and refused keys, and how the tensors of the others are cut.
  lemma {:induction false} KeyRead(key: string, mapping: Mapping, tied: bool)
    ensures ReplaceName(key, mapping).Some? <==> InTable(key, mapping)
    ensures var k := ReadKey(key, mapping, tied);
      && (k.Skip? <==> Contains(key, "extra_state") || (tied && Contains(key, "output_layer")))
      && (Stored(k) ==> !StartsWith(key, "model.") && InTable(key, mapping))
      && (Stored(k) ==> StartsWith(key, "decoder") || Contains(key, "output_layer")
                         || Contains(key, "embedding.word_embeddings"))
      && (k.Refused? && !StartsWith(key, "model.") && StartsWith(key, "decoder") && InTable(key, mapping) ==>
            Contains(ReplaceName(key, mapping).value, "model.layers."))
      && (Stored(k) ==>
            && (k.cut == GateUp <==> Contains(key, "linear_fc1.weight"))
            && (k.cut == Qkv <==> !Contains(key, "linear_fc1.weight") && !Contains(key, "layer_norm")
                                  && Contains(key, "self_attention.linear_qkv.")))
  {
    NameFound(key, mapping);
  }

  lemma {:induction false} NameFound(name: string, mapping: Mapping)
    ensures ReplaceName(name, mapping).Some? <==> InTable(name, mapping)
  {
    hide Contains, Replace;
    if mapping != [] {
      NameFound(name, mapping[1..]);
      if InTable(name, mapping[1..]) {
        var i :| 0 <= i < |mapping[1..]| && Contains(name, mapping[1..][i].0);
        assert Contains(name, mapping[i + 1].0);
      }
      if InTable(name, mapping) && !Contains(name, mapping[0].0) {
        var i :| 0 <= i < |mapping| && Contains(name, mapping[i].0);
        assert Contains(name, mapping[1..][i - 1].0);
      }
    }
  }

  // The first name of the table that occurs in the key is replaced.
  lemma {:induction false} FirstInTable(name: string, mapping: Mapping, i: nat)
    requires i < |mapping| && Contains(name, mapping[i].0)
    requires forall j :: 0 <= j < i ==> !Contains(name, mapping[j].0)
    ensures ReplaceName(name, mapping) == Some(Replace(Replace(name, "decoder", "model"), mapping[i].0, mapping[i].1))
  {
    hide Contains, Replace;
    if i > 0 {
      assert forall j :: 0 <= j < i - 1 ==> mapping[1..][j] == mapping[j + 1];
      FirstInTable(name, mapping[1..], i - 1);
    }
  }

  // decoder.layers.<l>.<a><m><x> is read as model.layers.<l>.<a><v><x>, m being the first name of the
  // table in it, and its only occurrence, and v what the table has for it.
  lemma {:induction false} LayerKeyRead(mapping: Mapping, tied: bool, i: nat, l: nat, a: string, x: string)
    requires i < |mapping| && var m := mapping[i].0;
      && !Contains(a + m + x, "decoder") && !Contains(x, m)
      && !Contains(LayerAt(l, a) + m[..|m| - 1], m)
    requires var key := "decoder.layers." + Digits(l) + "." + a + mapping[i].0 + x;
      && (forall j :: 0 <= j < i ==> !Contains(key, mapping[j].0))
      && !Contains(key, "extra_state") && !(tied && Contains(key, "output_layer"))
    ensures var key := "decoder.layers." + Digits(l) + "." + a + mapping[i].0 + x;
      ReadKey(key, mapping, tied) == Layer("model.layers." + Digits(l) + "." + a + mapping[i].1 + x, CutOf(key))
  {
    hide Contains, Replace, CutOf, Split;
    var (m, v) := mapping[i];
    var key := "decoder.layers." + Digits(l) + "." + a + m + x;
    DecoderReplaced(l, a + m + x, key);
    assert key == ("decoder.layers." + Digits(l) + "." + a) + m + x;
    ContainsMiddle("decoder.layers." + Digits(l) + "." + a, m, x);
    FirstInTable(key, mapping, i);
    assert LayerAt(l, a + m + x) == LayerAt(l, a) + m + x;
    ReplaceOnce(LayerAt(l, a), m, x, v);
    var name := LayerAt(l, a + v + x);
    assert name == LayerAt(l, a) + v + x;
    LayerSplit(l, a + v + x);
    DigitsAreDecimals(l);
    KeyChecked(key, l, a + m + x);
  }

  lemma {:induction false} KeyChecked(key: string, l: nat, rest: string)
    requires key == "decoder.layers." + Digits(l) + "." + rest
    ensures Checked(key)
  {
    assert key[..7] == "decoder";
    assert key[0] == 'd';
  }

  lemma {:induction false} LayerPrefixes(l: nat, rest: string)
    ensures var p := ".layers." + Digits(l) + "." + rest;
      && "decoder.layers." + Digits(l) + "." + rest == "decoder" + p && ("decoder" + p)[..7] == "decoder"
      && ("decoder" + p)[7..] == p && "model.layers." + Digits(l) + "." + rest == "model" + p
  {
    hide Digits;
    assert "decoder.layers." == "decoder" + ".layers.";
    assert "model.layers." == "model" + ".layers.";
  }

  lemma {:induction false} DecoderReplaced(l: nat, rest: string, key: string)
    requires !Contains(rest, "decoder")
    requires key == "decoder.layers." + Digits(l) + "." + rest
    ensures Replace(key, "decoder", "model") == LayerAt(l, rest)
  {
    hide Replace;
    DigitsAreDecimals(l);
    var p := ".layers." + Digits(l) + ".";
    assert 'd' !in p;
    NoneBefore(p, rest, "decoder");
    LayerPrefixes(l, rest);
    assert key == "decoder" + (p + rest);
    ReplaceStep(key, "decoder", "model");
    NoneContained(p + rest, "decoder", "model");
  }

  // ---- how many layers a stage counts for ----

  // The layers before the next stage: those before this one, and one more than its greatest local number.
  lemma {:induction false} LayersBefore(stages: seq<seq<Key>>, s: nat)
    requires s < |stages|
    ensures Offset(stages, 0) == 0
    ensures var more := Offset(stages, s + 1) - Offset(stages, s);
      && more >= 1
      && (forall i :: 0 <= i < |stages[s]| && stages[s][i].Layer? ==> Local(stages[s][i]) < more)
      && (more == 1 || exists i :: 0 <= i < |stages[s]| && stages[s][i].Layer? && Local(stages[s][i]) == more - 1)
  {
    hide Local;
    forall i | 0 <= i < |stages[s]| && stages[s][i].Layer? ensures Local(stages[s][i]) <= Handled(stages[s]) {
      LocalHandled(stages[s], i);
    }
    HandledReached(stages[s]);
  }

  lemma {:induction false} HandledReached(keys: seq<Key>)
    ensures Handled(keys) == 0 || exists i :: 0 <= i < |keys| && keys[i].Layer? && Local(keys[i]) == Handled(keys)
  {
    hide Local;
    if keys != [] {
      var n := |keys| - 1;
      HandledReached(keys[..n]);
      if Handled(keys[..n]) != 0 {
        var i :| 0 <= i < n && keys[..n][i].Layer? && Local(keys[..n][i]) == Handled(keys[..n]);
        assert keys[i] == keys[..n][i];
      }
      if keys[n].Layer? && Handled(keys) == Local(keys[n]) { assert keys[n] == keys[|keys| - 1]; }
    }
  }
}
