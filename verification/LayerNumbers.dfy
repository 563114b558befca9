// Renumbering the layers of all pipeline and virtual-pipeline stages in `_merge_state_dicts` of
// scripts/legacy_model_merger.py.  A stage is the list of its keys, in dictionary order; stages are
// listed virtual rank by virtual rank, pipeline ranks within.
module LayerNumbers {
  import opened Options
  import opened Strings

  // ---- reading a key ----

  // How _merge_across_tp cuts the tensor of a key: not, into q, k and v, or into gate and up.
  datatype Cut = Whole | Qkv | GateUp

  // A key that is skipped, one that is refused, one whose mapped name has no layer number, or one of a
  // layer.
  datatype Read = Skip | Refused | Plain(name: string, cut: Cut) | Layer(name: string, cut: Cut)

  const MARK := "model.layers."

  predicate IsNumber(s: string) { s != "" && Decimals(s) }

  predicate Proper(k: Read) {
    && (k.Plain? ==> !Contains(k.name, MARK))
    && (k.Layer? ==> Contains(k.name, MARK) && |Split(k.name)| >= 3 && IsNumber(Split(k.name)[2]))
  }

  type Key = k: Read | Proper(k) witness Skip

  // params_mapping: Megatron names, none of them empty, and their Hugging Face names.
  type Mapping = m: seq<(string, string)> | forall i :: 0 <= i < |m| ==> m[i].0 != "" witness []

  // _replace_name
  function ReplaceName(name: string, mapping: Mapping): Option<string> {
    if mapping == [] then None
    else if Contains(name, mapping[0].0) then
      Some(Replace(Replace(name, "decoder", "model"), mapping[0].0, mapping[0].1))
    else ReplaceName(name, mapping[1..])
  }

  // _check_megatron_state_key does not raise.
  predicate Checked(key: string) {
    && !StartsWith(key, "model.")
    && (Contains(key, "embedding.word_embeddings") || Contains(key, "output_layer") || StartsWith(key, "decoder"))
  }

  function CutOf(key: string): Cut {
    if Contains(key, "linear_fc1.weight") then GateUp
    else if Contains(key, "self_attention.linear_qkv.") && !Contains(key, "layer_norm") then Qkv
    else Whole
  }

  function ReadName(name: string, cut: Cut): Key {
    if !Contains(name, MARK) then Plain(name, cut)
    else if |Split(name)| >= 3 && IsNumber(Split(name)[2]) then Layer(name, cut)
    else Refused
  }

  // The loop body up to the layer number; it raises on a key that is refused.
  function ReadKey(key: string, mapping: Mapping, tied: bool): Key {
    if Contains(key, "extra_state") || (tied && Contains(key, "output_layer")) then Skip
    else if !Checked(key) then Refused
    else
      var name := ReplaceName(key, mapping);
      if name.None? then Refused else ReadName(name.value, CutOf(key))
  }

  function ReadStage(keys: seq<string>, mapping: Mapping, tied: bool): (r: seq<Key>)
    ensures |r| == |keys| && forall i :: 0 <= i < |r| ==> r[i] == ReadKey(keys[i], mapping, tied)
  {
    if keys == [] then [] else [ReadKey(keys[0], mapping, tied)] + ReadStage(keys[1..], mapping, tied)
  }

  function ReadStages(stages: seq<seq<string>>, mapping: Mapping, tied: bool): (r: seq<seq<Key>>)
    ensures |r| == |stages| && forall s :: 0 <= s < |r| ==> r[s] == ReadStage(stages[s], mapping, tied)
  {
    if stages == [] then [] else [ReadStage(stages[0], mapping, tied)] + ReadStages(stages[1..], mapping, tied)
  }

  // ---- the names its tensor is stored under ----

  function PartCount(cut: Cut): nat { match cut case Whole => 1 case Qkv => 3 case GateUp => 2 }

  // What is replaced by what for a part.
  function Swap(cut: Cut, part: nat): (string, string)
    requires !cut.Whole?
  {
    if cut.Qkv? then ("qkv", if part == 0 then "q" else if part == 1 then "k" else "v")
    else ("gate_up", if part == 0 then "gate" else "up")
  }

  lemma {:induction false} SwapFacts(cut: Cut, part: nat)
    requires !cut.Whole?
    ensures var (from, to) := Swap(cut, part);
      && |from| >= 1 && |to| >= 1 && '.' !in from && '.' !in to && 'm' !in from && 'm' !in to
      && from[0] !in "odel" && to[0] !in "odel" && from[0] !in "layers" && to[0] !in "layers"
      && !('0' <= from[0] <= '9')
  {}

  function PartName(name: string, cut: Cut, part: nat): string {
    if cut.Whole? then name else Replace(name, Swap(cut, part).0, Swap(cut, part).1)
  }

  function Local(k: Key): nat
    requires k.Layer?
  {
    Number(Split(k.name)[2])
  }

  // hf_name with the layers before the stage added to its number
  function FullName(k: Key, offset: nat): string
    requires Stored(k)
  {
    if k.Plain? then k.name else Join(Split(k.name)[2 := Digits(Local(k) + offset)])
  }

  function Max(a: nat, b: nat): nat { if a >= b then a else b }

  // layers_handled after the keys of one stage
  function Handled(keys: seq<Key>): nat {
    if keys == [] then 0
    else
      var k, h := keys[|keys| - 1], Handled(keys[..|keys| - 1]);
      if k.Layer? then Max(Local(k), h) else h
  }

  // layers_cum when stage s begins
  function Offset(stages: seq<seq<Key>>, s: nat): nat
    requires s <= |stages|
  {
    if s == 0 then 0 else Offset(stages, s - 1) + Handled(stages[s - 1]) + 1
  }

  // A part of a key of a stage.
  datatype Place = Place(stage: nat, key: nat, part: nat)

  predicate Stored(k: Key) { k.Plain? || k.Layer? }

  predicate InRange(stages: seq<seq<Key>>, p: Place) {
    p.stage < |stages| && p.key < |stages[p.stage]|
    && var k := stages[p.stage][p.key]; Stored(k) && p.part < PartCount(k.cut)
  }

  function NameOf(stages: seq<seq<Key>>, p: Place): string
    requires InRange(stages, p)
  {
    var k := stages[p.stage][p.key];
    PartName(FullName(k, Offset(stages, p.stage)), k.cut, p.part)
  }

  // ---- the loop ----

  predicate Before(a: Place, b: Place) {
    a.stage < b.stage || (a.stage == b.stage && (a.key < b.key || (a.key == b.key && a.part < b.part)))
  }

  // The dictionary holds the names of everything before p, each from its last writer.
  ghost predicate Written(stages: seq<seq<Key>>, p: Place, dict: map<string, Place>) {
    && (forall n :: n in dict ==> Before(dict[n], p) && InRange(stages, dict[n]) && NameOf(stages, dict[n]) == n)
    && (forall q :: Before(q, p) && InRange(stages, q) ==>
          NameOf(stages, q) in dict && !Before(dict[NameOf(stages, q)], q))
  }

  lemma {:induction false} WrittenPart(stages: seq<seq<Key>>, p: Place, dict: map<string, Place>)
    requires InRange(stages, p) && Written(stages, p, dict)
    ensures Written(stages, p.(part := p.part + 1), dict[NameOf(stages, p) := p])
  {
    hide Offset, PartName, FullName;
  }

  lemma {:induction false} WrittenKey(stages: seq<seq<Key>>, p: Place, dict: map<string, Place>)
    requires p.stage < |stages| && p.key < |stages[p.stage]| && Written(stages, p, dict)
    requires var k := stages[p.stage][p.key]; Stored(k) ==> p.part >= PartCount(k.cut)
    ensures Written(stages, Place(p.stage, p.key + 1, 0), dict)
  {
    hide NameOf;
  }

  lemma {:induction false} WrittenStage(stages: seq<seq<Key>>, s: nat, dict: map<string, Place>)
    requires s < |stages| && Written(stages, Place(s, |stages[s]|, 0), dict)
    ensures Written(stages, Place(s + 1, 0, 0), dict)
  {
    hide NameOf;
  }

  lemma {:induction false} WrittenNothing(stages: seq<seq<Key>>)
    ensures Written(stages, Place(0, 0, 0), map[])
  {}

  ghost predicate AnyRefused(stages: seq<seq<Key>>) {
    exists s, i :: 0 <= s < |stages| && 0 <= i < |stages[s]| && stages[s][i].Refused?
  }

  // None where a key is refused: ValueError, or the assertion on its mapped name.
  method MergeStateDicts(names: seq<seq<string>>, mapping: Mapping, tied: bool) returns (r: Option<map<string, Place>>)
    ensures r.None? <==> AnyRefused(ReadStages(names, mapping, tied))
    ensures r.Some? ==> Written(ReadStages(names, mapping, tied), Place(|names|, 0, 0), r.value)
  {
    hide Written, NameOf, ReadKey, ReadStage, ReadStages, Local, Max, Contains, Split, IsNumber;
    ghost var stages := ReadStages(names, mapping, tied);
    var dict: map<string, Place> := map[];
    WrittenNothing(stages);
    var layersCum := 0;
    for s := 0 to |names|
      invariant layersCum == Offset(stages, s) && Written(stages, Place(s, 0, 0), dict)
      invariant forall t, i :: 0 <= t < s && 0 <= i < |stages[t]| ==> !stages[t][i].Refused?
    {
      var layersHandled := 0;
      ghost var keys := stages[s];
      for i := 0 to |names[s]|
        invariant layersHandled == Handled(keys[..i]) && Written(stages, Place(s, i, 0), dict)
        invariant forall j :: 0 <= j < i ==> !keys[j].Refused?
      {
        assert keys[..i + 1][..i] == keys[..i];
        var k := ReadKey(names[s][i], mapping, tied);
        assert k == keys[i];
        if k.Refused? { return None; }
        if k.Layer? { layersHandled := Max(Local(k), layersHandled); }
        if !k.Skip? {
          dict := Store(stages, s, i, k, layersCum, dict);
        } else {
          WrittenKey(stages, Place(s, i, 0), dict);
        }
      }
      assert keys[..|keys|] == keys;
      WrittenStage(stages, s, dict);
      layersCum := layersCum + (layersHandled + 1);
    }
    r := Some(dict);
  }

  // The parts of one key, under the name with the renumbered layer.
  method Store(ghost stages: seq<seq<Key>>, s: nat, i: nat, k: Key, layersCum: nat, before: map<string, Place>)
      returns (dict: map<string, Place>)
    requires s < |stages| && i < |stages[s]| && k == stages[s][i] && Stored(k) && layersCum == Offset(stages, s)
    requires Written(stages, Place(s, i, 0), before)
    ensures Written(stages, Place(s, i + 1, 0), dict)
  {
    hide Written, Offset, PartName, FullName;
    var name := FullName(k, layersCum);
    dict := before;
    for j := 0 to PartCount(k.cut)
      invariant Written(stages, Place(s, i, j), dict)
    {
      WrittenPart(stages, Place(s, i, j), dict);
      dict := dict[PartName(name, k.cut, j) := Place(s, i, j)];
    }
    WrittenKey(stages, Place(s, i, PartCount(k.cut)), dict);
  }

  // ---- what a stored name says ----

  // The dot-separated parts of a name, after the replacement of a part of its tensor.
  function Swapped(parts: seq<string>, cut: Cut, part: nat): (r: seq<string>)
    ensures |r| == |parts|
  {
    if cut.Whole? then parts
    else SwapFacts(cut, part); ReplaceAll(parts, Swap(cut, part).0, Swap(cut, part).1)
  }

  lemma {:induction false} SwappedSplit(parts: seq<string>, cut: Cut, part: nat)
    requires |parts| >= 1 && Dotless(parts)
    ensures PartName(Join(parts), cut, part) == Join(Swapped(parts, cut, part))
    ensures Split(PartName(Join(parts), cut, part)) == Swapped(parts, cut, part)
  {
    if !cut.Whole? {
      var (from, to) := Swap(cut, part);
      SwapFacts(cut, part);
      ReplaceJoin(parts, from, to);
      ReplaceDotless(parts, from, to);
    }
    SplitJoin(Swapped(parts, cut, part));
  }

  // Where the parts spell MARK.
  predicate MarkAt(parts: seq<string>, i: nat) {
    i + 2 < |parts| && EndsWith(parts[i], "model") && parts[i + 1] == "layers"
  }

  ghost predicate Marked(parts: seq<string>) { exists i: nat :: MarkAt(parts, i) }

  lemma {:induction false} LastPart(parts: seq<string>, w: string)
    requires |parts| >= 1 && '.' !in w
    ensures EndsWith(Join(parts), w) <==> EndsWith(parts[|parts| - 1], w)
  {
    if |parts| > 1 {
      LastPart(parts[1..], w);
      EndsBeyond(parts[0], Join(parts[1..]), w);
    }
  }

  lemma {:induction false} EndsBeyond(a: string, b: string, w: string)
    requires '.' !in w
    ensures EndsWith(a + ['.'] + b, w) <==> EndsWith(b, w)
  {
    var s := a + ['.'] + b;
    assert |w| <= |b| ==> s[|s| - |w|..] == b[|b| - |w|..];
    assert s[|a|] == '.';
    if EndsWith(s, w) {
      forall i | |s| - |w| <= i < |s| ensures s[i] in w { assert s[i] == w[i - (|s| - |w|)]; }
    }
  }

  lemma {:induction false} ContainsMark(s: string)
    ensures Contains(s, MARK) <==> Marked(Split(s))
  {
    SplitDotless(s);
    if Contains(s, MARK) { MarkFound(s); }
    if i: nat :| MarkAt(Split(s), i) { MarkSpelt(s, i); }
  }

  lemma {:induction false} MarkFound(s: string)
    requires Contains(s, MARK)
    ensures Marked(Split(s))
  {
    var u, v := ContainsAt(s, MARK);
    var a, b := Split(u + "model"), Split(v);
    SplitDotless(u + "model");
    SplitDotless(v);
    LastPart(a, "model");
    assert EndsWith(u + "model", "model");
    MarkJoined(a, b, u, v);
    assert Dotless(a + (["layers"] + b));
    SplitJoin(a + (["layers"] + b));
    assert MarkAt(Split(s), |a| - 1);
  }

  lemma {:induction false} MarkJoined(a: seq<string>, b: seq<string>, u: string, v: string)
    requires |a| >= 1 && |b| >= 1 && Join(a) == u + "model" && Join(b) == v
    ensures Join(a + (["layers"] + b)) == u + MARK + v
  {
    hide Join;
    JoinBoth(["layers"], b);
    JoinBoth(a, ["layers"] + b);
    JoinOne("layers");
    assert MARK == "model" + ['.'] + ("layers" + ['.']);
    assert u + MARK + v == (u + "model") + ['.'] + ("layers" + ['.'] + v);
  }

  lemma {:induction false} JoinOne(s: string)
    ensures Join([s]) == s
  {}

  lemma {:induction false} MarkSpelt(s: string, i: nat)
    requires MarkAt(Split(s), i)
    ensures Contains(s, MARK)
  {
    var parts := Split(s);
    SplitDotless(s);
    var a, b := parts[..i + 1], parts[i + 2..];
    assert parts == a + (["layers"] + b);
    LastPart(a, "model");
    var u := Join(a)[..|Join(a)| - 5];
    assert Join(a) == u + "model";
    MarkJoined(a, b, u, Join(b));
    ContainsMiddle(u, MARK, Join(b));
  }

  lemma {:induction false} SwappedMark(parts: seq<string>, cut: Cut, part: nat, i: nat)
    ensures MarkAt(Swapped(parts, cut, part), i) <==> MarkAt(parts, i)
  {
    if !cut.Whole? && i + 2 < |parts| {
      var (from, to) := Swap(cut, part);
      SwapFacts(cut, part);
      assert "model" == ['m'] + "odel";
      SuffixStays(parts[i], 'm', "odel", from, to);
      if parts[i + 1] == "layers" { NothingReplaced(parts[i + 1], from, to); }
      if Replace(parts[i + 1], from, to) == "layers" { NothingAdded(parts[i + 1], from, to); }
    }
  }

  lemma {:induction false} NumberedMark(parts: seq<string>, i: nat, n: string)
    requires |parts| >= 3 && IsNumber(parts[2]) && MarkAt(parts, i)
    ensures MarkAt(parts[2 := n], i)
  {
    ModelEnds(parts[i]);
    assert "layers"[0] == 'l';
  }

  lemma {:induction false} ModelEnds(s: string)
    ensures EndsWith(s, "model") ==> s[|s| - 1] == 'l'
  {
    assert EndsWith(s, "model") ==> s[|s| - 5..][4] == "model"[4];
  }

  // The parts of a stored name but for its number.
  function Frame(k: Key, part: nat): (r: seq<string>)
    requires k.Layer?
    ensures |r| >= 3
  {
    Swapped(Split(k.name), k.cut, part)[2 := ""]
  }

  // The stored name of a layer has the renumbered layer as its third part, and the mark.
  lemma {:induction false} LayerNamed(k: Key, offset: nat, part: nat)
    requires k.Layer?
    ensures var name, d := PartName(FullName(k, offset), k.cut, part), Digits(Local(k) + offset);
      && Split(name) == Frame(k, part)[2 := d] && name == Join(Frame(k, part)[2 := d])
      && Contains(name, MARK)
  {
    var parts, d := Split(k.name), Digits(Local(k) + offset);
    var full := parts[2 := d];
    SplitDotless(k.name);
    DigitsRead(Local(k) + offset);
    assert Dotless(full);
    SwappedSplit(full, k.cut, part);
    SwappedNumber(parts, d, k.cut, part);
    ContainsMark(k.name);
    var i: nat :| MarkAt(parts, i);
    NumberedMark(parts, i, d);
    SwappedMark(full, k.cut, part, i);
    ContainsMark(PartName(FullName(k, offset), k.cut, part));
  }

  lemma {:induction false} SwappedNumber(parts: seq<string>, d: string, cut: Cut, part: nat)
    requires |parts| >= 3 && Decimals(d)
    ensures Swapped(parts[2 := d], cut, part) == Swapped(parts, cut, part)[2 := d]
  {
    if !cut.Whole? {
      SwapFacts(cut, part);
      NothingReplaced(d, Swap(cut, part).0, Swap(cut, part).1);
    }
  }

  lemma {:induction false} PlainNamed(k: Key, offset: nat, part: nat)
    requires k.Plain?
    ensures !Contains(PartName(FullName(k, offset), k.cut, part), MARK)
  {
    var parts := Split(k.name);
    var name := PartName(k.name, k.cut, part);
    SplitDotless(k.name);
    SwappedSplit(parts, k.cut, part);
    ContainsMark(k.name);
    ContainsMark(name);
    if i: nat :| MarkAt(Split(name), i) { SwappedMark(parts, k.cut, part, i); }
  }

  // Two names of layers with the same layers before them are equal if the local numbers are and all
  // other parts.
  lemma {:induction false} SameAt(k: Key, part: nat, k': Key, part': nat, offset: nat)
    requires k.Layer? && k'.Layer?
    ensures PartName(FullName(k, offset), k.cut, part) == PartName(FullName(k', offset), k'.cut, part')
       <==> Local(k) == Local(k') && Frame(k, part) == Frame(k', part')
  {
    hide Frame, PartName, FullName, Local;
    LayerNamed(k, offset, part);
    LayerNamed(k', offset, part');
    DigitsRead(Local(k) + offset);
    DigitsRead(Local(k') + offset);
    FrameOpen(k, part);
    FrameOpen(k', part');
    var f, f' := Frame(k, part), Frame(k', part');
    var d, d' := Digits(Local(k) + offset), Digits(Local(k') + offset);
    assert f[2 := d][2 := ""] == f && f'[2 := d'][2 := ""] == f';
    assert f[2 := d][2] == d && f'[2 := d'][2] == d';
  }

  lemma {:induction false} FrameOpen(k: Key, part: nat)
    requires k.Layer?
    ensures Frame(k, part)[2] == ""
  {}

  // The layer number a stored name spells.
  function NumberIn(name: string): nat {
    if |Split(name)| >= 3 && Decimals(Split(name)[2]) then Number(Split(name)[2]) else 0
  }

  lemma {:induction false} NumberInName(stages: seq<seq<Key>>, p: Place)
    requires OfLayer(stages, p)
    ensures NumberIn(NameOf(stages, p)) == Local(stages[p.stage][p.key]) + Offset(stages, p.stage)
  {
    hide Offset, PartName, FullName, Local, Frame;
    var k := stages[p.stage][p.key];
    LayerNamed(k, Offset(stages, p.stage), p.part);
    DigitsRead(Local(k) + Offset(stages, p.stage));
  }

  predicate OfLayer(stages: seq<seq<Key>>, p: Place) {
    InRange(stages, p) && stages[p.stage][p.key].Layer?
  }

  // ---- when no layer key is overwritten ----

  lemma {:induction false} LocalHandled(keys: seq<Key>, i: nat)
    requires i < |keys| && keys[i].Layer?
    ensures Local(keys[i]) <= Handled(keys)
  {
    if i < |keys| - 1 { LocalHandled(keys[..|keys| - 1], i); }
  }

  lemma {:induction false} OffsetsGrow(stages: seq<seq<Key>>, s: nat, t: nat)
    requires s < t <= |stages|
    ensures Offset(stages, s) + Handled(stages[s]) < Offset(stages, t)
    decreases t
  {
    if s < t - 1 { OffsetsGrow(stages, s, t - 1); }
  }

  // Layer numbers follow the stages, so two stages never share one.
  lemma {:induction false} StagesInOrder(stages: seq<seq<Key>>, p: Place, q: Place)
    requires p.stage < q.stage && OfLayer(stages, p) && OfLayer(stages, q)
    ensures NumberIn(NameOf(stages, p)) < NumberIn(NameOf(stages, q))
  {
    hide NameOf, NumberIn, Local;
    NumberInName(stages, p);
    NumberInName(stages, q);
    OffsetsGrow(stages, p.stage, q.stage);
    LocalHandled(stages[p.stage], p.key);
  }

  // Within every stage, the names of the parts of the layer keys differ, numbered from 0 in each.
  ghost predicate Distinct(stages: seq<seq<Key>>) {
    forall p, q :: OfLayer(stages, p) && OfLayer(stages, q) && p.stage == q.stage && p != q ==>
      LocalName(stages, p) != LocalName(stages, q)
  }

  function LocalName(stages: seq<seq<Key>>, p: Place): string
    requires OfLayer(stages, p)
  {
    var k := stages[p.stage][p.key];
    PartName(FullName(k, 0), k.cut, p.part)
  }

  lemma {:induction false} SameName(stages: seq<seq<Key>>, p: Place, q: Place)
    requires OfLayer(stages, p) && OfLayer(stages, q) && p.stage == q.stage
    ensures NameOf(stages, p) == NameOf(stages, q) <==> LocalName(stages, p) == LocalName(stages, q)
  {
    hide PartName, FullName, Offset, Frame, Local;
    var k, k' := stages[p.stage][p.key], stages[q.stage][q.key];
    SameAt(k, p.part, k', q.part, Offset(stages, p.stage));
    SameAt(k, p.part, k', q.part, 0);
  }

  // What is stored under the name of a layer belongs to a layer of the same stage.
  lemma {:induction false} LayerWriter(stages: seq<seq<Key>>, p: Place, q: Place)
    requires OfLayer(stages, p) && InRange(stages, q) && NameOf(stages, q) == NameOf(stages, p)
    ensures OfLayer(stages, q) && q.stage == p.stage
  {
    hide PartName, FullName, Offset, Frame, Local, NumberIn;
    var k, k' := stages[p.stage][p.key], stages[q.stage][q.key];
    LayerNamed(k, Offset(stages, p.stage), p.part);
    if k'.Plain? { PlainNamed(k', Offset(stages, q.stage), q.part); }
    if k'.Layer? {
      if q.stage < p.stage { StagesInOrder(stages, q, p); }
      if p.stage < q.stage { StagesInOrder(stages, p, q); }
    }
  }

  // Every part of every layer key keeps its entry exactly when the names within each stage are
  // distinct: numbers of different stages never meet.
  lemma {:induction false} NoneOverwritten(stages: seq<seq<Key>>, dict: map<string, Place>)
    requires Written(stages, Place(|stages|, 0, 0), dict)
    ensures (forall p :: OfLayer(stages, p) ==> NameOf(stages, p) in dict && dict[NameOf(stages, p)] == p)
       <==> Distinct(stages)
  {
    hide NameOf, LocalName;
    if Distinct(stages) {
      forall p | OfLayer(stages, p) ensures NameOf(stages, p) in dict && dict[NameOf(stages, p)] == p {
        assert Before(p, Place(|stages|, 0, 0));
        var q := dict[NameOf(stages, p)];
        LayerWriter(stages, p, q);
        SameName(stages, p, q);
      }
    } else {
      var p, q :| OfLayer(stages, p) && OfLayer(stages, q) && p.stage == q.stage && p != q
        && LocalName(stages, p) == LocalName(stages, q);
      SameName(stages, p, q);
    }
  }

  // ---- the numbers are 0 .. L-1 ----

  // Stage s holds exactly the local layers 0 .. count-1.
  predicate Holds(keys: seq<Key>, count: nat) {
    && (forall i :: 0 <= i < |keys| && keys[i].Layer? ==> Local(keys[i]) < count)
    && (forall l: nat :: l < count ==> HasLayer(keys, l))
  }

  predicate HasLayer(keys: seq<Key>, local: nat) {
    exists i :: 0 <= i < |keys| && keys[i].Layer? && Local(keys[i]) == local
  }

  ghost predicate Contiguous(stages: seq<seq<Key>>, counts: seq<nat>) {
    |counts| == |stages| && forall s :: 0 <= s < |stages| ==> Holds(stages[s], counts[s])
  }

  function Sum(counts: seq<nat>, n: nat): nat
    requires n <= |counts|
  {
    if n == 0 then 0 else Sum(counts, n - 1) + counts[n - 1]
  }

  // Some key of stage s gets layer number g.
  ghost predicate Numbered(stages: seq<seq<Key>>, s: nat, g: nat)
    requires s < |stages|
  {
    g >= Offset(stages, s) && HasLayer(stages[s], g - Offset(stages, s))
  }

  ghost predicate Used(stages: seq<seq<Key>>, g: nat) {
    exists s :: 0 <= s < |stages| && Numbered(stages, s, g)
  }

  lemma {:induction false} HandledCount(keys: seq<Key>, count: nat)
    requires Holds(keys, count)
    ensures Handled(keys) == if count == 0 then 0 else count - 1
  {
    HandledBelow(keys, count);
    if count > 0 {
      assert HasLayer(keys, count - 1);
      var i :| 0 <= i < |keys| && keys[i].Layer? && Local(keys[i]) == count - 1;
      LocalHandled(keys, i);
    }
  }

  lemma {:induction false} HandledBelow(keys: seq<Key>, count: nat)
    requires forall i :: 0 <= i < |keys| && keys[i].Layer? ==> Local(keys[i]) < count
    ensures Handled(keys) == 0 || Handled(keys) < count
  {
    if keys != [] { HandledBelow(keys[..|keys| - 1], count); }
  }

  lemma {:induction false} OffsetIsSum(stages: seq<seq<Key>>, counts: seq<nat>, s: nat)
    requires Contiguous(stages, counts) && s <= |stages|
    requires forall t :: 0 <= t < s ==> counts[t] >= 1
    ensures Offset(stages, s) == Sum(counts, s)
  {
    if s > 0 {
      OffsetIsSum(stages, counts, s - 1);
      HandledCount(stages[s - 1], counts[s - 1]);
    }
  }

  lemma {:induction false} SumMonotone(counts: seq<nat>, s: nat, t: nat)
    requires s <= t <= |counts|
    ensures Sum(counts, s) <= Sum(counts, t)
  {
    if s < t { SumMonotone(counts, s, t - 1); }
  }

  // The stage that a number below the total falls into.
  lemma {:induction false} StageOf(counts: seq<nat>, n: nat, g: nat) returns (s: nat)
    requires n <= |counts| && g < Sum(counts, n)
    ensures s < n && Sum(counts, s) <= g < Sum(counts, s) + counts[s]
  {
    if g >= Sum(counts, n - 1) {
      s := n - 1;
    } else {
      s := StageOf(counts, n - 1, g);
    }
  }

  // No stage without layers comes before one with layers.
  predicate EmptyOnlyLast(counts: seq<nat>) {
    forall s, t :: 0 <= s < t < |counts| && counts[t] >= 1 ==> counts[s] >= 1
  }

  lemma {:induction false} SumZero(counts: seq<nat>, s: nat, t: nat)
    requires s <= t <= |counts| && forall u :: s <= u < t ==> counts[u] == 0
    ensures Sum(counts, t) == Sum(counts, s)
  {
    if s < t { SumZero(counts, s, t - 1); }
  }

  lemma {:induction false} NoGaps(stages: seq<seq<Key>>, counts: seq<nat>, g: nat)
    requires Contiguous(stages, counts) && EmptyOnlyLast(counts) && g < Sum(counts, |counts|)
    ensures Used(stages, g)
  {
    var s := StageOf(counts, |counts|, g);
    OffsetIsSum(stages, counts, s);
    assert HasLayer(stages[s], g - Offset(stages, s));
    assert Numbered(stages, s, g);
  }

  lemma {:induction false} NoneAbove(stages: seq<seq<Key>>, counts: seq<nat>, g: nat)
    requires Contiguous(stages, counts) && EmptyOnlyLast(counts) && Used(stages, g)
    ensures g < Sum(counts, |counts|)
  {
    var s :| 0 <= s < |stages| && Numbered(stages, s, g);
    var l := g - Offset(stages, s);
    var i :| 0 <= i < |stages[s]| && stages[s][i].Layer? && Local(stages[s][i]) == l;
    assert l < counts[s];
    OffsetIsSum(stages, counts, s);
    SumMonotone(counts, s + 1, |counts|);
  }

  // The first number that an empty stage in the middle skips is used nowhere.
  lemma {:induction false} Gap(stages: seq<seq<Key>>, counts: seq<nat>, s: nat, t: nat)
    requires Contiguous(stages, counts) && s < t < |counts| && counts[s] == 0 && counts[t] >= 1
    requires forall u :: 0 <= u < s ==> counts[u] >= 1
    ensures Sum(counts, s) < Sum(counts, |counts|) && !Used(stages, Sum(counts, s))
  {
    OffsetIsSum(stages, counts, s);
    SumMonotone(counts, s, t);
    SumMonotone(counts, t + 1, |counts|);
    var g := Offset(stages, s);
    forall u | 0 <= u < |stages| ensures !Numbered(stages, u, g) {
      if u > s { OffsetsGrow(stages, s, u); }
      if u < s && Numbered(stages, u, g) {
        var i :| 0 <= i < |stages[u]| && stages[u][i].Layer? && Local(stages[u][i]) == g - Offset(stages, u);
        LocalHandled(stages[u], i);
        OffsetsGrow(stages, u, s);
      }
    }
  }

  lemma {:induction false} FirstEmpty(counts: seq<nat>, s: nat, t: nat) returns (r: nat)
    requires s < t < |counts| && counts[s] == 0
    ensures r < t && counts[r] == 0 && forall u :: 0 <= u < r ==> counts[u] >= 1
  {
    if forall u :: 0 <= u < s ==> counts[u] >= 1 {
      r := s;
    } else {
      var u :| 0 <= u < s && counts[u] == 0;
      r := FirstEmpty(counts, u, t);
    }
  }

  // The numbers used are exactly 0 .. L-1, L being the number of layers, if and only if no stage
  // without layers comes before one with layers.
  lemma {:induction false} ExactlyAllLayers(stages: seq<seq<Key>>, counts: seq<nat>)
    requires Contiguous(stages, counts)
    ensures (forall g: nat :: Used(stages, g) <==> g < Sum(counts, |counts|)) <==> EmptyOnlyLast(counts)
  {
    if EmptyOnlyLast(counts) {
      forall g: nat ensures Used(stages, g) <==> g < Sum(counts, |counts|) {
        if g < Sum(counts, |counts|) { NoGaps(stages, counts, g); }
        if Used(stages, g) { NoneAbove(stages, counts, g); }
      }
    } else {
      var s, t :| 0 <= s < t < |counts| && counts[t] >= 1 && counts[s] == 0;
      var r := FirstEmpty(counts, s, t);
      Gap(stages, counts, r, t);
    }
  }
}
