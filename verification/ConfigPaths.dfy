/**
 Which node of a tree gets which name when the tree is flattened, said by the keys on the way to the node
 (src/config/config.cpp:14-29), and what that means for the variable of that name.
 */
module ConfigPaths {
  import opened ConfigLoading
  import opened ConfigTrees
  import opened ConfigVars
  import opened Yaml

  /** The keys lead from the node to `v`, each to an entry of a mapping. */
  predicate LeadsTo(node: Node, keys: seq<string>, v: Node)
    decreases |keys|
  {
    if keys == [] then node == v
    else
      && node.Mapping?
      && exists i :: 0 <= i < |node.entries| && node.entries[i].key == keys[0]
                     && LeadsTo(node.entries[i].value, keys[1..], v)
  }

  /** The keys with dots between them. */
  function Joined(keys: seq<string>): string {
    if keys == [] then ""
    else if |keys| == 1 then keys[0]
    else keys[0] + "." + Joined(keys[1..])
  }

  /** The name of a node: empty keys at the start of the way leave no trace. */
  function Dotted(keys: seq<string>): string {
    if keys != [] && keys[0] == "" then Dotted(keys[1..]) else Joined(keys)
  }

  /** The name of a node below another one that is called `prefix`. */
  function Under(prefix: string, keys: seq<string>): string {
    if prefix == "" then Dotted(keys) else if keys == [] then prefix else prefix + "." + Joined(keys)
  }

  lemma UnderChild(prefix: string, key: string, keys: seq<string>)
    ensures Under(Child(prefix, key), keys) == Under(prefix, [key] + keys)
  {
    assert ([key] + keys)[1..] == keys;
    if prefix != "" {
      assert Child(prefix, key) != "";
      if keys != [] {
        assert prefix + "." + key + "." + Joined(keys) == prefix + "." + (key + "." + Joined(keys));
      }
    } else if key == "" && keys == [] {
      assert Dotted([key]) == Dotted([]);
    }
  }

  /** Some way leads from the node to `m.1`, and gives it the name `m.0`. */
  ghost predicate Named(prefix: string, node: Node, m: Member) {
    exists keys :: LeadsTo(node, keys, m.1) && m.0 == Under(prefix, keys)
  }

  ghost predicate NamedBelow(prefix: string, entries: seq<Entry>, m: Member) {
    exists i :: 0 <= i < |entries| && Named(Child(prefix, entries[i].key), entries[i].value, m)
  }

  lemma NamedHere(prefix: string, node: Node)
    ensures Named(prefix, node, (prefix, node))
  {
    assert LeadsTo(node, [], node) && prefix == Under(prefix, []);
  }

  lemma OneKeyMore(node: Node, i: nat, keys: seq<string>, v: Node)
    requires node.Mapping? && i < |node.entries| && LeadsTo(node.entries[i].value, keys, v)
    ensures LeadsTo(node, [node.entries[i].key] + keys, v)
  {
    assert ([node.entries[i].key] + keys)[1..] == keys;
  }

  lemma NamedByEntry(prefix: string, node: Node, i: nat, m: Member)
    requires node.Mapping? && i < |node.entries|
    requires Named(Child(prefix, node.entries[i].key), node.entries[i].value, m)
    ensures Named(prefix, node, m)
  {
    var e := node.entries[i];
    var keys :| LeadsTo(e.value, keys, m.1) && m.0 == Under(Child(prefix, e.key), keys);
    UnderChild(prefix, e.key, keys);
    OneKeyMore(node, i, keys, m.1);
  }

  lemma NamedIff(prefix: string, node: Node, m: Member)
    ensures Named(prefix, node, m) <==>
            m == (prefix, node) || (node.Mapping? && NamedBelow(prefix, node.entries, m))
  {
    if m == (prefix, node) {
      NamedHere(prefix, node);
    } else if Named(prefix, node, m) {
      var keys :| LeadsTo(node, keys, m.1) && m.0 == Under(prefix, keys);
      var i :| 0 <= i < |node.entries| && node.entries[i].key == keys[0]
               && LeadsTo(node.entries[i].value, keys[1..], m.1);
      UnderChild(prefix, keys[0], keys[1..]);
      assert keys == [keys[0]] + keys[1..];
      assert Named(Child(prefix, node.entries[i].key), node.entries[i].value, m);
    } else if node.Mapping? && NamedBelow(prefix, node.entries, m) {
      var i :| 0 <= i < |node.entries| && Named(Child(prefix, node.entries[i].key), node.entries[i].value, m);
      NamedByEntry(prefix, node, i, m);
    }
  }

  lemma {:induction false} FlattenNames(prefix: string, node: Node, m: Member)
    ensures m in Flatten(prefix, node) <==> Named(prefix, node, m)
    decreases node
  {
    NamedIff(prefix, node, m);
    if node.Mapping? {
      FlattenNamesBelow(prefix, node.entries, m);
    }
  }

  lemma {:induction false} FlattenNamesBelow(prefix: string, entries: seq<Entry>, m: Member)
    ensures m in FlattenEntries(prefix, entries) <==> NamedBelow(prefix, entries, m)
    decreases entries
  {
    if entries != [] {
      FlattenNames(Child(prefix, entries[0].key), entries[0].value, m);
      FlattenNamesBelow(prefix, entries[1..], m);
      BelowCons(prefix, entries, m);
    }
  }

  lemma BelowCons(prefix: string, entries: seq<Entry>, m: Member)
    requires entries != []
    ensures NamedBelow(prefix, entries, m) <==>
      Named(Child(prefix, entries[0].key), entries[0].value, m) || NamedBelow(prefix, entries[1..], m)
  {
    if NamedBelow(prefix, entries[1..], m) {
      var i :| 0 <= i < |entries| - 1 && Named(Child(prefix, entries[1..][i].key), entries[1..][i].value, m);
      assert entries[i + 1] == entries[1..][i];
    }
    if NamedBelow(prefix, entries, m) {
      var i :| 0 <= i < |entries| && Named(Child(prefix, entries[i].key), entries[i].value, m);
      assert i > 0 ==> entries[1..][i - 1] == entries[i];
    }
  }

  /** Some keys lead from the root to `v`, and joined by dots they are the name. */
  ghost predicate KeysLead(root: Node, name: string, v: Node) {
    exists keys :: LeadsTo(root, keys, v) && name == Dotted(keys)
  }

  /**
   A node is listed under a name exactly if some list of keys leads to it from the root, and the name is those keys
   joined by dots.
   */
  lemma ListedIffKeysLead(root: Node, name: string, v: Node)
    ensures (name, v) in Flatten("", root) <==> KeysLead(root, name, v)
  {
    var m: Member := (name, v);
    FlattenNames("", root, m);
    if Named("", root, m) {
      var keys :| LeadsTo(root, keys, m.1) && m.0 == Under("", keys);
      assert LeadsTo(root, keys, v) && name == Dotted(keys);
    }
    if keys: seq<string> :| LeadsTo(root, keys, v) && name == Dotted(keys) {
      assert LeadsTo(root, keys, m.1) && m.0 == Under("", keys);
      assert Named("", root, m);
    }
  }

  // ---- The variable of that name ----------------------------------------------------------------------------

  /** The node that some keys with the name lead to is `v`, and no keys with the name lead to another one. */
  ghost predicate OnlyNode(root: Node, name: string, v: Node) {
    KeysLead(root, name, v) && forall u :: KeysLead(root, name, u) ==> u == v
  }

  lemma OnlyNodeIsListed(root: Node, name: string, v: Node)
    requires OnlyNode(root, name, v)
    ensures exists m <- Flatten("", root) :: m.0 == name
    ensures forall m <- Flatten("", root) :: m.0 == name ==> m.1 == v
  {
    var listed: Member := (name, v);
    ListedIffKeysLead(root, name, v);
    assert listed in Flatten("", root) && listed.0 == name;
    forall m: Member | m in Flatten("", root) && m.0 == name ensures m.1 == v {
      ListedIffKeysLead(root, name, m.1);
    }
  }

  /** A text that a scalar holds, or that writing another node gives. */
  predicate Reads(node: Node, emit: Node -> string, text: string) {
    match node
    case Scalar(t) => text == t
    case _ => text == emit(node)
  }

  lemma {:induction false} LastNamed(r: Reader, ms: seq<Member>, name: string) returns (k: nat)
    requires name == r.name != "" && exists m <- ms :: m.0 == name
    requires forall m <- ms :: m.0 == name ==> r.fromStr(TextOf(m.1, r.emit)).Some?
    ensures r.LastConverting(ms, k) && ms[k].0 == name
    decreases |ms|
  {
    var last := |ms| - 1;
    if ms[last].0 == name {
      k := last;
    } else {
      var front := ms[..last];
      assert forall m <- front :: m in ms;
      var m :| m in ms && m.0 == name;
      assert m in front;
      k := LastNamed(r, front, name);
    }
  }

  /**
   Loading a tree gives a variable, which no listener's exception keeps from changing, the value that its text
   converts to, when the variable is named by exactly one node of the tree.
   */
  lemma NamedNodeIsLoaded<V(!new)>(r: Reader<V>, root: Node, node: Node, text: string, s: VarState<V>)
    requires r.name != "" && OnlyNode(root, r.name, node) && Reads(node, r.emit, text)
    requires r.fromStr(text).Some? && IsEquality(r.kind.eq) && NoneThrows(r.kind.throws)
    ensures r.Replay(Flatten("", root), s).val == r.fromStr(text).value
  {
    OnlyNodeIsListed(root, r.name, node);
    var ms := Flatten("", root);
    var k := LastNamed(r, ms, r.name);
    assert ms[k] in ms;
    LastMemberWinsExactly(r, ms, s, k);
  }

  lemma {:induction false} TwoKeys(a: string, b: string, x: Node, keys: seq<string>, v: Node)
    requires LeadsTo(Mapping([Entry(a, Mapping([Entry(b, x)]))]), keys, v)
    ensures |keys| >= 2 ==> keys[0] == a && keys[1] == b && LeadsTo(x, keys[2..], v)
    ensures |keys| == 1 ==> keys[0] == a
  {
    if |keys| >= 2 {
      assert LeadsTo(Mapping([Entry(b, x)]), keys[1..], v);
      assert keys[1..][1..] == keys[2..];
    }
  }

  /** A scalar two levels down is named by its two keys and a dot. */
  lemma TwoLevels(a: string, b: string, text: string)
    requires a != ""
    ensures OnlyNode(Mapping([Entry(a, Mapping([Entry(b, Scalar(text))]))]), a + "." + b, Scalar(text))
  {
    var root := Mapping([Entry(a, Mapping([Entry(b, Scalar(text))]))]);
    assert [a, b][1..] == [b] && [b][1..] == [];
    assert LeadsTo(Scalar(text), [], Scalar(text));
    OneKeyMore(Mapping([Entry(b, Scalar(text))]), 0, [], Scalar(text));
    OneKeyMore(root, 0, [b], Scalar(text));
    assert LeadsTo(root, [a] + [b], Scalar(text)) && [a] + [b] == [a, b];
    assert Joined([b]) == b && Joined([a, b]) == a + "." + Joined([b]);
    assert KeysLead(root, a + "." + b, Scalar(text));
    forall u | KeysLead(root, a + "." + b, u) ensures u == Scalar(text) {
      var keys :| LeadsTo(root, keys, u) && a + "." + b == Dotted(keys);
      TwoKeys(a, b, Scalar(text), keys, u);
      assert |keys| == 1 ==> Dotted(keys) == a;
      assert |keys| == 0 ==> Dotted(keys) == "";
    }
  }

  /** `a: {b: text}` sets the variable `a.b` to what the text converts to. */
  lemma TwoLevelsLoad<V(!new)>(r: Reader<V>, a: string, b: string, text: string, s: VarState<V>)
    requires a != "" && r.name == a + "." + b
    requires r.fromStr(text).Some? && IsEquality(r.kind.eq) && NoneThrows(r.kind.throws)
    ensures r.Replay(Flatten("", Mapping([Entry(a, Mapping([Entry(b, Scalar(text))]))])), s).val
         == r.fromStr(text).value
  {
    TwoLevels(a, b, text);
    NamedNodeIsLoaded(r, Mapping([Entry(a, Mapping([Entry(b, Scalar(text))]))]), Scalar(text), text, s);
  }

  /** The same for a registered variable, after `Config.LoadFromYaml` with the tree. */
  lemma LoadedVariable<V(!new)>(config: Config<V>, root: Node, emit: Node -> string,
                                start: map<string, VarState<V>>, name: string, node: Node, text: string)
    requires config.Valid() && config.Replayed(Flatten("", root), emit, start)
    requires name in config.datas && name != "" && OnlyNode(root, name, node) && Reads(node, emit, text)
    requires config.datas[name].fromStr(text).Some?
    requires IsEquality(config.datas[name].kind.eq) && NoneThrows(config.datas[name].kind.throws)
    ensures config.datas[name].val == config.datas[name].fromStr(text).value
  {
    NamedNodeIsLoaded(config.ReaderOf(name, emit), root, node, text, start[name]);
  }
}
