/**
 Flattening of a YAML tree into dotted names (`ListAllMember`, src/config/config.cpp:18-29). The method prunes
 while it recurses; the specification flattens the whole tree first and filters by valid names afterwards.
 */
module ConfigTrees {
  import opened Yaml
  import opened Sequences

  type Member = (string, Node)

  predicate NameChar(c: char) {
    'a' <= c <= 'z' || c == '.' || c == '_' || '0' <= c <= '9'
  }

  predicate ValidName(name: string) {
    forall k :: 0 <= k < |name| ==> NameChar(name[k])
  }

  function Child(prefix: string, key: string): string {
    if prefix == "" then key else prefix + "." + key
  }

  /** Every node of the tree with its dotted name, in pre-order. */
  function Flatten(prefix: string, node: Node): seq<Member>
    decreases node
  {
    [(prefix, node)] + (if node.Mapping? then FlattenEntries(prefix, node.entries) else [])
  }

  function FlattenEntries(prefix: string, entries: seq<Entry>): seq<Member>
    decreases entries
  {
    if entries == [] then []
    else Flatten(Child(prefix, entries[0].key), entries[0].value) + FlattenEntries(prefix, entries[1..])
  }

  function KeepValid(ms: seq<Member>): seq<Member> {
    if ms == [] then []
    else IfValid(ms[0]) + KeepValid(ms[1..])
  }

  function IfValid(m: Member): seq<Member> { if ValidName(m.0) then [m] else [] }

  lemma {:induction false} KeepValidConcat(a: seq<Member>, b: seq<Member>)
    ensures KeepValid(a + b) == KeepValid(a) + KeepValid(b)
  {
    if a == [] {
      assert a + b == b;
    } else {
      assert (a + b)[1..] == a[1..] + b && (a + b)[0] == a[0];
      KeepValidConcat(a[1..], b);
      Associative(IfValid(a[0]), KeepValid(a[1..]), KeepValid(b));
    }
  }

  lemma ValidNameIs(name: string)
    ensures ValidName(name) <==> forall c <- name :: 'a' <= c <= 'z' || '0' <= c <= '9' || c == '.' || c == '_'
  {
    assert forall k :: 0 <= k < |name| ==> name[k] in name;
  }

  /** The pruned list has the members whose names have only lower-case letters, digits, dots and underscores. */
  lemma {:induction false} KeptExactly(ms: seq<Member>, m: Member)
    ensures m in KeepValid(ms) <==>
      m in ms && forall c <- m.0 :: 'a' <= c <= 'z' || '0' <= c <= '9' || c == '.' || c == '_'
  {
    if ms != [] {
      KeptExactly(ms[1..], m);
      ValidNameIs(m.0);
      assert m in ms <==> m == ms[0] || m in ms[1..];
    }
  }

  lemma {:induction false} FlattenConcat(prefix: string, a: seq<Entry>, b: seq<Entry>)
    ensures FlattenEntries(prefix, a + b) == FlattenEntries(prefix, a) + FlattenEntries(prefix, b)
  {
    if a == [] {
      assert a + b == b;
    } else {
      assert (a + b)[1..] == a[1..] + b && (a + b)[0] == a[0];
      FlattenConcat(prefix, a[1..], b);
      Associative(Flatten(Child(prefix, a[0].key), a[0].value), FlattenEntries(prefix, a[1..]),
                  FlattenEntries(prefix, b));
    }
  }

  lemma ChildOfInvalid(prefix: string, key: string)
    requires !ValidName(prefix)
    ensures !ValidName(Child(prefix, key))
  {
    var k :| 0 <= k < |prefix| && !NameChar(prefix[k]);
    assert Child(prefix, key)[k] == prefix[k];
  }

  /** Below an invalid name there is no valid one: pruning the subtree loses nothing. */
  lemma {:induction false} NothingValidBelow(prefix: string, node: Node)
    requires !ValidName(prefix)
    ensures KeepValid(Flatten(prefix, node)) == []
    decreases node
  {
    KeepValidConcat([(prefix, node)], if node.Mapping? then FlattenEntries(prefix, node.entries) else []);
    if node.Mapping? {
      NothingValidInEntries(prefix, node.entries);
    }
  }

  lemma {:induction false} NothingValidInEntries(prefix: string, entries: seq<Entry>)
    requires !ValidName(prefix)
    ensures KeepValid(FlattenEntries(prefix, entries)) == []
    decreases entries
  {
    if entries != [] {
      var Entry(key, value) := entries[0];
      ChildOfInvalid(prefix, key);
      NothingValidBelow(Child(prefix, key), value);
      NothingValidInEntries(prefix, entries[1..]);
      KeepValidConcat(Flatten(Child(prefix, key), value), FlattenEntries(prefix, entries[1..]));
    }
  }

  /** The list that `ListAllMember` is handed by reference. */
  class MemberList {
    var members: seq<Member>

    constructor ()
      ensures members == []
    {
      members := [];
    }
  }

  method ListAllMember(prefix: string, node: Node, output: MemberList)
    modifies output
    ensures output.members == old(output.members) + KeepValid(Flatten(prefix, node))
    decreases node
  {
    if !ValidName(prefix) {
      NothingValidBelow(prefix, node);
      return;
    }
    KeepFlatten(prefix, node);
    output.members := output.members + [(prefix, node)];
    ghost var start := output.members;
    if node.Mapping? {
      for k := 0 to |node.entries|
        invariant output.members == start + KeepValid(FlattenEntries(prefix, node.entries[..k]))
      {
        var Entry(key, value) := node.entries[k];
        ListAllMember(Child(prefix, key), value, output);
        OneMoreEntry(prefix, node.entries, k);
        Associative(start, KeepValid(FlattenEntries(prefix, node.entries[..k])),
                    KeepValid(Flatten(Child(prefix, key), value)));
      }
      assert node.entries[..|node.entries|] == node.entries;
      Associative(old(output.members), [(prefix, node)], KeepValid(FlattenEntries(prefix, node.entries)));
    }
  }

  lemma KeepFlatten(prefix: string, node: Node)
    requires ValidName(prefix)
    ensures KeepValid(Flatten(prefix, node))
         == [(prefix, node)] + if node.Mapping? then KeepValid(FlattenEntries(prefix, node.entries)) else []
  {
    KeepValidConcat([(prefix, node)], if node.Mapping? then FlattenEntries(prefix, node.entries) else []);
  }

  lemma OneMoreEntry(prefix: string, entries: seq<Entry>, k: nat)
    requires k < |entries|
    ensures KeepValid(FlattenEntries(prefix, entries[..k + 1]))
         == KeepValid(FlattenEntries(prefix, entries[..k]))
          + KeepValid(Flatten(Child(prefix, entries[k].key), entries[k].value))
  {
    var last := [entries[k]];
    assert entries[..k + 1] == entries[..k] + last;
    FlattenConcat(prefix, entries[..k], last);
    assert FlattenEntries(prefix, last) == Flatten(Child(prefix, entries[k].key), entries[k].value) by {
      assert last[1..] == [];
    }
    KeepValidConcat(FlattenEntries(prefix, entries[..k]), FlattenEntries(prefix, last));
  }
}
