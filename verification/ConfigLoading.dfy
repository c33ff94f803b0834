/**
 The registry of configuration variables (`Config`, src/config/config.h:325-412) and `LoadFromYaml`
 (src/config/config.cpp:32-65). Values of all variables are taken from one type `V`; `typeName` plays the part of
 the dynamic cast. Listeners do not call back into the registry.
 */
module ConfigLoading {
  import opened Options
  import opened Yaml
  import opened ConfigTrees
  import opened ConfigVars

  datatype LookupResult<V> = Found(variable: ConfigVar<V>) | NotOfThatType | Absent | InvalidArgument

  // ---- What loading does to one variable ------------------------------------------------------------------

  /** The text handed to `fromString`; `emit` stands for writing a node that is not a scalar. */
  function TextOf(node: Node, emit: Node -> string): string {
    if node.Scalar? then node.text else emit(node)
  }

  /** How one variable reads members: its name, its behaviour, its conversion, and the writing of nodes. */
  datatype Reader<!V> = Reader(name: string, kind: Kind<V>, fromStr: string -> Option<V>, emit: Node -> string) {

    /** The value that a member offers to the variable; members with an empty name are passed over. */
    function Offer(m: Member): Option<V> {
      if name != "" && m.0 == name then fromStr(TextOf(m.1, emit)) else None
    }

    /** The variable after one member. */
    function After(m: Member, s: VarState<V>): VarState<V> {
      match Offer(m)
      case None => s
      case Some(v) => ConfigVars.Apply(kind, s, Op.SetValue(v))
    }

    /** The variable, with the calls of its listeners, after the members have been applied to it in order. */
    function Replay(ms: seq<Member>, s: VarState<V>): VarState<V> {
      if ms == [] then s else After(ms[|ms| - 1], Replay(ms[..|ms| - 1], s))
    }

    /** The values that the members offer, set one after the other. */
    function Offers(ms: seq<Member>): seq<Op<V>> {
      if ms == [] then []
      else match Offer(ms[0])
        case None => Offers(ms[1..])
        case Some(v) => [Op.SetValue(v)] + Offers(ms[1..])
    }

    /** The member's text converts, and setting its value does not fail. */
    predicate Takes(m: Member, s: VarState<V>) {
      Offer(m).Some? && Succeeds(kind, s, Offer(m).value)
    }

    /** The position of the last member that the variable takes, each member met in the state left by those before. */
    ghost predicate LastTaken(ms: seq<Member>, s: VarState<V>, k: nat) {
      && k < |ms| && Takes(ms[k], Replay(ms[..k], s))
      && forall j :: k < j < |ms| ==> !Takes(ms[j], Replay(ms[..j], s))
    }

    /** The position of the last member with that name whose text converts. */
    ghost predicate LastConverting(ms: seq<Member>, k: nat) {
      k < |ms| && Offer(ms[k]).Some? && forall j :: k < j < |ms| ==> Offer(ms[j]).None?
    }

    ghost predicate NoneConverts(ms: seq<Member>) {
      forall j :: 0 <= j < |ms| ==> Offer(ms[j]).None?
    }
  }

  ghost predicate IsEquality<V(!new)>(eq: (V, V) -> bool) { forall x, y :: eq(x, y) <==> x == y }

  /** A variable with no same-named member that converts keeps its value, and no listener is called. */
  lemma {:induction false} UnmentionedIsKept<V>(r: Reader<V>, ms: seq<Member>, s: VarState<V>)
    requires r.NoneConverts(ms)
    ensures r.Replay(ms, s) == s
  {
    if ms != [] {
      UnmentionedIsKept(r, ms[..|ms| - 1], s);
    }
  }

  /** Otherwise the last member that it takes decides, or a value that the type takes for equal to it. */
  lemma {:induction false} LastMemberWins<V>(r: Reader<V>, ms: seq<Member>, s: VarState<V>, k: nat)
    requires r.LastTaken(ms, s, k)
    ensures var v := r.Replay(ms, s).val; v == r.Offer(ms[k]).value || r.kind.eq(v, r.Offer(ms[k]).value)
  {
    var front := ms[..|ms| - 1];
    if k < |ms| - 1 {
      assert front[..k] == ms[..k];
      forall j | k < j < |front| ensures !r.Takes(front[j], r.Replay(front[..j], s)) {
        assert front[..j] == ms[..j];
      }
      LastMemberWins(r, front, s, k);
      assert !r.Takes(ms[|ms| - 1], r.Replay(front, s));
    }
  }

  /** If no listener throws, a variable takes exactly the members that convert. */
  lemma ConvertingIsTaken<V(!new)>(r: Reader<V>, ms: seq<Member>, s: VarState<V>, k: nat)
    requires NoneThrows(r.kind.throws) && r.LastConverting(ms, k)
    ensures r.LastTaken(ms, s, k)
  {
    var before := r.Replay(ms[..k], s);
    NothingFails(r.kind.throws, before.cbs, before.val, r.Offer(ms[k]).value);
  }

  /** For a type whose `operator==` is equality, it is exactly the value of the last member that converts. */
  lemma LastMemberWinsExactly<V(!new)>(r: Reader<V>, ms: seq<Member>, s: VarState<V>, k: nat)
    requires IsEquality(r.kind.eq) && NoneThrows(r.kind.throws) && r.LastConverting(ms, k)
    ensures r.Replay(ms, s).val == r.Offer(ms[k]).value
  {
    ConvertingIsTaken(r, ms, s, k);
    LastMemberWins(r, ms, s, k);
  }

  lemma ReplaySnoc<V>(r: Reader<V>, front: seq<Member>, m: Member, s: VarState<V>)
    ensures r.Replay(front + [m], s) == r.After(m, r.Replay(front, s))
  {
    assert (front + [m])[..|front|] == front;
  }

  /** Replaying members is a sequential run of `setValue` calls. */
  lemma {:induction false} ReplayIsRun<V>(r: Reader<V>, ms: seq<Member>, s: VarState<V>)
    ensures r.Replay(ms, s) == Run(r.kind, s, r.Offers(ms))
    decreases |ms|
  {
    if ms != [] {
      ReplayFront(r, ms, s);
      ReplayIsRun(r, ms[1..], r.After(ms[0], s));
      if r.Offer(ms[0]).Some? {
        assert r.Offers(ms)[1..] == r.Offers(ms[1..]);
      }
    }
  }

  lemma {:induction false} ReplayFront<V>(r: Reader<V>, ms: seq<Member>, s: VarState<V>)
    requires ms != []
    ensures r.Replay(ms, s) == r.Replay(ms[1..], r.After(ms[0], s))
  {
    if |ms| > 1 {
      var front := ms[..|ms| - 1];
      ReplayFront(r, front, s);
      assert ms[1..][..|ms| - 2] == front[1..];
    }
  }

  lemma {:induction false} OffersOnlySet<V>(r: Reader<V>, ms: seq<Member>, id: nat)
    ensures Persistent(r.Offers(ms), id)
  {
    if ms != [] {
      OffersOnlySet(r, ms[1..], id);
    }
  }

  /** What a listener hears while a tree is loaded is a chain of changes unless it is told of one in vain. */
  lemma LoadingIsHeardAsChain<V(!new)>(r: Reader<V>, ms: seq<Member>, s: VarState<V>, id: nat)
    returns (pairs: seq<(V, V)>)
    requires Once(s.cbs, id)
    ensures Heard(id, r.Replay(ms, s).calls) == Heard(id, s.calls) + pairs
    ensures NeverInVain(r.kind, s, r.Offers(ms), id) ==> Chain(r.kind.eq, pairs, s.val, r.Replay(ms, s).val)
    ensures NoneThrows(r.kind.throws) ==> NeverInVain(r.kind, s, r.Offers(ms), id)
  {
    ReplayIsRun(r, ms, s);
    OffersOnlySet(r, ms, id);
    pairs := ListenerHearsChain(r.kind, s, r.Offers(ms), id);
    if NoneThrows(r.kind.throws) {
      QuietIsNeverInVain(r.kind, s, r.Offers(ms), id);
    }
  }

  /** Members with invalid names never matter to a variable with a valid one. */
  lemma {:induction false} InvalidNeverMatters<V>(r: Reader<V>, ms: seq<Member>, s: VarState<V>)
    requires ValidName(r.name)
    ensures r.Replay(KeepValid(ms), s) == r.Replay(ms, s)
  {
    if ms != [] {
      var front, m := ms[..|ms| - 1], ms[|ms| - 1];
      InvalidNeverMatters(r, front, s);
      assert ms == front + [m];
      KeepValidConcat(front, [m]);
      KeepValidOne(m);
      ReplaySnoc(r, front, m, s);
      if ValidName(m.0) {
        ReplaySnoc(r, KeepValid(front), m, s);
      } else {
        assert KeepValid(front) + [] == KeepValid(front);
      }
    }
  }

  lemma KeepValidOne(m: Member)
    ensures KeepValid([m]) == IfValid(m)
  {
  }

  // ---- Names ----------------------------------------------------------------------------------------------

  function ToLower(c: char): char { if 'A' <= c <= 'Z' then c + 32 as char else c }

  function Lower(s: string): string { seq(|s|, k requires 0 <= k < |s| => ToLower(s[k])) }

  /** Lower-casing changes no name that passes the character check. */
  lemma LowerOfValid(s: string)
    requires ValidName(s)
    ensures Lower(s) == s
  {
    assert forall k :: 0 <= k < |s| ==> NameChar(s[k]) && Lower(s)[k] == s[k];
  }

  lemma {:induction false} KeptAreValid(ms: seq<Member>, k: nat)
    requires k < |KeepValid(ms)|
    ensures ValidName(KeepValid(ms)[k].0)
  {
    if k >= |IfValid(ms[0])| {
      KeptAreValid(ms[1..], k - |IfValid(ms[0])|);
    }
  }

  /** The first lines of `LoadFromYaml`: a fresh list, filled by reference. */
  method ListAll(root: Node) returns (ms: seq<Member>)
    ensures ms == KeepValid(Flatten("", root))
    ensures forall k :: 0 <= k < |ms| ==> ValidName(ms[k].0)
  {
    var allNodes := new MemberList();
    ListAllMember("", root, allNodes);
    ms := allNodes.members;
    forall k | 0 <= k < |ms| ensures ValidName(ms[k].0) {
      KeptAreValid(Flatten("", root), k);
    }
  }

  class Config<V> {
    var datas: map<string, ConfigVar<V>>

    constructor ()
      ensures datas == map[] && Valid()
    {
      datas := map[];
    }

    /** Names are valid, and each variable is registered under its own name only. */
    ghost predicate Valid()
      reads this
    {
      forall n <- datas :: datas[n].name == n && ValidName(n)
    }

    /** `Lookup<T>(default_value, name)`: finds a variable of that type or creates it. */
    method Lookup(defaultValue: V, name: string, typeName: string, kind: Kind<V>,
                  fromStr: string -> Option<V>, ids: IdSource) returns (r: LookupResult<V>)
      requires Valid()
      modifies this
      ensures Valid() && old(datas).Keys <= datas.Keys
      ensures forall n <- old(datas) :: datas[n] == old(datas)[n]
      ensures name in old(datas) ==> datas == old(datas)
      ensures name in old(datas) ==>
        r == if old(datas)[name].typeName == typeName then Found(old(datas)[name]) else NotOfThatType
      ensures name !in old(datas) && !ValidName(name) ==> r == InvalidArgument && datas == old(datas)
      ensures name !in old(datas) && ValidName(name) ==>
        && r.Found? && fresh(r.variable) && datas == old(datas)[name := r.variable]
        && r.variable.name == name && r.variable.typeName == typeName && r.variable.val == defaultValue
        && r.variable.kind == kind && r.variable.fromStr == fromStr && r.variable.cbs == []
    {
      if name in datas {
        if datas[name].typeName == typeName {
          return Found(datas[name]);
        }
        return NotOfThatType;
      }
      if !ValidName(name) {
        return InvalidArgument;
      }
      var variable := new ConfigVar(defaultValue, name, typeName, kind, fromStr, ids);
      datas := datas[name := variable];
      r := Found(variable);
    }

    /** `Lookup<T>(name)`: a variable is found exactly if there is one of that name and that type. */
    method Find(name: string, typeName: string) returns (r: LookupResult<V>)
      requires Valid()
      ensures r.Found? <==> exists v <- datas.Values :: v.name == name && v.typeName == typeName
      ensures r.Found? ==> r.variable in datas.Values && r.variable.name == name && r.variable.typeName == typeName
      ensures r.Found? ==> forall n <- datas :: datas[n] == r.variable ==> n == name
      ensures r.Absent? <==> forall v <- datas.Values :: v.name != name
      ensures !r.InvalidArgument?
    {
      if name !in datas {
        return Absent;
      }
      r := if datas[name].typeName == typeName then Found(datas[name]) else NotOfThatType;
    }

    ghost function ReaderOf(n: string, emit: Node -> string): Reader<V>
      requires n in datas
      reads this
    {
      Reader(n, datas[n].kind, datas[n].fromStr, emit)
    }

    /** The states of all variables. */
    ghost function States(): map<string, VarState<V>>
      reads this, datas.Values
    {
      map n | n in datas :: datas[n].Abstract()
    }

    /** The variables are those of `start` with the members replayed onto them. */
    ghost predicate Replayed(ms: seq<Member>, emit: Node -> string, start: map<string, VarState<V>>)
      reads this, datas.Values
    {
      && datas.Keys == start.Keys
      && forall n <- datas :: datas[n].Abstract() == ReaderOf(n, emit).Replay(ms, start[n])
    }

    lemma OnlyValidMatter(ms: seq<Member>, emit: Node -> string, start: map<string, VarState<V>>)
      requires Valid() && Replayed(KeepValid(ms), emit, start)
      ensures Replayed(ms, emit, start)
    {
      forall n | n in datas ensures datas[n].Abstract() == ReaderOf(n, emit).Replay(ms, start[n]) {
        InvalidNeverMatters(ReaderOf(n, emit), ms, start[n]);
      }
    }

    /** Applies one flattened member to the variable of its name. */
    method Apply(m: Member, emit: Node -> string)
      requires Valid() && ValidName(m.0)
      modifies datas.Values
      ensures forall n <- datas :: datas[n].Abstract() == ReaderOf(n, emit).After(m, old(datas[n].Abstract()))
    {
      if m.0 == "" {
        return;
      }
      LowerOfValid(m.0);
      var key := Lower(m.0);
      if key in datas {
        var variable := datas[key];
        var ok := variable.FromString(TextOf(m.1, emit));
      }
    }

    /** `Apply` as one more step of a replay. */
    method ApplyNext(m: Member, emit: Node -> string, ghost before: seq<Member>, ghost start: map<string, VarState<V>>)
      requires Valid() && ValidName(m.0) && Replayed(before, emit, start)
      modifies datas.Values
      ensures Replayed(before + [m], emit, start)
    {
      Apply(m, emit);
      forall n | n in datas ensures datas[n].Abstract() == ReaderOf(n, emit).Replay(before + [m], start[n]) {
        ReplaySnoc(ReaderOf(n, emit), before, m, start[n]);
      }
    }

    /** The loop of `LoadFromYaml` over the flattened list. */
    method ApplyAll(ms: seq<Member>, emit: Node -> string)
      requires Valid() && forall k :: 0 <= k < |ms| ==> ValidName(ms[k].0)
      modifies datas.Values
      ensures Replayed(ms, emit, old(States()))
    {
      for k := 0 to |ms|
        invariant Replayed(ms[..k], emit, old(States()))
      {
        ApplyNext(ms[k], emit, ms[..k], old(States()));
        assert ms[..k + 1] == ms[..k] + [ms[k]];
      }
      assert ms[..|ms|] == ms;
    }

    /**
     Loads a tree: every registered variable has its same-named members replayed onto it, where the members are
     the full flattening of the tree.
     */
    method LoadFromYaml(root: Node, emit: Node -> string)
      requires Valid()
      modifies datas.Values
      ensures Valid() && Replayed(Flatten("", root), emit, old(States()))
    {
      ghost var start := States();
      var allNodes := ListAll(root);
      assert States() == start;
      ApplyAll(allNodes, emit);
      OnlyValidMatter(Flatten("", root), emit, start);
    }
  }
}
