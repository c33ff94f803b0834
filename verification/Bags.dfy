/** Counting over sequences, with the lemmas that follow one update. */
module Bags {
  import opened Options

  type Id = nat

  /** How often the identifier `c` occurs among the values that `tag` gives to the elements. */
  function Occurrences<T>(tag: T -> Option<Id>, s: seq<T>, c: Id): nat {
    if s == [] then 0
    else Occurrences(tag, s[..|s| - 1], c) + Hit(tag(s[|s| - 1]), c)
  }

  function Hit(o: Option<Id>, c: Id): nat { if o == Some(c) then 1 else 0 }

  function One(b: bool): nat { if b then 1 else 0 }

  /** One more occurrence, if there is a value. */
  function Record(m: multiset<Id>, o: Option<Id>): multiset<Id> {
    if o.Some? then m[o.value := m[o.value] + 1] else m
  }

  function Count<T>(p: T -> bool, s: seq<T>): nat {
    if s == [] then 0 else Count(p, s[..|s| - 1]) + One(p(s[|s| - 1]))
  }

  lemma OccurrencesAppend<T>(tag: T -> Option<Id>, s: seq<T>, x: T, c: Id)
    ensures Occurrences(tag, s + [x], c) == Occurrences(tag, s, c) + Hit(tag(x), c)
  {
    assert (s + [x])[..|s|] == s;
  }

  lemma {:induction false} OccurrencesUpdate<T>(tag: T -> Option<Id>, s: seq<T>, i: nat, x: T, c: Id)
    requires i < |s|
    ensures Occurrences(tag, s[i := x], c) + Hit(tag(s[i]), c) == Occurrences(tag, s, c) + Hit(tag(x), c)
  {
    var init := s[..|s| - 1];
    if i == |s| - 1 {
      assert s[i := x][..i] == init;
    } else {
      OccurrencesUpdate(tag, init, i, x, c);
      assert s[i := x][..|s| - 1] == init[i := x];
    }
  }

  lemma {:induction false} OccurrencesRemove<T>(tag: T -> Option<Id>, s: seq<T>, i: nat, c: Id)
    requires i < |s|
    ensures Occurrences(tag, s[..i] + s[i + 1..], c) + Hit(tag(s[i]), c) == Occurrences(tag, s, c)
  {
    var init := s[..|s| - 1];
    if i == |s| - 1 {
      assert s[..i] + s[i + 1..] == init;
    } else {
      OccurrencesRemove(tag, init, i, c);
      assert (s[..i] + s[i + 1..])[..|s| - 2] == init[..i] + init[i + 1..];
    }
  }

  lemma {:induction false} OccurrencesZero<T>(tag: T -> Option<Id>, s: seq<T>, c: Id)
    ensures Occurrences(tag, s, c) == 0 <==> forall i :: 0 <= i < |s| ==> tag(s[i]) != Some(c)
  {
    if s != [] {
      var init := s[..|s| - 1];
      OccurrencesZero(tag, init, c);
      assert s == init + [s[|s| - 1]];
    }
  }

  /** Two taggings that agree on a sequence have the same occurrences. */
  lemma {:induction false} OccurrencesAgree<T>(a: T -> Option<Id>, b: T -> Option<Id>, s: seq<T>, c: Id)
    requires forall i :: 0 <= i < |s| ==> a(s[i]) == b(s[i])
    ensures Occurrences(a, s, c) == Occurrences(b, s, c)
  {
    if s != [] {
      OccurrencesAgree(a, b, s[..|s| - 1], c);
    }
  }

  lemma {:induction false} CountUpdate<T>(p: T -> bool, s: seq<T>, i: nat, x: T)
    requires i < |s|
    ensures Count(p, s[i := x]) + (if p(s[i]) then 1 else 0) == Count(p, s) + (if p(x) then 1 else 0)
  {
    var init := s[..|s| - 1];
    if i == |s| - 1 {
      assert s[i := x][..i] == init;
    } else {
      CountUpdate(p, init, i, x);
      assert s[i := x][..|s| - 1] == init[i := x];
    }
  }

  lemma {:induction false} CountZero<T>(p: T -> bool, s: seq<T>)
    ensures Count(p, s) == 0 <==> forall i :: 0 <= i < |s| ==> !p(s[i])
  {
    if s != [] {
      var init := s[..|s| - 1];
      CountZero(p, init);
      assert s == init + [s[|s| - 1]];
    }
  }
}
