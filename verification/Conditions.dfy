/** The status condition list of a LitestreamReplica, with SetStatusCondition and RemoveStatusCondition. */
module Conditions {
  import opened Wrappers

  datatype Kind =
    | SidecarInjected | BackupHealthy | InitSQLApplied | ReplicationPaused
    | ArchiveCheckFailed | ReplicaCountExceeded | Ready

  datatype Condition = Condition(kind: Kind, isTrue: bool, reason: string)

  /** Replaces the condition of the same type, or appends it. */
  function Set(cs: seq<Condition>, c: Condition): seq<Condition> {
    if cs == [] then [c]
    else if cs[0].kind == c.kind then [c] + cs[1..]
    else [cs[0]] + Set(cs[1..], c)
  }

  function Remove(cs: seq<Condition>, k: Kind): seq<Condition> {
    if cs == [] then []
    else if cs[0].kind == k then Remove(cs[1..], k)
    else [cs[0]] + Remove(cs[1..], k)
  }

  function Lookup(cs: seq<Condition>, k: Kind): Option<Condition> {
    if cs == [] then None
    else if cs[0].kind == k then Some(cs[0])
    else Lookup(cs[1..], k)
  }

  predicate Holds(cs: seq<Condition>, k: Kind) {
    Lookup(cs, k).Some? && Lookup(cs, k).value.isTrue
  }

  predicate Unique(cs: seq<Condition>) {
    forall i, j | 0 <= i < j < |cs| :: cs[i].kind != cs[j].kind
  }

  function SetAll(cs: seq<Condition>, updates: seq<Condition>): seq<Condition> {
    if updates == [] then cs
    else var n := |updates| - 1; Set(SetAll(cs, updates[..n]), updates[n])
  }

  lemma {:induction false} LookupSet(cs: seq<Condition>, c: Condition, k: Kind)
    ensures Lookup(Set(cs, c), k) == if k == c.kind then Some(c) else Lookup(cs, k)
  {
    if cs != [] && cs[0].kind != c.kind {
      LookupSet(cs[1..], c, k);
      assert ([cs[0]] + Set(cs[1..], c))[1..] == Set(cs[1..], c);
    } else if cs != [] {
      assert ([c] + cs[1..])[1..] == cs[1..];
    }
  }

  /** Setting what is already there changes nothing. */
  lemma {:induction false} SetNoOp(cs: seq<Condition>, c: Condition)
    requires Lookup(cs, c.kind) == Some(c)
    ensures Set(cs, c) == cs
  {
    if cs[0].kind != c.kind {
      SetNoOp(cs[1..], c);
    }
  }

  lemma {:induction false} RemoveNoOp(cs: seq<Condition>, k: Kind)
    requires Lookup(cs, k).None?
    ensures Remove(cs, k) == cs
  {
    if cs != [] {
      RemoveNoOp(cs[1..], k);
    }
  }

  lemma {:induction false} LookupRemove(cs: seq<Condition>, k: Kind, other: Kind)
    ensures Lookup(Remove(cs, k), other) == if other == k then None else Lookup(cs, other)
  {
    if cs != [] {
      LookupRemove(cs[1..], k, other);
      if cs[0].kind != k {
        assert ([cs[0]] + Remove(cs[1..], k))[1..] == Remove(cs[1..], k);
      }
    }
  }

  lemma {:induction false} SetUnique(cs: seq<Condition>, c: Condition)
    requires Unique(cs)
    ensures Unique(Set(cs, c))
    ensures forall x | x in Set(cs, c) :: x == c || x in cs
  {
    if cs != [] && cs[0].kind != c.kind {
      SetUnique(cs[1..], c);
      assert forall x | x in cs[1..] :: x.kind != cs[0].kind;
    }
  }

  lemma {:induction false} RemoveUnique(cs: seq<Condition>, k: Kind)
    requires Unique(cs)
    ensures Unique(Remove(cs, k))
    ensures forall x | x in Remove(cs, k) :: x in cs
  {
    if cs != [] {
      RemoveUnique(cs[1..], k);
      assert forall x | x in cs[1..] :: x.kind != cs[0].kind;
    }
  }

  lemma {:induction false} SetAllUnique(cs: seq<Condition>, updates: seq<Condition>)
    requires Unique(cs)
    ensures Unique(SetAll(cs, updates))
  {
    if updates != [] {
      var n := |updates| - 1;
      SetAllUnique(cs, updates[..n]);
      SetUnique(SetAll(cs, updates[..n]), updates[n]);
    }
  }

  /** Types outside the updates keep their condition; each updated type, if updated once, gets its own. */
  lemma {:induction false} LookupSetAll(cs: seq<Condition>, updates: seq<Condition>, k: Kind)
    requires Unique(updates)
    ensures (forall u | u in updates :: u.kind != k) ==> Lookup(SetAll(cs, updates), k) == Lookup(cs, k)
    ensures forall u | u in updates && u.kind == k :: Lookup(SetAll(cs, updates), k) == Some(u)
  {
    if updates != [] {
      var n := |updates| - 1;
      LookupSetAll(cs, updates[..n], k);
      LookupSet(SetAll(cs, updates[..n]), updates[n], k);
      assert updates == updates[..n] + [updates[n]];
    }
  }

  /** Updates that are all in place already change nothing. */
  lemma {:induction false} SetAllNoOp(cs: seq<Condition>, updates: seq<Condition>)
    requires forall u | u in updates :: Lookup(cs, u.kind) == Some(u)
    ensures SetAll(cs, updates) == cs
  {
    if updates != [] {
      var n := |updates| - 1;
      SetAllNoOp(cs, updates[..n]);
      assert updates[n] in updates;
      SetNoOp(cs, updates[n]);
    }
  }

  lemma SetAllTwice(cs: seq<Condition>, updates: seq<Condition>)
    requires Unique(updates)
    ensures SetAll(SetAll(cs, updates), updates) == SetAll(cs, updates)
  {
    forall u | u in updates
      ensures Lookup(SetAll(cs, updates), u.kind) == Some(u)
    {
      LookupSetAll(cs, updates, u.kind);
    }
    SetAllNoOp(SetAll(cs, updates), updates);
  }

  lemma SetAllSnoc(cs: seq<Condition>, updates: seq<Condition>, c: Condition)
    ensures SetAll(cs, updates + [c]) == Set(SetAll(cs, updates), c)
  {
  }

  lemma SetAllTwo(cs: seq<Condition>, a: Condition, b: Condition)
    ensures SetAll(cs, [a, b]) == Set(Set(cs, a), b)
  {
    assert [] + [a] == [a] && [a] + [b] == [a, b];
    SetAllSnoc(cs, [], a);
    SetAllSnoc(cs, [a], b);
  }

  lemma SetAllThree(cs: seq<Condition>, a: Condition, b: Condition, c: Condition)
    ensures SetAll(cs, [a, b, c]) == Set(Set(Set(cs, a), b), c)
  {
    assert [a, b] + [c] == [a, b, c];
    SetAllTwo(cs, a, b);
    SetAllSnoc(cs, [a, b], c);
  }

  lemma SetAllFive(cs: seq<Condition>, a: Condition, b: Condition, c: Condition, d: Condition, e: Condition)
    ensures SetAll(cs, [a, b, c, d, e]) == Set(Set(Set(Set(Set(cs, a), b), c), d), e)
  {
    assert [a, b, c] + [d] == [a, b, c, d] && [a, b, c, d] + [e] == [a, b, c, d, e];
    SetAllThree(cs, a, b, c);
    SetAllSnoc(cs, [a, b, c], d);
    SetAllSnoc(cs, [a, b, c, d], e);
  }
}
