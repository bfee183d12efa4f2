/** The in-place loops over contact arrays that run backwards and fill a hole with the last
    element (`g_array_remove_index_fast`). */
module SwapRemove {
  import opened Text
  import opened Flags
  import opened ContactValues
  import opened Contacts

  // ---- Removing invalid contacts ----

  function Kept<T(==)>(s: seq<T>, keep: set<T>): seq<T> {
    if s == [] then []
    else (if s[0] in keep then [s[0]] else []) + Kept(s[1..], keep)
  }

  lemma {:induction false} KeptMembers<T>(s: seq<T>, keep: set<T>, x: T)
    ensures x in Kept(s, keep) <==> x in s && x in keep
  {
    if s != [] { KeptMembers(s[1..], keep, x); }
  }

  /** How often `x` is in a list. */
  function Count<T(==)>(s: seq<T>, x: T): nat {
    multiset(s)[x]
  }

  lemma {:induction false} KeptCount<T>(s: seq<T>, keep: set<T>, x: T)
    ensures Count(Kept(s, keep), x) == if x in keep then Count(s, x) else 0
  {
    if s != [] {
      assert s == [s[0]] + s[1..];
      KeptCount(s[1..], keep, x);
    }
  }

  /** Positions after `i` were dealt with: up to `i` the list is untouched, beyond it the kept ones are left. */
  ghost predicate Swept<T>(before: seq<T>, s: seq<T>, keep: set<T>, i: int) {
    && -1 <= i < |before| && i < |s| <= |before|
    && s[..i + 1] == before[..i + 1]
    && multiset(s[i + 1..]) == multiset(Kept(before[i + 1..], keep))
  }

  lemma SweepPrefix<T>(before: seq<T>, s: seq<T>, keep: set<T>, i: nat)
    requires Swept(before, s, keep, i)
    ensures s[i] == before[i] && s[..i] == before[..i]
    ensures Kept(before[i..], keep) == (if before[i] in keep then [before[i]] else []) + Kept(before[i + 1..], keep)
  {
    assert s[..i + 1][i] == before[..i + 1][i];
    assert s[..i] == s[..i + 1][..i] && before[..i] == before[..i + 1][..i];
    assert before[i..][1..] == before[i + 1..];
  }

  lemma SweepKeep<T>(before: seq<T>, s: seq<T>, keep: set<T>, i: nat)
    requires Swept(before, s, keep, i) && before[i] in keep
    ensures Swept(before, s, keep, i - 1)
  {
    SweepPrefix(before, s, keep, i);
    assert s[i..] == [s[i]] + s[i + 1..];
  }

  lemma SweepRemove<T>(before: seq<T>, s: seq<T>, keep: set<T>, i: nat)
    requires Swept(before, s, keep, i) && before[i] !in keep
    ensures Swept(before, RemoveIndexFast(s, i), keep, i - 1)
  {
    SweepPrefix(before, s, keep, i);
    RemovedParts(s, i);
    hide RemoveIndexFast, Kept;
    assert [] + Kept(before[i + 1..], keep) == Kept(before[i + 1..], keep);
  }

  lemma RemovedParts<T>(s: seq<T>, i: nat)
    requires i < |s|
    ensures |RemoveIndexFast(s, i)| == |s| - 1
    ensures RemoveIndexFast(s, i)[..i] == s[..i]
    ensures multiset(RemoveIndexFast(s, i)[i..]) == multiset(s[i + 1..])
  {
    var r, rest := RemoveIndexFast(s, i), s[i + 1..];
    if rest == [] {
      assert r[i..] == rest;
    } else {
      assert r[i..] == [rest[|rest| - 1]] + rest[..|rest| - 1];
      Refilled(rest);
    }
  }

  /** The hole filled with the last element holds the elements that follow it. */
  lemma Refilled<T>(rest: seq<T>)
    requires rest != []
    ensures multiset([rest[|rest| - 1]] + rest[..|rest| - 1]) == multiset(rest)
  {
    assert rest == rest[..|rest| - 1] + [rest[|rest| - 1]];
  }

  /** Named, and its handle is still known. */
  predicate StillValid(contact: Contact, known: map<nat, Contact>)
    reads contact
  {
    contact.name.Some? && contact.handle in known
  }

  function ValidOnes(s: seq<Contact>, known: map<nat, Contact>): set<Contact>
    reads s
  {
    set c | c in s && StillValid(c, known)
  }

  /** `remove_invalid_contacts` on the first `n` elements: what is left, in the first `m` elements,
      is exactly the multiset of the named contacts that are still known. */
  method RemoveInvalidContacts(a: array<Contact>, n: nat, known: map<nat, Contact>) returns (m: nat)
    requires n <= a.Length
    modifies a
    ensures m <= n
    ensures multiset(a[..m]) == multiset(Kept(old(a[..n]), ValidOnes(old(a[..n]), known)))
  {
    m := SweepInvalid(a, n, known, ValidOnes(a[..n], known));
  }

  /** The loop body: drops the contact at `i` unless it is valid. */
  method RemoveIfInvalid(a: array<Contact>, n: nat, i: nat, known: map<nat, Contact>) returns (m: nat)
    requires i < n <= a.Length
    modifies a
    ensures m <= n
    ensures a[..m] == if old(StillValid(a[i], known)) then old(a[..n]) else RemoveIndexFast(old(a[..n]), i)
  {
    var contact := a[i];
    m := n;
    if contact.name.None? || contact.handle !in known {
      a[i] := a[n - 1];
      m := n - 1;
    }
  }

  /** The loop, given the contacts it has to keep. */
  method SweepInvalid(a: array<Contact>, n: nat, known: map<nat, Contact>, ghost keep: set<Contact>) returns (m: nat)
    requires n <= a.Length
    requires forall c :: c in a[..n] ==> (c in keep <==> StillValid(c, known))
    modifies a
    ensures m <= n
    ensures multiset(a[..m]) == multiset(Kept(old(a[..n]), keep))
  {
    ghost var before, s := a[..n], a[..n];
    SweepStart(before, keep);
    hide *;
    m := n;
    var i: int := n - 1;
    while i >= 0
      invariant i < n && m <= n
      invariant s == a[..m] && Swept(before, s, keep, i)
      invariant forall c :: c in before ==> (c in keep <==> StillValid(c, known))
    {
      SweepOne(before, s, keep, i);
      s := if before[i] in keep then s else RemoveIndexFast(s, i);
      m := RemoveIfInvalid(a, m, i, known);
      i := i - 1;
    }
    SweepDone(before, s, keep);
  }

  lemma SweepOne<T>(before: seq<T>, s: seq<T>, keep: set<T>, i: nat)
    requires Swept(before, s, keep, i)
    ensures i < |s| && i < |before| && s[i] == before[i] && s[i] in before
    ensures Swept(before, if before[i] in keep then s else RemoveIndexFast(s, i), keep, i - 1)
  {
    SweepPrefix(before, s, keep, i);
    if before[i] in keep { SweepKeep(before, s, keep, i); } else { SweepRemove(before, s, keep, i); }
  }

  lemma SweepStart<T>(before: seq<T>, keep: set<T>)
    ensures Swept(before, before, keep, |before| - 1)
  {
    assert before[|before|..] == [];
  }

  lemma SweepDone<T>(before: seq<T>, s: seq<T>, keep: set<T>)
    requires Swept(before, s, keep, -1)
    ensures multiset(s) == multiset(Kept(before, keep))
  {
    assert before[0..] == before && s[0..] == s;
  }

  // ---- Capability de-duplication ----

  /** Equal handles are adjacent, as the sort before the loop leaves them. */
  predicate Grouped(handles: seq<nat>) {
    forall i, j, k :: 0 <= i < j < k < |handles| && handles[i] == handles[k] ==> handles[j] == handles[i]
  }

  function Handles(s: seq<Contact>): (handles: seq<nat>)
    reads s
    ensures |handles| == |s|
  {
    seq(|s|, i requires 0 <= i < |s| reads s => s[i].handle)
  }

  /** Positions after `i` were dealt with: each of their handles is left once. */
  ghost predicate Deduplicated(before: seq<nat>, s: seq<nat>, i: int) {
    && -1 <= i && i + 1 < |s| <= |before|
    && s[..i + 1] == before[..i + 1]
    && NoDuplicates(s[i + 1..])
    && ToSet(s[i + 1..]) == ToSet(before[i + 1..])
  }

  lemma DeduplicateOne(before: seq<nat>, s: seq<nat>, i: nat)
    requires Grouped(before) && Deduplicated(before, s, i)
    ensures i + 1 < |before| && i < |s| && s[i] == before[i]
    ensures Deduplicated(before, if before[i] == before[i + 1] then RemoveIndexFast(s, i) else s, i - 1)
  {
    assert s[..i + 1][i] == before[..i + 1][i];
    assert s[..i] == s[..i + 1][..i] == before[..i + 1][..i] == before[..i];
    assert before[i..] == [before[i]] + before[i + 1..];
    assert ToSet(before[i..]) == {before[i]} + ToSet(before[i + 1..]);
    var rest := s[i + 1..];
    if before[i] == before[i + 1] {
      assert before[i + 1] == before[i + 1..][0];
      var r := RemoveIndexFast(s, i);
      assert r[..i] == s[..i];
      assert r[i..] == [rest[|rest| - 1]] + rest[..|rest| - 1];
      Rotated(rest);
    } else {
      assert s[i..] == [before[i]] + rest;
      assert forall k :: i + 1 <= k < |before| ==> before[k] != before[i];
      assert before[i] !in ToSet(before[i + 1..]);
      Extended(before[i], rest);
    }
  }

  lemma Extended(h: nat, rest: seq<nat>)
    requires NoDuplicates(rest) && h !in rest
    ensures NoDuplicates([h] + rest) && ToSet([h] + rest) == {h} + ToSet(rest)
  {}

  lemma Rotated(rest: seq<nat>)
    requires rest != [] && NoDuplicates(rest)
    ensures var r := [rest[|rest| - 1]] + rest[..|rest| - 1];
      NoDuplicates(r) && ToSet(r) == ToSet(rest)
  {
    var n := |rest| - 1;
    assert rest == rest[..n] + [rest[n]];
    assert rest[n] !in rest[..n];
    Extended(rest[n], rest[..n]);
    assert ToSet(rest) == ToSet(rest[..n]) + {rest[n]};
  }

  /** The loop of `update_capabilities`: each handle is left exactly once, and none is lost. */
  method RemoveDuplicateHandles(a: array<Contact>, n: nat) returns (m: nat)
    requires 0 < n <= a.Length && Grouped(Handles(a[..n]))
    modifies a
    ensures 0 < m <= n
    ensures NoDuplicates(Handles(a[..m]))
    ensures ToSet(Handles(a[..m])) == ToSet(Handles(old(a[..n])))
  {
    ghost var before, hs := Handles(a[..n]), Handles(a[..n]);
    m := n;
    var last := a[m - 1].handle;
    LastAlone(before);
    assert last == before[n - 1];
    hide *;
    var i: int := m - 2;
    while i >= 0
      invariant i + 1 < n && m <= n
      invariant hs == Handles(a[..m]) && Deduplicated(before, hs, i)
      invariant last == before[i + 1]
    {
      DeduplicateOne(before, hs, i);
      hs := if before[i] == before[i + 1] then RemoveIndexFast(hs, i) else hs;
      m, last := RemoveIfRepeated(a, m, i, last);
      i := i - 1;
    }
    Finished(before, hs);
  }

  /** The loop body: drops the contact at `i` if it has the handle seen last. */
  method RemoveIfRepeated(a: array<Contact>, n: nat, i: nat, last: nat) returns (m: nat, last': nat)
    requires i < n <= a.Length
    modifies a
    ensures m <= n && last' == old(a[i].handle)
    ensures Handles(a[..m]) == if last' == last then RemoveIndexFast(old(Handles(a[..n])), i) else old(Handles(a[..n]))
  {
    ghost var hs := Handles(a[..n]);
    m := n;
    last' := a[i].handle;
    if last' == last {
      a[i] := a[n - 1];
      m := n - 1;
      HandlesAre(a[..m], RemoveIndexFast(hs, i));
    }
  }

  lemma HandlesAre(s: seq<Contact>, hs: seq<nat>)
    requires |s| == |hs| && forall k :: 0 <= k < |s| ==> s[k].handle == hs[k]
    ensures Handles(s) == hs
  {}

  lemma LastAlone(before: seq<nat>)
    requires before != []
    ensures Deduplicated(before, before, |before| - 2)
  {}

  lemma Finished(before: seq<nat>, s: seq<nat>)
    requires Deduplicated(before, s, -1)
    ensures NoDuplicates(s) && ToSet(s) == ToSet(before)
  {
    assert before[0..] == before && s[0..] == s;
  }
}
