/** UID generation: `e_book_backend_tp_generate_uid`. */
module Uids {
  import opened Text

  /** The n-th name tried: "path-name", then "path-name-1", "path-name-2", ... */
  function Candidate(path: string, name: string, n: nat): string {
    if n == 0 then path + "-" + name
    else path + "-" + name + "-" + Decimal(n)
  }

  lemma CandidatesDiffer(path: string, name: string, m: nat, n: nat)
    requires Candidate(path, name, m) == Candidate(path, name, n)
    ensures m == n
  {
    var base := path + "-" + name;
    var cm, cn := Candidate(path, name, m), Candidate(path, name, n);
    if m > 0 && n > 0 {
      assert cm[|base| + 1..] == Decimal(m) && cn[|base| + 1..] == Decimal(n);
      DecimalInjective(m, n);
    } else {
      assert m > 0 ==> |cm| > |base|;
      assert n > 0 ==> |cn| > |base|;
    }
  }

  /** The candidates before the n-th. */
  ghost function Tried(path: string, name: string, n: nat): (tried: set<string>)
    ensures forall k :: 0 <= k < n ==> Candidate(path, name, k) in tried
    ensures forall u :: u in tried ==> exists k :: 0 <= k < n && u == Candidate(path, name, k)
  {
    set k | 0 <= k < n :: Candidate(path, name, k)
  }

  lemma TriedMore(path: string, name: string, n: nat)
    ensures Tried(path, name, n + 1) == Tried(path, name, n) + {Candidate(path, name, n)}
    ensures Candidate(path, name, n) !in Tried(path, name, n)
  {
    forall k | 0 <= k < n ensures Candidate(path, name, k) != Candidate(path, name, n) {
      if Candidate(path, name, k) == Candidate(path, name, n) { CandidatesDiffer(path, name, k, n); }
    }
    hide Candidate;
  }

  lemma {:induction false} TriedCount(path: string, name: string, n: nat)
    ensures |Tried(path, name, n)| == n
  {
    hide Candidate;
    if n > 0 {
      TriedCount(path, name, n - 1);
      TriedMore(path, name, n - 1);
    }
  }

  /** Pigeonhole: if the first n candidates are all taken, there are at least n uids. */
  lemma TriedFit(uids: set<string>, path: string, name: string, n: nat)
    requires forall k :: 0 <= k < n ==> Candidate(path, name, k) in uids
    ensures n <= |uids|
  {
    TriedCount(path, name, n);
    SubsetSize(Tried(path, name, n), uids);
  }

  lemma {:induction false} SubsetSize<T>(a: set<T>, b: set<T>)
    requires a <= b
    ensures |a| <= |b|
  {
    if a != {} {
      var x :| x in a;
      SubsetSize(a - {x}, b - {x});
    }
  }

  /** The first candidate, from the n-th on, that is not a known uid. */
  function FirstFreeFrom(uids: set<string>, path: string, name: string, n: nat): (k: nat)
    requires forall j :: 0 <= j < n ==> Candidate(path, name, j) in uids
    ensures n <= k <= |uids|
    ensures Candidate(path, name, k) !in uids
    ensures forall j :: 0 <= j < k ==> Candidate(path, name, j) in uids
    decreases |uids| - n
  {
    TriedFit(uids, path, name, n);
    if Candidate(path, name, n) !in uids then n
    else
      TriedFit(uids, path, name, n + 1);
      FirstFreeFrom(uids, path, name, n + 1)
  }

  /** The uid the backend gives to a new contact. */
  function FreshUid(uids: set<string>, path: string, name: string): (uid: string)
    ensures uid !in uids
  {
    Candidate(path, name, FirstFreeFrom(uids, path, name, 0))
  }

  /** The probing loop. It makes at most |uids| + 1 probes, returns a uid nobody has, and that uid
      is the first free candidate. `int` counters do not wrap here; in C the counter is a `gint`. */
  method GenerateUid<T>(uidToContact: map<string, T>, path: string, name: string)
    returns (uid: string, probes: nat)
    ensures uid !in uidToContact
    ensures uid == FreshUid(uidToContact.Keys, path, name)
    ensures 1 <= probes <= |uidToContact.Keys| + 1
    ensures uid == Candidate(path, name, probes - 1)
  {
    var count := 0;
    uid := path + "-" + name;
    while uid in uidToContact
      invariant uid == Candidate(path, name, count)
      invariant forall k :: 0 <= k < count ==> Candidate(path, name, k) in uidToContact.Keys
      invariant count <= |uidToContact.Keys|
      decreases |uidToContact.Keys| - count
    {
      count := count + 1;
      TriedFit(uidToContact.Keys, path, name, count);
      uid := path + "-" + name + "-" + Decimal(count);
    }
    probes := count + 1;
    FirstFreeIsUnique(uidToContact.Keys, path, name, count);
  }

  /** Being free with every earlier candidate taken determines the probe. */
  lemma FirstFreeIsUnique(uids: set<string>, path: string, name: string, k: nat)
    requires Candidate(path, name, k) !in uids
    requires forall j :: 0 <= j < k ==> Candidate(path, name, j) in uids
    ensures FirstFreeFrom(uids, path, name, 0) == k
  {
    var f := FirstFreeFrom(uids, path, name, 0);
    assert !(f < k);
  }
}
