/** Renaming and merging contacts lose no name, no master UID and no pending unblock. */
module NameHistory {
  import opened Text
  import opened Flags
  import opened ContactValues

  /** The contacts that are alive, and for each of them what was ever held by it or by a contact
      merged into it. */
  datatype Population = Population(
    alive: map<nat, ContactData>,
    held: map<nat, set<string>>,
    owned: map<nat, set<string>>,
    unblock: set<nat>)

  datatype Step = Rename(id: nat, newName: string) | Merge(dest: nat, src: nat)

  /** A merge happens once the two contacts turned out to have one name. */
  predicate Enabled(p: Population, s: Step) {
    match s
    case Rename(id, _) => id in p.alive
    case Merge(dest, src) =>
      && dest != src && dest in p.alive && src in p.alive
      && p.alive[dest].name.Some? && p.alive[dest].name == p.alive[src].name
  }

  predicate Tracked(p: Population) {
    p.alive.Keys == p.held.Keys == p.owned.Keys
  }

  function Take(p: Population, s: Step): Population
    requires Tracked(p) && Enabled(p, s)
  {
    match s
    case Rename(id, newName) =>
      p.(alive := p.alive[id := UpdateName(p.alive[id], newName)], held := p.held[id := p.held[id] + {newName}])
    case Merge(dest, src) =>
      Population(
        p.alive[dest := MergeData(p.alive[dest], p.alive[src])] - {src},
        p.held[dest := p.held[dest] + p.held[src]] - {src},
        p.owned[dest := p.owned[dest] + p.owned[src]] - {src},
        if src in p.unblock then p.unblock + {dest} else p.unblock)
  }

  ghost predicate Run(p: Population, steps: seq<Step>, p': Population)
    decreases |steps|
  {
    if steps == [] then p == p'
    else Tracked(p) && Enabled(p, steps[0]) && Run(Take(p, steps[0]), steps[1..], p')
  }

  /** What every contact still shows is exactly what was ever put into it. */
  ghost predicate Conserved(p: Population) {
    && Tracked(p)
    && forall id :: id in p.alive ==>
      && AllNames(p.alive[id]) == p.held[id]
      && ToSet(p.alive[id].masterUids) == p.owned[id]
      && (id in p.unblock ==> SCHEDULE_UNBLOCK in p.alive[id].pendingFlags)
  }

  lemma MergeConserves(dest: ContactData, src: ContactData)
    ensures var m := MergeData(dest, src);
      && ToSet(m.masterUids) == ToSet(dest.masterUids) + ToSet(src.masterUids)
      && dest.pendingFlags <= m.pendingFlags
      && (SCHEDULE_UNBLOCK in m.pendingFlags <==> SCHEDULE_UNBLOCK in dest.pendingFlags + src.pendingFlags)
      && (AllNames(m) == AllNames(dest) + AllNames(src) <==> NameSet(src.name) <= AllNames(dest) + src.variants)
  {
    AddMastersIsUnion(dest.masterUids, src.masterUids);
  }

  lemma RenamedKeeps(d: ContactData, newName: string)
    ensures var d' := UpdateName(d, newName);
      AllNames(d') == AllNames(d) + {newName} && d'.masterUids == d.masterUids && d.pendingFlags <= d'.pendingFlags
  {}

  lemma RenameConserves(p: Population, id: nat, newName: string)
    requires Conserved(p) && Enabled(p, Rename(id, newName))
    ensures Conserved(Take(p, Rename(id, newName)))
  {
    RenamedKeeps(p.alive[id], newName);
    hide AllNames, ToSet, UpdateName;
  }

  lemma MergeStepConserves(p: Population, dest: nat, src: nat)
    requires Conserved(p) && Enabled(p, Merge(dest, src))
    ensures Conserved(Take(p, Merge(dest, src)))
  {
    MergeConserves(p.alive[dest], p.alive[src]);
    assert NameSet(p.alive[src].name) <= AllNames(p.alive[dest]) + p.alive[src].variants;
    hide AllNames, ToSet, MergeData;
  }

  /** Over any run of renames and merges, a survivor's names are the union of all names ever held
      by the contacts merged into it, its master UIDs are the union of theirs, and an unblock
      pending on any of them is pending on it. */
  lemma {:induction false} RunConserves(p: Population, steps: seq<Step>, p': Population)
    requires Conserved(p) && Run(p, steps, p')
    ensures Conserved(p')
    decreases |steps|
  {
    if steps != [] {
      match steps[0] {
        case Rename(id, newName) => RenameConserves(p, id, newName);
        case Merge(dest, src) => MergeStepConserves(p, dest, src);
      }
      hide Conserved, Take, Enabled;
      RunConserves(Take(p, steps[0]), steps[1..], p');
    }
  }
}
