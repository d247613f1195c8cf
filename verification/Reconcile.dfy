/** Reconciliation against the provider's List. */
module Reconcile {
  import opened Fleet
  import opened Inventory

  /** Assignment state survives only while the machine stays bound. */
  function Merged(dm: Machine, existing: Machine): Machine {
    if dm.state == Configured || dm.state == Configuring || dm.state == Draining then
      dm.(assignedPriority := existing.assignedPriority, assignedInterruption := existing.assignedInterruption,
          assignedReclamation := existing.assignedReclamation, assignedProfile := existing.assignedProfile,
          assignedGroup := existing.assignedGroup)
    else dm
  }

  /** The store after one provider record was taken in. */
  function Ingested(inv: map<MachineId, Machine>, dm: Machine): map<MachineId, Machine> {
    if dm.id in inv && inv[dm.id].state == dm.state then inv
    else if !WellFormed(dm) then inv
    else if dm.id !in inv then inv[dm.id := dm]
    else if ApplyReply(inv, Merged(dm, inv[dm.id])) == Stored then inv[dm.id := Merged(dm, inv[dm.id])]
    else inv
  }

  /** The Idle stamps after it: taken in, an Idle machine starts its hold now and any other
      loses its stamp; a record that changes nothing leaves the clock running. */
  function Restamped(stamps: map<MachineId, int>, inv: map<MachineId, Machine>, dm: Machine, now: int)
    : map<MachineId, int>
  {
    if Ingested(inv, dm) == inv then stamps else if dm.state == Idle then stamps[dm.id := now] else stamps - {dm.id}
  }

  /** A record of a machine with an action under way is left alone. */
  method ApplyReconciledMachine(store: Store, pending: set<MachineId>, dm: Machine, now: int)
    requires store.Valid()
    modifies store
    ensures store.Valid()
    ensures store.byID == if dm.id in pending then old(store.byID) else Ingested(old(store.byID), dm)
    ensures store.idleSince ==
            if dm.id in pending then old(store.idleSince) else Restamped(old(store.idleSince), old(store.byID), dm, now)
  {
    if dm.id in pending {
      return;
    }
    if dm.id in store.byID && store.byID[dm.id].state == dm.state {
      return;
    }
    if !WellFormed(dm) {
      return;
    }
    TakenInDiffers(store.byID, dm);
    if dm.id in store.byID {
      var r := store.Apply(Merged(dm, store.byID[dm.id]), now);
    } else {
      var r := store.Insert(dm, now);
    }
  }

  /** A record that is taken in changes the store. */
  lemma TakenInDiffers(inv: map<MachineId, Machine>, dm: Machine)
    requires dm.id in inv ==> inv[dm.id].state != dm.state
    ensures dm.id !in inv ==> inv[dm.id := dm] != inv
    ensures dm.id in inv ==> inv[dm.id := Merged(dm, inv[dm.id])] != inv
  {
    assert dm.id !in inv ==> dm.id in inv[dm.id := dm];
    assert dm.id in inv ==> inv[dm.id := Merged(dm, inv[dm.id])][dm.id].state == dm.state;
  }

  function IngestAll(inv: map<MachineId, Machine>, pending: set<MachineId>, list: seq<Machine>, k: nat)
    : map<MachineId, Machine>
    requires k <= |list|
  {
    if k == 0 then inv
    else
      var before := IngestAll(inv, pending, list, k - 1);
      if list[k - 1].id in pending then before else Ingested(before, list[k - 1])
  }

  function StampAll(stamps: map<MachineId, int>, inv: map<MachineId, Machine>, pending: set<MachineId>,
                    list: seq<Machine>, k: nat, now: int): map<MachineId, int>
    requires k <= |list|
  {
    if k == 0 then stamps
    else
      var before := StampAll(stamps, inv, pending, list, k - 1, now);
      if list[k - 1].id in pending then before
      else Restamped(before, IngestAll(inv, pending, list, k - 1), list[k - 1], now)
  }

  predicate ListedId(list: seq<Machine>, id: MachineId) {
    exists m :: m in list && m.id == id
  }

  method RemoveUnseen(store: Store, seen: set<MachineId>)
    requires store.Valid()
    modifies store
    ensures store.Valid() && store.byID == old(store.byID) - (old(store.byID).Keys - seen)
    ensures forall id | id in store.idleSince ::
              id in old(store.idleSince) && store.idleSince[id] == old(store.idleSince)[id]
  {
    ghost var all, stamps := store.byID, store.idleSince;
    var todo := store.byID.Keys - seen;
    ghost var gone: set<MachineId> := {};
    while todo != {}
      invariant store.Valid() && todo + gone == all.Keys - seen && store.byID == all - gone
      invariant store.idleSince == stamps - gone
      decreases todo
    {
      var id :| id in todo;
      var r := store.Remove(id);
      todo, gone := todo - {id}, gone + {id};
    }
  }

  /** A full List: every record is taken in, and what it omits is removed. */
  method ReconcileFull(store: Store, pending: set<MachineId>, list: seq<Machine>, now: int)
    requires store.Valid()
    modifies store
    ensures store.Valid()
    ensures var all := IngestAll(old(store.byID), pending, list, |list|);
            store.byID == map id | id in all && ListedId(list, id) :: all[id]
    ensures var stamps := StampAll(old(store.idleSince), old(store.byID), pending, list, |list|, now);
            forall id | id in store.idleSince :: id in stamps && store.idleSince[id] == stamps[id]
  {
    var seen: set<MachineId> := {};
    ghost var before, stamps := store.byID, store.idleSince;
    for i := 0 to |list|
      invariant store.Valid() && store.byID == IngestAll(before, pending, list, i)
      invariant store.idleSince == StampAll(stamps, before, pending, list, i, now)
      invariant forall id :: id in seen <==> ListedId(list[..i], id)
    {
      SeenNext(list, i, seen);
      seen := seen + {list[i].id};
      ApplyReconciledMachine(store, pending, list[i], now);
    }
    assert list[..|list|] == list;
    RemoveUnseen(store, seen);
  }

  lemma ListedNext(list: seq<Machine>, i: nat, id: MachineId)
    requires i < |list|
    ensures ListedId(list[..i + 1], id) <==> ListedId(list[..i], id) || list[i].id == id
  {
    assert list[..i + 1] == list[..i] + [list[i]];
  }

  lemma SeenNext(list: seq<Machine>, i: nat, seen: set<MachineId>)
    requires i < |list| && forall id :: id in seen <==> ListedId(list[..i], id)
    ensures forall id :: id in seen + {list[i].id} <==> ListedId(list[..i + 1], id)
  {
    forall id
      ensures id in seen + {list[i].id} <==> ListedId(list[..i + 1], id)
    {
      ListedNext(list, i, id);
    }
  }

  /** A delta List takes records in and removes nothing. */
  method ReconcileIncremental(store: Store, pending: set<MachineId>, list: seq<Machine>, now: int)
    requires store.Valid()
    modifies store
    ensures store.Valid() && store.byID == IngestAll(old(store.byID), pending, list, |list|)
    ensures store.idleSince == StampAll(old(store.idleSince), old(store.byID), pending, list, |list|, now)
  {
    ghost var before, stamps := store.byID, store.idleSince;
    for i := 0 to |list|
      invariant store.Valid() && store.byID == IngestAll(before, pending, list, i)
      invariant store.idleSince == StampAll(stamps, before, pending, list, i, now)
    {
      ApplyReconciledMachine(store, pending, list[i], now);
    }
  }

  /** Taking records in removes nothing, and alters only machines it lists with a
      well-formed record and without an action under way. */
  lemma {:induction false} IngestKeeps(inv: map<MachineId, Machine>, pending: set<MachineId>, list: seq<Machine>,
                                       k: nat,
                                       id: MachineId)
    requires k <= |list| && id in inv
    ensures id in IngestAll(inv, pending, list, k)
    ensures IngestAll(inv, pending, list, k)[id] != inv[id] ==>
              id !in pending && exists j :: 0 <= j < k && list[j].id == id && WellFormed(list[j])
    decreases k
  {
    if k > 0 {
      IngestKeeps(inv, pending, list, k - 1, id);
    }
  }

  /** A record is taken in exactly when it is well-formed and news: of a machine not known, or
      of one that may legally be where the record says it is now. */
  lemma TakenInExactly(inv: map<MachineId, Machine>, dm: Machine)
    ensures Ingested(inv, dm) != inv <==>
            WellFormed(dm) &&
            (dm.id in inv ==> inv[dm.id].state != dm.state && CanTransition(inv[dm.id].state, dm.state))
    ensures forall id | id in inv && id != dm.id :: id in Ingested(inv, dm) && Ingested(inv, dm)[id] == inv[id]
    ensures forall id | id in Ingested(inv, dm) :: id in inv || id == dm.id
  {
    if dm.id in inv ==> inv[dm.id].state != dm.state {
      TakenInDiffers(inv, dm);
    }
  }

  predicate StaysBound(st: State) {
    st == Configured || st == Configuring || st == Draining
  }

  /** What a machine serves is the shard's own knowledge. Of a known machine the record taken in
      says everything except that; while the machine stays bound it serves what it did, and
      once it is not, what the record says. */
  lemma AssignmentSurvives(inv: map<MachineId, Machine>, dm: Machine)
    requires dm.id in inv && Ingested(inv, dm) != inv
    ensures var was, now := inv[dm.id], Ingested(inv, dm)[dm.id];
            && now.(assignedPriority := dm.assignedPriority, assignedInterruption := dm.assignedInterruption,
                    assignedReclamation := dm.assignedReclamation, assignedProfile := dm.assignedProfile,
                    assignedGroup := dm.assignedGroup) == dm
            && (StaysBound(dm.state) ==>
                  now.assignedPriority == was.assignedPriority && now.assignedProfile == was.assignedProfile &&
                  now.assignedGroup == was.assignedGroup && now.assignedInterruption == was.assignedInterruption &&
                  now.assignedReclamation == was.assignedReclamation)
            && (!StaysBound(dm.state) ==> now == dm)
  {
  }
}
