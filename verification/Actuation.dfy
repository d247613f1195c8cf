/** The shard's pending-action ledger as a step system: one cycle thread that reconciles
    and emits, and a pool of workers that drive machines. A move is one atomic action: a
    ledger operation, a channel operation or one inventory write. */
module Actuation {
  import opened Fleet
  import opened Inventory
  import opened Reconcile

  /** What an action wants to find its machine in. */
  datatype Act = Act(id: MachineId, from: State)

  /** `Reading`: the head of the list passed the pending check. `Holding`: its local
      record was read, too. `Applicable`: the head action passed the live-state check.
      `InHand`: its machine was marked pending, it is not queued yet. */
  datatype CycleAt =
    | Resting
    | Reconciling(full: bool, todo: seq<Machine>, seen: set<MachineId>)
    | Reading(full: bool, todo: seq<Machine>, seen: set<MachineId>)
    | Holding(full: bool, todo: seq<Machine>, seen: set<MachineId>, existing: Option<Machine>)
    | Removing(full: bool, unseen: set<MachineId>, seen: set<MachineId>)
    | Emitting(acts: seq<Act>)
    | Applicable(acts: seq<Act>)
    | InHand(acts: seq<Act>)

  datatype WorkerAt = Free | Driving(act: Act)

  datatype Sys = Sys(inv: map<MachineId, Machine>, pending: set<MachineId>, queue: seq<Act>,
                     workers: seq<WorkerAt>, cycle: CycleAt)

  datatype Move =
    | BeginReconcile(full: bool, list: seq<Machine>)
    | CheckPending
    | ReadRecord
    | WriteRecord
    | EndList
    | RemoveUnseen(gone: MachineId)
    | BeginEmit(acts: seq<Act>)
    | CheckState
    | MarkPending
    | Enqueue(room: bool)
    | EndEmit
    | Receive(w: nat)
    | Drive(w: nat, record: Machine)
    | Finish(w: nat)

  predicate StillApplies(inv: map<MachineId, Machine>, a: Act) {
    a.id in inv ==> inv[a.id].state == a.from
  }

  predicate Enabled(s: Sys, mv: Move) {
    match mv
    case BeginReconcile(_, _) => s.cycle.Resting?
    case CheckPending => s.cycle.Reconciling? && s.cycle.todo != []
    case ReadRecord => s.cycle.Reading? && s.cycle.todo != []
    case WriteRecord => s.cycle.Holding? && s.cycle.todo != []
    case EndList => s.cycle.Reconciling? && s.cycle.todo == []
    case RemoveUnseen(gone) => s.cycle.Removing? && gone in s.cycle.unseen
    case BeginEmit(_) => s.cycle.Resting? || (s.cycle.Removing? && s.cycle.unseen == {})
    case CheckState => s.cycle.Emitting? && s.cycle.acts != []
    case MarkPending => s.cycle.Applicable? && s.cycle.acts != []
    case Enqueue(_) => s.cycle.InHand? && s.cycle.acts != []
    case EndEmit => s.cycle.Emitting? && s.cycle.acts == []
    case Receive(w) => w < |s.workers| && s.workers[w].Free? && s.queue != []
    case Drive(w, record) => w < |s.workers| && s.workers[w].Driving? && record.id == s.workers[w].act.id
    case Finish(w) => w < |s.workers| && s.workers[w].Driving?
  }

  /** The write decides on the record it read, as the inventory then validates it. */
  function Written(inv: map<MachineId, Machine>, dm: Machine, existing: Option<Machine>): map<MachineId, Machine> {
    if existing.Some? && existing.value.state == dm.state then inv
    else if !WellFormed(dm) then inv
    else if existing.Some? then
      if ApplyReply(inv, Merged(dm, existing.value)) == Stored then inv[dm.id := Merged(dm, existing.value)] else inv
    else if dm.id in inv then inv
    else inv[dm.id := dm]
  }

  /** A worker's transition of its machine; a machine the inventory lost is put back. */
  function Driven(inv: map<MachineId, Machine>, record: Machine): map<MachineId, Machine> {
    if ApplyReply(inv, record) == Stored || (record.id !in inv && WellFormed(record)) then inv[record.id := record]
    else inv
  }

  function Apply(s: Sys, mv: Move): Sys
    requires Enabled(s, mv)
  {
    match mv
    case BeginReconcile(full, list) => s.(cycle := Reconciling(full, list, {}))
    case CheckPending =>
      var dm := s.cycle.todo[0];
      var seen := s.cycle.seen + {dm.id};
      if dm.id in s.pending then s.(cycle := Reconciling(s.cycle.full, s.cycle.todo[1..], seen))
      else s.(cycle := Reading(s.cycle.full, s.cycle.todo, seen))
    case ReadRecord =>
      var id := s.cycle.todo[0].id;
      s.(cycle := Holding(s.cycle.full, s.cycle.todo, s.cycle.seen, if id in s.inv then Some(s.inv[id]) else None))
    case WriteRecord =>
      s.(inv := Written(s.inv, s.cycle.todo[0], s.cycle.existing),
         cycle := Reconciling(s.cycle.full, s.cycle.todo[1..], s.cycle.seen))
    case EndList =>
      s.(cycle := Removing(s.cycle.full, if s.cycle.full then s.inv.Keys - s.cycle.seen else {}, s.cycle.seen))
    case RemoveUnseen(gone) =>
      s.(inv := s.inv - {gone}, cycle := Removing(s.cycle.full, s.cycle.unseen - {gone}, s.cycle.seen))
    case BeginEmit(acts) => s.(cycle := Emitting(acts))
    case CheckState =>
      if StillApplies(s.inv, s.cycle.acts[0]) then s.(cycle := Applicable(s.cycle.acts))
      else s.(cycle := Emitting(s.cycle.acts[1..]))
    case MarkPending =>
      var a := s.cycle.acts[0];
      if a.id in s.pending then s.(cycle := Emitting(s.cycle.acts[1..]))
      else s.(pending := s.pending + {a.id}, cycle := InHand(s.cycle.acts))
    case Enqueue(room) =>
      var a := s.cycle.acts[0];
      if room then s.(queue := s.queue + [a], cycle := Emitting(s.cycle.acts[1..]))
      else s.(pending := s.pending - {a.id}, cycle := Emitting(s.cycle.acts[1..]))
    case EndEmit => s.(cycle := Resting)
    case Receive(w) => s.(workers := s.workers[w := Driving(s.queue[0])], queue := s.queue[1..])
    case Drive(w, record) => s.(inv := Driven(s.inv, record))
    case Finish(w) => s.(pending := s.pending - {s.workers[w].act.id}, workers := s.workers[w := Free])
  }

  predicate Legal(s: Sys, moves: seq<Move>)
    decreases |moves|
  {
    moves != [] ==> Enabled(s, moves[0]) && Legal(Apply(s, moves[0]), moves[1..])
  }

  function After(s: Sys, moves: seq<Move>): Sys
    requires Legal(s, moves)
    decreases |moves|
  {
    if moves == [] then s else After(Apply(s, moves[0]), moves[1..])
  }

  predicate Starts(s: Sys) {
    s.pending == {} && s.queue == [] && s.cycle == Resting && forall w | w in s.workers :: w.Free?
  }

  // ---- Who has an action under way ----------------------------------------

  function Queued(q: seq<Act>, id: MachineId): nat {
    if q == [] then 0 else (if q[0].id == id then 1 else 0) + Queued(q[1..], id)
  }

  function Drives(w: WorkerAt, id: MachineId): nat {
    if w.Driving? && w.act.id == id then 1 else 0
  }

  function Executing(ws: seq<WorkerAt>, id: MachineId): nat {
    if ws == [] then 0 else Drives(ws[0], id) + Executing(ws[1..], id)
  }

  function Held(c: CycleAt, id: MachineId): nat {
    if c.InHand? && c.acts != [] && c.acts[0].id == id then 1 else 0
  }

  /** How many actions are under way for a machine: queued, being executed, or in the
      emitter's hand. */
  function UnderWay(s: Sys, id: MachineId): nat {
    Queued(s.queue, id) + Executing(s.workers, id) + Held(s.cycle, id)
  }

  /** The machine the cycle thread is about to overwrite. */
  predicate Targets(c: CycleAt, id: MachineId) {
    (c.Reading? || c.Holding?) && c.todo != [] && c.todo[0].id == id
  }

  /** The pending set is exactly the machines with an action under way, each counted
      once; the record about to be overwritten belongs to none of them and is the
      current one. */
  ghost predicate Inv(s: Sys) {
    (forall id :: UnderWay(s, id) == if id in s.pending then 1 else 0) && CycleOK(s)
  }

  ghost predicate CycleOK(s: Sys) {
    && (forall id :: Targets(s.cycle, id) ==> id !in s.pending)
    && (s.cycle.Holding? && s.cycle.todo != [] ==>
          s.cycle.existing == (if s.cycle.todo[0].id in s.inv then Some(s.inv[s.cycle.todo[0].id]) else None))
    && (s.cycle.InHand? ==> s.cycle.acts != [])
    && (s.cycle.Removing? ==> s.cycle.unseen !! s.cycle.seen && (s.cycle.unseen != {} ==> s.cycle.full))
  }

  lemma QueueLast(q: seq<Act>, a: Act, id: MachineId)
    ensures Queued(q + [a], id) == Queued(q, id) + if a.id == id then 1 else 0
  {
    if q == [] {
      assert [a][1..] == [];
    } else {
      assert (q + [a])[1..] == q[1..] + [a];
      QueueLast(q[1..], a, id);
    }
  }

  lemma WorkersSet(ws: seq<WorkerAt>, w: nat, x: WorkerAt, id: MachineId)
    requires w < |ws|
    ensures Executing(ws[w := x], id) == Executing(ws, id) - Drives(ws[w], id) + Drives(x, id)
  {
    if w == 0 {
      assert ws[0 := x][1..] == ws[1..];
    } else {
      assert ws[w := x][1..] == ws[1..][w - 1 := x];
      WorkersSet(ws[1..], w - 1, x, id);
    }
  }

  lemma DrivenCounts(ws: seq<WorkerAt>, w: nat)
    requires w < |ws| && ws[w].Driving?
    ensures Executing(ws, ws[w].act.id) >= 1
  {
    if w > 0 {
      DrivenCounts(ws[1..], w - 1);
    }
  }

  lemma DrivenPending(s: Sys, w: nat)
    requires Inv(s) && w < |s.workers| && s.workers[w].Driving?
    ensures s.workers[w].act.id in s.pending
  {
    DrivenCounts(s.workers, w);
    assert UnderWay(s, s.workers[w].act.id) >= 1;
  }

  lemma StartsInv(s: Sys)
    requires Starts(s)
    ensures Inv(s)
  {
    forall id
      ensures UnderWay(s, id) == 0
    {
      NoneDriven(s.workers, id);
    }
  }

  lemma NoneDriven(ws: seq<WorkerAt>, id: MachineId)
    requires forall w | w in ws :: w.Free?
    ensures Executing(ws, id) == 0
  {
    if ws != [] {
      assert ws[0] in ws;
      NoneDriven(ws[1..], id);
    }
  }

  lemma ReceiveKeeps(s: Sys, w: nat)
    requires Inv(s) && Enabled(s, Receive(w))
    ensures Inv(Apply(s, Receive(w)))
  {
    var s' := Apply(s, Receive(w));
    forall id
      ensures UnderWay(s', id) == UnderWay(s, id)
    {
      WorkersSet(s.workers, w, Driving(s.queue[0]), id);
    }
  }

  lemma FinishKeeps(s: Sys, w: nat)
    requires Inv(s) && Enabled(s, Finish(w))
    ensures Inv(Apply(s, Finish(w)))
  {
    var s' := Apply(s, Finish(w));
    DrivenPending(s, w);
    forall id
      ensures UnderWay(s', id) == UnderWay(s, id) - Drives(s.workers[w], id)
    {
      WorkersSet(s.workers, w, Free, id);
    }
  }

  /** A worker writes only its own machine, which is pending and so not targeted. */
  lemma DriveKeeps(s: Sys, w: nat, record: Machine)
    requires Inv(s) && Enabled(s, Drive(w, record))
    ensures Inv(Apply(s, Drive(w, record)))
  {
    var s' := Apply(s, Drive(w, record));
    DrivenPending(s, w);
    forall id
      ensures UnderWay(s', id) == UnderWay(s, id)
    {
    }
  }

  lemma MarkKeeps(s: Sys)
    requires Inv(s) && Enabled(s, MarkPending)
    ensures Inv(Apply(s, MarkPending))
  {
    var s' := Apply(s, MarkPending);
    var a := s.cycle.acts[0];
    forall id
      ensures UnderWay(s', id) == UnderWay(s, id) + if a.id !in s.pending && id == a.id then 1 else 0
    {
    }
  }

  lemma EnqueueKeeps(s: Sys, room: bool)
    requires Inv(s) && Enabled(s, Enqueue(room))
    ensures Inv(Apply(s, Enqueue(room)))
  {
    var s' := Apply(s, Enqueue(room));
    var a := s.cycle.acts[0];
    assert UnderWay(s, a.id) >= 1;
    forall id
      ensures UnderWay(s', id) == UnderWay(s, id) - if !room && id == a.id then 1 else 0
    {
      QueueLast(s.queue, a, id);
    }
  }

  lemma QuietKeeps(s: Sys, mv: Move)
    requires Inv(s) && Enabled(s, mv)
    requires !mv.Receive? && !mv.Finish? && !mv.Drive? && !mv.MarkPending? && !mv.Enqueue?
    ensures Inv(Apply(s, mv))
  {
    var s' := Apply(s, mv);
    assert s'.pending == s.pending && CycleOK(s');
    forall id
      ensures UnderWay(s', id) == UnderWay(s, id)
    {
    }
  }

  lemma MoveKeeps(s: Sys, mv: Move)
    requires Inv(s) && Enabled(s, mv)
    ensures Inv(Apply(s, mv))
  {
    match mv
    case Receive(w) => ReceiveKeeps(s, w);
    case Finish(w) => FinishKeeps(s, w);
    case Drive(w, record) => DriveKeeps(s, w, record);
    case MarkPending => MarkKeeps(s);
    case Enqueue(room) => EnqueueKeeps(s, room);
    case _ => QuietKeeps(s, mv);
  }

  lemma {:induction false} RunKeeps(s: Sys, moves: seq<Move>)
    requires Inv(s) && Legal(s, moves)
    ensures Inv(After(s, moves))
    decreases |moves|
  {
    if moves != [] {
      MoveKeeps(s, moves[0]);
      RunKeeps(Apply(s, moves[0]), moves[1..]);
    }
  }

  lemma TwoDriven(ws: seq<WorkerAt>, v: nat, w: nat)
    requires v < w < |ws| && ws[v].Driving? && ws[w].Driving?
    ensures ws[v].act.id == ws[w].act.id ==> Executing(ws, ws[v].act.id) >= 2
  {
    if v == 0 {
      DrivenCounts(ws[1..], w - 1);
    } else {
      TwoDriven(ws[1..], v - 1, w - 1);
    }
  }

  lemma OneDriver(s: Sys, v: nat, w: nat)
    requires Inv(s) && v < |s.workers| && w < |s.workers| && v != w
    requires s.workers[v].Driving? && s.workers[w].Driving?
    ensures s.workers[v].act.id != s.workers[w].act.id
  {
    TwoDriven(s.workers, if v < w then v else w, if v < w then w else v);
    var count := UnderWay(s, s.workers[v].act.id);
  }

  /** A single driver per machine, after any run: the pending set is exactly the machines
      queued, executing or in the emitter's hand, each under way once, and no two workers
      drive the same machine. */
  lemma SingleDriver(s: Sys, moves: seq<Move>)
    requires Starts(s) && Legal(s, moves)
    ensures var e := After(s, moves);
            && (forall id :: UnderWay(e, id) == if id in e.pending then 1 else 0)
            && (forall v, w | 0 <= v < w < |e.workers| && e.workers[v].Driving? && e.workers[w].Driving? ::
                  e.workers[v].act.id != e.workers[w].act.id)
  {
    StartsInv(s);
    RunKeeps(s, moves);
    var e := After(s, moves);
    forall v, w | 0 <= v < w < |e.workers| && e.workers[v].Driving? && e.workers[w].Driving?
      ensures e.workers[v].act.id != e.workers[w].act.id
    {
      OneDriver(e, v, w);
    }
  }

  predicate SameRecord(a: map<MachineId, Machine>, b: map<MachineId, Machine>, id: MachineId) {
    if id in a then id in b && a[id] == b[id] else id !in b
  }

  lemma OthersLeave(e: Sys, w: nat, mv: Move)
    requires Inv(e) && Enabled(e, mv) && w < |e.workers| && e.workers[w].Driving?
    requires !(mv.Drive? && mv.w == w) && mv != RemoveUnseen(e.workers[w].act.id)
    ensures SameRecord(e.inv, Apply(e, mv).inv, e.workers[w].act.id)
  {
    DrivenPending(e, w);
    match mv
    case Drive(v, record) => OneDriver(e, v, w);
    case WriteRecord => assert Targets(e.cycle, e.cycle.todo[0].id);
    case _ =>
  }

  /** While a worker drives a machine nobody else touches its record: the next move either
      is that worker's own write, or removes a machine that a full List omitted, or leaves
      the record as it is. */
  lemma RecordIsOwned(s: Sys, moves: seq<Move>, w: nat, mv: Move)
    requires Starts(s) && Legal(s, moves) && Enabled(After(s, moves), mv)
    requires w < |After(s, moves).workers| && After(s, moves).workers[w].Driving?
    ensures var e := After(s, moves);
            var id := e.workers[w].act.id;
            || (mv.Drive? && mv.w == w)
            || (mv == RemoveUnseen(id) && e.cycle.Removing? && e.cycle.full && id !in e.cycle.seen)
            || SameRecord(e.inv, Apply(e, mv).inv, id)
  {
    StartsInv(s);
    RunKeeps(s, moves);
    var e := After(s, moves);
    if !(mv.Drive? && mv.w == w) && mv != RemoveUnseen(e.workers[w].act.id) {
      OthersLeave(e, w, mv);
    }
  }

  /** What reconciliation writes is merged with the current record: read and write might
      as well have been one step. */
  lemma NoLostUpdate(s: Sys, moves: seq<Move>)
    requires Starts(s) && Legal(s, moves) && Enabled(After(s, moves), WriteRecord)
    ensures var e := After(s, moves);
            Apply(e, WriteRecord).inv == Ingested(e.inv, e.cycle.todo[0])
  {
    StartsInv(s);
    RunKeeps(s, moves);
  }

  // ---- What the steps may write -------------------------------------------

  /** The loop makes no illegal transition: whatever step is taken, a record that changes state
      does so along the machine's legal transitions, and what is written is well-formed. */
  lemma OnlyLegal(s: Sys, moves: seq<Move>, mv: Move, id: MachineId)
    requires Starts(s) && Legal(s, moves) && Enabled(After(s, moves), mv)
    ensures var before, after := After(s, moves).inv, Apply(After(s, moves), mv).inv;
            && (id in before && id in after && before[id].state != after[id].state ==>
                  CanTransition(before[id].state, after[id].state))
            && (id in after && (id !in before || before[id] != after[id]) ==> WellFormed(after[id]))
  {
    StartsInv(s);
    RunKeeps(s, moves);
    if mv.WriteRecord? {
      NoLostUpdate(s, moves);
      WritesLegal(After(s, moves).inv, After(s, moves).cycle.todo[0], id);
    }
  }

  lemma WritesLegal(inv: map<MachineId, Machine>, dm: Machine, id: MachineId)
    ensures var after := Ingested(inv, dm);
            && (id in inv && id in after && inv[id].state != after[id].state ==>
                  CanTransition(inv[id].state, after[id].state))
            && (id in after && (id !in inv || inv[id] != after[id]) ==> WellFormed(after[id]))
  {
  }

  // ---- Fresh actions ------------------------------------------------------

  /** An action passed the live check, and its machine is nobody's. */
  predicate Cleared(s: Sys, acts: seq<Act>) {
    s.cycle == Applicable(acts) && acts != [] && acts[0].id !in s.pending
  }

  lemma ClearedStays(s: Sys, acts: seq<Act>, mv: Move)
    requires Inv(s) && Cleared(s, acts) && Enabled(s, mv) && !mv.MarkPending?
    ensures Cleared(Apply(s, mv), acts) && SameRecord(s.inv, Apply(s, mv).inv, acts[0].id)
  {
    if mv.Drive? || mv.Finish? {
      DrivenPending(s, mv.w);
    }
  }

  lemma {:induction false} ClearedLater(s: Sys, acts: seq<Act>, moves: seq<Move>)
    requires Inv(s) && Cleared(s, acts) && Legal(s, moves) && MarkPending !in moves
    ensures Cleared(After(s, moves), acts) && SameRecord(s.inv, After(s, moves).inv, acts[0].id)
    decreases |moves|
  {
    if moves != [] {
      assert moves[0] in moves && forall mv | mv in moves[1..] :: mv in moves;
      ClearedStays(s, acts, moves[0]);
      MoveKeeps(s, moves[0]);
      ClearedLater(Apply(s, moves[0]), acts, moves[1..]);
    }
  }

  /** No stale action: if an action's machine was nobody's when the live check passed it, then
      whatever the workers do until it is marked pending, its machine is still in the state the
      action requires, or still unknown. */
  lemma {:induction false} FreshAction(s: Sys, moves: seq<Move>, more: seq<Move>)
    requires Starts(s) && Legal(s, moves)
    requires var e := After(s, moves);
             && e.cycle.Emitting? && e.cycle.acts != [] && e.cycle.acts[0].id !in e.pending
             && (e.cycle.acts[0].id in e.inv ==> e.inv[e.cycle.acts[0].id].state == e.cycle.acts[0].from)
             && Legal(Apply(e, CheckState), more) && MarkPending !in more
    ensures var e := After(s, moves);
            var a, g := e.cycle.acts[0], After(Apply(e, CheckState), more);
            && g.cycle == Applicable(e.cycle.acts) && (a.id in g.inv ==> g.inv[a.id].state == a.from)
  {
    var e := After(s, moves);
    StartsInv(s);
    RunKeeps(s, moves);
    MoveKeeps(e, CheckState);
    ClearedLater(Apply(e, CheckState), e.cycle.acts, more);
  }

  /** A stale action is dropped: when its machine is known to be in another state, the live check
      passes over it. */
  lemma StaleDropped(s: Sys)
    requires Enabled(s, CheckState)
    requires s.cycle.acts[0].id in s.inv && s.inv[s.cycle.acts[0].id].state != s.cycle.acts[0].from
    ensures Apply(s, CheckState) == s.(cycle := Emitting(s.cycle.acts[1..]))
  {
  }

  // ---- What a List removes ------------------------------------------------

  /** How far the reconcile has come: it has seen exactly the part of the list behind it. */
  ghost predicate Heeds(full: bool, list: seq<Machine>, c: CycleAt) {
    match c
    case Reconciling(f, todo, seen) => f == full && SeenUpTo(list, todo, seen, 0)
    case Reading(f, todo, seen) => f == full && SeenUpTo(list, todo, seen, 1)
    case Holding(f, todo, seen, _) => f == full && SeenUpTo(list, todo, seen, 1)
    case Removing(f, unseen, _) => forall id | id in unseen :: full && !ListedId(list, id)
    case _ => true
  }

  ghost predicate SeenUpTo(list: seq<Machine>, todo: seq<Machine>, seen: set<MachineId>, extra: nat) {
    && extra <= |todo| <= |list| && todo == list[|list| - |todo|..]
    && forall id :: id in seen <==> ListedId(list[..|list| - |todo| + extra], id)
  }

  lemma SeenHead(list: seq<Machine>, todo: seq<Machine>, seen: set<MachineId>)
    requires SeenUpTo(list, todo, seen, 0) && todo != []
    ensures SeenUpTo(list, todo, seen + {todo[0].id}, 1) && SeenUpTo(list, todo[1..], seen + {todo[0].id}, 0)
  {
    var k := |list| - |todo|;
    assert todo[0] == list[k];
    forall id
      ensures id in seen + {todo[0].id} <==> ListedId(list[..k + 1], id)
    {
      ListedNext(list, k, id);
    }
  }

  lemma SeenOn(list: seq<Machine>, todo: seq<Machine>, seen: set<MachineId>)
    requires SeenUpTo(list, todo, seen, 1)
    ensures SeenUpTo(list, todo[1..], seen, 0)
  {
  }

  lemma SeenAll(list: seq<Machine>, seen: set<MachineId>)
    requires SeenUpTo(list, [], seen, 0)
    ensures forall id :: id in seen <==> ListedId(list, id)
  {
    assert list[..|list|] == list;
  }

  lemma StepHeeds(s: Sys, mv: Move, full: bool, list: seq<Machine>)
    requires Enabled(s, mv) && Heeds(full, list, s.cycle) && !mv.BeginReconcile?
    ensures Heeds(full, list, Apply(s, mv).cycle)
  {
    match mv
    case CheckPending => SeenHead(list, s.cycle.todo, s.cycle.seen);
    case WriteRecord => SeenOn(list, s.cycle.todo, s.cycle.seen);
    case EndList => SeenAll(list, s.cycle.seen);
    case _ =>
  }

  lemma {:induction false} RunHeeds(s: Sys, moves: seq<Move>, full: bool, list: seq<Machine>)
    requires Legal(s, moves) && Heeds(full, list, s.cycle) && forall mv | mv in moves :: !mv.BeginReconcile?
    ensures Heeds(full, list, After(s, moves).cycle)
    decreases |moves|
  {
    if moves != [] {
      StepHeeds(s, moves[0], full, list);
      RunHeeds(Apply(s, moves[0]), moves[1..], full, list);
    }
  }

  lemma Begun(s: Sys, full: bool, list: seq<Machine>)
    requires Enabled(s, BeginReconcile(full, list))
    ensures Heeds(full, list, Apply(s, BeginReconcile(full, list)).cycle)
  {
    assert list[..|list| - |list| + 0] == [] && list[|list| - |list|..] == list;
  }

  lemma Heeded(g: Sys, full: bool, list: seq<Machine>, gone: MachineId)
    requires Heeds(full, list, g.cycle) && Enabled(g, EndList)
    ensures gone in Apply(g, EndList).cycle.unseen <==> full && gone in g.inv && !ListedId(list, gone)
  {
    SeenAll(list, g.cycle.seen);
  }

  /** A List removes nothing it lists, whatever was pending meanwhile: once it is through, what is
      due for removal is exactly what is stored and not listed, and that only for a full List. */
  lemma {:induction false} OnlyOmitted(s: Sys, full: bool, list: seq<Machine>, more: seq<Move>, gone: MachineId)
    requires Enabled(s, BeginReconcile(full, list)) && Legal(Apply(s, BeginReconcile(full, list)), more)
    requires forall mv | mv in more :: !mv.BeginReconcile?
    ensures var g := After(Apply(s, BeginReconcile(full, list)), more);
            && (Enabled(g, RemoveUnseen(gone)) ==> full && !ListedId(list, gone))
            && (Enabled(g, EndList) ==>
                  (gone in Apply(g, EndList).cycle.unseen <==> full && gone in g.inv && !ListedId(list, gone)))
  {
    var e := Apply(s, BeginReconcile(full, list));
    Begun(s, full, list);
    RunHeeds(e, more, full, list);
    var g := After(e, more);
    if Enabled(g, EndList) {
      Heeded(g, full, list, gone);
    }
  }
}
