/**
 The single execution slot of a session: reservation and its guards, the worker
 slot and its generations, and the run history, with a run's future dropped at
 any await (`native/src/supervisor.rs`). One event is one lock-held section or
 one stretch between awaits.
 */
module RunSlot {
  import opened Outcomes
  import Schedules

  const HISTORY_LIMIT: nat := 64

  /** A persistent worker carries the counter value its own spawn produced. */
  datatype Worker = Worker(generation: nat, live: bool)

  datatype Request = Request(inventory: bool, reset: bool, oneOff: bool, expected: Option<nat>)

  /**
   `worker` is absent for a fresh run's private worker. A terminating Disarmed
   run is awaiting its worker's end; otherwise the worker is back in the slot.
   */
  datatype Phase =
    | Claimed
    | Starting
    | Checked
    | Locked
    | Stopping
    | Prepared(cleared: bool)
    | Spawning(cleared: bool)
    | Taken(worker: Option<Worker>, cleared: bool)
    | Running(worker: Option<Worker>, cleared: bool, sent: bool)
    | Disarmed(worker: Option<Worker>, cleared: bool, terminating: bool)
    | UnwindRecord
    | UnwindClear
    | Finished
    | Cleared
    | Releasing
    | Freeing

  /** `spawned` is the generation this run's own persistent spawn produced. */
  datatype Run = Run(request: Request, phase: Phase, recorded: nat, spawned: Option<nat>, lost: bool)

  datatype Holder = ByRun(id: nat) | ByShutdown

  /** A command frame handed to a worker; the generation is absent for a fresh worker. */
  datatype Delivery = Delivery(id: nat, request: Request, generation: Option<nat>, stateReset: bool)

  datatype State = State(
    busy: bool, active: Option<nat>, records: seq<nat>, lock: Option<Holder>, slot: Option<Worker>,
    generation: nat, runs: map<nat, Run>, done: map<nat, Run>, spawns: seq<nat>,
    deliveries: seq<Delivery>, log: seq<nat>)

  datatype Event =
    | Claim(id: nat, request: Request)
    | MarkActive(id: nat)
    | FailEarly(id: nat)
    | CheckGeneration(id: nat)
    | TryLock(id: nat)
    | StopOld(id: nat)
    | Stopped(id: nat)
    | KeepWorker(id: nat)
    | BeginSpawn(id: nat)
    | SpawnOk(id: nat)
    | SpawnFail(id: nat)
    | TakeWorker(id: nat)
    | Refuse(id: nat)
    | Arm(id: nat)
    | CancelFirst(id: nat)
    | Send(id: nat)
    | Complete(id: nat, cleared: bool)
    | WrapUp(id: nat)
    | ClearActive(id: nat)
    | Remember(id: nat)
    | DropFuture(id: nat)
    | GuardRecord(id: nat)
    | GuardClear(id: nat)
    | ReleaseActive(id: nat)
    | Free(id: nat)
    | WorkerDies
    | ShutdownTake
    | ShutdownDone

  /** remember: one record per run id, newest last, at most 64. */
  function Trim(q: seq<nat>): seq<nat> {
    if |q| > HISTORY_LIMIT then q[|q| - HISTORY_LIMIT..] else q
  }

  function Others(q: seq<nat>, id: nat): (r: seq<nat>)
    ensures forall x :: x in r <==> x in q && x != id
  {
    if q == [] then []
    else if q[0] == id then Others(q[1..], id)
    else [q[0]] + Others(q[1..], id)
  }

  function Remembered(q: seq<nat>, id: nat): seq<nat> {
    Trim(Others(q, id) + [id])
  }

  /** The second generation check, made when the worker that will run the cell is known. */
  predicate Mismatch(r: Request, generation: nat) {
    !r.oneOff && !r.reset && r.expected.Some? && r.expected.value > 0 && r.expected.value != generation
  }

  predicate AtAwait(p: Phase) {
    p.Stopping? || p.Spawning? || p.Running? || (p.Disarmed? && p.terminating)
  }

  predicate In(s: State, id: nat) {
    id in s.runs
  }

  predicate Enabled(s: State, e: Event) {
    match e
    case Claim(id, _) => !s.busy && id !in s.runs && id !in s.done
    case MarkActive(id) => In(s, id) && s.runs[id].phase.Claimed?
    case FailEarly(id) => In(s, id) && (s.runs[id].phase.Starting? || s.runs[id].phase.Checked?)
    case CheckGeneration(id) =>
      In(s, id) && s.runs[id].phase.Starting?
      && (s.runs[id].request.expected.Some? ==> s.runs[id].request.expected.value == s.generation)
    case TryLock(id) => In(s, id) && s.runs[id].phase.Checked? && s.lock.None?
    case StopOld(id) =>
      In(s, id) && s.runs[id].phase.Locked? && !s.runs[id].request.oneOff && s.slot.Some?
      && (s.runs[id].request.reset || !s.slot.value.live)
    case Stopped(id) => In(s, id) && s.runs[id].phase.Stopping?
    case KeepWorker(id) =>
      In(s, id) && s.runs[id].phase.Locked?
      && (s.runs[id].request.oneOff || s.slot.None? || (!s.runs[id].request.reset && s.slot.value.live))
    case BeginSpawn(id) =>
      In(s, id) && s.runs[id].phase.Prepared? && (s.runs[id].request.oneOff || s.runs[id].phase.cleared)
    case SpawnOk(id) => In(s, id) && s.runs[id].phase.Spawning?
    case SpawnFail(id) => In(s, id) && s.runs[id].phase.Spawning?
    case TakeWorker(id) =>
      In(s, id) && s.runs[id].phase.Prepared? && !s.runs[id].request.oneOff && !s.runs[id].phase.cleared && s.slot.Some?
    case Refuse(id) =>
      In(s, id) && s.runs[id].phase.Taken? && s.runs[id].phase.worker.Some?
      && Mismatch(s.runs[id].request, s.generation)
    case Arm(id) => In(s, id) && s.runs[id].phase.Taken? && !Mismatch(s.runs[id].request, s.generation)
    case CancelFirst(id) => In(s, id) && s.runs[id].phase.Running? && !s.runs[id].phase.sent
    case Send(id) => In(s, id) && s.runs[id].phase.Running? && !s.runs[id].phase.sent
    case Complete(id, _) => In(s, id) && s.runs[id].phase.Running? && s.runs[id].phase.sent
    case WrapUp(id) => In(s, id) && s.runs[id].phase.Disarmed?
    case ClearActive(id) => In(s, id) && s.runs[id].phase.Finished?
    case Remember(id) => In(s, id) && s.runs[id].phase.Cleared?
    case DropFuture(id) => In(s, id) && AtAwait(s.runs[id].phase)
    case GuardRecord(id) => In(s, id) && s.runs[id].phase.UnwindRecord?
    case GuardClear(id) => In(s, id) && s.runs[id].phase.UnwindClear?
    case ReleaseActive(id) => In(s, id) && s.runs[id].phase.Releasing?
    case Free(id) => In(s, id) && s.runs[id].phase.Freeing?
    case WorkerDies => s.slot.Some?
    case ShutdownTake => s.lock.None?
    case ShutdownDone => s.lock == Some(ByShutdown)
  }

  function To(s: State, id: nat, p: Phase): State
    requires id in s.runs
  {
    s.(runs := s.runs[id := s.runs[id].(phase := p)])
  }

  /** Append a history record for the run unless it is an inventory run. */
  function Note(s: State, id: nat): State
    requires id in s.runs
  {
    if s.runs[id].request.inventory then s
    else
      s.(records := Remembered(s.records, id), log := s.log + [id],
         runs := s.runs[id := s.runs[id].(recorded := s.runs[id].recorded + 1)])
  }

  function Spawned(s: State, id: nat): State
    requires Enabled(s, SpawnOk(id))
  {
    var r := s.runs[id];
    if r.request.oneOff then To(s, id, Taken(None, r.phase.cleared))
    else
      var g := s.generation + 1;
      s.(generation := g, spawns := s.spawns + [id],
         runs := s.runs[id := r.(phase := Taken(Some(Worker(g, true)), r.phase.cleared), spawned := Some(g))])
  }

  function Sent(s: State, id: nat): State
    requires Enabled(s, Send(id))
  {
    var r := s.runs[id];
    var g := match r.phase.worker case Some(w) => Some(w.generation) case None => None;
    To(s.(deliveries := s.deliveries + [Delivery(id, r.request, g, r.phase.cleared && !r.request.oneOff)]),
       id, Running(r.phase.worker, r.phase.cleared, true))
  }

  /** Disarm the guard: the worker goes back to the slot or is terminated. */
  function Disarm(s: State, id: nat, terminate: bool): State
    requires id in s.runs && s.runs[id].phase.Running?
  {
    var p := s.runs[id].phase;
    To(s.(slot := if terminate then s.slot else p.worker), id, Disarmed(p.worker, p.cleared, terminate))
  }

  function Dropped(s: State, id: nat): State
    requires Enabled(s, DropFuture(id))
  {
    var r := s.runs[id];
    if r.phase.Running? then To(s, id, UnwindRecord)
    else if r.phase.Disarmed? then s.(runs := s.runs[id := r.(phase := UnwindClear, lost := true)])
    else To(s.(lock := None), id, Releasing)
  }

  function Apply(s: State, e: Event): State
    requires Enabled(s, e)
  {
    match e
    case Claim(id, request) => s.(busy := true, runs := s.runs[id := Run(request, Claimed, 0, None, false)])
    case MarkActive(id) => To(s.(active := Some(id)), id, Starting)
    case FailEarly(id) => To(s, id, Finished)
    case CheckGeneration(id) => To(s, id, Checked)
    case TryLock(id) => To(s.(lock := Some(ByRun(id))), id, Locked)
    case StopOld(id) => To(s.(slot := None), id, Stopping)
    case Stopped(id) => To(s, id, Prepared(true))
    case KeepWorker(id) => To(s, id, Prepared(s.slot.None?))
    case BeginSpawn(id) => To(s, id, Spawning(s.runs[id].phase.cleared))
    case SpawnOk(id) => Spawned(s, id)
    case SpawnFail(id) => To(s.(lock := None), id, Finished)
    case TakeWorker(id) => To(s.(slot := None), id, Taken(s.slot, false))
    case Refuse(id) => To(s.(slot := s.runs[id].phase.worker, lock := None), id, Finished)
    case Arm(id) => To(s.(active := Some(id)), id, Running(s.runs[id].phase.worker, s.runs[id].phase.cleared, false))
    case CancelFirst(id) => Disarm(s, id, s.runs[id].request.oneOff)
    case Send(id) => Sent(s, id)
    case Complete(id, cleared) => Disarm(s, id, s.runs[id].request.oneOff || cleared)
    case WrapUp(id) => To(s.(active := None, lock := None), id, Finished)
    case ClearActive(id) => To(s.(active := None), id, Cleared)
    case Remember(id) => To(Note(s, id), id, Releasing)
    case DropFuture(id) => Dropped(s, id)
    case GuardRecord(id) => To(Note(s, id), id, UnwindClear)
    case GuardClear(id) => To(s.(active := None, lock := None), id, Releasing)
    case ReleaseActive(id) =>
      var t := if s.active.Some? then Note(s, id) else s;
      To(t.(active := None), id, Freeing)
    case Free(id) => s.(busy := false, runs := s.runs - {id}, done := s.done[id := s.runs[id]])
    case WorkerDies => s.(slot := Some(s.slot.value.(live := false)))
    case ShutdownTake => s.(lock := Some(ByShutdown), slot := None)
    case ShutdownDone => s.(lock := None)
  }

  // ----- what every reachable state satisfies -----

  predicate HoldsLock(p: Phase) {
    p.Locked? || p.Stopping? || p.Prepared? || p.Spawning? || p.Taken? || p.Running? || p.Disarmed?
    || p.UnwindRecord? || p.UnwindClear?
  }

  /** Records a run may still get, and whether the active slot is its own. */
  predicate AccountOk(s: State, id: nat)
    requires id in s.runs
  {
    var r := s.runs[id];
    && (s.active.Some? ==> s.active.value == id)
    && match r.phase
       case Claimed => s.active.None? && r.recorded == 0 && !r.lost
       case Finished => r.recorded == 0 && !r.lost
       case Cleared => s.active.None? && r.recorded == 0 && !r.lost
       case UnwindClear => s.active.Some? && r.recorded == (if r.request.inventory || r.lost then 0 else 1)
       case Releasing =>
         if s.active.Some? then r.recorded == 0 && !r.lost
         else r.recorded == if r.request.inventory || r.lost then 0 else 1
       case Freeing => s.active.None? && r.recorded == if r.request.inventory || r.lost then 0 else 1
       case _ => s.active.Some? && r.recorded == 0 && !r.lost
  }

  /** A worker in a run's hands is the newest persistent one and is not also in the slot. */
  predicate WorkerOk(s: State, id: nat)
    requires id in s.runs
  {
    var r := s.runs[id];
    && (HoldsLock(r.phase) <==> s.lock == Some(ByRun(id)))
    && (r.spawned.Some? ==> r.spawned.value <= s.generation)
    && match r.phase
       case Stopping => s.slot.None? && !r.request.oneOff && r.spawned.None?
       case Prepared(cleared) => cleared == s.slot.None? && r.spawned.None?
       case Spawning(cleared) => cleared == s.slot.None? && (!r.request.oneOff ==> cleared) && r.spawned.None?
       case Taken(w, cleared) => HandOk(s, r, w, cleared)
       case Running(w, cleared, _) => HandOk(s, r, w, cleared) && !Mismatch(r.request, s.generation)
       case Disarmed(w, _, terminating) =>
         (w.Some? ==> w.value.generation == s.generation >= 1) && (w.Some? <==> !r.request.oneOff)
       case Claimed => r.spawned.None?
       case Starting => r.spawned.None?
       case Checked => r.spawned.None?
       case Locked => r.spawned.None?
       case _ => true
  }

  predicate HandOk(s: State, r: Run, w: Option<Worker>, cleared: bool) {
    && (w.Some? <==> !r.request.oneOff)
    && (w.Some? ==> w.value.generation == s.generation >= 1 && s.slot.None? && (cleared <==> r.spawned.Some?)
                    && (r.spawned.Some? ==> r.spawned.value == w.value.generation))
    && (w.None? ==> r.spawned.None?)
  }

  predicate SpawnOwn(s: State, r: Run, id: nat) {
    match r.spawned
    case None => id !in s.spawns
    case Some(g) => 1 <= g <= |s.spawns| && s.spawns[g - 1] == id
  }

  predicate RunOk(s: State, id: nat)
    requires id in s.runs
  {
    && AccountOk(s, id) && WorkerOk(s, id) && SpawnOwn(s, s.runs[id], id) && id !in s.done
    && (s.runs[id].recorded > 0 <==> id in s.log)
  }

  predicate Distinct(q: seq<nat>) {
    forall i, k :: 0 <= i < k < |q| ==> q[i] != q[k]
  }

  predicate DeliveryOk(s: State, d: Delivery) {
    && (d.generation.Some? <==> !d.request.oneOff)
    && (d.generation.Some? ==>
          1 <= d.generation.value <= |s.spawns| && !Mismatch(d.request, d.generation.value))
    && (d.stateReset <==> d.generation.Some? && s.spawns[d.generation.value - 1] == d.id)
  }

  predicate SlotOk(s: State) {
    && (s.busy <==> s.runs != map[])
    && (forall a, b :: a in s.runs && b in s.runs ==> a == b)
    && (s.active.Some? ==> s.active.value in s.runs)
    && (s.lock.Some? && s.lock.value.ByRun? ==> s.lock.value.id in s.runs)
    && s.generation == |s.spawns|
    && (s.slot.Some? ==> s.slot.value.generation == s.generation && s.generation >= 1)
  }

  /** History is the newest records of runs that got one, each once. */
  predicate HistoryOk(s: State) {
    && Distinct(s.log) && s.records == Trim(s.log)
    && (forall id :: id in s.log ==> id in s.runs || id in s.done)
    && (forall id :: id in s.spawns ==> id in s.runs || id in s.done)
    && (forall id :: id in s.done ==>
          s.done[id].recorded == (if s.done[id].request.inventory || s.done[id].lost then 0 else 1)
          && (id in s.log <==> s.done[id].recorded == 1))
  }

  ghost predicate Inv(s: State) {
    && SlotOk(s) && HistoryOk(s)
    && (forall id :: id in s.runs ==> RunOk(s, id))
    && (forall i :: 0 <= i < |s.deliveries| ==> DeliveryOk(s, s.deliveries[i]))
  }

  // ----- history -----

  lemma {:induction false} OthersOfAbsent(q: seq<nat>, id: nat)
    requires id !in q
    ensures Others(q, id) == q
  {
    if q != [] { OthersOfAbsent(q[1..], id); }
  }

  lemma TrimThenAppend(log: seq<nat>, id: nat)
    ensures Trim(Trim(log) + [id]) == Trim(log + [id])
  {
    if |log| > HISTORY_LIMIT {
      assert Trim(log) == log[|log| - HISTORY_LIMIT..];
      assert (log + [id])[|log| + 1 - HISTORY_LIMIT..] == log[|log| + 1 - HISTORY_LIMIT..] + [id];
    }
  }

  lemma RememberedNew(log: seq<nat>, id: nat)
    requires id !in log
    ensures Remembered(Trim(log), id) == Trim(log + [id])
  {
    assert id !in Trim(log);
    OthersOfAbsent(Trim(log), id);
    TrimThenAppend(log, id);
  }

  lemma DistinctAppend(log: seq<nat>, id: nat)
    requires Distinct(log) && id !in log
    ensures Distinct(log + [id])
  {}

  lemma NoteKeepsHistory(s: State, id: nat)
    requires HistoryOk(s) && id in s.runs && id !in s.done && s.runs[id].recorded == 0 && id !in s.log
    ensures HistoryOk(Note(s, id))
  {
    RememberedNew(s.log, id);
    DistinctAppend(s.log, id);
  }

  lemma HistoryAfterSpawn(s: State, id: nat)
    requires HistoryOk(s) && Enabled(s, SpawnOk(id))
    ensures HistoryOk(Spawned(s, id))
  {}

  lemma HistoryAfterFree(s: State, id: nat)
    requires HistoryOk(s) && Enabled(s, Free(id)) && RunOk(s, id)
    ensures HistoryOk(Apply(s, Free(id)))
  {}

  /** Moving a run's phase, or any field history does not mention, keeps history. */
  lemma HistorySame(s: State, t: State)
    requires HistoryOk(s) && t.log == s.log && t.records == s.records && t.spawns == s.spawns && t.done == s.done
    requires s.runs.Keys <= t.runs.Keys
    ensures HistoryOk(t)
  {}

  lemma HistoryAfterNote(s: State, e: Event)
    requires e.Remember? || e.GuardRecord? || (e.ReleaseActive? && s.active.Some?)
    requires HistoryOk(s) && Enabled(s, e) && e.id in s.runs && RunOk(s, e.id)
    ensures HistoryOk(Apply(s, e))
  {
    NoteKeepsHistory(s, e.id);
    HistorySame(Note(s, e.id), Apply(s, e));
  }

  predicate Quiet(s: State, e: Event) {
    !e.Remember? && !e.GuardRecord? && !(e.ReleaseActive? && s.active.Some?) && !e.Free? && !e.SpawnOk?
  }

  lemma QuietEvent(s: State, e: Event)
    requires Enabled(s, e) && Quiet(s, e)
    ensures var t := Apply(s, e);
            && t.log == s.log && t.records == s.records && t.spawns == s.spawns && t.done == s.done
            && s.runs.Keys <= t.runs.Keys
  {}

  lemma HistoryKept(s: State, e: Event)
    requires HistoryOk(s) && Enabled(s, e)
    requires forall id :: id in s.runs ==> RunOk(s, id)
    ensures HistoryOk(Apply(s, e))
  {
    if Quiet(s, e) {
      QuietEvent(s, e);
      HistorySame(s, Apply(s, e));
    } else if e.Free? {
      HistoryAfterFree(s, e.id);
    } else if e.SpawnOk? {
      HistoryAfterSpawn(s, e.id);
    } else {
      HistoryAfterNote(s, e);
    }
  }

  /** One run in, one run out, and nothing else about the slot. */
  lemma SlotKeptByRun(s: State, e: Event, id: nat)
    requires SlotOk(s) && Enabled(s, e) && id in s.runs && RunOk(s, id)
    requires !e.Claim? && !e.Free? && !e.WorkerDies? && !e.ShutdownTake? && !e.ShutdownDone? && e.id == id
    ensures SlotOk(Apply(s, e))
  {
    assert Apply(s, e).runs.Keys == s.runs.Keys;
  }

  lemma SlotAfterClaim(s: State, id: nat, request: Request)
    requires SlotOk(s) && Enabled(s, Claim(id, request))
    ensures SlotOk(Apply(s, Claim(id, request)))
  {}

  lemma SlotAfterFree(s: State, id: nat)
    requires SlotOk(s) && Enabled(s, Free(id)) && RunOk(s, id)
    ensures SlotOk(Apply(s, Free(id)))
  {
    assert Apply(s, Free(id)).runs == map[];
  }

  lemma SlotAfterOutside(s: State, e: Event)
    requires SlotOk(s) && Enabled(s, e) && (e.WorkerDies? || e.ShutdownTake? || e.ShutdownDone?)
    ensures SlotOk(Apply(s, e))
  {}

  lemma SlotKept(s: State, e: Event)
    requires SlotOk(s) && Enabled(s, e)
    requires forall id :: id in s.runs ==> RunOk(s, id)
    ensures SlotOk(Apply(s, e))
  {
    if e.Claim? {
      SlotAfterClaim(s, e.id, e.request);
    } else if e.WorkerDies? || e.ShutdownTake? || e.ShutdownDone? {
      SlotAfterOutside(s, e);
    } else {
      assert e.id in s.runs;
      if e.Free? { SlotAfterFree(s, e.id); } else { SlotKeptByRun(s, e, e.id); }
    }
  }

  // ----- the runs -----

  lemma SpawnAppends(s: State, id: nat)
    requires Enabled(s, SpawnOk(id))
    ensures s.spawns <= Spawned(s, id).spawns && Spawned(s, id).deliveries == s.deliveries
  {}

  lemma SpawnsAppend(s: State, e: Event)
    requires Enabled(s, e)
    ensures s.spawns <= Apply(s, e).spawns
    ensures !e.Send? ==> Apply(s, e).deliveries == s.deliveries
  {
    match e
    case SpawnOk(id) => SpawnAppends(s, id);
    case _ =>
  }

  lemma DeliveryKept(s: State, t: State, d: Delivery)
    requires DeliveryOk(s, d) && s.spawns <= t.spawns
    ensures DeliveryOk(t, d)
  {}

  lemma DeliverySent(s: State, id: nat)
    requires SlotOk(s) && HistoryOk(s) && Enabled(s, Send(id)) && RunOk(s, id)
    ensures var t := Sent(s, id);
            t.deliveries[..|t.deliveries| - 1] == s.deliveries && DeliveryOk(t, t.deliveries[|t.deliveries| - 1])
  {}

  lemma DeliveriesKept(s: State, e: Event)
    requires Inv(s) && Enabled(s, e)
    ensures forall i :: 0 <= i < |Apply(s, e).deliveries| ==> DeliveryOk(Apply(s, e), Apply(s, e).deliveries[i])
  {
    var t := Apply(s, e);
    SpawnsAppend(s, e);
    if e.Send? { DeliverySent(s, e.id); }
    forall i | 0 <= i < |t.deliveries| ensures DeliveryOk(t, t.deliveries[i]) {
      if i < |s.deliveries| {
        assert t.deliveries[i] == s.deliveries[i];
        DeliveryKept(s, t, s.deliveries[i]);
      }
    }
  }

  lemma RunStarts(s: State, e: Event, id: nat)
    requires SlotOk(s) && HistoryOk(s) && Enabled(s, e) && id in s.runs && RunOk(s, id)
    requires (e.MarkActive? || e.FailEarly? || e.CheckGeneration? || e.TryLock?) && e.id == id
    ensures RunOk(Apply(s, e), id)
  {}

  lemma RunPrepares(s: State, e: Event, id: nat)
    requires SlotOk(s) && HistoryOk(s) && Enabled(s, e) && id in s.runs && RunOk(s, id)
    requires (e.StopOld? || e.Stopped? || e.KeepWorker? || e.BeginSpawn? || e.SpawnFail? || e.TakeWorker?) && e.id == id
    ensures RunOk(Apply(s, e), id)
  {}

  lemma RunSpawns(s: State, id: nat)
    requires SlotOk(s) && HistoryOk(s) && Enabled(s, SpawnOk(id)) && RunOk(s, id)
    ensures RunOk(Spawned(s, id), id)
  {}

  lemma RunExecutes(s: State, e: Event, id: nat)
    requires SlotOk(s) && HistoryOk(s) && Enabled(s, e) && id in s.runs && RunOk(s, id)
    requires (e.Refuse? || e.Arm? || e.CancelFirst? || e.Send? || e.Complete? || e.WrapUp?) && e.id == id
    ensures RunOk(Apply(s, e), id)
  {}

  lemma RunRemembers(s: State, id: nat)
    requires SlotOk(s) && HistoryOk(s) && Enabled(s, Remember(id)) && RunOk(s, id)
    ensures RunOk(Apply(s, Remember(id)), id)
  {}

  lemma RunRecords(s: State, id: nat)
    requires SlotOk(s) && HistoryOk(s) && Enabled(s, GuardRecord(id)) && RunOk(s, id)
    ensures RunOk(Apply(s, GuardRecord(id)), id)
  {}

  lemma RunReleases(s: State, id: nat)
    requires SlotOk(s) && HistoryOk(s) && Enabled(s, ReleaseActive(id)) && RunOk(s, id)
    ensures RunOk(Apply(s, ReleaseActive(id)), id)
  {}

  lemma RunClears(s: State, e: Event, id: nat)
    requires SlotOk(s) && HistoryOk(s) && Enabled(s, e) && id in s.runs && RunOk(s, id)
    requires (e.ClearActive? || e.GuardClear?) && e.id == id
    ensures RunOk(Apply(s, e), id)
  {}

  lemma RunDrops(s: State, id: nat)
    requires SlotOk(s) && HistoryOk(s) && Enabled(s, DropFuture(id)) && RunOk(s, id)
    ensures RunOk(Dropped(s, id), id)
  {}

  lemma RunWaits(s: State, e: Event, id: nat)
    requires SlotOk(s) && Enabled(s, e) && id in s.runs && RunOk(s, id)
    requires e.WorkerDies? || e.ShutdownTake? || e.ShutdownDone?
    ensures RunOk(Apply(s, e), id)
  {}

  lemma RunBegins(s: State, id: nat, request: Request)
    requires SlotOk(s) && HistoryOk(s) && Enabled(s, Claim(id, request))
    ensures RunOk(Apply(s, Claim(id, request)), id)
  {}

  /** Events that bring a run up to its execution. */
  lemma RunOnward(s: State, e: Event, id: nat)
    requires SlotOk(s) && HistoryOk(s) && Enabled(s, e) && id in s.runs && RunOk(s, id) && Forward(e) && e.id == id
    ensures RunOk(Apply(s, e), id)
  {
    if e.MarkActive? || e.FailEarly? || e.CheckGeneration? || e.TryLock? { RunStarts(s, e, id); }
    else if e.SpawnOk? { RunSpawns(s, id); }
    else { RunPrepares(s, e, id); }
  }

  predicate Forward(e: Event) {
    e.MarkActive? || e.FailEarly? || e.CheckGeneration? || e.TryLock? || e.SpawnOk?
    || e.StopOld? || e.Stopped? || e.KeepWorker? || e.BeginSpawn? || e.SpawnFail? || e.TakeWorker?
  }

  predicate Outside(e: Event) {
    e.WorkerDies? || e.ShutdownTake? || e.ShutdownDone?
  }

  /** Events from its execution to its end. */
  lemma RunHomeward(s: State, e: Event, id: nat)
    requires SlotOk(s) && HistoryOk(s) && Enabled(s, e) && id in s.runs && RunOk(s, id)
    requires !Forward(e) && !Outside(e) && !e.Claim? && !e.Free? && e.id == id
    ensures RunOk(Apply(s, e), id)
  {
    if e.Remember? { RunRemembers(s, id); }
    else if e.GuardRecord? { RunRecords(s, id); }
    else if e.ReleaseActive? { RunReleases(s, id); }
    else if e.DropFuture? { RunDrops(s, id); }
    else if e.ClearActive? || e.GuardClear? { RunClears(s, e, id); }
    else { RunExecutes(s, e, id); }
  }

  lemma RunKept(s: State, e: Event, id: nat)
    requires SlotOk(s) && HistoryOk(s) && Enabled(s, e) && id in Apply(s, e).runs && !e.Free?
    requires forall r :: r in s.runs ==> RunOk(s, r)
    ensures RunOk(Apply(s, e), id)
  {
    if e.Claim? {
      RunBegins(s, e.id, e.request);
    } else if Outside(e) {
      RunWaits(s, e, id);
    } else {
      OnlyOne(s, e, id);
      if Forward(e) { RunOnward(s, e, id); } else { RunHomeward(s, e, id); }
    }
  }

  lemma OwnRun(s: State, e: Event)
    requires Enabled(s, e) && !e.Claim? && !Outside(e)
    ensures e.id in s.runs
    ensures !e.Free? ==> Apply(s, e).runs.Keys == s.runs.Keys
  {}

  lemma OnlyOne(s: State, e: Event, id: nat)
    requires SlotOk(s) && Enabled(s, e) && id in Apply(s, e).runs && !e.Claim? && !Outside(e) && !e.Free?
    ensures e.id == id && id in s.runs
  {
    OwnRun(s, e);
  }

  lemma NobodyElse(s: State, id: nat)
    requires SlotOk(s) && Enabled(s, Free(id))
    ensures Apply(s, Free(id)).runs == map[]
  {}

  /** One event of any kind keeps the whole invariant. */
  lemma StepKeeps(s: State, e: Event)
    requires Inv(s) && Enabled(s, e)
    ensures Inv(Apply(s, e))
  {
    SlotKept(s, e);
    HistoryKept(s, e);
    DeliveriesKept(s, e);
    if e.Free? {
      NobodyElse(s, e.id);
    } else {
      forall id | id in Apply(s, e).runs ensures RunOk(Apply(s, e), id) { RunKept(s, e, id); }
    }
  }

  // ----- runs of the machine -----

  predicate Steps(s: State, e: Event, t: State) {
    Enabled(s, e) && t == Apply(s, e)
  }

  /** `es` leads from `s` to `t`, in whatever order the tasks were scheduled. */
  ghost predicate Leads(s: State, es: seq<Event>, t: State) {
    Schedules.Leads(Steps, s, es, t)
  }

  lemma LeadsFirst(s: State, es: seq<Event>, t: State)
    requires Leads(s, es, t) && es != []
    ensures Enabled(s, es[0]) && Leads(Apply(s, es[0]), es[1..], t)
  {
    var m := Schedules.First(Steps, s, es, t);
    assert Steps(s, es[0], m);
  }

  const START: State := State(false, None, [], None, None, 0, map[], map[], [], [], [])

  lemma {:induction false} RunKeeps(s: State, es: seq<Event>, t: State)
    requires Inv(s) && Leads(s, es, t)
    ensures Inv(t)
    decreases |es|
  {
    if es != [] {
      LeadsFirst(s, es, t);
      StepKeeps(s, es[0]);
      RunKeeps(Apply(s, es[0]), es[1..], t);
    } else {
      Schedules.NothingOnly(Steps, s, t);
    }
  }

  /**
   The slot is exclusive whatever futures are dropped: at most one run holds it,
   an active run is the one holding it, and a free slot has no active run.
   */
  lemma ExclusiveSlot(es: seq<Event>, t: State)
    requires Leads(START, es, t)
    ensures t.busy <==> t.runs != map[]
    ensures forall a, b :: a in t.runs && b in t.runs ==> a == b
    ensures t.active.Some? ==> t.active.value in t.runs
    ensures !t.busy ==> t.active.None?
  {
    RunKeeps(START, es, t);
    if t.active.Some? { assert t.active.value in t.runs; }
  }

  /** The run's future is dropped while it awaits its worker's end, its guard disarmed. */
  predicate DropsTerminating(s: State, e: Event, id: nat) {
    e == DropFuture(id) && id in s.runs && s.runs[id].phase.Disarmed?
  }

  /** Some event of the schedule does that to this run. */
  predicate LostIn(s: State, es: seq<Event>, id: nat)
    decreases |es|
  {
    es != [] && Enabled(s, es[0]) && (DropsTerminating(s, es[0], id) || LostIn(Apply(s, es[0]), es[1..], id))
  }

  predicate Lost(s: State, id: nat) {
    (id in s.runs && s.runs[id].lost) || (id in s.done && s.done[id].lost)
  }

  lemma RunsUntouched(s: State, e: Event)
    requires Enabled(s, e) && Outside(e)
    ensures Apply(s, e).runs == s.runs && Apply(s, e).done == s.done
  {}

  lemma LostStarts(s: State, e: Event, id: nat)
    requires Enabled(s, e) && (e.MarkActive? || e.FailEarly? || e.CheckGeneration? || e.TryLock? || e.SpawnOk?)
    requires id in s.runs
    ensures id in Apply(s, e).runs && Apply(s, e).runs[id].lost == s.runs[id].lost
  {}

  lemma LostOnward(s: State, e: Event, id: nat)
    requires Enabled(s, e) && Forward(e) && id in s.runs
    ensures id in Apply(s, e).runs && Apply(s, e).runs[id].lost == s.runs[id].lost
  {
    if e.MarkActive? || e.FailEarly? || e.CheckGeneration? || e.TryLock? || e.SpawnOk? { LostStarts(s, e, id); }
  }

  lemma LostHomeward(s: State, e: Event, id: nat)
    requires Enabled(s, e) && !Forward(e) && !Outside(e) && !e.Claim? && !e.Free? && !e.DropFuture? && id in s.runs
    ensures id in Apply(s, e).runs && Apply(s, e).runs[id].lost == s.runs[id].lost
  {}

  lemma NoneGone(s: State, e: Event)
    requires Enabled(s, e) && !e.Claim? && !e.Free?
    ensures Apply(s, e).done == s.done && Apply(s, e).runs.Keys == s.runs.Keys
  {
    if Outside(e) { RunsUntouched(s, e); } else { OwnRun(s, e); }
  }

  lemma LostUnchanged(s: State, e: Event, id: nat)
    requires Enabled(s, e) && !e.Claim? && !e.Free? && !e.DropFuture?
    ensures Lost(Apply(s, e), id) <==> Lost(s, id)
  {
    NoneGone(s, e);
    if id in s.runs {
      if Outside(e) { RunsUntouched(s, e); }
      else if Forward(e) { LostOnward(s, e, id); }
      else { LostHomeward(s, e, id); }
    }
  }

  lemma LostAfterClaim(s: State, e: Event, id: nat)
    requires Enabled(s, e) && e.Claim?
    ensures Lost(Apply(s, e), id) <==> Lost(s, id)
  {}

  lemma LostAfterFree(s: State, e: Event, id: nat)
    requires Enabled(s, e) && e.Free? && e.id !in s.done
    ensures Lost(Apply(s, e), id) <==> Lost(s, id)
  {}

  lemma LostAfterDrop(s: State, e: Event, id: nat)
    requires Enabled(s, e) && e.DropFuture? && !s.runs[e.id].lost && e.id !in s.done
    ensures Lost(Apply(s, e), id) <==> Lost(s, id) || DropsTerminating(s, e, id)
  {}

  lemma LostStep(s: State, e: Event, id: nat)
    requires Inv(s) && Enabled(s, e)
    ensures Lost(Apply(s, e), id) <==> Lost(s, id) || DropsTerminating(s, e, id)
  {
    if e.Claim? {
      LostAfterClaim(s, e, id);
    } else if e.Free? {
      assert RunOk(s, e.id);
      LostAfterFree(s, e, id);
    } else if e.DropFuture? {
      assert RunOk(s, e.id);
      LostAfterDrop(s, e, id);
    } else {
      LostUnchanged(s, e, id);
    }
  }

  lemma {:induction false} LostByRun(s: State, es: seq<Event>, t: State, id: nat)
    requires Inv(s) && Leads(s, es, t)
    ensures Lost(t, id) <==> Lost(s, id) || LostIn(s, es, id)
    decreases |es|
  {
    if es != [] {
      LeadsFirst(s, es, t);
      StepKeeps(s, es[0]);
      LostStep(s, es[0], id);
      LostByRun(Apply(s, es[0]), es[1..], t, id);
    } else {
      Schedules.NothingOnly(Steps, s, t);
    }
  }

  lemma StartInv()
    ensures Inv(START)
  {}

  /**
   History is exact: a finished run has one record, except an inventory run and
   a run whose future was dropped while awaiting its worker's end after the
   guard was disarmed, which have none; records are distinct, in order, and the
   newest 64.
   */
  lemma HistoryExact(es: seq<Event>, t: State, id: nat)
    requires Leads(START, es, t) && id in t.done
    ensures id in t.log <==> !t.done[id].request.inventory && !LostIn(START, es, id)
    ensures t.records == Trim(t.log) && Distinct(t.records) && |t.records| <= HISTORY_LIMIT
  {
    StartInv();
    RunKeeps(START, es, t);
    LostByRun(START, es, t, id);
  }

  lemma DropStep(s: State, id: nat)
    requires id in s.runs && s.runs[id].phase.Disarmed? && s.runs[id].phase.terminating
    ensures Enabled(s, DropFuture(id))
    ensures Dropped(s, id) == s.(runs := s.runs[id := s.runs[id].(phase := UnwindClear, lost := true)])
  {}

  lemma UnwindStep(s: State, id: nat)
    requires id in s.runs && s.runs[id].phase.UnwindClear?
    ensures Enabled(s, GuardClear(id))
    ensures Apply(s, GuardClear(id)) ==
            s.(active := None, lock := None, runs := s.runs[id := s.runs[id].(phase := Releasing)])
  {}

  lemma ReleaseStep(s: State, id: nat)
    requires id in s.runs && s.runs[id].phase.Releasing? && s.active.None?
    ensures Enabled(s, ReleaseActive(id))
    ensures Apply(s, ReleaseActive(id)) == s.(runs := s.runs[id := s.runs[id].(phase := Freeing)])
  {}

  lemma FreeStep(s: State, id: nat)
    requires id in s.runs && s.runs[id].phase.Freeing?
    ensures Enabled(s, Free(id))
    ensures Apply(s, Free(id)) == s.(busy := false, runs := s.runs - {id}, done := s.done[id := s.runs[id]])
  {}

  /** What is left once a terminating run's future has been dropped and its guards have run. */
  function Unrecorded(s: State, id: nat): State
    requires id in s.runs
  {
    var r := s.runs[id].(phase := Freeing, lost := true);
    s.(active := None, lock := None, busy := false, runs := s.runs - {id}, done := s.done[id := r])
  }

  lemma UnrecordedForm(s: State, id: nat, r: Run, c: State)
    requires id in s.runs && r == s.runs[id].(phase := Freeing, lost := true)
    requires c == s.(active := None, lock := None, runs := s.runs[id := r])
    ensures c.(busy := false, runs := c.runs - {id}, done := c.done[id := r]) == Unrecorded(s, id)
  {
    assert c.runs - {id} == s.runs - {id};
  }

  /**
   The exception is real: whichever run is awaiting its worker's end, dropping
   its future there leads, through its guards, to a finished run with no record.
   */
  lemma DropWhileTerminatingLosesTheRecord(s: State, id: nat)
    requires Inv(s) && id in s.runs && s.runs[id].phase.Disarmed? && s.runs[id].phase.terminating
    ensures Leads(s, [DropFuture(id), GuardClear(id), ReleaseActive(id), Free(id)], Unrecorded(s, id))
    ensures id !in s.log
  {
    assert RunOk(s, id);
    DropsUnrecorded(s, id);
  }

  lemma DropsUnrecorded(s: State, id: nat)
    requires id in s.runs && s.runs[id].phase.Disarmed? && s.runs[id].phase.terminating
    ensures Leads(s, [DropFuture(id), GuardClear(id), ReleaseActive(id), Free(id)], Unrecorded(s, id))
  {
    DropStep(s, id);
    var a := Dropped(s, id);
    UnwindStep(a, id);
    var b := Apply(a, GuardClear(id));
    ReleaseStep(b, id);
    var c := Apply(b, ReleaseActive(id));
    FreeStep(c, id);
    var d := Apply(c, Free(id));
    UnrecordedForm(s, id, c.runs[id], c);
    Schedules.Nothing(Steps, d);
    Schedules.Before(Steps, c, Free(id), d, [], d);
    assert [Free(id)] + [] == [Free(id)];
    Schedules.Before(Steps, b, ReleaseActive(id), c, [Free(id)], d);
    assert [ReleaseActive(id)] + [Free(id)] == [ReleaseActive(id), Free(id)];
    Schedules.Before(Steps, a, GuardClear(id), b, [ReleaseActive(id), Free(id)], d);
    assert [GuardClear(id)] + [ReleaseActive(id), Free(id)] == [GuardClear(id), ReleaseActive(id), Free(id)];
    Schedules.Before(Steps, s, DropFuture(id), a, [GuardClear(id), ReleaseActive(id), Free(id)], d);
    assert [DropFuture(id)] + [GuardClear(id), ReleaseActive(id), Free(id)]
           == [DropFuture(id), GuardClear(id), ReleaseActive(id), Free(id)];
  }

  // A run from the start in which that happens.

  const ONE_OFF: Request := Request(false, false, true, None)

  /** The only run, at some phase of its way. */
  function At(p: Phase, active: Option<nat>, lock: Option<Holder>, sent: seq<Delivery>): State {
    START.(busy := true, active := active, lock := lock, deliveries := sent,
           runs := map[0 := Run(ONE_OFF, p, 0, None, false)])
  }

  lemma Goes(es: seq<Event>, a: State, e: Event, b: State)
    requires Leads(START, es, a) && Steps(a, e, b)
    ensures Leads(START, es + [e], b)
  {
    Schedules.Then(Steps, START, es, a, e, b);
  }

  lemma Begun() returns (es: seq<Event>)
    ensures Leads(START, es, At(Checked, Some(0), None, []))
  {
    Schedules.Nothing(Steps, START);
    var a, b, c := At(Claimed, None, None, []), At(Starting, Some(0), None, []), At(Checked, Some(0), None, []);
    Goes([], START, Claim(0, ONE_OFF), a);
    es := [] + [Claim(0, ONE_OFF)];
    Goes(es, a, MarkActive(0), b);
    es := es + [MarkActive(0)];
    Goes(es, b, CheckGeneration(0), c);
    es := es + [CheckGeneration(0)];
  }

  const MINE: Option<Holder> := Some(ByRun(0))

  lemma Readied() returns (es: seq<Event>)
    ensures Leads(START, es, At(Spawning(true), Some(0), MINE, []))
  {
    var a, b, c := At(Checked, Some(0), None, []), At(Locked, Some(0), MINE, []), At(Prepared(true), Some(0), MINE, []);
    es := Begun();
    Goes(es, a, TryLock(0), b);
    es := es + [TryLock(0)];
    Goes(es, b, KeepWorker(0), c);
    es := es + [KeepWorker(0)];
    Goes(es, c, BeginSpawn(0), At(Spawning(true), Some(0), MINE, []));
    es := es + [BeginSpawn(0)];
  }

  lemma Armed() returns (es: seq<Event>)
    ensures Leads(START, es, At(Running(None, true, false), Some(0), MINE, []))
  {
    var a, b := At(Spawning(true), Some(0), MINE, []), At(Taken(None, true), Some(0), MINE, []);
    es := Readied();
    Goes(es, a, SpawnOk(0), b);
    es := es + [SpawnOk(0)];
    Goes(es, b, Arm(0), At(Running(None, true, false), Some(0), MINE, []));
    es := es + [Arm(0)];
  }

  lemma Ending() returns (es: seq<Event>, t: State)
    ensures Leads(START, es, t) && t.log == []
    ensures t.runs == map[0 := Run(ONE_OFF, Disarmed(None, true, true), 0, None, false)]
  {
    var sent := [Delivery(0, ONE_OFF, None, false)];
    assert [] + sent == sent;
    var a, b := At(Running(None, true, false), Some(0), MINE, []), At(Running(None, true, true), Some(0), MINE, sent);
    es := Armed();
    Goes(es, a, Send(0), b);
    es := es + [Send(0)];
    t := At(Disarmed(None, true, true), Some(0), MINE, sent);
    Goes(es, b, Complete(0, false), t);
    es := es + [Complete(0, false)];
  }

  /** From a fresh start, a run that is not an inventory run can finish without a record. */
  lemma RecordLost() returns (es: seq<Event>, t: State)
    ensures Leads(START, es, t) && 0 in t.done && !t.done[0].request.inventory && 0 !in t.log && !t.busy
  {
    var s;
    es, s := Ending();
    DropsUnrecorded(s, 0);
    t := Unrecorded(s, 0);
    Schedules.Through(Steps, START, es, s, [DropFuture(0), GuardClear(0), ReleaseActive(0), Free(0)], t);
    es := es + [DropFuture(0), GuardClear(0), ReleaseActive(0), Free(0)];
  }

  /**
   The generation guard over whole runs. A cell sent with expected generation
   g > 0, without reset and not one-off, reaches only the worker whose own spawn
   made the counter g; each generation belongs to one spawn; and state_reset is
   reported exactly when the run's persistent worker was spawned by that run.
   */
  lemma GenerationGuard(es: seq<Event>, t: State, i: nat)
    requires Leads(START, es, t) && i < |t.deliveries|
    ensures var d := t.deliveries[i];
            && (!d.request.oneOff ==> d.generation.Some? && 1 <= d.generation.value <= |t.spawns|)
            && (!d.request.oneOff && !d.request.reset && d.request.expected.Some? && d.request.expected.value > 0 ==>
                  d.generation == d.request.expected)
            && (d.stateReset <==> !d.request.oneOff && t.spawns[d.generation.value - 1] == d.id)
  {
    RunKeeps(START, es, t);
    assert DeliveryOk(t, t.deliveries[i]);
  }

  /** Generations only grow, and a spawn's number is never given to another spawn. */
  lemma {:induction false} GenerationsGrow(s: State, es: seq<Event>, t: State)
    requires Inv(s) && Leads(s, es, t)
    ensures s.generation <= t.generation == |t.spawns| && s.spawns <= t.spawns
    decreases |es|
  {
    if es != [] {
      LeadsFirst(s, es, t);
      StepKeeps(s, es[0]);
      SpawnsAppend(s, es[0]);
      GenerationsGrow(Apply(s, es[0]), es[1..], t);
    } else {
      Schedules.NothingOnly(Steps, s, t);
    }
  }
}
