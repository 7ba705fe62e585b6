/**
 The effect journal as one machine: calls entering and leaving the ledger, the
 coalescing durable writer, the snapshot on disk, crashes and restarts
 (`native/src/broker.rs`). Each event is one lock-held section, one file
 operation, or one future dropped at an await.
 */
module EffectJournal {
  import opened Outcomes
  import opened Ledger
  import Schedules

  const MAX_TICKET: nat := 0xFFFF_FFFF_FFFF_FFFF

  // ----- the shared writer bookkeeping -----

  datatype Io = Io(requested: nat, completed: nat, running: bool, failed: bool)

  /** Take a ticket: a saturating 64-bit counter; the first requester starts the writer. */
  function Schedule(io: Io): (Io, bool) {
    (io.(requested := if io.requested == MAX_TICKET then MAX_TICKET else io.requested + 1, running := true),
     !io.running)
  }

  function FinishRound(io: Io, target: nat, ok: bool): (Io, bool) {
    var again := io.requested > target;
    (io.(completed := target, failed := !ok, running := again && io.running), again)
  }

  /** What a waiter holding ticket `target` sees: not yet, or the latest round's outcome. */
  function Poll(io: Io, target: nat): Option<bool> {
    if io.completed >= target then Some(!io.failed) else None
  }

  // ----- state -----

  datatype Snapshot = Snapshot(records: seq<Record>, version: nat)

  /** Announcing: a round is recorded and its notification is due before the next round. */
  datatype Writer =
    | Idle
    | Looping
    | Chosen(target: nat)
    | Holding(target: nat, snap: Snapshot)
    | Wrote(target: nat, snap: Snapshot, ok: bool)
    | Announcing

  /** A persist wait: not registered, registered (perhaps already woken), or asleep. */
  datatype Wait = Arming | Armed(woken: bool) | Sleeping

  /** `stamp` is the ledger version when the ticket was taken. */
  datatype Ticket = Ticket(target: nat, stamp: nat, wait: Wait)

  datatype Phase =
    | Entered
    | Persisting(ticket: Ticket)
    | Durable
    | Sent
    | Answered(status: string)
    | Abandoned(sent: bool)
    | Settled(waits: bool)
    | Closing(ticket: Ticket)

  /** The record the call entered, and the ledger version that first held it. */
  datatype Call = Call(phase: Phase, since: nat, record: Record)

  /** Facts about the outside: ids ever issued and the replies really received. */
  datatype World = World(born: set<string>, replies: map<string, string>)

  /**
   `past[v]` is the ledger at version v, kept across restarts. `retiring` counts
   writers that have stopped but not yet sent their last notification.
   */
  datatype State =
    | Down(disk: Snapshot, world: World, past: seq<seq<Record>>)
    | Up(disk: Snapshot, world: World, past: seq<seq<Record>>, ledger: seq<Record>, version: nat, io: Io,
         writer: Writer, retiring: nat, calls: map<string, Call>, saturated: bool)

  datatype Event =
    | Enter(id: string, record: Record)
    | Request(id: string)
    | Arm(id: string)
    | Check(id: string)
    | Send(id: string)
    | Reply(id: string, status: string)
    | Lose(id: string)
    | DropFuture(id: string)
    | Settle(id: string, now: nat)
    | Choose
    | Capture
    | Store(ok: bool, replaced: bool)
    | Complete
    | Announce
    | LastAnnounce
    | Crash
    | Restart(ok: bool, replaced: bool)

  predicate Waiting(p: Phase) {
    p.Persisting? || p.Closing?
  }

  predicate NewCall(id: string, r: Record) {
    Named(r, id) && Dispatched(r) && r.finished.None?
  }

  predicate Enabled(s: State, e: Event) {
    match e
    case Enter(id, r) => s.Up? && id !in s.world.born && NewCall(id, r)
    case Request(id) => s.Up? && id in s.calls && (s.calls[id].phase.Entered? || s.calls[id].phase.Settled?)
    case Arm(id) => s.Up? && id in s.calls && Waiting(s.calls[id].phase) && s.calls[id].phase.ticket.wait.Arming?
    case Check(id) => s.Up? && id in s.calls && Waiting(s.calls[id].phase) && s.calls[id].phase.ticket.wait.Armed?
    case Send(id) => s.Up? && id in s.calls && s.calls[id].phase.Durable?
    case Reply(id, status) => s.Up? && id in s.calls && s.calls[id].phase.Sent?
                              && (status == "completed" || status == "tool_error")
    case Lose(id) => s.Up? && id in s.calls && s.calls[id].phase.Sent?
    case DropFuture(id) => s.Up? && id in s.calls && (Waiting(s.calls[id].phase) || s.calls[id].phase.Sent?)
    case Settle(id, now) => s.Up? && id in s.calls && now < Pow10(CLOCK_DIGITS)
                            && (s.calls[id].phase.Answered? || s.calls[id].phase.Abandoned?)
    case Choose => s.Up? && s.writer.Looping?
    case Capture => s.Up? && s.writer.Chosen?
    case Store(ok, replaced) => s.Up? && s.writer.Holding? && (ok ==> replaced)
    case Complete => s.Up? && s.writer.Wrote?
    case Announce => s.Up? && s.writer.Announcing?
    case LastAnnounce => s.Up? && s.retiring > 0
    case Crash => s.Up?
    case Restart(ok, replaced) => s.Down? && (ok ==> replaced) && Load(Written(s.disk.records)).Ok?
  }

  function SetPhase(calls: map<string, Call>, id: string, p: Phase): map<string, Call>
    requires id in calls
  {
    calls[id := calls[id].(phase := p)]
  }

  /** A ticket inside a waiting phase moves without changing anything else. */
  function SetWait(p: Phase, w: Wait): Phase
    requires Waiting(p)
  {
    match p
    case Persisting(t) => Persisting(t.(wait := w))
    case Closing(t) => Closing(t.(wait := w))
  }

  function Woken(p: Phase): Phase {
    if !Waiting(p) then p
    else match p.ticket.wait
      case Arming => p
      case Armed(_) => SetWait(p, Armed(true))
      case Sleeping => SetWait(p, Arming)
  }

  /** notify_waiters: every registered waiter, and only those. */
  function NotifyAll(calls: map<string, Call>): map<string, Call> {
    map id | id in calls :: calls[id].(phase := Woken(calls[id].phase))
  }

  function TakeTicket(s: State, id: string): State
    requires Enabled(s, Request(id))
  {
    var (io, start) := Schedule(s.io);
    var ticket := Ticket(io.requested, s.version, Arming);
    s.(io := io,
       writer := if start then Looping else s.writer,
       saturated := s.saturated || s.io.requested == MAX_TICKET,
       calls := match s.calls[id].phase
         case Entered => SetPhase(s.calls, id, Persisting(ticket))
         case Settled(waits) =>
           if waits then SetPhase(s.calls, id, Closing(ticket)) else s.calls - {id}
         case _ => s.calls)
  }

  function CheckTicket(s: State, id: string): State
    requires Enabled(s, Check(id))
  {
    var p := s.calls[id].phase;
    match Poll(s.io, p.ticket.target)
    case Some(ok) =>
      if p.Closing? then s.(calls := s.calls - {id})
      else s.(calls := SetPhase(s.calls, id, if ok then Durable else Abandoned(false)))
    case None =>
      s.(calls := SetPhase(s.calls, id, SetWait(p, if p.ticket.wait.woken then Arming else Sleeping)))
  }

  function SettleCall(s: State, id: string, now: nat): State
    requires Enabled(s, Settle(id, now))
  {
    var p := s.calls[id].phase;
    var status := if p.Answered? then p.status else "outcome_unknown";
    var ledger := SetStatus(s.ledger, id, status, now);
    s.(ledger := ledger,
       version := s.version + 1,
       past := s.past + [ledger],
       calls := SetPhase(s.calls, id, Settled(p.Answered?)))
  }

  function EnterCall(s: State, id: string, r: Record): State
    requires Enabled(s, Enter(id, r))
  {
    var (outcome, ledger) := Admit(s.ledger, r);
    s.(ledger := ledger,
       version := s.version + 1,
       past := s.past + [ledger],
       world := s.world.(born := s.world.born + {id}),
       calls := if outcome.Admitted? then s.calls[id := Call(Entered, s.version + 1, r)] else s.calls)
  }

  function CompleteRound(s: State): State
    requires Enabled(s, Complete)
  {
    var (io, again) := FinishRound(s.io, s.writer.target, s.writer.ok);
    s.(io := io,
       writer := if again then Announcing else Idle,
       retiring := if again then s.retiring else s.retiring + 1)
  }

  function Boot(s: State, ok: bool, replaced: bool): State
    requires Enabled(s, Restart(ok, replaced))
  {
    var records := Load(Written(s.disk.records)).value;
    var snap := Snapshot(records, |s.past|);
    var past := s.past + [records];
    if ok then
      Up(snap, s.world, past, records, |s.past|, Io(0, 0, false, false), Idle, 0, map[], false)
    else if replaced then Down(snap, s.world, past)
    else s
  }

  function Apply(s: State, e: Event): State
    requires Enabled(s, e)
  {
    match e
    case Enter(id, r) => EnterCall(s, id, r)
    case Request(id) => TakeTicket(s, id)
    case Arm(id) => s.(calls := SetPhase(s.calls, id, SetWait(s.calls[id].phase, Armed(false))))
    case Check(id) => CheckTicket(s, id)
    case Send(id) => s.(calls := SetPhase(s.calls, id, Sent))
    case Reply(id, status) =>
      s.(calls := SetPhase(s.calls, id, Answered(status)),
         world := s.world.(replies := s.world.replies[id := status]))
    case Lose(id) => s.(calls := SetPhase(s.calls, id, Answered("outcome_unknown")))
    case DropFuture(id) =>
      if s.calls[id].phase.Closing? then s.(calls := s.calls - {id})
      else s.(calls := SetPhase(s.calls, id, Abandoned(s.calls[id].phase.Sent?)))
    case Settle(id, now) => SettleCall(s, id, now)
    case Choose => s.(writer := Chosen(s.io.requested))
    case Capture => s.(writer := Holding(s.writer.target, Snapshot(s.ledger, s.version)))
    case Store(ok, replaced) =>
      s.(writer := Wrote(s.writer.target, s.writer.snap, ok),
         disk := if replaced then s.writer.snap else s.disk)
    case Complete => CompleteRound(s)
    case Announce => s.(writer := Looping, calls := NotifyAll(s.calls))
    case LastAnnounce => s.(retiring := s.retiring - 1, calls := NotifyAll(s.calls))
    case Crash => Down(s.disk, s.world, s.past)
    case Restart(ok, replaced) => Boot(s, ok, replaced)
  }

  // ----- what every reachable state satisfies -----

  /** The first record with this id is exactly the call's own, still dispatched. */
  predicate HasInFlight(j: seq<Record>, id: string, r: Record) {
    Find(j, id).Some? && j[Find(j, id).value] == r && Dispatched(r)
  }

  /** Record ids are issued ones, and a received outcome is only claimed when it was received. */
  predicate Honest(r: Record, w: World) {
    r.id.Some? && r.id.value.Text? ==>
      var id := r.id.value.text;
      id in w.born
      && ((r.status == Some(Text("completed")) || r.status == Some(Text("tool_error"))) ==>
            id in w.replies && r.status == Some(Text(w.replies[id])))
  }

  predicate HonestAll(j: seq<Record>, w: World) {
    forall i :: 0 <= i < |j| ==> Honest(j[i], w)
  }

  predicate Sound(j: seq<Record>, w: World) {
    Bounded(j) && HonestAll(j, w)
  }

  /** The snapshot the writer holds, or the one already on disk. */
  function Pending(s: State): Snapshot {
    if s.Up? && (s.writer.Holding? || s.writer.Wrote?) then s.writer.snap else s.disk
  }

  /** The call's record has not been given a terminal status in memory. */
  predicate Open(p: Phase) {
    !p.Settled? && !p.Closing?
  }

  /** The caller was told its record is durable. */
  predicate Stored(p: Phase) {
    p.Durable? || p.Sent? || p.Answered? || p == Abandoned(true)
  }

  predicate Covers(snap: Snapshot, id: string, c: Call) {
    snap.version >= c.since ==> HasInFlight(snap.records, id, c.record)
  }

  predicate TicketOk(s: State, t: Ticket)
    requires s.Up?
  {
    && t.target <= s.io.requested && t.stamp <= s.version
    && (t.wait.Sleeping? && s.io.completed >= t.target ==> s.retiring > 0 || s.writer.Announcing?)
    && (!s.saturated ==>
          && ((s.writer.Holding? || s.writer.Wrote?) && s.writer.target >= t.target ==>
                s.writer.snap.version >= t.stamp)
          && (s.io.completed >= t.target && !s.io.failed ==> s.disk.version >= t.stamp))
  }

  predicate CallOk(s: State, id: string)
    requires s.Up? && id in s.calls
  {
    var c := s.calls[id];
    && id in s.world.born && c.since <= s.version
    && (Open(c.phase) ==>
          HasInFlight(s.ledger, id, c.record) && Covers(s.disk, id, c) && Covers(Pending(s), id, c))
    && (Stored(c.phase) && !s.saturated ==> s.disk.version >= c.since)
    && (Open(c.phase) && !c.phase.Answered? ==> id !in s.world.replies)
    && (c.phase.Persisting? ==> c.phase.ticket.stamp >= c.since)
    && (Waiting(c.phase) ==> TicketOk(s, c.phase.ticket))
    && (c.phase.Answered? ==>
          Terminal(c.phase.status)
          && (c.phase.status != "outcome_unknown" ==>
                id in s.world.replies && s.world.replies[id] == c.phase.status))
  }

  predicate WriterOk(s: State)
    requires s.Up?
  {
    && (s.io.running <==> !s.writer.Idle?)
    && s.io.completed <= s.io.requested <= MAX_TICKET
    && (s.io.requested > s.io.completed ==> s.io.running)
    && (s.writer.Chosen? || s.writer.Holding? || s.writer.Wrote? ==>
          s.io.completed <= s.writer.target <= s.io.requested)
    && s.disk.version <= Pending(s).version <= s.version
    && (s.writer.Wrote? && s.writer.ok ==> s.disk == s.writer.snap)
  }

  predicate RecordsOk(s: State) {
    && s.world.replies.Keys <= s.world.born
    && Sound(s.disk.records, s.world)
    && (s.Up? ==> Sound(s.ledger, s.world) && Sound(Pending(s).records, s.world))
  }

  predicate Recorded(snap: Snapshot, past: seq<seq<Record>>) {
    snap.version < |past| && past[snap.version] == snap.records
  }

  /** Every snapshot is exactly the ledger as it stood at the snapshot's version. */
  predicate PastOk(s: State) {
    && Recorded(s.disk, s.past)
    && (s.Up? ==> Recorded(Pending(s), s.past) && |s.past| == s.version + 1 && s.past[s.version] == s.ledger)
  }

  ghost predicate CallsOk(s: State) {
    s.Up? ==> forall id :: id in s.calls ==> CallOk(s, id)
  }

  ghost predicate Inv(s: State) {
    RecordsOk(s) && PastOk(s) && (s.Up? ==> WriterOk(s)) && CallsOk(s)
  }

  // ----- the ledger operations keep their part -----

  lemma FoundAt(j: seq<Record>, id: string, i: nat)
    requires i < |j| && Named(j[i], id) && forall k :: 0 <= k < i ==> !Named(j[k], id)
    ensures Find(j, id) == Some(i)
  {}

  lemma WithoutKeepsFound(j: seq<Record>, i: nat, id: string, call: Record)
    requires i < |j| && !Dispatched(j[i]) && HasInFlight(j, id, call)
    ensures HasInFlight(Without(j, i), id, call)
  {
    var f := Find(j, id).value;
    FoundAt(Without(j, i), id, if f < i then f else f - 1);
  }

  lemma {:induction false} DropKeepsFound(j: seq<Record>, k: nat, id: string, call: Record)
    requires HasInFlight(j, id, call)
    ensures HasInFlight(DropOldest(j, k), id, call)
    decreases k
  {
    if k > 0 && OldestTerminal(j).Some? {
      var i := OldestTerminal(j).value;
      WithoutKeepsFound(j, i, id, call);
      DropKeepsFound(Without(j, i), k - 1, id, call);
    }
  }

  lemma AdmitKeepsFound(j: seq<Record>, r: Record, id: string, call: Record)
    requires |j| <= MAX_RECORDS && HasInFlight(j, id, call)
    ensures HasInFlight(Admit(j, r).1, id, call)
  {
    var k := Evictions(j, r);
    AdmitDrops(j, r);
    DropKeepsFound(j, k, id, call);
    FoundAt(Admit(j, r).1, id, Find(DropOldest(j, k), id).value);
  }

  lemma AdmitFindsNew(j: seq<Record>, r: Record, id: string, w: World)
    requires |j| <= MAX_RECORDS && HonestAll(j, w) && id !in w.born && NewCall(id, r)
    requires Admit(j, r).0.Admitted?
    ensures HasInFlight(Admit(j, r).1, id, r)
  {
    var k := Evictions(j, r);
    AdmitDrops(j, r);
    DropMembers(j, k);
    var q := DropOldest(j, k);
    forall i | 0 <= i < |q| ensures !Named(q[i], id) { assert q[i] in j; }
    FoundAt(q + [r], id, |q|);
  }

  lemma AdmitKeepsSound(j: seq<Record>, r: Record, id: string, w: World)
    requires Sound(j, w) && id !in w.born && NewCall(id, r)
    ensures Sound(Admit(j, r).1, w.(born := w.born + {id}))
  {
    var k := Evictions(j, r);
    AdmitKeepsBounded(j, r);
    AdmitDrops(j, r);
    DropMembers(j, k);
    var q := Admit(j, r).1;
    forall i | 0 <= i < |q| ensures Honest(q[i], w.(born := w.born + {id})) {
      if i < |DropOldest(j, k)| { assert q[i] in j; }
    }
  }

  lemma SetStatusKeepsFound(j: seq<Record>, id: string, status: string, now: nat, other: string, call: Record)
    requires HasInFlight(j, other, call) && id != other
    ensures HasInFlight(SetStatus(j, id, status, now), other, call)
  {
    FoundAt(SetStatus(j, id, status, now), other, Find(j, other).value);
  }

  lemma SetStatusKeepsSound(j: seq<Record>, id: string, status: string, now: nat, call: Record, w: World)
    requires Sound(j, w) && HasInFlight(j, id, call) && Terminal(status) && now < Pow10(CLOCK_DIGITS)
    requires status != "outcome_unknown" ==> id in w.replies && w.replies[id] == status
    ensures Sound(SetStatus(j, id, status, now), w)
  {
    FinishKeepsBounded(j, id, status, now);
  }

  lemma RecoveryKeepsSound(j: seq<Record>, w: World)
    requires Sound(j, w)
    ensures Sound(RecoveredAll(j), w)
  {
    RecoveryKeepsBounded(j);
  }

  /** Learning one more id or one more reply leaves every earlier claim true. */
  lemma WorldGrows(j: seq<Record>, w: World, v: World)
    requires Sound(j, w) && w.born <= v.born
    requires forall id :: id in w.replies ==> id in v.replies && v.replies[id] == w.replies[id]
    ensures Sound(j, v)
  {}

  // ----- every event keeps the invariant: the records -----

  lemma RecordsAfterEnter(s: State, id: string, r: Record)
    requires RecordsOk(s) && Enabled(s, Enter(id, r))
    ensures RecordsOk(EnterCall(s, id, r))
  {
    var t := EnterCall(s, id, r);
    AdmitKeepsSound(s.ledger, r, id, s.world);
    WorldGrows(s.disk.records, s.world, t.world);
    WorldGrows(Pending(s).records, s.world, t.world);
    assert Pending(t) == Pending(s);
  }

  lemma RecordsAfterReply(s: State, id: string, status: string)
    requires RecordsOk(s) && Enabled(s, Reply(id, status)) && CallOk(s, id)
    ensures RecordsOk(Apply(s, Reply(id, status)))
  {
    var t := Apply(s, Reply(id, status));
    WorldGrows(s.disk.records, s.world, t.world);
    WorldGrows(Pending(s).records, s.world, t.world);
    WorldGrows(s.ledger, s.world, t.world);
    assert Pending(t) == Pending(s);
  }

  lemma RecordsAfterSettle(s: State, id: string, now: nat)
    requires RecordsOk(s) && Enabled(s, Settle(id, now)) && CallOk(s, id)
    ensures RecordsOk(SettleCall(s, id, now))
  {
    var p := s.calls[id].phase;
    var status := if p.Answered? then p.status else "outcome_unknown";
    SetStatusKeepsSound(s.ledger, id, status, now, s.calls[id].record, s.world);
    assert Pending(SettleCall(s, id, now)) == Pending(s);
  }

  lemma RecordsAfterRestart(s: State, ok: bool, replaced: bool)
    requires RecordsOk(s) && Enabled(s, Restart(ok, replaced))
    ensures RecordsOk(Boot(s, ok, replaced))
  {
    ReloadExact(s.disk.records);
    RecoveryKeepsSound(s.disk.records, s.world);
  }

  lemma RecordsAfterMove(s: State, e: Event)
    requires RecordsOk(s) && Enabled(s, e)
    requires !e.Enter? && !e.Reply? && !e.Settle? && !e.Restart?
    ensures RecordsOk(Apply(s, e))
  {
    var t := Apply(s, e);
    assert t.world == s.world && (t.disk == s.disk || t.disk == Pending(s));
    assert t.Up? ==> t.ledger == s.ledger;
  }

  // ----- every event keeps the invariant: the writer -----

  lemma WriterKept(s: State, e: Event)
    requires Enabled(s, e) && (s.Up? ==> WriterOk(s))
    ensures Apply(s, e).Up? ==> WriterOk(Apply(s, e))
  {
    match e
    case Request(id) =>
    case Settle(id, now) =>
    case Enter(id, r) =>
    case Check(id) =>
    case _ =>
  }

  lemma PastKept(s: State, e: Event)
    requires Enabled(s, e) && PastOk(s)
    ensures PastOk(Apply(s, e))
    ensures Apply(s, e).past[..|s.past|] == s.past
  {
    var t := Apply(s, e);
    if e.Enter? || e.Settle? || e.Restart? {
      assert t.past == s.past || t.past[..|s.past|] == s.past;
    }
  }

  // ----- every event keeps the invariant: the calls -----

  /** A call that did not move keeps its part when only other calls changed. */
  lemma Untouched(s: State, t: State, c: string)
    requires s.Up? && t.Up? && t == s.(calls := t.calls)
    requires c in s.calls && c in t.calls && t.calls[c] == s.calls[c] && CallOk(s, c)
    ensures CallOk(t, c)
  {}

  lemma CallAfterEnter(s: State, id: string, r: Record, c: string)
    requires Enabled(s, Enter(id, r)) && WriterOk(s)
    requires |s.ledger| <= MAX_RECORDS && HonestAll(s.ledger, s.world)
    requires s.world.replies.Keys <= s.world.born
    requires c in EnterCall(s, id, r).calls && (c in s.calls ==> CallOk(s, c))
    ensures CallOk(EnterCall(s, id, r), c)
  {
    var t := EnterCall(s, id, r);
    assert Pending(t) == Pending(s);
    if c in s.calls {
      if Open(s.calls[c].phase) { AdmitKeepsFound(s.ledger, r, c, s.calls[c].record); }
    } else {
      AdmitFindsNew(s.ledger, r, id, s.world);
    }
  }

  lemma CallAfterRequest(s: State, id: string, c: string)
    requires Enabled(s, Request(id)) && WriterOk(s) && CallOk(s, id)
    requires c in TakeTicket(s, id).calls && CallOk(s, c)
    ensures CallOk(TakeTicket(s, id), c)
  {
    assert Pending(TakeTicket(s, id)) == Pending(s);
  }

  lemma CheckAnswered(s: State, id: string)
    requires Enabled(s, Check(id)) && WriterOk(s) && CallOk(s, id) && s.calls[id].phase.Persisting?
    requires Poll(s.io, s.calls[id].phase.ticket.target).Some?
    ensures id in CheckTicket(s, id).calls && CallOk(CheckTicket(s, id), id)
  {
    assert Pending(CheckTicket(s, id)) == Pending(s);
  }

  lemma CheckWaits(s: State, id: string)
    requires Enabled(s, Check(id)) && WriterOk(s) && CallOk(s, id)
    requires Poll(s.io, s.calls[id].phase.ticket.target).None?
    ensures id in CheckTicket(s, id).calls && CallOk(CheckTicket(s, id), id)
  {
    assert Pending(CheckTicket(s, id)) == Pending(s);
  }

  lemma CallAfterCheck(s: State, id: string)
    requires Enabled(s, Check(id)) && WriterOk(s) && CallOk(s, id)
    requires id in CheckTicket(s, id).calls
    ensures CallOk(CheckTicket(s, id), id)
  {
    if Poll(s.io, s.calls[id].phase.ticket.target).None? { CheckWaits(s, id); }
    else if s.calls[id].phase.Persisting? { CheckAnswered(s, id); }
  }

  lemma CallAfterSettle(s: State, id: string, now: nat, c: string)
    requires Enabled(s, Settle(id, now)) && WriterOk(s) && CallOk(s, id)
    requires c in s.calls && CallOk(s, c)
    ensures CallOk(SettleCall(s, id, now), c)
  {
    var p := s.calls[id].phase;
    assert Pending(SettleCall(s, id, now)) == Pending(s);
    if c != id && Open(s.calls[c].phase) {
      SetStatusKeepsFound(s.ledger, id, if p.Answered? then p.status else "outcome_unknown", now, c, s.calls[c].record);
    }
  }

  /** Events that only move one call between phases. */
  lemma CallAfterMove(s: State, e: Event)
    requires Enabled(s, e) && (e.Arm? || e.Send? || e.Lose? || e.DropFuture?)
    requires WriterOk(s) && CallOk(s, e.id) && e.id in Apply(s, e).calls
    ensures CallOk(Apply(s, e), e.id)
  {
    assert Pending(Apply(s, e)) == Pending(s);
  }

  lemma CallAfterReply(s: State, id: string, status: string, c: string)
    requires Enabled(s, Reply(id, status)) && WriterOk(s) && CallOk(s, id)
    requires c in s.calls && CallOk(s, c)
    ensures CallOk(Apply(s, Reply(id, status)), c)
  {
    assert Pending(Apply(s, Reply(id, status))) == Pending(s);
  }

  lemma CallAfterWrite(s: State, e: Event, c: string)
    requires Enabled(s, e) && (e.Choose? || e.Capture? || e.Store? || e.Complete?)
    requires WriterOk(s) && c in s.calls && CallOk(s, c)
    ensures CallOk(Apply(s, e), c)
  {}

  lemma CallAfterAnnounce(s: State, e: Event, c: string)
    requires Enabled(s, e) && (e.Announce? || e.LastAnnounce?)
    requires WriterOk(s) && c in s.calls && CallOk(s, c)
    ensures CallOk(Apply(s, e), c)
  {
    assert Pending(Apply(s, e)) == Pending(s);
  }

  lemma CallAfterOwnEvent(s: State, e: Event, c: string)
    requires Enabled(s, e) && (e.Check? || e.Arm? || e.Send? || e.Lose? || e.DropFuture?)
    requires WriterOk(s) && CallsOk(s) && c in Apply(s, e).calls
    ensures CallOk(Apply(s, e), c)
  {
    if c != e.id {
      Untouched(s, Apply(s, e), c);
    } else if e.Check? {
      CallAfterCheck(s, c);
    } else {
      CallAfterMove(s, e);
    }
  }

  lemma CallKept(s: State, e: Event, c: string)
    requires RecordsOk(s) && CallsOk(s) && (s.Up? ==> WriterOk(s))
    requires Enabled(s, e) && Apply(s, e).Up? && c in Apply(s, e).calls
    ensures CallOk(Apply(s, e), c)
  {
    match e
    case Enter(id, r) => CallAfterEnter(s, id, r, c);
    case Request(id) => CallAfterRequest(s, id, c);
    case Settle(id, now) => CallAfterSettle(s, id, now, c);
    case Reply(id, status) => CallAfterReply(s, id, status, c);
    case Announce => CallAfterAnnounce(s, e, c);
    case LastAnnounce => CallAfterAnnounce(s, e, c);
    case Choose => CallAfterWrite(s, e, c);
    case Capture => CallAfterWrite(s, e, c);
    case Store(_, _) => CallAfterWrite(s, e, c);
    case Complete => CallAfterWrite(s, e, c);
    case Restart(_, _) =>
    case _ => CallAfterOwnEvent(s, e, c);
  }

  /** One event of any kind keeps the whole invariant. */
  lemma StepKeeps(s: State, e: Event)
    requires Inv(s) && Enabled(s, e)
    ensures Inv(Apply(s, e))
  {
    match e {
      case Enter(id, r) => RecordsAfterEnter(s, id, r);
      case Reply(id, status) => RecordsAfterReply(s, id, status);
      case Settle(id, now) => RecordsAfterSettle(s, id, now);
      case Restart(ok, replaced) => RecordsAfterRestart(s, ok, replaced);
      case _ => RecordsAfterMove(s, e);
    }
    WriterKept(s, e);
    PastKept(s, e);
    forall c | Apply(s, e).Up? && c in Apply(s, e).calls ensures CallOk(Apply(s, e), c) {
      CallKept(s, e, c);
    }
  }

  // ----- runs -----

  predicate Steps(s: State, e: Event, t: State) {
    Enabled(s, e) && t == Apply(s, e)
  }

  /** `es` leads from `s` to `t`, in whatever order the tasks were scheduled. */
  ghost predicate Runs(s: State, es: seq<Event>, t: State) {
    Schedules.Leads(Steps, s, es, t)
  }

  lemma RunsFirst(s: State, es: seq<Event>, t: State)
    requires Runs(s, es, t) && es != []
    ensures Enabled(s, es[0]) && Runs(Apply(s, es[0]), es[1..], t)
  {
    var m := Schedules.First(Steps, s, es, t);
    assert Steps(s, es[0], m);
  }

  /** Before the first start: an absent or previously written journal file. */
  predicate Initial(s: State) {
    s.Down? && RecordsOk(s) && PastOk(s)
  }

  lemma {:induction false} RunKeeps(s: State, es: seq<Event>, t: State)
    requires Inv(s) && Runs(s, es, t)
    ensures Inv(t)
    decreases es
  {
    if es != [] {
      RunsFirst(s, es, t);
      StepKeeps(s, es[0]);
      RunKeeps(Apply(s, es[0]), es[1..], t);
    } else {
      Schedules.NothingOnly(Steps, s, t);
    }
  }

  /**
   Write-ahead safety. In every state any run reaches, a call that was sent and
   has no status in memory yet has its own record, unaltered and dispatched, in
   the file on disk, so a crash at this point and a successful load give back
   that record as outcome_unknown.
   */
  lemma WriteAhead(s: State, es: seq<Event>, t: State, id: string)
    requires Initial(s) && Runs(s, es, t)
    requires t.Up? && !t.saturated && id in t.calls && Stored(t.calls[id].phase)
    ensures HasInFlight(t.disk.records, id, t.calls[id].record)
    ensures Load(Written(t.disk.records)).Ok? ==>
              var found := Find(t.disk.records, id).value;
              var loaded := Load(Written(t.disk.records)).value;
              found < |loaded| && loaded[found] == t.calls[id].record.(status := Some(Text("outcome_unknown")))
  {
    RunKeeps(s, es, t);
    assert CallOk(t, id);
    ReloadExact(t.disk.records);
  }

  /**
   No file and no recovery of it ever claims an outcome that was not received:
   a completed or tool_error record names a call whose reply said just that, and
   a load leaves no record dispatched.
   */
  lemma RecoveryInventsNothing(s: State, es: seq<Event>, t: State, i: nat)
    requires Initial(s) && Runs(s, es, t)
    requires Load(Written(t.disk.records)).Ok? && i < |Load(Written(t.disk.records)).value|
    ensures !Dispatched(Load(Written(t.disk.records)).value[i])
    ensures Honest(Load(Written(t.disk.records)).value[i], t.world)
  {
    RunKeeps(s, es, t);
    ReloadExact(t.disk.records);
    RecoveryKeepsSound(t.disk.records, t.world);
  }

  /**
   When a persist wait reports success, the file on disk is the ledger as it
   stood at some version no older than the moment the wait took its ticket,
   whichever round wrote it.
   */
  lemma PersistedMeansWritten(s: State, es: seq<Event>, t: State, id: string)
    requires Initial(s) && Runs(s, es, t)
    requires t.Up? && id in t.calls && Waiting(t.calls[id].phase) && !t.saturated
    requires Poll(t.io, t.calls[id].phase.ticket.target) == Some(true)
    ensures t.calls[id].phase.ticket.stamp <= t.disk.version < |t.past|
    ensures t.disk.records == t.past[t.disk.version]
  {
    RunKeeps(s, es, t);
    assert CallOk(t, id);
  }

  // ----- past the end of the ticket counter -----

  /** Whatever round answers `target` successfully from here on leaves at least `version` on disk. */
  predicate Promised(s: State, target: nat, version: nat)
    requires s.Up?
  {
    && version <= s.version
    && (s.writer.Holding? && s.writer.target >= target ==> s.writer.snap.version >= version)
    && (s.writer.Wrote? && s.writer.ok && s.writer.target >= target ==> s.writer.snap.version >= version)
    && (s.io.completed >= target && !s.io.failed ==> s.disk.version >= version)
  }

  /** The call has asked for its first round, and is told of success only with its record on disk. */
  predicate Guarded(s: State, id: string, since: nat, target: nat) {
    id in s.world.born
    && (s.Up? && id in s.calls ==>
          var c := s.calls[id];
          && c.since == since && !c.phase.Entered?
          && (c.phase.Persisting? ==> c.phase.ticket.target == target && Promised(s, target, since))
          && (Stored(c.phase) ==> s.disk.version >= since))
  }

  lemma PromisedStep(s: State, e: Event, target: nat, version: nat)
    requires s.Up? && WriterOk(s) && Enabled(s, e) && !e.Crash? && Promised(s, target, version)
    ensures Apply(s, e).Up? && Promised(Apply(s, e), target, version)
  {}

  lemma GuardedOwn(s: State, e: Event, id: string, since: nat, target: nat)
    requires s.Up? && WriterOk(s) && Enabled(s, e) && Guarded(s, id, since, target) && id in s.calls
    requires (e.Request? || e.Check? || e.Arm? || e.Send? || e.Reply? || e.Lose? || e.DropFuture? || e.Settle?)
    requires e.id == id
    ensures Guarded(Apply(s, e), id, since, target)
  {}

  lemma GuardedWriter(s: State, e: Event, id: string, since: nat, target: nat)
    requires s.Up? && WriterOk(s) && Enabled(s, e) && Guarded(s, id, since, target) && id in s.calls
    requires WriterEvent(e) || e.LastAnnounce?
    ensures Guarded(Apply(s, e), id, since, target)
  {
    if s.calls[id].phase.Persisting? { PromisedStep(s, e, target, since); }
  }

  lemma GuardedOther(s: State, e: Event, id: string, since: nat, target: nat)
    requires s.Up? && WriterOk(s) && Enabled(s, e) && Guarded(s, id, since, target) && id in s.calls
    requires !WriterEvent(e) && !e.LastAnnounce? && !e.Crash? && e.id != id
    ensures Guarded(Apply(s, e), id, since, target)
  {
    if s.calls[id].phase.Persisting? { PromisedStep(s, e, target, since); }
  }

  /** A call that is gone never comes back: its id is not issued again. */
  lemma GuardedGone(s: State, e: Event, id: string, since: nat, target: nat)
    requires Enabled(s, e) && id in s.world.born && (s.Up? ==> id !in s.calls)
    ensures Guarded(Apply(s, e), id, since, target)
  {}

  lemma GuardedStep(s: State, e: Event, id: string, since: nat, target: nat)
    requires Inv(s) && Enabled(s, e) && Guarded(s, id, since, target)
    ensures Guarded(Apply(s, e), id, since, target)
  {
    if s.Down? || id !in s.calls { GuardedGone(s, e, id, since, target); }
    else if WriterEvent(e) || e.LastAnnounce? { GuardedWriter(s, e, id, since, target); }
    else if !e.Crash? {
      if e.id == id { GuardedOwn(s, e, id, since, target); } else { GuardedOther(s, e, id, since, target); }
    }
  }

  lemma {:induction false} GuardedRun(s: State, es: seq<Event>, t: State, id: string, since: nat, target: nat)
    requires Inv(s) && Runs(s, es, t) && Guarded(s, id, since, target)
    ensures Inv(t) && Guarded(t, id, since, target)
    decreases es
  {
    if es != [] {
      RunsFirst(s, es, t);
      StepKeeps(s, es[0]);
      GuardedStep(s, es[0], id, since, target);
      GuardedRun(Apply(s, es[0]), es[1..], t, id, since, target);
    } else {
      Schedules.NothingOnly(Steps, s, t);
    }
  }

  /**
   The last ticket is already answered, or about to be answered, by a round that
   is older than `since`, so another request for it shares that round's outcome.
   */
  predicate Stale(s: State, since: nat)
    requires s.Up?
  {
    s.io.requested == MAX_TICKET
    && ((s.io.completed == MAX_TICKET && !s.io.failed && s.disk.version < since)
        || (s.writer.Holding? && s.writer.target == MAX_TICKET && s.writer.snap.version < since)
        || (s.writer.Wrote? && s.writer.ok && s.writer.target == MAX_TICKET && s.writer.snap.version < since))
  }

  lemma RequestGuards(s: State, id: string)
    requires Inv(s) && Enabled(s, Request(id)) && s.calls[id].phase.Entered? && !Stale(s, s.calls[id].since)
    ensures Guarded(Apply(s, Request(id)), id, s.calls[id].since, Schedule(s.io).0.requested)
  {
    assert CallOk(s, id);
  }

  /** The call was told its record is durable, and the file is older than the record. */
  predicate Misled(t: State, id: string) {
    t.Up? && id in t.calls && t.calls[id].phase.Durable? && t.disk.version < t.calls[id].since
  }

  predicate AsksLast(s: State, id: string) {
    s.Up? && id in s.calls && s.io.requested == MAX_TICKET && s.calls[id].phase.Persisting?
    && s.calls[id].phase.ticket.target == MAX_TICKET && s.calls[id].phase.ticket.wait.Arming?
  }

  lemma MisledAtOnce(s: State, id: string) returns (es: seq<Event>, t: State)
    requires AsksLast(s, id)
    requires s.io.completed == MAX_TICKET && !s.io.failed && s.disk.version < s.calls[id].since
    ensures Runs(s, es, t) && Misled(t, id)
  {
    var a := Apply(s, Arm(id));
    t := Apply(a, Check(id));
    Schedules.Nothing(Steps, t);
    Schedules.Before(Steps, a, Check(id), t, [], t);
    Schedules.Before(Steps, s, Arm(id), a, [Check(id)] + [], t);
    es := [Arm(id)] + ([Check(id)] + []);
  }

  lemma MisledAfterWrote(s: State, id: string) returns (es: seq<Event>, t: State)
    requires AsksLast(s, id) && s.writer.Wrote? && s.writer.ok && s.writer.target == MAX_TICKET
    requires s.disk == s.writer.snap && s.writer.snap.version < s.calls[id].since
    ensures Runs(s, es, t) && Misled(t, id)
  {
    var a := Apply(s, Complete);
    es, t := MisledAtOnce(a, id);
    Schedules.Before(Steps, s, Complete, a, es, t);
    es := [Complete] + es;
  }

  lemma MisledAfterHolding(s: State, id: string) returns (es: seq<Event>, t: State)
    requires AsksLast(s, id) && s.writer.Holding? && s.writer.target == MAX_TICKET
    requires s.writer.snap.version < s.calls[id].since
    ensures Runs(s, es, t) && Misled(t, id)
  {
    var e := Store(true, true);
    var a := Apply(s, e);
    es, t := MisledAfterWrote(a, id);
    Schedules.Before(Steps, s, e, a, es, t);
    es := [e] + es;
  }

  lemma StaleMisleads(s: State, id: string) returns (es: seq<Event>, t: State)
    requires Inv(s) && Enabled(s, Request(id)) && s.calls[id].phase.Entered? && Stale(s, s.calls[id].since)
    ensures Runs(Apply(s, Request(id)), es, t) && Misled(t, id)
  {
    var a := Apply(s, Request(id));
    if s.io.completed == MAX_TICKET && !s.io.failed && s.disk.version < s.calls[id].since {
      es, t := MisledAtOnce(a, id);
    } else if s.writer.Holding? {
      es, t := MisledAfterHolding(a, id);
    } else {
      es, t := MisledAfterWrote(a, id);
    }
  }

  /**
   Exactly when a call can be told that its record is durable while the file is
   older than the record: its request for a ticket met the saturating 64-bit
   counter at its end, with the last ticket answered, or about to be answered, by
   an older round.
   */
  lemma SaturationSkipsTheWrite(s: State, id: string)
    requires Inv(s) && Enabled(s, Request(id)) && s.calls[id].phase.Entered?
    ensures Stale(s, s.calls[id].since) <==>
            exists es, t :: Runs(Apply(s, Request(id)), es, t) && Misled(t, id)
  {
    if Stale(s, s.calls[id].since) {
      var es, t := StaleMisleads(s, id);
    } else {
      RequestGuards(s, id);
      StepKeeps(s, Request(id));
      forall es, t | Runs(Apply(s, Request(id)), es, t) ensures !Misled(t, id) {
        GuardedRun(Apply(s, Request(id)), es, t, id, s.calls[id].since, Schedule(s.io).0.requested);
      }
    }
  }

  lemma GuardedIsAhead(t: State, id: string, since: nat, target: nat)
    requires CallsOk(t) && Guarded(t, id, since, target) && t.Up? && id in t.calls && Stored(t.calls[id].phase)
    ensures HasInFlight(t.disk.records, id, t.calls[id].record)
  {
    assert CallOk(t, id);
  }

  /** Every other call is written ahead, however often the counter has saturated. */
  lemma WriteAheadUnlessStale(s: State, id: string, es: seq<Event>, t: State)
    requires Inv(s) && Enabled(s, Request(id)) && s.calls[id].phase.Entered? && !Stale(s, s.calls[id].since)
    requires Runs(Apply(s, Request(id)), es, t) && t.Up? && id in t.calls && Stored(t.calls[id].phase)
    ensures HasInFlight(t.disk.records, id, t.calls[id].record)
  {
    RequestGuards(s, id);
    StepKeeps(s, Request(id));
    GuardedRun(Apply(s, Request(id)), es, t, id, s.calls[id].since, Schedule(s.io).0.requested);
    GuardedIsAhead(t, id, s.calls[id].since, Schedule(s.io).0.requested);
  }

  /** The file on disk never goes back to an older version, across crashes too. */
  lemma {:induction false} DiskNeverGoesBack(s: State, es: seq<Event>, t: State)
    requires Inv(s) && Runs(s, es, t)
    ensures s.disk.version <= t.disk.version
    decreases es
  {
    if es != [] {
      RunsFirst(s, es, t);
      StepKeeps(s, es[0]);
      DiskNeverGoesBack(Apply(s, es[0]), es[1..], t);
    } else {
      Schedules.NothingOnly(Steps, s, t);
    }
  }

  /** Writer events left before ticket `target` is completed; zero when it is. */
  function Remaining(s: State, target: nat): nat
    requires s.Up?
  {
    if s.io.completed >= target then 0
    else match s.writer
      case Looping => 4
      case Chosen(t) => 3 + if t < target then 5 else 0
      case Holding(t, _) => 2 + if t < target then 5 else 0
      case Wrote(t, _, _) => 1 + if t < target then 5 else 0
      case Announcing => 5
      case Idle => 0
  }

  predicate WriterEvent(e: Event) {
    e.Choose? || e.Capture? || e.Store? || e.Complete? || e.Announce?
  }

  lemma RemainingMoves(s: State, target: nat, e: Event)
    requires s.Up? && WriterOk(s) && target <= s.io.requested && Enabled(s, e) && !e.Crash?
    ensures s.io.completed < target ==> !s.writer.Idle? && 1 <= Remaining(s, target) <= 8
    ensures s.io.completed < target && WriterEvent(e) ==>
              Remaining(Apply(s, e), target) < Remaining(s, target)
    ensures !WriterEvent(e) ==> Remaining(Apply(s, e), target) == Remaining(s, target)
  {}

  /**
   No waiter is stranded. A pending ticket has a running writer; each writer
   event brings its round strictly nearer and no other event pushes it back, so
   at most eight of them complete it; and a sleeper whose round is over still
   has a notification coming.
   */
  lemma NoStrandedWaiter(s: State, es: seq<Event>, t: State, id: string, e: Event)
    requires Initial(s) && Runs(s, es, t)
    requires t.Up? && id in t.calls && Waiting(t.calls[id].phase)
    requires Enabled(t, e) && !e.Crash?
    ensures var target := t.calls[id].phase.ticket.target;
            && (t.io.completed < target ==> !t.writer.Idle? && 1 <= Remaining(t, target) <= 8)
            && (t.io.completed < target && WriterEvent(e) ==> Remaining(Apply(t, e), target) < Remaining(t, target))
            && (!WriterEvent(e) ==> Remaining(Apply(t, e), target) == Remaining(t, target))
            && (t.io.completed >= target && t.calls[id].phase.ticket.wait.Sleeping? ==>
                  t.retiring > 0 || t.writer.Announcing?)
  {
    RunKeeps(s, es, t);
    assert CallOk(t, id);
    RemainingMoves(t, t.calls[id].phase.ticket.target, e);
  }

  /** Restart is refused exactly when some record on disk has over-long or control text. */
  lemma RestartExact(s: State, es: seq<Event>, t: State)
    requires Initial(s) && Runs(s, es, t)
    ensures Load(Written(t.disk.records)).Ok? <==> forall r :: r in t.disk.records ==> MetadataOk(r)
  {
    RunKeeps(s, es, t);
    ReloadExact(t.disk.records);
  }

  // ----- which runs can always be restarted -----

  predicate AllMetadataOk(j: seq<Record>) {
    forall r :: r in j ==> MetadataOk(r)
  }

  predicate MetadataKept(s: State) {
    && AllMetadataOk(s.disk.records)
    && (s.Up? ==> AllMetadataOk(s.ledger) && AllMetadataOk(Pending(s).records))
  }

  predicate EntersMetadataOk(e: Event) {
    e.Enter? ==> MetadataOk(e.record)
  }

  lemma {:induction false} AsciiLength(s: string)
    requires forall i :: 0 <= i < |s| ==> s[i] as int < 0x80
    ensures ByteLength(s) == |s|
  {
    if s != "" { AsciiLength(s[1..]); }
  }

  predicate Printable(s: string) {
    forall i :: 0 <= i < |s| ==> 0x20 <= s[i] as int < 0x7f
  }

  lemma PrintableFieldOk(s: string)
    requires |s| <= 400 && Printable(s)
    ensures FieldOk(Some(Text(s)), 400)
  {
    AsciiLength(s);
  }

  lemma StatusIsShort(status: string)
    requires Terminal(status)
    ensures FieldOk(Some(Text(status)), 400)
  {
    PrintableFieldOk(status);
  }

  lemma AdmitKeepsMetadata(j: seq<Record>, r: Record)
    requires |j| <= MAX_RECORDS && AllMetadataOk(j) && MetadataOk(r)
    ensures AllMetadataOk(Admit(j, r).1)
  {
    AdmitDrops(j, r);
    DropMembers(j, Evictions(j, r));
    var q := DropOldest(j, Evictions(j, r));
    forall x | x in Admit(j, r).1 ensures MetadataOk(x) {
      assert x == r || x in q;
    }
  }

  lemma StampKeepsMetadata(r: Record, status: string, now: nat)
    requires MetadataOk(r) && Terminal(status)
    ensures MetadataOk(Stamp(r, status, now))
  {
    StatusIsShort(status);
  }

  lemma SettleKeepsMetadata(j: seq<Record>, id: string, status: string, now: nat)
    requires AllMetadataOk(j) && Terminal(status)
    ensures AllMetadataOk(SetStatus(j, id, status, now))
  {
    if Find(j, id).Some? {
      StampKeepsMetadata(j[Find(j, id).value], status, now);
    }
  }

  lemma RecoveredMetadata(r: Record)
    requires MetadataOk(r)
    ensures MetadataOk(Recovered(r))
  {
    StatusIsShort("outcome_unknown");
  }

  lemma RecoveryKeepsMetadata(j: seq<Record>)
    requires AllMetadataOk(j)
    ensures AllMetadataOk(RecoveredAll(j))
  {
    forall r | r in RecoveredAll(j) ensures MetadataOk(r) {
      var i :| 0 <= i < |RecoveredAll(j)| && RecoveredAll(j)[i] == r;
      assert j[i] in j;
      RecoveredMetadata(j[i]);
    }
  }

  lemma MetadataAfterBoot(s: State, ok: bool, replaced: bool)
    requires RecordsOk(s) && MetadataKept(s) && Enabled(s, Restart(ok, replaced))
    ensures MetadataKept(Boot(s, ok, replaced))
  {
    ReloadExact(s.disk.records);
    RecoveryKeepsMetadata(s.disk.records);
  }

  lemma MetadataAfterMove(s: State, e: Event)
    requires MetadataKept(s) && Enabled(s, e) && !e.Enter? && !e.Settle? && !e.Restart?
    ensures MetadataKept(Apply(s, e))
  {
    var t := Apply(s, e);
    assert t.disk == s.disk || t.disk == Pending(s);
    assert t.Up? ==>
             t.ledger == s.ledger
             && (Pending(t) == Pending(s) || Pending(t).records == s.ledger || Pending(t) == t.disk);
  }

  lemma MetadataStep(s: State, e: Event)
    requires Inv(s) && MetadataKept(s) && Enabled(s, e) && EntersMetadataOk(e)
    ensures MetadataKept(Apply(s, e))
  {
    if e.Enter? {
      AdmitKeepsMetadata(s.ledger, e.record);
      assert Pending(Apply(s, e)) == Pending(s);
    } else if e.Settle? {
      assert CallOk(s, e.id);
      var p := s.calls[e.id].phase;
      SettleKeepsMetadata(s.ledger, e.id, if p.Answered? then p.status else "outcome_unknown", e.now);
      assert Pending(Apply(s, e)) == Pending(s);
    } else if e.Restart? {
      MetadataAfterBoot(s, e.ok, e.replaced);
    } else {
      MetadataAfterMove(s, e);
    }
  }

  lemma {:induction false} MetadataRun(s: State, es: seq<Event>, t: State)
    requires Inv(s) && MetadataKept(s) && Runs(s, es, t)
    requires forall i :: 0 <= i < |es| ==> EntersMetadataOk(es[i])
    ensures MetadataKept(t) && Inv(t)
    decreases es
  {
    if es != [] {
      RunsFirst(s, es, t);
      assert EntersMetadataOk(es[0]);
      StepKeeps(s, es[0]);
      MetadataStep(s, es[0]);
      forall i | 0 <= i < |es[1..]| ensures EntersMetadataOk(es[1..][i]) { assert es[1..][i] == es[i + 1]; }
      MetadataRun(Apply(s, es[0]), es[1..], t);
    } else {
      Schedules.NothingOnly(Steps, s, t);
    }
  }

  /** While every call's metadata is short and control-free, every file a run leaves can be loaded. */
  lemma GoodCallsAlwaysRestart(s: State, es: seq<Event>, t: State)
    requires Initial(s) && Runs(s, es, t) && AllMetadataOk(s.disk.records)
    requires forall i :: 0 <= i < |es| ==> EntersMetadataOk(es[i])
    ensures Load(Written(t.disk.records)).Ok?
  {
    MetadataRun(s, es, t);
    RestartExact(s, es, t);
  }

  /** And one sent call whose metadata is not makes the file unloadable at that very point. */
  lemma BadCallBlocksRestart(s: State, es: seq<Event>, t: State, id: string)
    requires Initial(s) && Runs(s, es, t)
    requires t.Up? && !t.saturated && id in t.calls && Stored(t.calls[id].phase) && !MetadataOk(t.calls[id].record)
    ensures Load(Written(t.disk.records)).Err?
  {
    WriteAhead(s, es, t, id);
    RestartExact(s, es, t);
    assert t.calls[id].record in t.disk.records;
  }

  // ----- one terminal status each -----

  /** The server stays up over these events. */
  predicate StaysUp(e: Event) {
    !e.Crash? && !e.Restart?
  }

  /** This record is the entered one, or a dispatched record stamped with its one terminal status. */
  predicate NewIn(s: State, e: Event, r: Record)
    requires s.Up?
  {
    || (e.Enter? && r == e.record)
    || (e.Settle? && e.id in s.calls && HasInFlight(s.ledger, e.id, s.calls[e.id].record)
        && r == Stamp(s.calls[e.id].record, SettledStatus(s, e.id), e.now))
  }

  function SettledStatus(s: State, id: string): string
    requires s.Up? && id in s.calls
  {
    if s.calls[id].phase.Answered? then s.calls[id].phase.status else "outcome_unknown"
  }

  /** No event changes a record except by finishing a dispatched one. */
  lemma TerminalIsFinal(s: State, e: Event, r: Record)
    requires Inv(s) && s.Up? && Enabled(s, e) && StaysUp(e) && r in Apply(s, e).ledger
    ensures r in s.ledger || NewIn(s, e, r)
  {
    if e.Enter? {
      AdmitDrops(s.ledger, e.record);
      DropMembers(s.ledger, Evictions(s.ledger, e.record));
      assert r == e.record || r in DropOldest(s.ledger, Evictions(s.ledger, e.record));
    } else if e.Settle? {
      assert CallOk(s, e.id);
    } else {
      SameLedger(s, e);
    }
  }

  lemma SameLedger(s: State, e: Event)
    requires s.Up? && Enabled(s, e) && StaysUp(e) && !e.Enter? && !e.Settle?
    ensures Apply(s, e).Up? && Apply(s, e).ledger == s.ledger && Apply(s, e).world.born == s.world.born
  {}

  /** A terminal record stays as it is until an admission evicts it. */
  lemma TerminalStays(s: State, e: Event, r: Record)
    requires Inv(s) && s.Up? && Enabled(s, e) && StaysUp(e) && !e.Enter? && r in s.ledger && !Dispatched(r)
    ensures r in Apply(s, e).ledger
  {
    if e.Settle? {
      assert CallOk(s, e.id);
      var i :| 0 <= i < |s.ledger| && s.ledger[i] == r;
      assert Apply(s, e).ledger[i] == r;
    } else {
      SameLedger(s, e);
    }
  }

  /** Every dispatched record is the first with its id and belongs to a call that is still open. */
  predicate LiveAt(j: seq<Record>, calls: map<string, Call>, i: nat)
    requires i < |j|
  {
    j[i].id.Some? && j[i].id.value.Text?
    && var id := j[i].id.value.text;
    id in calls && Open(calls[id].phase) && Find(j, id) == Some(i)
  }

  predicate AllLive(j: seq<Record>, calls: map<string, Call>) {
    forall i :: 0 <= i < |j| && Dispatched(j[i]) ==> LiveAt(j, calls, i)
  }

  lemma LiveWithout(j: seq<Record>, calls: map<string, Call>, m: nat)
    requires AllLive(j, calls) && m < |j| && !Dispatched(j[m])
    ensures AllLive(Without(j, m), calls)
  {
    var q := Without(j, m);
    forall i | 0 <= i < |q| && Dispatched(q[i]) ensures LiveAt(q, calls, i) {
      var k := if i < m then i else i + 1;
      assert q[i] == j[k] && LiveAt(j, calls, k);
      FoundAt(q, j[k].id.value.text, i);
    }
  }

  lemma {:induction false} LiveDrop(j: seq<Record>, calls: map<string, Call>, k: nat)
    requires AllLive(j, calls)
    ensures AllLive(DropOldest(j, k), calls)
    decreases k
  {
    if k > 0 && OldestTerminal(j).Some? {
      LiveWithout(j, calls, OldestTerminal(j).value);
      LiveDrop(Without(j, OldestTerminal(j).value), calls, k - 1);
    }
  }

  lemma LiveAppend(j: seq<Record>, calls: map<string, Call>, r: Record, id: string, c: Call)
    requires AllLive(j, calls) && NewCall(id, r) && Open(c.phase)
    requires forall i :: 0 <= i < |j| ==> !Named(j[i], id)
    ensures AllLive(j + [r], calls[id := c])
  {
    var q := j + [r];
    FoundAt(q, id, |j|);
    forall i | 0 <= i < |j| && Dispatched(q[i]) ensures LiveAt(q, calls[id := c], i) {
      assert LiveAt(j, calls, i);
      FoundAt(q, j[i].id.value.text, i);
    }
  }

  lemma LiveStamp(j: seq<Record>, calls: map<string, Call>, id: string, status: string, now: nat, p: Phase)
    requires AllLive(j, calls) && Find(j, id).Some? && Terminal(status) && id in calls
    ensures AllLive(SetStatus(j, id, status, now), SetPhase(calls, id, p))
  {
    var k := Find(j, id).value;
    var q := SetStatus(j, id, status, now);
    forall i | 0 <= i < |q| && Dispatched(q[i]) ensures LiveAt(q, SetPhase(calls, id, p), i) {
      assert i != k && LiveAt(j, calls, i);
      FoundAt(q, j[i].id.value.text, i);
    }
  }

  lemma LiveCalls(j: seq<Record>, calls: map<string, Call>, later: map<string, Call>)
    requires AllLive(j, calls)
    requires forall c :: c in calls && Open(calls[c].phase) ==> c in later && Open(later[c].phase)
    ensures AllLive(j, later)
  {
    forall i | 0 <= i < |j| && Dispatched(j[i]) ensures LiveAt(j, later, i) { assert LiveAt(j, calls, i); }
  }

  lemma OpenStays(s: State, e: Event, c: string)
    requires s.Up? && Enabled(s, e) && StaysUp(e) && !e.Enter? && !e.Settle? && !e.Announce? && !e.LastAnnounce?
    requires c in s.calls && Open(s.calls[c].phase)
    ensures c in Apply(s, e).calls && Open(Apply(s, e).calls[c].phase)
  {}

  lemma OpenStaysNotified(s: State, e: Event, c: string)
    requires s.Up? && Enabled(s, e) && (e.Announce? || e.LastAnnounce?)
    requires c in s.calls && Open(s.calls[c].phase)
    ensures c in Apply(s, e).calls && Open(Apply(s, e).calls[c].phase)
  {}

  lemma LiveAfterEnter(s: State, id: string, r: Record)
    requires RecordsOk(s) && Enabled(s, Enter(id, r)) && AllLive(s.ledger, s.calls)
    ensures AllLive(EnterCall(s, id, r).ledger, EnterCall(s, id, r).calls)
  {
    var k := Evictions(s.ledger, r);
    AdmitDrops(s.ledger, r);
    LiveDrop(s.ledger, s.calls, k);
    var q := DropOldest(s.ledger, k);
    if Admit(s.ledger, r).0.Admitted? {
      DropMembers(s.ledger, k);
      forall i | 0 <= i < |q| ensures !Named(q[i], id) { assert q[i] in s.ledger; }
      LiveAppend(q, s.calls, r, id, Call(Entered, s.version + 1, r));
    } else {
      assert q + [] == q;
    }
  }

  lemma LiveAfterSettle(s: State, id: string, now: nat)
    requires Enabled(s, Settle(id, now)) && CallOk(s, id) && AllLive(s.ledger, s.calls)
    ensures AllLive(SettleCall(s, id, now).ledger, SettleCall(s, id, now).calls)
  {
    LiveStamp(s.ledger, s.calls, id, SettledStatus(s, id), now, Settled(s.calls[id].phase.Answered?));
  }

  lemma LiveAfterRestart(s: State, ok: bool, replaced: bool)
    requires RecordsOk(s) && Enabled(s, Restart(ok, replaced)) && Boot(s, ok, replaced).Up?
    ensures AllLive(Boot(s, ok, replaced).ledger, Boot(s, ok, replaced).calls)
  {
    ReloadExact(s.disk.records);
  }

  predicate Live(s: State) {
    s.Up? ==> AllLive(s.ledger, s.calls)
  }

  lemma LiveStep(s: State, e: Event)
    requires Inv(s) && Live(s) && Enabled(s, e)
    ensures Live(Apply(s, e))
  {
    if e.Enter? {
      LiveAfterEnter(s, e.id, e.record);
    } else if e.Settle? {
      assert CallOk(s, e.id);
      LiveAfterSettle(s, e.id, e.now);
    } else if e.Restart? {
      if Apply(s, e).Up? { LiveAfterRestart(s, e.ok, e.replaced); }
    } else if !e.Crash? {
      SameLedger(s, e);
      forall c | c in s.calls && Open(s.calls[c].phase)
        ensures c in Apply(s, e).calls && Open(Apply(s, e).calls[c].phase)
      {
        if e.Announce? || e.LastAnnounce? { OpenStaysNotified(s, e, c); } else { OpenStays(s, e, c); }
      }
      LiveCalls(s.ledger, s.calls, Apply(s, e).calls);
    }
  }

  lemma {:induction false} LiveRun(s: State, es: seq<Event>, t: State)
    requires Inv(s) && Live(s) && Runs(s, es, t)
    ensures Inv(t) && Live(t)
    decreases es
  {
    if es != [] {
      RunsFirst(s, es, t);
      StepKeeps(s, es[0]);
      LiveStep(s, es[0]);
      LiveRun(Apply(s, es[0]), es[1..], t);
    } else {
      Schedules.NothingOnly(Steps, s, t);
    }
  }

  /**
   In every reachable state a dispatched record belongs to a call that is still
   open: once a call is over, whichever way it ended, its record is terminal or
   has been evicted.
   */
  lemma OverMeansTerminal(s: State, es: seq<Event>, t: State, r: Record)
    requires Initial(s) && Runs(s, es, t) && t.Up? && r in t.ledger && Dispatched(r)
    ensures r.id.Some? && r.id.value.Text?
    ensures var id := r.id.value.text;
            id in t.calls && Open(t.calls[id].phase) && t.calls[id].record == r
  {
    LiveRun(s, es, t);
    var i :| 0 <= i < |t.ledger| && t.ledger[i] == r;
    assert LiveAt(t.ledger, t.calls, i);
    assert CallOk(t, r.id.value.text);
  }

  /** No record with this id is waiting for its status. */
  predicate Decided(s: State, id: string)
    requires s.Up?
  {
    id in s.world.born && forall r :: r in s.ledger && Named(r, id) ==> !Dispatched(r)
  }

  lemma DecidedStep(s: State, e: Event, id: string)
    requires Inv(s) && s.Up? && Enabled(s, e) && StaysUp(e) && Decided(s, id)
    ensures Apply(s, e).Up? && Decided(Apply(s, e), id)
    ensures forall r :: r in Apply(s, e).ledger && Named(r, id) ==> r in s.ledger
  {
    forall r | r in Apply(s, e).ledger && Named(r, id) ensures r in s.ledger {
      TerminalIsFinal(s, e, r);
    }
    if !e.Enter? && !e.Settle? { SameLedger(s, e); }
  }

  lemma {:induction false} DecidedRun(s: State, es: seq<Event>, t: State, id: string)
    requires Inv(s) && s.Up? && Runs(s, es, t) && Decided(s, id)
    requires forall i :: 0 <= i < |es| ==> StaysUp(es[i])
    ensures t.Up? && forall r :: r in t.ledger && Named(r, id) ==> r in s.ledger
    decreases es
  {
    if es != [] {
      RunsFirst(s, es, t);
      assert StaysUp(es[0]);
      StepKeeps(s, es[0]);
      DecidedStep(s, es[0], id);
      forall i | 0 <= i < |es[1..]| ensures StaysUp(es[1..][i]) { assert es[1..][i] == es[i + 1]; }
      DecidedRun(Apply(s, es[0]), es[1..], t, id);
    } else {
      Schedules.NothingOnly(Steps, s, t);
    }
  }

  /**
   Each record gets exactly one terminal status. In any reachable state, once a
   call is over, every record with its id is terminal, and while the server runs
   none is rewritten: later ones with that id were all there already.
   */
  lemma OneTerminalStatus(start: State, before: seq<Event>, s: State, es: seq<Event>, t: State, id: string)
    requires Initial(start) && Runs(start, before, s) && s.Up? && Runs(s, es, t)
    requires forall i :: 0 <= i < |es| ==> StaysUp(es[i])
    requires id in s.world.born && (id in s.calls ==> !Open(s.calls[id].phase))
    ensures forall r :: r in s.ledger && Named(r, id) ==> !Dispatched(r)
    ensures t.Up? && forall r :: r in t.ledger && Named(r, id) ==> r in s.ledger
  {
    RunKeeps(start, before, s);
    forall r | r in s.ledger && Named(r, id) ensures !Dispatched(r) {
      if Dispatched(r) { OverMeansTerminal(start, before, s, r); }
    }
    DecidedRun(s, es, t, id);
  }
}
