/**
 Sessions and the brokers they share (`native/src/sessions.rs`): the commit at
 the end of open, close, and the two sweeps of a server shutdown. Each runs with
 the locks it holds, so each is one step.
 */
module Sessions {
  import opened Outcomes
  import Schedules

  const SESSION_LIMIT: nat := 32

  datatype Session = Session(project: string, broker: nat)

  /**
   `home` gives every broker ever prepared its project, and `retired` holds the
   brokers that a close has handed to shutdown. `swept` is set once a server
   shutdown has drained the broker table. `closing` holds the closes that have
   left the tables and not ended, `owners` the sessions registered with the
   artifact store, and `down` the brokers whose shutdown has finished.
   */
  datatype State = State(
    sessions: map<nat, Session>, brokers: map<string, nat>, home: map<nat, string>, ids: set<nat>,
    retired: set<nat>, swept: bool, default: nat, closing: map<nat, Closing>, owners: set<nat>, down: set<nat>)

  /** A close waits for its supervisor to stop, then, if it took a broker, for that one's shutdown. */
  datatype Closing = Stopping(broker: Option<nat>) | Stopped(taken: nat)

  datatype Opened = Opened(id: nat) | LimitReached | OwnerRefused

  datatype Closed = Closed(broker: Option<nat>) | IsDefault | NotFound

  /** The broker the commit settles on: the project's registered one, else the one just prepared. */
  function Chosen(brokers: map<string, nat>, project: string, staged: nat): nat {
    if project in brokers then brokers[project] else staged
  }

  /** open's commit; `registered` is whether the artifact store took the new owner. */
  function Open(s: State, id: nat, project: string, staged: nat, registered: bool): (State, Opened) {
    if |s.sessions| >= SESSION_LIMIT then (s, LimitReached)
    else
      var broker := Chosen(s.brokers, project, staged);
      var t := s.(brokers := s.brokers[project := broker]);
      if !registered then (t, OwnerRefused)
      else (t.(sessions := s.sessions[id := Session(project, broker)]), Opened(id))
  }

  predicate ProjectOpen(sessions: map<nat, Session>, project: string) {
    exists i :: i in sessions && sessions[i].project == project
  }

  function Close(s: State, id: nat): (State, Closed) {
    if id == s.default then (s, IsDefault)
    else if id !in s.sessions then (s, NotFound)
    else
      var project := s.sessions[id].project;
      var left := s.sessions - {id};
      if ProjectOpen(left, project) || project !in s.brokers then (s.(sessions := left), Closed(None))
      else (s.(sessions := left, brokers := s.brokers - {project}), Closed(Some(s.brokers[project])))
  }

  /** get: the named session, or the default one. */
  function Found(s: State, id: Option<nat>): Option<Session> {
    var key := match id case Some(i) => i case None => s.default;
    if key in s.sessions then Some(s.sessions[key]) else None
  }

  datatype Event =
    | Commit(id: nat, project: string, staged: nat, registered: bool)
    | CloseSession(id: nat)
    | EndOwner(id: nat)
    | ShutDown(id: nat)
    | DropClose(id: nat)
    | DrainSessions
    | DrainBrokers

  /** Every open prepares a session and a broker that no one else has. */
  predicate Enabled(s: State, e: Event) {
    match e
    case Commit(id, project, staged, registered) => id !in s.ids && staged !in s.home
    case EndOwner(id) => id in s.closing && s.closing[id].Stopping?
    case ShutDown(id) => id in s.closing && s.closing[id].Stopped?
    case DropClose(id) => id in s.closing
    case _ => true
  }

  /** The supervisor has stopped: the owner is removed, and a broker's shutdown begins. */
  function RemoveOwner(s: State, id: nat): State
    requires Enabled(s, EndOwner(id))
  {
    var closing := match s.closing[id].broker
      case Some(b) => s.closing[id := Stopped(b)]
      case None => s.closing - {id};
    s.(owners := s.owners - {id}, closing := closing)
  }

  function Apply(s: State, e: Event): State
    requires Enabled(s, e)
  {
    match e
    case Commit(id, project, staged, registered) =>
      var (t, r) := Open(s, id, project, staged, registered);
      t.(ids := s.ids + {id}, home := s.home[staged := project],
         owners := if r.Opened? then s.owners + {id} else s.owners)
    case CloseSession(id) =>
      var (t, r) := Close(s, id);
      if !r.Closed? then t
      else
        t.(closing := t.closing[id := Stopping(r.broker)],
           retired := if r.broker.Some? then t.retired + {r.broker.value} else t.retired)
    case EndOwner(id) => RemoveOwner(s, id)
    case ShutDown(id) => s.(closing := s.closing - {id}, down := s.down + {s.closing[id].taken})
    case DropClose(id) => s.(closing := s.closing - {id})
    case DrainSessions => s.(sessions := map[])
    case DrainBrokers => s.(brokers := map[], swept := true)
  }

  // ----- what every reachable state satisfies -----

  /** A registered or used broker was prepared for that very project, and no close has retired it. */
  predicate HomeOk(s: State) {
    && (forall p :: p in s.brokers ==>
          s.brokers[p] in s.home && s.home[s.brokers[p]] == p && s.brokers[p] !in s.retired)
    && (forall b :: b in s.retired ==> b in s.home)
    && (forall i :: i in s.sessions ==> SessionOk(s, i))
    && |s.sessions| <= SESSION_LIMIT
  }

  predicate SessionOk(s: State, i: nat)
    requires i in s.sessions
  {
    var x := s.sessions[i];
    i in s.ids && x.broker in s.home && s.home[x.broker] == x.project && x.broker !in s.retired
  }

  /** Every open session uses the broker registered for its project. */
  predicate Owned(s: State) {
    forall i :: i in s.sessions ==>
      s.sessions[i].project in s.brokers && s.brokers[s.sessions[i].project] == s.sessions[i].broker
  }

  predicate Inv(s: State) {
    HomeOk(s) && (!s.swept ==> Owned(s))
  }

  lemma SizeOfInsert(m: map<nat, Session>, i: nat, x: Session)
    ensures |m[i := x]| <= |m| + 1
  {
    assert m[i := x].Keys == m.Keys + {i};
    assert |m[i := x].Keys| == |m[i := x]| && |m.Keys| == |m|;
  }

  lemma SizeOfRemove(m: map<nat, Session>, i: nat)
    ensures |m - {i}| <= |m|
  {
    assert (m - {i}).Keys == m.Keys - {i};
    assert |(m - {i}).Keys| == |m - {i}| && |m.Keys| == |m|;
  }

  /** The invariant is about the tables only. */
  lemma SameTables(s: State, t: State)
    requires Inv(s) && t == s.(closing := t.closing, owners := t.owners, down := t.down)
    ensures Inv(t)
  {
    forall i | i in t.sessions ensures SessionOk(t, i) { assert SessionOk(s, i); }
  }

  lemma CommitRefused(s: State, e: Event)
    requires Inv(s) && e.Commit? && Enabled(s, e) && |s.sessions| >= SESSION_LIMIT
    ensures Inv(Apply(s, e))
  {
    forall i | i in s.sessions ensures SessionOk(Apply(s, e), i) { assert SessionOk(s, i); }
  }

  /** The table after a commit registered its broker; no session has been added yet. */
  lemma RegisterKeeps(s: State, id: nat, project: string, staged: nat)
    requires Inv(s) && id !in s.ids && staged !in s.home
    ensures var b := Chosen(s.brokers, project, staged);
            var t := s.(brokers := s.brokers[project := b], ids := s.ids + {id}, home := s.home[staged := project]);
            Inv(t) && b in t.home && t.home[b] == project && b !in t.retired
  {
    var b := Chosen(s.brokers, project, staged);
    var t := s.(brokers := s.brokers[project := b], ids := s.ids + {id}, home := s.home[staged := project]);
    forall i | i in t.sessions ensures SessionOk(t, i) { assert SessionOk(s, i); }
  }

  lemma JoinKeeps(s: State, id: nat, x: Session)
    requires Inv(s) && |s.sessions| < SESSION_LIMIT && id in s.ids
    requires x.project in s.brokers && s.brokers[x.project] == x.broker
    ensures Inv(s.(sessions := s.sessions[id := x]))
  {
    SizeOfInsert(s.sessions, id, x);
    var t := s.(sessions := s.sessions[id := x]);
    forall i | i in t.sessions ensures SessionOk(t, i) { if i != id { assert SessionOk(s, i); } }
  }

  lemma CommitKeeps(s: State, e: Event)
    requires Inv(s) && e.Commit? && Enabled(s, e)
    ensures Inv(Apply(s, e))
  {
    if |s.sessions| >= SESSION_LIMIT {
      CommitRefused(s, e);
    } else {
      RegisterKeeps(s, e.id, e.project, e.staged);
      var b := Chosen(s.brokers, e.project, e.staged);
      var t := s.(brokers := s.brokers[e.project := b], ids := s.ids + {e.id}, home := s.home[e.staged := e.project]);
      if e.registered {
        JoinKeeps(t, e.id, Session(e.project, b));
        SameTables(t.(sessions := t.sessions[e.id := Session(e.project, b)]), Apply(s, e));
      }
    }
  }

  lemma LeaveKeeps(s: State, id: nat)
    requires Inv(s)
    ensures Inv(s.(sessions := s.sessions - {id}))
  {
    SizeOfRemove(s.sessions, id);
    var t := s.(sessions := s.sessions - {id});
    forall i | i in t.sessions ensures SessionOk(t, i) { assert SessionOk(s, i); }
  }

  lemma RetireKeeps(s: State, project: string)
    requires Inv(s) && !ProjectOpen(s.sessions, project) && project in s.brokers
    ensures Inv(s.(brokers := s.brokers - {project}, retired := s.retired + {s.brokers[project]}))
  {
    var t := s.(brokers := s.brokers - {project}, retired := s.retired + {s.brokers[project]});
    forall i | i in t.sessions ensures SessionOk(t, i) {
      assert SessionOk(s, i) && s.sessions[i].project != project;
    }
  }

  lemma CloseKeeps(s: State, id: nat)
    requires Inv(s)
    ensures Inv(Apply(s, CloseSession(id)))
  {
    if id != s.default && id in s.sessions {
      LeaveKeeps(s, id);
      var left, project := s.(sessions := s.sessions - {id}), s.sessions[id].project;
      if ProjectOpen(left.sessions, project) || project !in s.brokers {
        SameTables(left, Apply(s, CloseSession(id)));
      } else {
        RetireKeeps(left, project);
        var t := left.(brokers := left.brokers - {project}, retired := left.retired + {left.brokers[project]});
        SameTables(t, Apply(s, CloseSession(id)));
      }
    }
  }

  lemma StepKeeps(s: State, e: Event)
    requires Inv(s) && Enabled(s, e)
    ensures Inv(Apply(s, e))
  {
    match e
    case Commit(_, _, _, _) => CommitKeeps(s, e);
    case CloseSession(id) => CloseKeeps(s, id);
    case EndOwner(_) => SameTables(s, Apply(s, e));
    case ShutDown(_) => SameTables(s, Apply(s, e));
    case DropClose(_) => SameTables(s, Apply(s, e));
    case DrainSessions =>
    case DrainBrokers =>
      forall i | i in s.sessions ensures SessionOk(Apply(s, e), i) { assert SessionOk(s, i); }
  }

  predicate Steps(s: State, e: Event, t: State) {
    Enabled(s, e) && t == Apply(s, e)
  }

  /** `es` leads from `s` to `t`, in whatever order the tasks were scheduled. */
  ghost predicate Leads(s: State, es: seq<Event>, t: State) {
    Schedules.Leads(Steps, s, es, t)
  }

  lemma LeadsFirst(s: State, es: seq<Event>, t: State)
    requires Leads(s, es, t) && es != []
    ensures Enabled(s, es[0]) && Leads(Apply(s, es[0]), es[1..], t)
  {
    var m := Schedules.First(Steps, s, es, t);
    assert Steps(s, es[0], m);
  }

  /** A server starts with its default session and that session's broker. */
  function Start(project: string): State {
    State(map[0 := Session(project, 0)], map[project := 0], map[0 := project], {0}, {}, false, 0, map[], {0}, {})
  }

  lemma {:induction false} RunKeeps(s: State, es: seq<Event>, t: State)
    requires Inv(s) && Leads(s, es, t)
    ensures Inv(t)
    decreases |es|
  {
    if es != [] {
      LeadsFirst(s, es, t);
      StepKeeps(s, es[0]);
      RunKeeps(Apply(s, es[0]), es[1..], t);
    } else {
      Schedules.NothingOnly(Steps, s, t);
    }
  }

  lemma StartInv(project: string)
    ensures Inv(Start(project))
  {}

  lemma StartKeeps(project: string, es: seq<Event>, t: State)
    requires Leads(Start(project), es, t)
    ensures Inv(t)
  {
    StartInv(project);
    RunKeeps(Start(project), es, t);
  }

  // ----- theorems -----

  /**
   Until a shutdown drains the broker table: at most 32 sessions, each using the
   broker registered for its project, and two share a broker exactly when they
   share a project.
   */
  lemma BrokerOwnership(project: string, es: seq<Event>, t: State, i: nat, k: nat)
    requires Leads(Start(project), es, t) && !t.swept && i in t.sessions && k in t.sessions
    ensures |t.sessions| <= SESSION_LIMIT
    ensures t.sessions[i].project in t.brokers && t.brokers[t.sessions[i].project] == t.sessions[i].broker
    ensures t.sessions[i].broker == t.sessions[k].broker <==> t.sessions[i].project == t.sessions[k].project
  {
    StartKeeps(project, es, t);
    assert SessionOk(t, i) && SessionOk(t, k);
  }

  lemma RetiredStep(s: State, e: Event)
    requires Enabled(s, e)
    ensures s.retired <= Apply(s, e).retired
  {}

  lemma {:induction false} RetiredForever(s: State, es: seq<Event>, t: State)
    requires Leads(s, es, t)
    ensures s.retired <= t.retired
    decreases |es|
  {
    if es != [] {
      LeadsFirst(s, es, t);
      RetiredStep(s, es[0]);
      RetiredForever(Apply(s, es[0]), es[1..], t);
    } else {
      Schedules.NothingOnly(Steps, s, t);
    }
  }

  lemma HandedIsRetired(s: State, id: nat)
    requires Close(s, id).1.Closed? && Close(s, id).1.broker.Some?
    ensures Close(s, id).1.broker.value in Apply(s, CloseSession(id)).retired
  {}

  lemma RetiredIsUnused(t: State, b: nat)
    requires HomeOk(t) && b in t.retired
    ensures forall i :: i in t.sessions ==> t.sessions[i].broker != b
    ensures forall p :: p in t.brokers ==> t.brokers[p] != b
  {
    forall i | i in t.sessions ensures t.sessions[i].broker != b { assert SessionOk(t, i); }
  }

  lemma RetiresForGood(s: State, id: nat, later: seq<Event>, t: State)
    requires Inv(s) && Leads(Apply(s, CloseSession(id)), later, t)
    requires Close(s, id).1.Closed? && Close(s, id).1.broker.Some?
    ensures forall i :: i in t.sessions ==> t.sessions[i].broker != Close(s, id).1.broker.value
    ensures forall p :: p in t.brokers ==> t.brokers[p] != Close(s, id).1.broker.value
  {
    var u := Apply(s, CloseSession(id));
    HandedIsRetired(s, id);
    CloseKeeps(s, id);
    RunKeeps(u, later, t);
    RetiredForever(u, later, t);
    RetiredIsUnused(t, Close(s, id).1.broker.value);
  }

  /**
   A broker that a close hands to shutdown is not used by any session open then
   or at any later time, a server shutdown under way or not, and is never
   registered again.
   */
  lemma ClosedBrokerIsNeverUsed(project: string, es: seq<Event>, s: State, id: nat, later: seq<Event>, t: State)
    requires Leads(Start(project), es, s) && Leads(Apply(s, CloseSession(id)), later, t)
    requires Close(s, id).1.Closed? && Close(s, id).1.broker.Some?
    ensures var b := Close(s, id).1.broker.value;
            (forall i :: i in t.sessions ==> t.sessions[i].broker != b)
            && forall p :: p in t.brokers ==> t.brokers[p] != b
  {
    StartKeeps(project, es, s);
    RetiresForGood(s, id, later, t);
  }

  /** Close shuts a broker down exactly when it closed the project's last session; it is that session's own. */
  lemma LastCloseShutsDown(project: string, es: seq<Event>, s: State, id: nat)
    requires Leads(Start(project), es, s) && !s.swept && id in s.sessions && id != s.default
    ensures Close(s, id).1 ==
            if exists k :: k in s.sessions && k != id && s.sessions[k].project == s.sessions[id].project
            then Closed(None)
            else Closed(Some(s.sessions[id].broker))
  {
    StartKeeps(project, es, s);
    var left := s.sessions - {id};
    if k :| k in s.sessions && k != id && s.sessions[k].project == s.sessions[id].project {
      assert k in left;
    }
  }

  /**
   What get hands out: until a shutdown drains the broker table, the session it
   returns uses the broker registered for its project.
   */
  lemma SessionHandedOut(project: string, es: seq<Event>, t: State, id: Option<nat>)
    requires Leads(Start(project), es, t) && !t.swept && Found(t, id).Some?
    ensures var x := Found(t, id).value;
            x.project in t.brokers && t.brokers[x.project] == x.broker && x.broker !in t.retired
  {
    StartKeeps(project, es, t);
    var key := match id case Some(i) => i case None => t.default;
    assert SessionOk(t, key);
  }

  predicate NoSweep(es: seq<Event>) {
    forall i :: 0 <= i < |es| ==> !es[i].DrainSessions? && !es[i].DrainBrokers?
  }

  /** Without an id, get always has an answer until a shutdown: the default session is never closed. */
  lemma {:induction false} DefaultStaysOpen(s: State, es: seq<Event>, t: State)
    requires Leads(s, es, t) && NoSweep(es) && Found(s, None).Some?
    ensures Found(t, None).Some? && t.default == s.default
    decreases |es|
  {
    if es != [] {
      LeadsFirst(s, es, t);
      assert !es[0].DrainSessions? && !es[0].DrainBrokers?;
      RestNoSweep(es);
      DefaultStaysOpen(Apply(s, es[0]), es[1..], t);
    } else {
      Schedules.NothingOnly(Steps, s, t);
    }
  }

  lemma RestNoSweep(es: seq<Event>)
    requires es != [] && NoSweep(es)
    ensures NoSweep(es[1..])
  {
    forall i | 0 <= i < |es[1..]| ensures !es[1..][i].DrainSessions? && !es[1..][i].DrainBrokers? {
      assert es[1..][i] == es[i + 1];
    }
  }

  // ----- brokers that no session uses -----

  /** A registered broker whose project has no open session. */
  predicate Orphan(s: State, project: string) {
    project in s.brokers && !ProjectOpen(s.sessions, project)
  }

  predicate NoOrphan(s: State) {
    forall p :: p in s.brokers ==> ProjectOpen(s.sessions, p)
  }

  /** The commit's owner was refused after it registered a broker for a project with no session. */
  predicate Abandons(s: State, e: Event, project: string) {
    && e.Commit? && e.project == project && |s.sessions| < SESSION_LIMIT
    && !e.registered && !ProjectOpen(s.sessions, project)
  }

  predicate Adopts(s: State, e: Event, project: string) {
    e.Commit? && e.project == project && |s.sessions| < SESSION_LIMIT && e.registered
  }

  lemma StillOpen(s: map<nat, Session>, t: map<nat, Session>, project: string)
    requires ProjectOpen(s, project) && forall i :: i in s ==> i in t && t[i] == s[i]
    ensures ProjectOpen(t, project)
  {
    var i :| i in s && s[i].project == project;
    assert i in t && t[i].project == project;
  }

  lemma OrphanAfterCommit(s: State, e: Event, project: string)
    requires HomeOk(s) && e.Commit? && Enabled(s, e)
    ensures Orphan(Apply(s, e), project) <==>
            Abandons(s, e, project) || (Orphan(s, project) && !Adopts(s, e, project))
  {
    var t := Apply(s, e);
    forall i | i in s.sessions ensures i in t.sessions && t.sessions[i] == s.sessions[i] { assert SessionOk(s, i); }
    if ProjectOpen(s.sessions, project) { StillOpen(s.sessions, t.sessions, project); }
    if Adopts(s, e, project) { assert t.sessions[e.id].project == project; }
  }

  lemma OrphanAfterClose(s: State, id: nat, project: string)
    ensures Orphan(Apply(s, CloseSession(id)), project) <==> Orphan(s, project)
  {
    if id != s.default && id in s.sessions {
      var left, mine := s.sessions - {id}, s.sessions[id].project;
      assert ProjectOpen(s.sessions, mine);
      if project != mine && ProjectOpen(s.sessions, project) {
        var i :| i in s.sessions && s.sessions[i].project == project;
        assert i in left && left[i].project == project;
      }
    }
  }

  /**
   Exactly when a commit leaves a broker that no session uses, where there was
   none: the owner was refused and the project has no other session. A close
   never does.
   */
  lemma CommitLeavesOrphan(s: State, e: Event)
    requires HomeOk(s) && NoOrphan(s) && e.Commit? && Enabled(s, e)
    ensures NoOrphan(Apply(s, e)) <==> !Abandons(s, e, e.project)
  {
    forall p ensures Orphan(Apply(s, e), p) <==> Abandons(s, e, p) {
      OrphanAfterCommit(s, e, p);
    }
    assert NoOrphan(Apply(s, e)) <==> forall p :: p in Apply(s, e).brokers ==> !Orphan(Apply(s, e), p);
    if Abandons(s, e, e.project) { assert Orphan(Apply(s, e), e.project); }
  }

  lemma CloseLeavesNoOrphan(s: State, id: nat)
    requires NoOrphan(s)
    ensures NoOrphan(Apply(s, CloseSession(id)))
  {
    var t := Apply(s, CloseSession(id));
    forall p | p in t.brokers ensures ProjectOpen(t.sessions, p) {
      OrphanAfterClose(s, id, p);
      assert !Orphan(s, p);
    }
  }

  predicate NeverAdopted(s: State, es: seq<Event>, project: string)
    decreases |es|
  {
    es == [] || !Enabled(s, es[0])
    || (!Adopts(s, es[0], project) && NeverAdopted(Apply(s, es[0]), es[1..], project))
  }

  /** Some event of the schedule abandons the project's broker and none after it adopts it. */
  predicate LeftOver(s: State, es: seq<Event>, project: string)
    decreases |es|
  {
    es != [] && Enabled(s, es[0])
    && ((Abandons(s, es[0], project) && NeverAdopted(Apply(s, es[0]), es[1..], project))
        || LeftOver(Apply(s, es[0]), es[1..], project))
  }

  lemma OrphanStep(s: State, e: Event, project: string)
    requires HomeOk(s) && Enabled(s, e) && !e.DrainSessions? && !e.DrainBrokers?
    ensures Orphan(Apply(s, e), project) <==>
            Abandons(s, e, project) || (Orphan(s, project) && !Adopts(s, e, project))
  {
    if e.Commit? { OrphanAfterCommit(s, e, project); }
    else if e.CloseSession? { OrphanAfterClose(s, e.id, project); }
  }

  lemma {:induction false} OrphanRun(s: State, es: seq<Event>, t: State, project: string)
    requires Inv(s) && Leads(s, es, t) && NoSweep(es)
    ensures Orphan(t, project) <==>
            LeftOver(s, es, project) || (Orphan(s, project) && NeverAdopted(s, es, project))
    decreases |es|
  {
    if es != [] {
      LeadsFirst(s, es, t);
      StepKeeps(s, es[0]);
      OrphanStep(s, es[0], project);
      RestNoSweep(es);
      OrphanRun(Apply(s, es[0]), es[1..], t, project);
    } else {
      Schedules.NothingOnly(Steps, s, t);
    }
  }

  /**
   Over every run up to a shutdown: a project has a broker that no session uses
   if and only if one of its opens was refused its owner while the project had no
   session, and no later open of it succeeded. The next one to succeed hands out
   a session on the very broker that was left.
   */
  lemma UnusedBrokerExactly(project: string, es: seq<Event>, t: State, p: string)
    requires Leads(Start(project), es, t) && NoSweep(es)
    ensures Orphan(t, p) <==> LeftOver(Start(project), es, p)
    ensures Orphan(t, p) ==> forall e: Event :: Enabled(t, e) && Adopts(t, e, p) ==>
              Found(Apply(t, e), Some(e.id)) == Some(Session(p, t.brokers[p]))
  {
    StartInv(project);
    OrphanRun(Start(project), es, t, p);
    StartHasNoOrphan(project);
  }

  lemma StartHasNoOrphan(project: string)
    ensures NoOrphan(Start(project))
  {
    assert Start(project).sessions[0].project == project;
  }

  /**
   The shutdown sweeps the two tables one after the other. The second sweep keeps
   every open session on a registered broker exactly when none is open, that is,
   when no open committed between them.
   */
  lemma SweepKeepsOwnership(s: State)
    ensures Owned(Apply(s, DrainBrokers)) <==> s.sessions == map[]
  {
    if s.sessions != map[] {
      var i :| i in s.sessions;
      assert Apply(s, DrainBrokers).sessions[i].project !in Apply(s, DrainBrokers).brokers;
    }
  }

  /** One such run: a session opened between the sweeps uses a broker the shutdown has taken. */
  lemma OpenDuringShutdown(project: string)
    ensures var s := Apply(Start(project), DrainSessions);
            && Enabled(s, Commit(1, project, 1, true))
            && var t := Apply(Apply(s, Commit(1, project, 1, true)), DrainBrokers);
            1 in t.sessions && t.sessions[1].broker == 0 && 0 in s.brokers.Values && !Owned(t)
  {
    var s := Apply(Start(project), DrainSessions);
    assert s.brokers[project] == 0;
    SweepKeepsOwnership(Apply(s, Commit(1, project, 1, true)));
    assert 1 in Apply(s, Commit(1, project, 1, true)).sessions;
  }

  // ----- closes that end, and closes that are dropped -----

  function BrokerOf(c: Closing): Option<nat> {
    match c
    case Stopping(b) => b
    case Stopped(b) => Some(b)
  }

  /** Some close still running will shut this broker down. */
  predicate Pending(s: State, b: nat) {
    exists id :: id in s.closing && BrokerOf(s.closing[id]) == Some(b)
  }

  predicate ClosingOk(s: State, id: nat)
    requires id in s.closing
  {
    var b := BrokerOf(s.closing[id]);
    && id !in s.sessions && (s.closing[id].Stopping? <==> id in s.owners)
    && (b.Some? ==>
          b.value in s.retired && b.value !in s.down
          && forall k :: k in s.closing && BrokerOf(s.closing[k]) == b ==> k == id)
  }

  /** A running close has left the tables, and no two closes have the same broker. */
  predicate ClosesOk(s: State) {
    && (forall id :: id in s.closing ==> ClosingOk(s, id))
    && s.sessions.Keys <= s.owners && s.closing.Keys <= s.ids && s.owners <= s.ids && s.down <= s.retired
  }

  lemma ClosesAfterCommit(s: State, e: Event)
    requires ClosesOk(s) && e.Commit? && Enabled(s, e)
    ensures ClosesOk(Apply(s, e))
  {
    forall id | id in s.closing ensures ClosingOk(Apply(s, e), id) { assert ClosingOk(s, id); }
  }

  lemma ClosesAfterClose(s: State, id: nat)
    requires HomeOk(s) && ClosesOk(s)
    ensures ClosesOk(Apply(s, CloseSession(id)))
  {
    var t := Apply(s, CloseSession(id));
    forall k | k in t.closing ensures ClosingOk(t, k) {
      if k in s.closing { assert ClosingOk(s, k); }
      if id in s.closing { assert ClosingOk(s, id); }
      if id in s.sessions { assert SessionOk(s, id); }
      if k == id && id in s.sessions && BrokerOf(t.closing[id]).Some? {
        forall m | m in s.closing ensures BrokerOf(s.closing[m]) != BrokerOf(t.closing[id]) {
          assert ClosingOk(s, m);
        }
      }
    }
  }

  lemma ClosesAfterOther(s: State, e: Event)
    requires ClosesOk(s) && Enabled(s, e) && !e.Commit? && !e.CloseSession?
    ensures ClosesOk(Apply(s, e))
  {
    var t := Apply(s, e);
    forall k | k in t.closing ensures ClosingOk(t, k) {
      assert ClosingOk(s, k);
      if e.EndOwner? || e.ShutDown? { assert ClosingOk(s, e.id); }
      forall m | m in t.closing && m != k && BrokerOf(t.closing[k]).Some?
        ensures BrokerOf(t.closing[m]) != BrokerOf(t.closing[k])
      {
        assert ClosingOk(s, m);
      }
    }
    if e.ShutDown? { assert ClosingOk(s, e.id); }
  }

  lemma ClosesStep(s: State, e: Event)
    requires HomeOk(s) && ClosesOk(s) && Enabled(s, e)
    ensures ClosesOk(Apply(s, e))
  {
    if e.Commit? { ClosesAfterCommit(s, e); }
    else if e.CloseSession? { ClosesAfterClose(s, e.id); }
    else { ClosesAfterOther(s, e); }
  }

  /** Taken from the table, not shut down, and no close left to do it. */
  predicate NeverDown(s: State, b: nat) {
    b in s.retired && b !in s.down && !Pending(s, b)
  }

  /** The future of the close that took this broker is dropped. */
  predicate DropsBroker(s: State, e: Event, b: nat)
    requires Enabled(s, e)
  {
    e.DropClose? && BrokerOf(s.closing[e.id]) == Some(b)
  }

  predicate BrokerDropped(s: State, es: seq<Event>, b: nat)
    decreases |es|
  {
    es != [] && Enabled(s, es[0])
    && (DropsBroker(s, es[0], b) || BrokerDropped(Apply(s, es[0]), es[1..], b))
  }

  /** The owner of a closed session that no close will remove from the artifact store. */
  predicate OwnerKept(s: State, id: nat) {
    id in s.owners && id !in s.sessions && id !in s.closing
  }

  predicate DropsOwner(s: State, e: Event, id: nat)
    requires Enabled(s, e)
  {
    e == DropClose(id) && s.closing[id].Stopping?
  }

  predicate OwnerDropped(s: State, es: seq<Event>, id: nat)
    decreases |es|
  {
    es != [] && Enabled(s, es[0])
    && (DropsOwner(s, es[0], id) || OwnerDropped(Apply(s, es[0]), es[1..], id))
  }

  lemma StillPending(s: State, t: State, b: nat, k: nat)
    requires k in s.closing && BrokerOf(s.closing[k]) == Some(b)
    requires k in t.closing && BrokerOf(t.closing[k]) == Some(b)
    ensures Pending(s, b) && Pending(t, b)
  {}

  lemma FreshIsPending(s: State, id: nat)
    requires HomeOk(s) && Close(s, id).1.Closed? && Close(s, id).1.broker.Some?
    ensures var b := Close(s, id).1.broker.value;
            b !in s.retired && Pending(Apply(s, CloseSession(id)), b)
  {
    var t := Apply(s, CloseSession(id));
    assert id in t.closing && BrokerOf(t.closing[id]) == Close(s, id).1.broker;
  }

  lemma PendingAfterClose(s: State, id: nat, b: nat)
    requires HomeOk(s) && ClosesOk(s)
    ensures NeverDown(Apply(s, CloseSession(id)), b) <==> NeverDown(s, b)
  {
    var t, r := Apply(s, CloseSession(id)), Close(s, id).1;
    if r.Closed? {
      if r.broker.Some? { FreshIsPending(s, id); }
      if r.broker != Some(b) { PendingElsewhere(s, t, id, b); }
    }
  }

  /** A close whose broker is another one, or which moves on with its own, changes nothing for b. */
  lemma PendingElsewhere(s: State, t: State, id: nat, b: nat)
    requires s.closing.Keys - {id} == t.closing.Keys - {id}
    requires forall k :: k in s.closing && k in t.closing && k != id ==> t.closing[k] == s.closing[k]
    requires (id in s.closing && BrokerOf(s.closing[id]) == Some(b))
             <==> (id in t.closing && BrokerOf(t.closing[id]) == Some(b))
    ensures Pending(s, b) <==> Pending(t, b)
  {
    if k :| k in s.closing && BrokerOf(s.closing[k]) == Some(b) {
      assert k != id ==> k in s.closing.Keys - {id};
      StillPending(s, t, b, k);
    }
    if k :| k in t.closing && BrokerOf(t.closing[k]) == Some(b) {
      assert k != id ==> k in t.closing.Keys - {id};
      StillPending(s, t, b, k);
    }
  }

  /** A close that ends leaves its broker to no other. */
  lemma NoneElsewhere(s: State, id: nat, b: nat)
    requires id in s.closing && ClosingOk(s, id) && BrokerOf(s.closing[id]) == Some(b)
    ensures !Pending(s.(closing := s.closing - {id}), b)
  {}

  lemma PendingAfterEnd(s: State, e: Event, b: nat)
    requires ClosesOk(s) && Enabled(s, e) && (e.ShutDown? || e.DropClose?)
    ensures NeverDown(Apply(s, e), b) <==> NeverDown(s, b) || DropsBroker(s, e, b)
  {
    var rest := s.(closing := s.closing - {e.id});
    assert ClosingOk(s, e.id);
    if BrokerOf(s.closing[e.id]) == Some(b) {
      NoneElsewhere(s, e.id, b);
      assert Pending(s, b);
    } else {
      PendingElsewhere(s, rest, e.id, b);
    }
    assert Pending(Apply(s, e), b) == Pending(rest, b);
  }

  lemma SameCloses(s: State, e: Event)
    requires Enabled(s, e) && (e.Commit? || e.DrainSessions? || e.DrainBrokers?)
    ensures var t := Apply(s, e); t.closing == s.closing && t.retired == s.retired && t.down == s.down
  {}

  lemma SamePending(s: State, t: State, b: nat)
    requires t.closing == s.closing && t.retired == s.retired && t.down == s.down
    ensures NeverDown(t, b) <==> NeverDown(s, b)
  {}

  lemma PendingAfterStop(s: State, e: Event, b: nat)
    requires Enabled(s, e) && e.EndOwner?
    ensures NeverDown(Apply(s, e), b) <==> NeverDown(s, b)
  {
    PendingElsewhere(s, Apply(s, e), e.id, b);
  }

  lemma PendingAfterOther(s: State, e: Event, b: nat)
    requires ClosesOk(s) && Enabled(s, e) && !e.CloseSession?
    ensures NeverDown(Apply(s, e), b) <==> NeverDown(s, b) || DropsBroker(s, e, b)
  {
    if e.ShutDown? || e.DropClose? { PendingAfterEnd(s, e, b); }
    else if e.EndOwner? { PendingAfterStop(s, e, b); }
    else {
      SameCloses(s, e);
      SamePending(s, Apply(s, e), b);
    }
  }

  lemma {:induction false} ClosesRun(s: State, es: seq<Event>, t: State, b: nat)
    requires Inv(s) && ClosesOk(s) && Leads(s, es, t)
    ensures ClosesOk(t)
    ensures NeverDown(t, b) <==> NeverDown(s, b) || BrokerDropped(s, es, b)
    decreases |es|
  {
    if es != [] {
      LeadsFirst(s, es, t);
      StepKeeps(s, es[0]);
      ClosesStep(s, es[0]);
      if es[0].CloseSession? { PendingAfterClose(s, es[0].id, b); } else { PendingAfterOther(s, es[0], b); }
      ClosesRun(Apply(s, es[0]), es[1..], t, b);
    } else {
      Schedules.NothingOnly(Steps, s, t);
    }
  }

  /**
   A broker that a close took is shut down, or a close still running will do it,
   unless the future of the very close that took it was dropped; and then it
   never is.
   */
  lemma ShutDownExactly(project: string, es: seq<Event>, t: State, b: nat)
    requires Leads(Start(project), es, t) && b in t.retired
    ensures b in t.down || Pending(t, b) <==> !BrokerDropped(Start(project), es, b)
    ensures !(b in t.down && Pending(t, b))
  {
    StartInv(project);
    ClosesRun(Start(project), es, t, b);
    if k :| k in t.closing && BrokerOf(t.closing[k]) == Some(b) { assert ClosingOk(t, k); }
  }

  lemma OwnerStep(s: State, e: Event, id: nat)
    requires ClosesOk(s) && Enabled(s, e) && !e.DrainSessions?
    ensures OwnerKept(Apply(s, e), id) <==> OwnerKept(s, id) || DropsOwner(s, e, id)
  {
    if id in s.closing { assert ClosingOk(s, id); }
  }

  lemma {:induction false} OwnerRun(s: State, es: seq<Event>, t: State, id: nat)
    requires Inv(s) && ClosesOk(s) && Leads(s, es, t) && NoSweep(es)
    ensures OwnerKept(t, id) <==> OwnerKept(s, id) || OwnerDropped(s, es, id)
    decreases |es|
  {
    if es != [] {
      LeadsFirst(s, es, t);
      StepKeeps(s, es[0]);
      ClosesStep(s, es[0]);
      OwnerStep(s, es[0], id);
      RestNoSweep(es);
      OwnerRun(Apply(s, es[0]), es[1..], t, id);
    } else {
      Schedules.NothingOnly(Steps, s, t);
    }
  }

  /**
   Up to a server shutdown, a session that is neither open nor being closed is
   still registered with the artifact store if and only if its close was dropped
   while it waited for the supervisor. Only eviction removes its artifacts then.
   */
  lemma OwnerRemovedExactly(project: string, es: seq<Event>, t: State, id: nat)
    requires Leads(Start(project), es, t) && NoSweep(es)
    ensures OwnerKept(t, id) <==> OwnerDropped(Start(project), es, id)
  {
    StartInv(project);
    OwnerRun(Start(project), es, t, id);
  }

  /** Such a run: the close of a second project's only session is dropped. */
  lemma CloseDropped(first: string, second: string)
    requires first != second
    ensures var s := Start(first);
            Enabled(s, Commit(1, second, 1, true))
            && var open := Apply(s, Commit(1, second, 1, true));
            var closing := Apply(open, CloseSession(1));
            Enabled(closing, DropClose(1))
            && var t := Apply(closing, DropClose(1));
            NeverDown(t, 1) && OwnerKept(t, 1)
  {
    var open := Apply(Start(first), Commit(1, second, 1, true));
    assert Close(open, 1).1 == Closed(Some(1)) by {
      assert open.sessions - {1} == map[0 := Session(first, 0)];
    }
  }

  // ----- the manager -----

  class SessionManager {
    var sessions: map<nat, Session>
    var brokers: map<string, nat>
    const default: nat

    ghost predicate Holds(s: State)
      reads this
    {
      sessions == s.sessions && brokers == s.brokers && default == s.default
    }

    constructor (id: nat, project: string, broker: nat)
      ensures sessions == map[id := Session(project, broker)] && brokers == map[project := broker] && default == id
    {
      sessions := map[id := Session(project, broker)];
      brokers := map[project := broker];
      default := id;
    }

    method Get(ghost s: State, id: Option<nat>) returns (session: Option<Session>)
      requires Holds(s)
      ensures session == Found(s, id)
    {
      var key := if id.Some? then id.value else default;
      if key in sessions { return Some(sessions[key]); }
      return None;
    }

    method CommitOpen(ghost s: State, id: nat, project: string, staged: nat, registered: bool) returns (r: Opened)
      requires Holds(s)
      modifies this
      ensures Holds(Open(s, id, project, staged, registered).0) && r == Open(s, id, project, staged, registered).1
    {
      if |sessions| >= SESSION_LIMIT { return LimitReached; }
      var broker := staged;
      if project in brokers {
        broker := brokers[project];
        assert brokers[project := broker] == brokers;
      } else {
        brokers := brokers[project := staged];
      }
      if !registered { return OwnerRefused; }
      sessions := sessions[id := Session(project, broker)];
      return Opened(id);
    }

    method CloseOne(ghost s: State, id: nat) returns (r: Closed)
      requires Holds(s)
      modifies this
      ensures Holds(Close(s, id).0) && r == Close(s, id).1
    {
      if id == default { return IsDefault; }
      if id !in sessions { return NotFound; }
      var session := sessions[id];
      sessions := sessions - {id};
      if ProjectOpen(sessions, session.project) { return Closed(None); }
      if session.project !in brokers { return Closed(None); }
      var broker := brokers[session.project];
      brokers := brokers - {session.project};
      return Closed(Some(broker));
    }
  }
}
