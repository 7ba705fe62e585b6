/**
 In-flight artifact jobs racing with session close and run end. One event is one
 lock-held section of `native/src/artifacts.rs`; between two events of a job any
 other job, close or run end may happen.
 */
module ArtifactJobs {
  import opened Outcomes
  import opened Bytes
  import opened Base64
  import opened ArtifactStore
  import Schedules

  const JOB_SLOTS: nat := 4

  /**
   Asking has its permit and owner guard but not its run guard yet. Staged is an
   import copying its input into a private file. Returning has done its work; it
   still has its permit and its hold on a file until it ends.
   */
  datatype Job =
    | Asking(owner: string, ownerGuard: nat, origin: Option<string>)
    | Ready(context: Context)
    | Staged(context: Context, file: nat, format: string)
    | Held(context: Context, upload: nat)
    | Locked(context: Context, upload: nat)
    | Forwarding(owner: string)
    | Reading(entry: Entry)
    | Returning(file: nat)

  /** A publication and the bytes its file held at that moment. */
  datatype Release = Release(entry: Entry, content: seq<Byte>)

  datatype State = State(store: Store, jobs: map<nat, Job>, released: seq<Release>)

  datatype Event =
    | AddOwner(owner: string)
    | AddRun(owner: string, run: string)
    | FinishRun(owner: string, run: string)
    | CloseOwner(owner: string)
    | Dispatch(job: nat, owner: string, origin: Option<string>)
    | Forward(job: nat, owner: string)
    | Capture(job: nat)
    | BeginUpload(job: nat, format: string)
    | Fetch(job: nat, upload: nat)
    | AbortUpload(job: nat)
    | Lock(job: nat)
    | AppendChunk(job: nat, offset: nat, data: string, written: Written)
    | CommitUpload(job: nat)
    | Stage(job: nat, format: string)
    | CopyBlock(job: nat, block: seq<Byte>, written: Written)
    | CreateEntry(job: nat)
    | Find(job: nat, id: nat)
    | DropOne(job: nat, id: nat)
    | Finish(job: nat)

  predicate IsLocked(s: State, u: nat) {
    exists j :: j in s.jobs && s.jobs[j].Locked? && s.jobs[j].upload == u
  }

  predicate Enabled(s: State, e: Event) {
    match e
    case Dispatch(j, owner, _) => j !in s.jobs && |s.jobs| < JOB_SLOTS && owner in s.store.owners
    case Forward(j, _) => j !in s.jobs && |s.jobs| < JOB_SLOTS
    case Capture(j) => j in s.jobs && s.jobs[j].Asking?
    case BeginUpload(j, _) =>
      j in s.jobs && s.jobs[j].Ready? && s.jobs[j].context.run.Some? && s.jobs[j].context.runGuard.Some?
    case Fetch(j, _) => j in s.jobs && s.jobs[j].Ready? && s.jobs[j].context.runGuard.Some?
    case AbortUpload(j) => j in s.jobs && s.jobs[j].Held?
    case Lock(j) => j in s.jobs && s.jobs[j].Held? && !IsLocked(s, s.jobs[j].upload)
    case AppendChunk(j, _, _, _) =>
      j in s.jobs && s.jobs[j].Locked? && s.jobs[j].upload in s.store.arena
      && s.store.arena[s.jobs[j].upload].file in s.store.files
    case CommitUpload(j) =>
      j in s.jobs && s.jobs[j].Locked? && s.jobs[j].upload in s.store.arena
      && s.store.arena[s.jobs[j].upload].size <= ITEM_LIMIT
      && s.store.arena[s.jobs[j].upload].file in s.store.files
    case Stage(j, _) => j in s.jobs && s.jobs[j].Ready?
    case CopyBlock(j, _, _) => j in s.jobs && s.jobs[j].Staged? && s.jobs[j].file in s.store.files
    case CreateEntry(j) =>
      j in s.jobs && s.jobs[j].Staged? && s.jobs[j].file in s.store.files
      && |s.store.files[s.jobs[j].file]| <= ITEM_LIMIT
    case Find(j, _) => j in s.jobs && (s.jobs[j].Ready? || s.jobs[j].Forwarding?)
    case DropOne(j, _) => j in s.jobs && s.jobs[j].Ready?
    case Finish(j) => j in s.jobs
    case _ => true
  }

  function End(s: State, j: nat): State {
    s.(jobs := s.jobs - {j})
  }

  function Return(s: State, j: nat, file: nat): State {
    s.(jobs := s.jobs[j := Returning(file)])
  }

  function JobOwner(job: Job): string
    requires job.Ready? || job.Forwarding?
  {
    if job.Ready? then job.context.owner else job.owner
  }

  function CaptureRun(s: State, j: nat): State
    requires Enabled(s, Capture(j))
  {
    var a := s.jobs[j];
    match a.origin
    case None => s.(jobs := s.jobs[j := Ready(Context(a.owner, a.ownerGuard, None, None))])
    case Some(run) =>
      if (a.owner, run) in s.store.runs then
        s.(jobs := s.jobs[j := Ready(Context(a.owner, a.ownerGuard, a.origin, Some(s.store.runs[(a.owner, run)])))])
      else End(s, j)
  }

  function LockUpload(s: State, j: nat): State
    requires Enabled(s, Lock(j))
  {
    var h := s.jobs[j];
    if UploadLive(s.store, h.context, h.upload) then s.(jobs := s.jobs[j := Locked(h.context, h.upload)])
    else Return(s, j, h.upload)
  }

  function WithFile(s: State, file: nat, bytes: seq<Byte>): State {
    s.(store := s.store.(files := s.store.files[file := bytes]))
  }

  /** One block of an import: refused past the limit, written, or written in part and given up. */
  function Copy(s: State, j: nat, block: seq<Byte>, written: Written): State
    requires Enabled(s, CopyBlock(j, block, written))
  {
    var file := s.jobs[j].file;
    var before := s.store.files[file];
    if |before| + |block| > ITEM_LIMIT then Return(s, j, file)
    else
      match written
      case Torn(kept) =>
        Return(WithFile(s, file, before + if kept < |block| then block[..kept] else block), j, file)
      case Whole => WithFile(s, file, before + block)
  }

  /** A job that just published the last entry of the queue. */
  function Released(s: State, j: nat, store: Store): State {
    var q := store.entries;
    if |q| == 0 || q[|q| - 1].file !in store.files then End(s, j)
    else
      var e := q[|q| - 1];
      State(store, s.jobs[j := Returning(e.file)], s.released + [Release(e, store.files[e.file])])
  }

  function Apply(s: State, e: Event): State
    requires Enabled(s, e)
  {
    match e
    case AddOwner(owner) => s.(store := RegisterOwner(s.store, owner).0)
    case AddRun(owner, run) => s.(store := RegisterRun(s.store, owner, run).0)
    case FinishRun(owner, run) => s.(store := EndRun(s.store, owner, run).0)
    case CloseOwner(owner) => s.(store := RemoveOwner(s.store, owner).0)
    case Dispatch(j, owner, run) => s.(jobs := s.jobs[j := Asking(owner, s.store.owners[owner], run)])
    case Forward(j, owner) => s.(jobs := s.jobs[j := Forwarding(owner)])
    case Capture(j) => CaptureRun(s, j)
    case BeginUpload(j, format) => End(s.(store := Begin(s.store, s.jobs[j].context, format).0), j)
    case Fetch(j, u) =>
      if Registered(s.store, s.jobs[j].context, u) then s.(jobs := s.jobs[j := Held(s.jobs[j].context, u)])
      else End(s, j)
    case AbortUpload(j) => Return(s.(store := Abort(s.store, s.jobs[j].upload)), j, s.jobs[j].upload)
    case Lock(j) => LockUpload(s, j)
    case AppendChunk(j, offset, data, written) =>
      Return(s.(store := Append(s.store, s.jobs[j].upload, offset, data, written).0), j, s.jobs[j].upload)
    case CommitUpload(j) =>
      var (store, ok) := Commit(s.store, s.jobs[j].context, s.jobs[j].upload);
      if ok then Released(s, j, store) else Return(s, j, s.jobs[j].upload)
    case Stage(j, format) =>
      s.(store := s.store.(files := s.store.files[s.store.next := []], next := s.store.next + 1),
         jobs := s.jobs[j := Staged(s.jobs[j].context, s.store.next, format)])
    case CopyBlock(j, block, written) => Copy(s, j, block, written)
    case CreateEntry(j) =>
      var (store, ok) := Create(s.store, s.jobs[j].context, s.jobs[j].file, s.jobs[j].format);
      if ok then Released(s, j, store) else Return(s, j, s.jobs[j].file)
    case Find(j, id) =>
      (match Lookup(s.store.entries, JobOwner(s.jobs[j]), id)
       case Some(entry) => s.(jobs := s.jobs[j := Reading(entry)])
       case None => End(s, j))
    case DropOne(j, id) =>
      End(s.(store := s.store.(entries := DropEntry(s.store.entries, s.jobs[j].context.owner, id).0)), j)
    case Finish(j) => End(s, j)
  }

  // ----- what every reachable state satisfies -----

  /** No guard number is used twice and every registered guard is still set. */
  predicate GuardsOk(s: Store) {
    && (forall o :: o in s.owners ==> s.owners[o] in s.live && s.owners[o] < s.next)
    && (forall k :: k in s.runs ==> s.runs[k] in s.live && s.runs[k] < s.next && k.0 in s.owners)
    && (forall o, p :: o in s.owners && p in s.owners && s.owners[o] == s.owners[p] ==> o == p)
    && (forall k, m :: k in s.runs && m in s.runs && s.runs[k] == s.runs[m] ==> k == m)
    && (forall o, k :: o in s.owners && k in s.runs ==> s.owners[o] != s.runs[k])
  }

  /** A captured guard that is still set is the one registered now under the same name. */
  predicate OwnerCaptured(s: Store, owner: string, guard: nat) {
    guard < s.next && (guard in s.live ==> owner in s.owners && s.owners[owner] == guard)
  }

  predicate ContextOk(s: Store, c: Context) {
    && OwnerCaptured(s, c.owner, c.ownerGuard)
    && (c.runGuard.Some? ==>
          c.run.Some? && c.runGuard.value < s.next
          && (c.runGuard.value in s.live ==>
                (c.owner, c.run.value) in s.runs && s.runs[(c.owner, c.run.value)] == c.runGuard.value))
  }

  predicate UploadOk(s: Store, u: nat)
    requires u in s.arena
  {
    var up := s.arena[u];
    && u < s.next && up.file == u && u in s.files
    && up.size == |up.hashed| && up.size <= ITEM_LIMIT && up.size <= |s.files[u]|
    && (|s.files[u]| == up.size ==> s.files[u] == up.hashed)
    && (up.alive <==> u in s.uploads)
    && (up.alive ==> up.owner in s.owners && (up.owner, up.run) in s.runs)
  }

  predicate UploadsOk(s: Store) {
    && (forall u :: u in s.arena ==> UploadOk(s, u))
    && s.uploads <= s.arena.Keys && |s.uploads| <= UPLOAD_SLOTS
    && (forall f :: f in s.files ==> f < s.next)
  }

  predicate EntriesOk(s: Store) {
    && (forall e :: e in s.entries ==> e.owner in s.owners && e.size <= ITEM_LIMIT)
    && WithinLimits(s.entries)
  }

  predicate StoreOk(s: Store) {
    GuardsOk(s) && UploadsOk(s) && EntriesOk(s)
  }

  predicate IsReleased(s: State, file: nat) {
    exists i :: 0 <= i < |s.released| && s.released[i].entry.file == file
  }

  predicate JobOk(s: State, j: nat)
    requires j in s.jobs
  {
    match s.jobs[j]
    case Asking(owner, guard, _) => OwnerCaptured(s.store, owner, guard)
    case Ready(c) => ContextOk(s.store, c)
    case Staged(c, f, _) =>
      ContextOk(s.store, c) && f in s.store.files && |s.store.files[f]| <= ITEM_LIMIT
      && f !in s.store.arena && !IsReleased(s, f)
      && (forall k :: k in s.jobs && s.jobs[k].Staged? && s.jobs[k].file == f ==> k == j)
    case Held(c, u) => ContextOk(s.store, c) && u in s.store.arena && HoldsUpload(s.store, c, u)
    case Locked(c, u) =>
      ContextOk(s.store, c) && u in s.store.arena && HoldsUpload(s.store, c, u) && !IsReleased(s, u)
      && (forall k :: k in s.jobs && s.jobs[k].Locked? && s.jobs[k].upload == u ==> k == j)
    case Forwarding(_) => true
    case Reading(e) => exists i :: 0 <= i < |s.released| && s.released[i].entry == e
    case Returning(f) => f in s.store.arena || (f in s.store.files && |s.store.files[f]| <= ITEM_LIMIT)
  }

  predicate HoldsUpload(s: Store, c: Context, u: nat)
    requires u in s.arena
  {
    c.runGuard.Some? && s.arena[u].owner == c.owner && c.run == Some(s.arena[u].run)
  }

  /** A release's file still holds the released bytes and will not be written again. */
  predicate ReleaseOk(s: State, i: nat)
    requires i < |s.released|
  {
    var r := s.released[i];
    && r.entry.file in s.store.files && s.store.files[r.entry.file] == r.content
    && r.entry.size == |r.entry.hashed| && r.entry.size <= |r.content| && r.entry.size <= ITEM_LIMIT
    && (|r.content| == r.entry.size ==> r.content == r.entry.hashed)
    && (r.entry.file !in s.store.arena ==> |r.content| == r.entry.size)
    && (r.entry.file in s.store.arena ==>
          !s.store.arena[r.entry.file].alive && s.store.arena[r.entry.file].hashed == r.entry.hashed)
    && (forall k :: 0 <= k < |s.released| && s.released[k].entry.file == r.entry.file ==> k == i)
  }

  predicate EntryReleased(s: State, e: Entry) {
    exists i :: 0 <= i < |s.released| && s.released[i].entry == e
  }

  ghost predicate Inv(s: State) {
    && StoreOk(s.store) && |s.jobs| <= JOB_SLOTS
    && (forall j :: j in s.jobs ==> JobOk(s, j))
    && (forall i :: 0 <= i < |s.released| ==> ReleaseOk(s, i))
    && (forall e :: e in s.store.entries ==> EntryReleased(s, e))
  }

  // ----- store operations -----

  /** What jobs in flight rely on when the guards change under them. */
  predicate GuardFrame(s: Store, t: Store) {
    && s.next <= t.next
    && (forall g :: g in t.live && g < s.next ==> g in s.live)
    && (forall o :: o in s.owners && s.owners[o] in t.live ==> o in t.owners && t.owners[o] == s.owners[o])
    && (forall k :: k in s.runs && s.runs[k] in t.live ==> k in t.runs && t.runs[k] == s.runs[k])
  }

  predicate StoreFrame(s: Store, t: Store) {
    && GuardFrame(s, t)
    && (forall u :: u in s.arena ==>
          u in t.arena && t.arena[u].owner == s.arena[u].owner && t.arena[u].run == s.arena[u].run)
    && (forall u :: u in t.arena && u !in s.arena ==> u >= s.next)
    && (forall f :: f in s.files && f !in s.arena ==>
          f in t.files && (|s.files[f]| <= ITEM_LIMIT ==> |t.files[f]| <= ITEM_LIMIT))
  }

  lemma CapturedStays(s: Store, t: Store, c: Context)
    requires GuardFrame(s, t) && ContextOk(s, c)
    ensures ContextOk(t, c)
  {}

  /** A new guard under a new name. */
  lemma NewOwnerGuard(s: Store, owner: string, t: Store)
    requires GuardsOk(s) && owner !in s.owners
    requires t == s.(owners := s.owners[owner := s.next], live := s.live + {s.next}, next := s.next + 1)
    ensures GuardsOk(t) && GuardFrame(s, t)
  {}

  lemma NewRunDistinct(runs: map<(string, string), nat>, key: (string, string), n: nat)
    requires forall k :: k in runs ==> runs[k] < n
    requires forall k, m :: k in runs && m in runs && runs[k] == runs[m] ==> k == m
    ensures var t := runs[key := n];
            forall k, m :: k in t && m in t && t[k] == t[m] ==> k == m
  {}

  lemma NewRunApart(s: Store, key: (string, string))
    requires GuardsOk(s) && key !in s.runs && key.0 in s.owners
    ensures var t := s.runs[key := s.next];
            && (forall k :: k in t ==> t[k] in s.live + {s.next} && t[k] < s.next + 1 && k.0 in s.owners)
            && (forall o, k :: o in s.owners && k in t ==> s.owners[o] != t[k])
  {}

  lemma NewRunGuard(s: Store, key: (string, string), t: Store)
    requires GuardsOk(s) && key !in s.runs && key.0 in s.owners
    requires t == s.(runs := s.runs[key := s.next], live := s.live + {s.next}, next := s.next + 1)
    ensures GuardsOk(t)
  {
    NewRunDistinct(s.runs, key, s.next);
    NewRunApart(s, key);
  }

  lemma NewRunFrame(s: Store, key: (string, string), t: Store)
    requires key !in s.runs
    requires t == s.(runs := s.runs[key := s.next], live := s.live + {s.next}, next := s.next + 1)
    ensures GuardFrame(s, t)
  {}

  lemma UploadsStay(s: Store, t: Store)
    requires UploadsOk(s) && s.next <= t.next
    requires t.uploads == s.uploads && t.arena == s.arena && t.files == s.files
    requires s.owners.Keys <= t.owners.Keys && s.runs.Keys <= t.runs.Keys
    ensures UploadsOk(t)
  {
    forall u | u in t.arena ensures UploadOk(t, u) { assert UploadOk(s, u); }
  }

  lemma RegisterOwnerOk(s: Store, owner: string)
    requires StoreOk(s)
    ensures StoreOk(RegisterOwner(s, owner).0) && StoreFrame(s, RegisterOwner(s, owner).0)
  {
    var t := RegisterOwner(s, owner).0;
    if t != s {
      NewOwnerGuard(s, owner, t);
      UploadsStay(s, t);
    }
  }

  lemma RegisterRunOk(s: Store, owner: string, run: string)
    requires StoreOk(s)
    ensures StoreOk(RegisterRun(s, owner, run).0) && StoreFrame(s, RegisterRun(s, owner, run).0)
  {
    var t := RegisterRun(s, owner, run).0;
    if t != s {
      NewRunGuard(s, (owner, run), t);
      NewRunFrame(s, (owner, run), t);
      UploadsStay(s, t);
    }
  }

  lemma {:induction false} SubsetCount(a: set<nat>, b: set<nat>)
    requires a <= b
    ensures |a| <= |b|
  {
    if a != {} {
      var x :| x in a;
      SubsetCount(a - {x}, b - {x});
    }
  }

  /** Removing some owners and runs clears exactly their guards. */
  predicate GuardsRemoved(s: Store, t: Store) {
    && t.next == s.next
    && (forall o :: o in t.owners ==> o in s.owners && t.owners[o] == s.owners[o] && s.owners[o] in t.live)
    && (forall k :: k in t.runs ==> k in s.runs && t.runs[k] == s.runs[k] && s.runs[k] in t.live && k.0 in t.owners)
    && (forall o :: o in s.owners && o !in t.owners ==> s.owners[o] !in t.live)
    && (forall k :: k in s.runs && k !in t.runs ==> s.runs[k] !in t.live)
    && t.live <= s.live
  }

  lemma RemovalKeepsGuards(s: Store, t: Store)
    requires GuardsOk(s) && GuardsRemoved(s, t)
    ensures GuardsOk(t) && GuardFrame(s, t)
  {}

  lemma RetireKeepsUploads(s: Store, t: Store, dead: set<nat>)
    requires UploadsOk(s) && t.next == s.next && t.files == s.files
    requires t.arena == Retire(s, dead).arena && t.uploads == s.uploads - dead
    requires forall u :: u in t.uploads && u in s.arena ==>
               s.arena[u].owner in t.owners && (s.arena[u].owner, s.arena[u].run) in t.runs
    ensures UploadsOk(t)
  {
    SubsetCount(t.uploads, s.uploads);
    forall u | u in t.arena ensures UploadOk(t, u) { assert UploadOk(s, u); }
  }

  lemma EndRunUploads(s: Store, owner: string, run: string)
    requires UploadsOk(s)
    ensures UploadsOk(EndRun(s, owner, run).0)
  {
    var t := EndRun(s, owner, run).0;
    forall u | u in t.uploads && u in s.arena
      ensures s.arena[u].owner in t.owners && (s.arena[u].owner, s.arena[u].run) in t.runs
    {
      assert UploadOk(s, u);
    }
    RetireKeepsUploads(s, t, RunUploads(s, owner, run));
  }

  lemma OwnersAfterEnd(s: Store, owner: string, run: string)
    requires GuardsOk(s)
    ensures var t := EndRun(s, owner, run).0;
            && t.next == s.next && t.owners == s.owners && t.live <= s.live
            && forall o :: o in s.owners ==> s.owners[o] in t.live
  {}

  lemma RunsAfterEnd(s: Store, owner: string, run: string)
    requires GuardsOk(s)
    ensures var t := EndRun(s, owner, run).0;
            && (forall k :: k in t.runs ==> k in s.runs && t.runs[k] == s.runs[k] && s.runs[k] in t.live)
            && (forall k :: k in s.runs && k !in t.runs ==> s.runs[k] !in t.live)
  {}

  lemma EndRunGuards(s: Store, owner: string, run: string)
    requires GuardsOk(s)
    ensures GuardsOk(EndRun(s, owner, run).0) && GuardFrame(s, EndRun(s, owner, run).0)
  {
    OwnersAfterEnd(s, owner, run);
    RunsAfterEnd(s, owner, run);
    RemovalKeepsGuards(s, EndRun(s, owner, run).0);
  }

  lemma EndRunOk(s: Store, owner: string, run: string)
    requires StoreOk(s)
    ensures StoreOk(EndRun(s, owner, run).0) && StoreFrame(s, EndRun(s, owner, run).0)
  {
    EndRunUploads(s, owner, run);
    EndRunGuards(s, owner, run);
  }

  lemma {:induction false} KeepOthersLimits(q: seq<Entry>, owner: string)
    ensures Total(KeepOthers(q, owner)) <= Total(q)
  {
    if q != [] { KeepOthersLimits(q[1..], owner); }
  }

  lemma OtherGuardsSurvive(s: Store, owner: string)
    requires GuardsOk(s)
    ensures forall o :: o in s.owners && o != owner ==> s.owners[o] !in OwnerGuards(s, owner)
    ensures forall k :: k in s.runs && k.0 != owner ==> s.runs[k] !in OwnerGuards(s, owner)
  {}

  lemma OwnGuardsGo(s: Store, owner: string)
    ensures owner in s.owners ==> s.owners[owner] in OwnerGuards(s, owner)
    ensures forall k :: k in s.runs && k.0 == owner ==> s.runs[k] in OwnerGuards(s, owner)
  {}

  lemma OwnersAfterRemoval(s: Store, owner: string, t: Store)
    requires GuardsOk(s)
    requires t.owners == s.owners - {owner} && t.live == s.live - OwnerGuards(s, owner)
    ensures forall o :: o in t.owners ==> o in s.owners && t.owners[o] == s.owners[o] && s.owners[o] in t.live
    ensures forall o :: o in s.owners && o !in t.owners ==> s.owners[o] !in t.live
  {
    OtherGuardsSurvive(s, owner);
    OwnGuardsGo(s, owner);
  }

  lemma RunsAfterRemoval(s: Store, owner: string, t: Store)
    requires GuardsOk(s) && t.owners == s.owners - {owner}
    requires t.live == s.live - OwnerGuards(s, owner) && t.runs == s.runs - OwnerRuns(s, owner)
    ensures forall k :: k in t.runs ==>
              k in s.runs && t.runs[k] == s.runs[k] && s.runs[k] in t.live && k.0 in t.owners
    ensures forall k :: k in s.runs && k !in t.runs ==> s.runs[k] !in t.live
  {
    OtherGuardsSurvive(s, owner);
    OwnGuardsGo(s, owner);
    assert forall k :: k in s.runs ==> (k in t.runs <==> k.0 != owner);
  }

  lemma RemoveOwnerGuards(s: Store, owner: string, t: Store)
    requires GuardsOk(s) && t.next == s.next
    requires t.owners == s.owners - {owner} && t.live == s.live - OwnerGuards(s, owner)
    requires t.runs == s.runs - OwnerRuns(s, owner)
    ensures GuardsRemoved(s, t)
  {
    OwnersAfterRemoval(s, owner, t);
    RunsAfterRemoval(s, owner, t);
  }

  lemma RemoveOwnerEntries(s: Store, owner: string)
    requires EntriesOk(s)
    ensures EntriesOk(RemoveOwner(s, owner).0)
  {
    KeepOthersLimits(s.entries, owner);
  }

  lemma RemoveOwnerUploads(s: Store, owner: string)
    requires UploadsOk(s)
    ensures UploadsOk(RemoveOwner(s, owner).0)
  {
    var t := RemoveOwner(s, owner).0;
    forall u | u in t.uploads && u in s.arena
      ensures s.arena[u].owner in t.owners && (s.arena[u].owner, s.arena[u].run) in t.runs
    {
      assert UploadOk(s, u);
    }
    RetireKeepsUploads(s, t, OwnerUploads(s, owner));
  }

  lemma RemoveOwnerOk(s: Store, owner: string)
    requires StoreOk(s)
    ensures StoreOk(RemoveOwner(s, owner).0) && StoreFrame(s, RemoveOwner(s, owner).0)
  {
    var t := RemoveOwner(s, owner).0;
    RemoveOwnerGuards(s, owner, t);
    RemovalKeepsGuards(s, t);
    RemoveOwnerEntries(s, owner);
    RemoveOwnerUploads(s, owner);
  }

  lemma SameGuards(s: Store, t: Store)
    requires GuardsOk(s) && t.owners == s.owners && t.runs == s.runs && t.live == s.live && s.next <= t.next
    ensures GuardsOk(t) && GuardFrame(s, t)
  {}

  lemma AbortUploads(s: Store, u: nat)
    requires UploadsOk(s)
    ensures UploadsOk(Abort(s, u))
  {
    var t := Abort(s, u);
    forall v | v in t.uploads && v in s.arena
      ensures s.arena[v].owner in t.owners && (s.arena[v].owner, s.arena[v].run) in t.runs
    {
      assert UploadOk(s, v);
    }
    RetireKeepsUploads(s, t, {u});
  }

  lemma AbortShape(s: Store, u: nat)
    ensures var t := Abort(s, u);
            && t.owners == s.owners && t.runs == s.runs && t.live == s.live && t.next == s.next
            && t.files == s.files && t.entries == s.entries && t.arena.Keys == s.arena.Keys
            && (forall v :: v in t.arena ==>
                  t.arena[v].hashed == s.arena[v].hashed
                  && t.arena[v].owner == s.arena[v].owner && t.arena[v].run == s.arena[v].run
                  && (t.arena[v].alive ==> s.arena[v].alive && v != u))
  {}

  lemma AbortFrame(s: Store, u: nat)
    requires GuardsOk(s)
    ensures GuardsOk(Abort(s, u)) && StoreFrame(s, Abort(s, u))
  {
    AbortShape(s, u);
    SameGuards(s, Abort(s, u));
  }

  lemma AbortOk(s: Store, u: nat)
    requires StoreOk(s)
    ensures StoreOk(Abort(s, u)) && StoreFrame(s, Abort(s, u))
  {
    AbortUploads(s, u);
    AbortFrame(s, u);
    AbortShape(s, u);
  }

  lemma BeginUploads(s: Store, c: Context, format: string)
    requires UploadsOk(s) && ContextOk(s, c) && c.run.Some? && c.runGuard.Some?
    ensures UploadsOk(Begin(s, c, format).0)
  {
    var t := Begin(s, c, format).0;
    forall v | v in t.arena ensures UploadOk(t, v) {
      if v in s.arena { assert UploadOk(s, v); }
    }
  }

  lemma OneMoreUpload(s: Store, t: Store, up: Upload)
    requires t.arena == s.arena[s.next := up] && t.files == s.files[s.next := []]
    ensures s.arena.Keys <= t.arena.Keys <= s.arena.Keys + {s.next}
    ensures forall v :: v in s.arena && v != s.next ==> t.arena[v] == s.arena[v]
    ensures forall f :: f in s.files && f != s.next ==> f in t.files && t.files[f] == s.files[f]
  {}

  lemma BeginShape(s: Store, c: Context, format: string)
    requires c.run.Some? && c.runGuard.Some?
    ensures var t := Begin(s, c, format).0;
            && t.owners == s.owners && t.runs == s.runs && t.live == s.live && s.next <= t.next
            && t.entries == s.entries && s.arena.Keys <= t.arena.Keys <= s.arena.Keys + {s.next}
            && (forall v :: v in s.arena && v != s.next ==> t.arena[v] == s.arena[v])
            && (forall f :: f in s.files && f != s.next ==> f in t.files && t.files[f] == s.files[f])
  {
    var t := Begin(s, c, format).0;
    if t.next != s.next {
      OneMoreUpload(s, t, Upload(c.owner, c.run.value, format, true, s.next, 0, []));
    } else {
      assert t == s;
    }
  }

  lemma BeginFrame(s: Store, c: Context, format: string)
    requires GuardsOk(s) && UploadsOk(s) && c.run.Some? && c.runGuard.Some?
    ensures GuardsOk(Begin(s, c, format).0) && StoreFrame(s, Begin(s, c, format).0)
  {
    BeginShape(s, c, format);
    SameGuards(s, Begin(s, c, format).0);
    forall u | u in s.arena ensures u < s.next { assert UploadOk(s, u); }
  }

  lemma BeginOk(s: Store, c: Context, format: string)
    requires StoreOk(s) && ContextOk(s, c) && c.run.Some? && c.runGuard.Some?
    ensures StoreOk(Begin(s, c, format).0) && StoreFrame(s, Begin(s, c, format).0)
  {
    BeginUploads(s, c, format);
    BeginFrame(s, c, format);
    BeginShape(s, c, format);
  }

  lemma AppendUploads(s: Store, u: nat, offset: nat, data: string, written: Written)
    requires UploadsOk(s) && u in s.arena && s.arena[u].file in s.files
    ensures UploadsOk(Append(s, u, offset, data, written).0)
  {
    var t := Append(s, u, offset, data, written).0;
    assert UploadOk(s, u);
    forall v | v in t.arena ensures UploadOk(t, v) { assert UploadOk(s, v); }
  }

  lemma AppendShape(s: Store, u: nat, offset: nat, data: string, written: Written)
    requires u in s.arena && s.arena[u].file in s.files
    ensures var t := Append(s, u, offset, data, written).0;
            && t.owners == s.owners && t.runs == s.runs && t.live == s.live && t.next == s.next
            && t.entries == s.entries && t.uploads == s.uploads && t.arena.Keys == s.arena.Keys
            && t.arena[u].owner == s.arena[u].owner && t.arena[u].run == s.arena[u].run
            && (forall v :: v in s.arena && v != u ==> t.arena[v] == s.arena[v])
            && t.files.Keys == s.files.Keys
            && (forall f :: f in s.files && f != s.arena[u].file ==> t.files[f] == s.files[f])
  {}

  lemma AppendFrame(s: Store, u: nat, offset: nat, data: string, written: Written)
    requires GuardsOk(s) && u in s.arena && s.arena[u].file == u && u in s.files
    ensures StoreFrame(s, Append(s, u, offset, data, written).0)
  {
    AppendShape(s, u, offset, data, written);
    SameGuards(s, Append(s, u, offset, data, written).0);
  }

  lemma AppendOk(s: Store, u: nat, offset: nat, data: string, written: Written)
    requires StoreOk(s) && u in s.arena && s.arena[u].file in s.files
    ensures StoreOk(Append(s, u, offset, data, written).0) && StoreFrame(s, Append(s, u, offset, data, written).0)
  {
    assert UploadOk(s, u);
    AppendUploads(s, u, offset, data, written);
    AppendFrame(s, u, offset, data, written);
    AppendShape(s, u, offset, data, written);
    SameGuards(s, Append(s, u, offset, data, written).0);
  }

  lemma PublishOk(s: Store, owner: string, file: nat, size: nat, format: string, hashed: seq<Byte>)
    requires StoreOk(s) && owner in s.owners && size <= ITEM_LIMIT
    ensures var t := Publish(s, owner, file, size, format, hashed);
            StoreOk(t) && StoreFrame(s, t)
  {
    var t := Publish(s, owner, file, size, format, hashed);
    PublishedWithinLimits(s.entries, Entry(s.next, owner, file, size, format, hashed));
    SameGuards(s, t);
    UploadsStay(s, t);
  }

  lemma DropEntryKeeps(q: seq<Entry>, owner: string, id: nat)
    ensures forall e :: e in DropEntry(q, owner, id).0 ==> e in q
    ensures |DropEntry(q, owner, id).0| <= |q| && Total(DropEntry(q, owner, id).0) <= Total(q)
  {
    match Position(q, owner, id)
    case None =>
    case Some(i) =>
      assert q == q[..i] + q[i..] && q[i..][1..] == q[i + 1..];
      TotalConcat(q[..i], q[i..]);
      TotalConcat(q[..i], q[i + 1..]);
  }

  // ----- every event keeps the invariant -----

  predicate Same(s: State, t: State, k: nat) {
    k in s.jobs && k in t.jobs && t.jobs[k] == s.jobs[k]
  }

  /** Only job `j` moved, and what it newly holds nobody else holds. */
  predicate OnlyMoved(s: State, t: State, j: nat) {
    forall k :: k in t.jobs && !Same(s, t, k) ==>
      k == j
      && (t.jobs[k].Staged? ==> t.jobs[k].file >= s.store.next)
      && (t.jobs[k].Locked? ==> !IsLocked(s, t.jobs[k].upload))
  }

  predicate HeldAlone(s: State, j: nat, file: nat) {
    j in s.jobs
    && ((s.jobs[j].Locked? && s.jobs[j].upload == file) || (s.jobs[j].Staged? && s.jobs[j].file == file))
  }

  /** New releases, if any, move job `j` on and are of the file it held alone. */
  predicate ReleasesFrom(s: State, t: State, j: nat) {
    && |s.released| <= |t.released| && t.released[..|s.released|] == s.released
    && (forall i :: |s.released| <= i < |t.released| ==> HeldAlone(s, j, t.released[i].entry.file) && !Same(s, t, j))
  }

  lemma NotReleased(s: State, t: State, j: nat, k: nat, file: nat)
    requires ReleasesFrom(s, t, j) && Same(s, t, k) && JobOk(s, k) && !IsReleased(s, file)
    requires j in s.jobs ==> JobOk(s, j)
    requires (s.jobs[k].Staged? && s.jobs[k].file == file && file !in s.store.arena)
             || (s.jobs[k].Locked? && s.jobs[k].upload == file && file in s.store.arena)
    ensures !IsReleased(t, file)
  {
    forall i | 0 <= i < |t.released| ensures t.released[i].entry.file != file {
      if i < |s.released| {
        assert t.released[i] == s.released[i];
        assert s.released[i].entry.file != file;
      }
    }
  }

  lemma StillAlone(s: State, t: State, j: nat, k: nat)
    requires OnlyMoved(s, t, j) && UploadsOk(s.store) && Same(s, t, k) && JobOk(s, k)
    ensures s.jobs[k].Staged? ==>
              forall m :: m in t.jobs && t.jobs[m].Staged? && t.jobs[m].file == s.jobs[k].file ==> m == k
    ensures s.jobs[k].Locked? ==>
              forall m :: m in t.jobs && t.jobs[m].Locked? && t.jobs[m].upload == s.jobs[k].upload ==> m == k
  {
    forall m | m in t.jobs && m != k && s.jobs[k].Locked? && t.jobs[m].Locked?
      ensures t.jobs[m].upload != s.jobs[k].upload
    {
      if !Same(s, t, m) { assert !IsLocked(s, t.jobs[m].upload); }
    }
    forall m | m in t.jobs && m != k && s.jobs[k].Staged? && t.jobs[m].Staged?
      ensures t.jobs[m].file != s.jobs[k].file
    {
      if Same(s, t, m) { assert s.jobs[m].Staged?; }
    }
  }

  /** A job that did not move keeps its part. */
  lemma OtherJob(s: State, t: State, j: nat, k: nat)
    requires StoreFrame(s.store, t.store) && OnlyMoved(s, t, j) && ReleasesFrom(s, t, j)
    requires UploadsOk(s.store)
    requires Same(s, t, k) && JobOk(s, k) && (j in s.jobs ==> JobOk(s, j))
    ensures JobOk(t, k)
  {
    StillAlone(s, t, j, k);
    match s.jobs[k]
    case Asking(_, _, _) =>
    case Ready(c) => CapturedStays(s.store, t.store, c);
    case Staged(c, f, _) =>
      CapturedStays(s.store, t.store, c);
      NotReleased(s, t, j, k, f);
    case Held(c, u) => CapturedStays(s.store, t.store, c);
    case Locked(c, u) =>
      CapturedStays(s.store, t.store, c);
      NotReleased(s, t, j, k, u);
    case Forwarding(_) =>
    case Reading(e) => ReleasedStays(s, t, j, e);
    case Returning(_) =>
  }

  lemma ReleasedStays(s: State, t: State, j: nat, e: Entry)
    requires ReleasesFrom(s, t, j) && EntryReleased(s, e)
    ensures EntryReleased(t, e)
  {
    var i :| 0 <= i < |s.released| && s.released[i].entry == e;
    assert t.released[i] == s.released[i];
  }

  /** Files already released are not written and their uploads stay finished. */
  predicate ReleasedFrame(s: State, t: State) {
    forall i :: 0 <= i < |s.released| ==>
      var f := s.released[i].entry.file;
      && f in s.store.files && f in t.store.files && t.store.files[f] == s.store.files[f]
      && (f in s.store.arena ==> f in t.store.arena)
      && (f in t.store.arena ==>
            f in s.store.arena && t.store.arena[f].hashed == s.store.arena[f].hashed
            && (t.store.arena[f].alive ==> s.store.arena[f].alive))
  }

  lemma OldRelease(s: State, t: State, i: nat)
    requires t.released == s.released && ReleasedFrame(s, t) && i < |s.released| && ReleaseOk(s, i)
    ensures ReleaseOk(t, i)
  {}

  /** Assembling the invariant after an event that published nothing. */
  lemma Assemble(s: State, t: State, j: nat)
    requires Inv(s) && StoreOk(t.store) && |t.jobs| <= JOB_SLOTS
    requires StoreFrame(s.store, t.store) && OnlyMoved(s, t, j) && t.released == s.released && ReleasedFrame(s, t)
    requires j in t.jobs && !Same(s, t, j) ==> JobOk(t, j)
    requires forall e :: e in t.store.entries ==> e in s.store.entries
    ensures Inv(t)
  {
    forall k | k in t.jobs ensures JobOk(t, k) {
      if Same(s, t, k) { OtherJob(s, t, j, k); }
    }
    forall i | 0 <= i < |t.released| ensures ReleaseOk(t, i) { OldRelease(s, t, i); }
    forall e | e in t.store.entries ensures EntryReleased(t, e) { assert EntryReleased(s, e); }
  }

  /** Released files need only stay put when the store's files and arena hashes do. */
  lemma FilesKept(s: State, t: State)
    requires Inv(s) && t.released == s.released
    requires forall f :: f in s.store.files ==> f in t.store.files && t.store.files[f] == s.store.files[f]
    requires s.store.arena.Keys <= t.store.arena.Keys
    requires forall u :: u in t.store.arena ==>
               (u in s.store.arena && t.store.arena[u].hashed == s.store.arena[u].hashed
                && (t.store.arena[u].alive ==> s.store.arena[u].alive))
               || u >= s.store.next
    ensures ReleasedFrame(s, t)
  {
    forall i | 0 <= i < |s.released|
      ensures s.released[i].entry.file in s.store.files && s.released[i].entry.file < s.store.next
    {
      assert ReleaseOk(s, i);
    }
  }

  // Guards only: jobs and files stay as they are.

  lemma SameJobsKeep(s: State, store: Store)
    requires Inv(s) && StoreOk(store) && StoreFrame(s.store, store) && store.files == s.store.files
    requires forall u :: u in store.arena ==>
               u in s.store.arena && store.arena[u].hashed == s.store.arena[u].hashed
               && (store.arena[u].alive ==> s.store.arena[u].alive)
    requires forall e :: e in store.entries ==> e in s.store.entries
    ensures Inv(s.(store := store))
  {
    FilesKept(s, s.(store := store));
    Assemble(s, s.(store := store), 0);
  }

  lemma RegisterShape(s: Store, owner: string, run: string)
    ensures var t := RegisterOwner(s, owner).0;
            t.files == s.files && t.arena == s.arena && t.entries == s.entries
    ensures var t := RegisterRun(s, owner, run).0;
            t.files == s.files && t.arena == s.arena && t.entries == s.entries
  {}

  lemma RetireShape(s: Store, dead: set<nat>)
    ensures var t := Retire(s, dead);
            && t.files == s.files && t.entries == s.entries && t.arena.Keys == s.arena.Keys
            && (forall u :: u in t.arena ==>
                  t.arena[u].hashed == s.arena[u].hashed && (t.arena[u].alive ==> s.arena[u].alive))
  {}

  lemma OwnerEventKeeps(s: State, owner: string)
    requires Inv(s)
    ensures Inv(s.(store := RegisterOwner(s.store, owner).0))
  {
    RegisterOwnerOk(s.store, owner);
    RegisterShape(s.store, owner, "");
    SameJobsKeep(s, RegisterOwner(s.store, owner).0);
  }

  lemma RunEventKeeps(s: State, owner: string, run: string)
    requires Inv(s)
    ensures Inv(s.(store := RegisterRun(s.store, owner, run).0))
  {
    RegisterRunOk(s.store, owner, run);
    RegisterShape(s.store, owner, run);
    SameJobsKeep(s, RegisterRun(s.store, owner, run).0);
  }

  lemma EndRunKeeps(s: State, owner: string, run: string)
    requires Inv(s)
    ensures Inv(s.(store := EndRun(s.store, owner, run).0))
  {
    EndRunOk(s.store, owner, run);
    RetireShape(s.store, RunUploads(s.store, owner, run));
    SameJobsKeep(s, EndRun(s.store, owner, run).0);
  }

  lemma RemoveOwnerKeeps(s: State, owner: string)
    requires Inv(s)
    ensures Inv(s.(store := RemoveOwner(s.store, owner).0))
  {
    RemoveOwnerOk(s.store, owner);
    RetireShape(s.store, OwnerUploads(s.store, owner));
    SameJobsKeep(s, RemoveOwner(s.store, owner).0);
  }

  // One job moves and the store stays as it is.

  lemma FewerJobs(s: State, j: nat)
    ensures |End(s, j).jobs| <= |s.jobs|
  {
    SubsetCount((s.jobs - {j}).Keys, s.jobs.Keys);
  }

  lemma MoreJobs(s: State, j: nat, job: Job)
    requires (j !in s.jobs && |s.jobs| < JOB_SLOTS) || (j in s.jobs && |s.jobs| <= JOB_SLOTS)
    ensures |s.jobs[j := job]| <= JOB_SLOTS
  {
    if j in s.jobs { assert s.jobs[j := job].Keys == s.jobs.Keys; }
  }

  lemma JobMoves(s: State, j: nat, job: Job)
    requires Inv(s) && (j in s.jobs || |s.jobs| < JOB_SLOTS)
    requires job.Locked? ==> !IsLocked(s, job.upload)
    requires !job.Staged? && JobOk(s.(jobs := s.jobs[j := job]), j)
    ensures Inv(s.(jobs := s.jobs[j := job]))
  {
    var t := s.(jobs := s.jobs[j := job]);
    MoreJobs(s, j, job);
    FilesKept(s, t);
    Assemble(s, t, j);
  }

  lemma JobEnds(s: State, j: nat)
    requires Inv(s)
    ensures Inv(End(s, j))
  {
    FewerJobs(s, j);
    FilesKept(s, End(s, j));
    Assemble(s, End(s, j), j);
  }

  lemma LockKeeps(s: State, j: nat)
    requires Inv(s) && Enabled(s, Lock(j))
    ensures Inv(LockUpload(s, j))
  {
    var h := s.jobs[j];
    assert JobOk(s, j);
    if UploadLive(s.store, h.context, h.upload) {
      forall i | 0 <= i < |s.released| ensures s.released[i].entry.file != h.upload { assert ReleaseOk(s, i); }
      JobMoves(s, j, Locked(h.context, h.upload));
    } else {
      JobMoves(s, j, Returning(h.upload));
    }
  }

  lemma FindKeeps(s: State, j: nat, id: nat)
    requires Inv(s) && Enabled(s, Find(j, id))
    ensures Inv(Apply(s, Find(j, id)))
  {
    var found := Lookup(s.store.entries, JobOwner(s.jobs[j]), id);
    if found.Some? {
      assert EntryReleased(s, found.value);
      JobMoves(s, j, Reading(found.value));
    } else {
      JobEnds(s, j);
    }
  }

  lemma StartKeeps(s: State, j: nat, job: Job)
    requires Inv(s) && j !in s.jobs && |s.jobs| < JOB_SLOTS
    requires job.Forwarding? || (job.Asking? && OwnerCaptured(s.store, job.owner, job.ownerGuard))
    ensures Inv(s.(jobs := s.jobs[j := job]))
  {
    JobMoves(s, j, job);
  }

  lemma CaptureKeeps(s: State, j: nat)
    requires Inv(s) && Enabled(s, Capture(j))
    ensures Inv(CaptureRun(s, j))
  {
    var a := s.jobs[j];
    assert JobOk(s, j);
    if a.origin.Some? && (a.owner, a.origin.value) !in s.store.runs {
      JobEnds(s, j);
    } else {
      JobMoves(s, j, CaptureRun(s, j).jobs[j]);
    }
  }

  lemma FetchKeeps(s: State, j: nat, u: nat)
    requires Inv(s) && Enabled(s, Fetch(j, u))
    ensures Inv(Apply(s, Fetch(j, u)))
  {
    assert JobOk(s, j);
    if Registered(s.store, s.jobs[j].context, u) {
      JobMoves(s, j, Held(s.jobs[j].context, u));
    } else {
      JobEnds(s, j);
    }
  }

  // Events that change a file or the queue.

  /** Assembling the invariant after job `j` ended with a store operation that published nothing. */
  lemma AssembleEnd(s: State, store: Store, j: nat)
    requires Inv(s) && StoreOk(store) && StoreFrame(s.store, store)
    requires ReleasedFrame(s, s.(store := store))
    requires forall e :: e in store.entries ==> e in s.store.entries
    ensures Inv(End(s.(store := store), j))
  {
    FewerJobs(s, j);
    assert ReleasedFrame(s, End(s.(store := store), j));
    Assemble(s, End(s.(store := store), j), j);
  }

  /** The same when job `j` goes on to return, still holding an upload. */
  lemma AssembleReturn(s: State, store: Store, j: nat, u: nat)
    requires Inv(s) && StoreOk(store) && StoreFrame(s.store, store) && j in s.jobs && u in s.store.arena
    requires ReleasedFrame(s, s.(store := store))
    requires forall e :: e in store.entries ==> e in s.store.entries
    ensures Inv(Return(s.(store := store), j, u))
  {
    var t := Return(s.(store := store), j, u);
    MoreJobs(s, j, Returning(u));
    assert ReleasedFrame(s, t);
    Assemble(s, t, j);
  }

  lemma BeginSparesReleased(s: State, c: Context, format: string)
    requires Inv(s) && c.run.Some? && c.runGuard.Some?
    ensures ReleasedFrame(s, s.(store := Begin(s.store, c, format).0))
  {
    var store := Begin(s.store, c, format).0;
    BeginShape(s.store, c, format);
    forall i | 0 <= i < |s.released|
      ensures s.released[i].entry.file in s.store.files && s.released[i].entry.file < s.store.next
    {
      assert ReleaseOk(s, i);
    }
  }

  lemma BeginKeeps(s: State, j: nat, format: string)
    requires Inv(s) && Enabled(s, BeginUpload(j, format))
    ensures Inv(Apply(s, BeginUpload(j, format)))
  {
    var c := s.jobs[j].context;
    assert ContextOk(s.store, c) by { assert JobOk(s, j); }
    BeginOk(s.store, c, format);
    BeginSparesReleased(s, c, format);
    BeginShape(s.store, c, format);
    AssembleEnd(s, Begin(s.store, c, format).0, j);
  }

  lemma AbortSparesReleased(s: State, u: nat)
    requires Inv(s)
    ensures ReleasedFrame(s, s.(store := Abort(s.store, u)))
  {
    AbortShape(s.store, u);
    forall i | 0 <= i < |s.released| ensures s.released[i].entry.file in s.store.files { assert ReleaseOk(s, i); }
  }

  lemma AbortKeeps(s: State, j: nat)
    requires Inv(s) && Enabled(s, AbortUpload(j))
    ensures Inv(Apply(s, AbortUpload(j)))
  {
    var u := s.jobs[j].upload;
    assert u in s.store.arena by { assert JobOk(s, j); }
    AbortOk(s.store, u);
    AbortShape(s.store, u);
    AbortSparesReleased(s, u);
    AssembleReturn(s, Abort(s.store, u), j, u);
  }

  /** An append touches only its own upload's file, which is not released. */
  lemma AppendSparesReleased(s: State, u: nat, offset: nat, data: string, written: Written)
    requires forall i :: 0 <= i < |s.released| ==> ReleaseOk(s, i)
    requires UploadsOk(s.store) && u in s.store.arena && !IsReleased(s, u)
    ensures ReleasedFrame(s, s.(store := Append(s.store, u, offset, data, written).0))
  {
    assert UploadOk(s.store, u);
    forall i | 0 <= i < |s.released|
      ensures s.released[i].entry.file != u && s.released[i].entry.file in s.store.files
    {
      assert ReleaseOk(s, i);
    }
  }

  lemma AppendKeeps(s: State, j: nat, offset: nat, data: string, written: Written)
    requires Inv(s) && Enabled(s, AppendChunk(j, offset, data, written))
    ensures Inv(Apply(s, AppendChunk(j, offset, data, written)))
  {
    var u := s.jobs[j].upload;
    assert JobOk(s, j);
    AppendOk(s.store, u, offset, data, written);
    AppendSparesReleased(s, u, offset, data, written);
    AssembleReturn(s, Append(s.store, u, offset, data, written).0, j, u);
  }

  lemma DropEntriesOk(s: Store, owner: string, id: nat)
    requires EntriesOk(s)
    ensures var t := s.(entries := DropEntry(s.entries, owner, id).0);
            EntriesOk(t) && forall e :: e in t.entries ==> e in s.entries
  {
    DropEntryKeeps(s.entries, owner, id);
  }

  lemma SameButEntries(s: Store, t: Store)
    requires GuardsOk(s) && UploadsOk(s) && t == s.(entries := t.entries)
    ensures GuardsOk(t) && UploadsOk(t) && StoreFrame(s, t)
  {
    UploadsStay(s, t);
    SameGuards(s, t);
  }

  lemma DropStore(s: Store, owner: string, id: nat)
    requires StoreOk(s)
    ensures var t := s.(entries := DropEntry(s.entries, owner, id).0);
            StoreOk(t) && StoreFrame(s, t) && forall e :: e in t.entries ==> e in s.entries
  {
    DropEntriesOk(s, owner, id);
    SameButEntries(s, s.(entries := DropEntry(s.entries, owner, id).0));
  }

  lemma DropKeeps(s: State, j: nat, id: nat)
    requires Inv(s) && Enabled(s, DropOne(j, id))
    ensures Inv(Apply(s, DropOne(j, id)))
  {
    var owner := s.jobs[j].context.owner;
    DropStore(s.store, owner, id);
    var store := s.store.(entries := DropEntry(s.store.entries, owner, id).0);
    SameJobsKeep(s, store);
    JobEnds(s.(store := store), j);
  }

  lemma StagedStore(s: Store)
    requires StoreOk(s)
    ensures var t := s.(files := s.files[s.next := []], next := s.next + 1);
            StoreOk(t) && StoreFrame(s, t)
  {
    var t := s.(files := s.files[s.next := []], next := s.next + 1);
    forall u | u in t.arena ensures UploadOk(t, u) { assert UploadOk(s, u); }
  }

  lemma StagedIsNew(s: State, t: State, j: nat, format: string)
    requires UploadsOk(s.store) && j in s.jobs && s.jobs[j].Ready? && JobOk(s, j)
    requires t.jobs == s.jobs[j := Staged(s.jobs[j].context, s.store.next, format)]
    requires t.released == s.released && GuardFrame(s.store, t.store) && t.store.arena == s.store.arena
    requires s.store.next in t.store.files && |t.store.files[s.store.next]| <= ITEM_LIMIT
    requires forall i :: 0 <= i < |s.released| ==> s.released[i].entry.file < s.store.next
    requires forall k :: k in s.jobs && s.jobs[k].Staged? ==> s.jobs[k].file in s.store.files
    ensures JobOk(t, j)
  {
    CapturedStays(s.store, t.store, s.jobs[j].context);
    forall u | u in s.store.arena ensures u < s.store.next { assert UploadOk(s.store, u); }
  }

  lemma StagedFiles(s: State)
    requires Inv(s)
    ensures forall i :: 0 <= i < |s.released| ==> s.released[i].entry.file < s.store.next
    ensures forall k :: k in s.jobs && s.jobs[k].Staged? ==> s.jobs[k].file in s.store.files
  {
    forall i | 0 <= i < |s.released| ensures s.released[i].entry.file < s.store.next { assert ReleaseOk(s, i); }
    forall k | k in s.jobs && s.jobs[k].Staged? ensures s.jobs[k].file in s.store.files { assert JobOk(s, k); }
  }

  lemma StageSparesReleased(s: State, t: State)
    requires Inv(s) && t.released == s.released
    requires t.store == s.store.(files := s.store.files[s.store.next := []], next := s.store.next + 1)
    ensures ReleasedFrame(s, t)
  {
    forall i | 0 <= i < |s.released|
      ensures s.released[i].entry.file in s.store.files && s.released[i].entry.file < s.store.next
    {
      assert ReleaseOk(s, i);
    }
  }

  lemma StageMoves(s: State, t: State, j: nat, job: Job)
    requires t.jobs == s.jobs[j := job] && job.Staged? && job.file == s.store.next
    ensures OnlyMoved(s, t, j)
  {}

  /** Assembling the invariant after job `j` took up a file nobody had. */
  lemma AssembleStage(s: State, t: State, j: nat, job: Job)
    requires Inv(s) && j in s.jobs && t.jobs == s.jobs[j := job] && job.Staged? && job.file == s.store.next
    requires StoreOk(t.store) && StoreFrame(s.store, t.store) && t.store.entries == s.store.entries
    requires t.released == s.released && ReleasedFrame(s, t) && JobOk(t, j)
    ensures Inv(t)
  {
    MoreJobs(s, j, job);
    StageMoves(s, t, j, job);
    Assemble(s, t, j);
  }

  lemma StageKeeps(s: State, j: nat, format: string)
    requires Inv(s) && j in s.jobs && s.jobs[j].Ready?
    ensures var job := Staged(s.jobs[j].context, s.store.next, format);
            var store := s.store.(files := s.store.files[s.store.next := []], next := s.store.next + 1);
            Inv(s.(store := store, jobs := s.jobs[j := job]))
  {
    var job := Staged(s.jobs[j].context, s.store.next, format);
    var store := s.store.(files := s.store.files[s.store.next := []], next := s.store.next + 1);
    var t := s.(store := store, jobs := s.jobs[j := job]);
    StagedStore(s.store);
    StagedHeld(s, t, j, format);
    StageSparesReleased(s, t);
    AssembleStage(s, t, j, job);
  }

  lemma StagedHeld(s: State, t: State, j: nat, format: string)
    requires Inv(s) && j in s.jobs && s.jobs[j].Ready?
    requires t.jobs == s.jobs[j := Staged(s.jobs[j].context, s.store.next, format)]
    requires t.released == s.released && GuardFrame(s.store, t.store) && t.store.arena == s.store.arena
    requires s.store.next in t.store.files && |t.store.files[s.store.next]| <= ITEM_LIMIT
    ensures JobOk(t, j)
  {
    StagedFiles(s);
    assert JobOk(s, j);
    StagedIsNew(s, t, j, format);
  }

  lemma CopiedStore(s: Store, f: nat, bytes: seq<Byte>)
    requires StoreOk(s) && f in s.files && f !in s.arena && |bytes| <= ITEM_LIMIT
    ensures var t := s.(files := s.files[f := bytes]);
            StoreOk(t) && StoreFrame(s, t)
  {
    var t := s.(files := s.files[f := bytes]);
    forall u | u in t.arena ensures UploadOk(t, u) { assert UploadOk(s, u); }
  }

  /** An import's file is written while nobody else has it. */
  lemma FileKeeps(s: State, j: nat, bytes: seq<Byte>)
    requires Inv(s) && j in s.jobs && s.jobs[j].Staged? && |bytes| <= ITEM_LIMIT
    ensures Inv(WithFile(s, s.jobs[j].file, bytes))
  {
    var f := s.jobs[j].file;
    var t := WithFile(s, f, bytes);
    assert JobOk(s, j);
    CopiedStore(s.store, f, bytes);
    FileSparesReleased(s, f, t);
    Assemble(s, t, j);
  }

  lemma FileSparesReleased(s: State, f: nat, t: State)
    requires forall i :: 0 <= i < |s.released| ==> ReleaseOk(s, i)
    requires !IsReleased(s, f) && t.released == s.released
    requires t.store == s.store.(files := t.store.files)
    requires forall g :: g in s.store.files && g != f ==> g in t.store.files && t.store.files[g] == s.store.files[g]
    ensures ReleasedFrame(s, t)
  {
    forall i | 0 <= i < |s.released|
      ensures s.released[i].entry.file != f && s.released[i].entry.file in s.store.files
    {
      assert ReleaseOk(s, i);
    }
  }

  lemma GiveUpKeeps(s: State, j: nat)
    requires Inv(s) && j in s.jobs && s.jobs[j].Staged?
    ensures Inv(Return(s, j, s.jobs[j].file))
  {
    assert JobOk(s, j);
    JobMoves(s, j, Returning(s.jobs[j].file));
  }

  lemma CopyKeeps(s: State, j: nat, block: seq<Byte>, written: Written)
    requires Inv(s) && Enabled(s, CopyBlock(j, block, written))
    ensures Inv(Copy(s, j, block, written))
  {
    var file := s.jobs[j].file;
    var before := s.store.files[file];
    if |before| + |block| > ITEM_LIMIT {
      GiveUpKeeps(s, j);
    } else if written.Whole? {
      FileKeeps(s, j, before + block);
    } else {
      var bytes := before + if written.kept < |block| then block[..written.kept] else block;
      FileKeeps(s, j, bytes);
      GiveUpKeeps(WithFile(s, file, bytes), j);
    }
  }

  // Publication.

  lemma PublishReleases(s: State, t: State, j: nat, r: Release)
    requires forall i :: 0 <= i < |s.released| ==> ReleaseOk(s, i)
    requires t.released == s.released + [r] && ReleasedFrame(s, t) && !IsReleased(s, r.entry.file)
    requires ReleaseOk(t, |s.released|)
    ensures forall i :: 0 <= i < |t.released| ==> ReleaseOk(t, i)
  {
    forall i | 0 <= i < |t.released| ensures ReleaseOk(t, i) {
      if i < |s.released| {
        assert ReleaseOk(s, i);
        assert s.released[i].entry.file != r.entry.file;
      }
    }
  }

  lemma PublishEntries(s: State, t: State, j: nat, r: Release)
    requires forall e :: e in s.store.entries ==> EntryReleased(s, e)
    requires t.released == s.released + [r] && ReleasesFrom(s, t, j)
    requires forall e :: e in t.store.entries ==> e == r.entry || e in s.store.entries
    ensures forall e :: e in t.store.entries ==> EntryReleased(t, e)
  {
    forall e | e in t.store.entries ensures EntryReleased(t, e) {
      if e == r.entry {
        assert t.released[|s.released|].entry == e;
      } else {
        ReleasedStays(s, t, j, e);
      }
    }
  }

  lemma ReleasedIsHeld(t: State, i: nat)
    requires i < |t.released| && ReleaseOk(t, i)
    ensures var f := t.released[i].entry.file;
            f in t.store.arena || (f in t.store.files && |t.store.files[f]| <= ITEM_LIMIT)
  {}

  /** Assembling the invariant after job `j` published the file it held alone. */
  lemma PublishAssemble(s: State, t: State, j: nat, r: Release)
    requires Inv(s) && StoreOk(t.store) && StoreFrame(s.store, t.store)
    requires t.jobs == s.jobs[j := Returning(r.entry.file)] && t.released == s.released + [r]
    requires HeldAlone(s, j, r.entry.file) && !IsReleased(s, r.entry.file)
    requires ReleasedFrame(s, t) && ReleaseOk(t, |s.released|)
    requires forall e :: e in t.store.entries ==> e == r.entry || e in s.store.entries
    ensures Inv(t)
  {
    assert t.released[..|s.released|] == s.released;
    MoreJobs(s, j, Returning(r.entry.file));
    PublishReleases(s, t, j, r);
    PublishEntries(s, t, j, r);
    assert JobOk(t, j) by { ReleasedIsHeld(t, |s.released|); }
    forall k | k in t.jobs ensures JobOk(t, k) {
      if k != j { OtherJob(s, t, j, k); }
    }
  }

  /** The store after a publication: the new entry is last and its owner is registered. */
  lemma PublishShape(s: Store, c: Context, file: nat, size: nat, format: string, hashed: seq<Byte>)
    requires StoreOk(s) && ContextOk(s, c) && GuardsLive(s, c) && size <= ITEM_LIMIT
    ensures var t := Publish(s, c.owner, file, size, format, hashed);
            var e := Entry(s.next, c.owner, file, size, format, hashed);
            && StoreOk(t) && StoreFrame(s, t)
            && t.arena == s.arena && t.files == s.files && t.uploads == s.uploads
            && t.owners == s.owners && t.runs == s.runs
            && |t.entries| > 0 && t.entries[|t.entries| - 1] == e
            && (forall x :: x in t.entries ==> x == e || x in s.entries)
  {
    PublishOk(s, c.owner, file, size, format, hashed);
    PublishedWithinLimits(s.entries, Entry(s.next, c.owner, file, size, format, hashed));
  }

  lemma CreateRelease(s: State, j: nat, r: Release, t: State)
    requires Inv(s) && j in s.jobs && s.jobs[j].Staged? && JobOk(s, j)
    requires t.released == s.released + [r] && t.store.files == s.store.files && t.store.arena == s.store.arena
    requires r.entry.file == s.jobs[j].file && r.content == s.store.files[r.entry.file]
    requires r.entry.hashed == r.content && r.entry.size == |r.content|
    ensures ReleaseOk(t, |s.released|) && ReleasedFrame(s, t)
  {
    FilesKept(s, t.(released := s.released));
  }

  lemma CreatePublishes(s: State, j: nat)
    requires Inv(s) && Enabled(s, CreateEntry(j)) && GuardsLive(s.store, s.jobs[j].context)
    ensures Inv(Released(s, j, Create(s.store, s.jobs[j].context, s.jobs[j].file, s.jobs[j].format).0))
  {
    var job := s.jobs[j];
    assert JobOk(s, j);
    var content := s.store.files[job.file];
    PublishShape(s.store, job.context, job.file, |content|, job.format, content);
    var store := Create(s.store, job.context, job.file, job.format).0;
    var r := Release(store.entries[|store.entries| - 1], content);
    var t := Released(s, j, store);
    CreateRelease(s, j, r, t);
    PublishAssemble(s, t, j, r);
  }

  lemma CreateKeeps(s: State, j: nat)
    requires Inv(s) && Enabled(s, CreateEntry(j))
    ensures Inv(Apply(s, CreateEntry(j)))
  {
    if GuardsLive(s.store, s.jobs[j].context) {
      CreatePublishes(s, j);
    } else {
      assert JobOk(s, j);
      JobMoves(s, j, Returning(s.jobs[j].file));
    }
  }

  lemma FrameTrans(s: Store, m: Store, t: Store)
    requires StoreFrame(s, m) && StoreFrame(m, t) && t.next == m.next && t.live == m.live && t.files == m.files
    requires t.owners == m.owners && t.runs == m.runs && m.arena == s.arena && t.arena.Keys == s.arena.Keys
    ensures StoreFrame(s, t)
  {}

  /** The store after a commit: published, and the upload retired. */
  lemma CommitShape(s: Store, c: Context, u: nat)
    requires StoreOk(s) && ContextOk(s, c) && u in s.arena && UploadLive(s, c, u)
    ensures var t := Commit(s, c, u).0;
            var e := Entry(s.next, c.owner, u, s.arena[u].size, s.arena[u].format, s.arena[u].hashed);
            && StoreOk(t) && StoreFrame(s, t) && t.files == s.files
            && t.arena.Keys == s.arena.Keys
            && (forall v :: v in t.arena ==> t.arena[v].hashed == s.arena[v].hashed)
            && (forall v :: v in t.arena && t.arena[v].alive ==> s.arena[v].alive && v != u)
            && |t.entries| > 0 && t.entries[|t.entries| - 1] == e
            && (forall x :: x in t.entries ==> x == e || x in s.entries)
  {
    assert s.arena[u].file == u && s.arena[u].size <= ITEM_LIMIT by { assert UploadOk(s, u); }
    var up := s.arena[u];
    var m := Publish(s, c.owner, u, up.size, up.format, up.hashed);
    PublishShape(s, c, u, up.size, up.format, up.hashed);
    CommitAborts(s, c, u, m);
    AbortOk(m, u);
    AbortShape(m, u);
    FrameTrans(s, m, Abort(m, u));
  }

  lemma CommitAborts(s: Store, c: Context, u: nat, m: Store)
    requires u in s.arena && s.arena[u].file == u && s.arena[u].size <= ITEM_LIMIT && UploadLive(s, c, u)
    requires m == Publish(s, c.owner, u, s.arena[u].size, s.arena[u].format, s.arena[u].hashed)
    ensures Commit(s, c, u).0 == Abort(m, u)
  {}

  /** What the committing event leaves behind, once the store part is known. */
  lemma CommitRelease(s: State, j: nat, r: Release, t: State)
    requires Inv(s) && j in s.jobs && s.jobs[j].Locked? && JobOk(s, j)
    requires t.released == s.released + [r] && t.store.files == s.store.files
    requires r.entry.file == s.jobs[j].upload && r.entry.file in s.store.files
    requires r.content == s.store.files[r.entry.file] && r.entry.size == s.store.arena[r.entry.file].size
    requires r.entry.hashed == s.store.arena[r.entry.file].hashed
    requires t.store.arena.Keys == s.store.arena.Keys
    requires forall v :: v in t.store.arena ==> t.store.arena[v].hashed == s.store.arena[v].hashed
    requires forall v :: v in t.store.arena && t.store.arena[v].alive ==> s.store.arena[v].alive && v != r.entry.file
    ensures ReleaseOk(t, |s.released|) && ReleasedFrame(s, t)
  {
    assert UploadOk(s.store, r.entry.file);
    FilesKept(s, t.(released := s.released));
  }

  lemma ReleasedForm(s: State, j: nat, store: Store, e: Entry)
    requires |store.entries| > 0 && store.entries[|store.entries| - 1] == e && e.file in store.files
    ensures Released(s, j, store) ==
            State(store, s.jobs[j := Returning(e.file)], s.released + [Release(e, store.files[e.file])])
  {}

  lemma CommitPublishes(s: State, j: nat)
    requires Inv(s) && Enabled(s, CommitUpload(j)) && UploadLive(s.store, s.jobs[j].context, s.jobs[j].upload)
    ensures Inv(Released(s, j, Commit(s.store, s.jobs[j].context, s.jobs[j].upload).0))
  {
    var c, u := s.jobs[j].context, s.jobs[j].upload;
    assert JobOk(s, j);
    assert u in s.store.files && s.store.arena[u].file == u by { assert UploadOk(s.store, u); }
    CommitShape(s.store, c, u);
    var store := Commit(s.store, c, u).0;
    var e := store.entries[|store.entries| - 1];
    ReleasedForm(s, j, store, e);
    var r := Release(e, store.files[u]);
    var t := State(store, s.jobs[j := Returning(u)], s.released + [r]);
    CommitRelease(s, j, r, t);
    PublishAssemble(s, t, j, r);
  }

  lemma CommitKeeps(s: State, j: nat)
    requires Inv(s) && Enabled(s, CommitUpload(j))
    ensures Inv(Apply(s, CommitUpload(j)))
  {
    if UploadLive(s.store, s.jobs[j].context, s.jobs[j].upload) {
      CommitPublishes(s, j);
    } else {
      assert JobOk(s, j);
      JobMoves(s, j, Returning(s.jobs[j].upload));
    }
  }

  /** One event of any kind keeps the whole invariant. */
  lemma StepKeeps(s: State, e: Event)
    requires Inv(s) && Enabled(s, e)
    ensures Inv(Apply(s, e))
  {
    match e
    case AddOwner(owner) => OwnerEventKeeps(s, owner);
    case AddRun(owner, run) => RunEventKeeps(s, owner, run);
    case FinishRun(owner, run) => EndRunKeeps(s, owner, run);
    case CloseOwner(owner) => RemoveOwnerKeeps(s, owner);
    case Dispatch(j, owner, origin) => StartKeeps(s, j, Asking(owner, s.store.owners[owner], origin));
    case Forward(j, owner) => StartKeeps(s, j, Forwarding(owner));
    case Capture(j) => CaptureKeeps(s, j);
    case BeginUpload(j, format) => BeginKeeps(s, j, format);
    case Fetch(j, u) => FetchKeeps(s, j, u);
    case AbortUpload(j) => AbortKeeps(s, j);
    case Lock(j) => LockKeeps(s, j);
    case AppendChunk(j, offset, data, written) => AppendKeeps(s, j, offset, data, written);
    case CommitUpload(j) => CommitKeeps(s, j);
    case Stage(j, format) => StageKeeps(s, j, format);
    case CopyBlock(j, block, written) => CopyKeeps(s, j, block, written);
    case CreateEntry(j) => CreateKeeps(s, j);
    case Find(j, id) => FindKeeps(s, j, id);
    case DropOne(j, id) => DropKeeps(s, j, id);
    case Finish(j) => JobEnds(s, j);
  }

  // ----- runs -----

  predicate Steps(s: State, e: Event, t: State) {
    Enabled(s, e) && t == Apply(s, e)
  }

  /** `es` leads from `s` to `t`. */
  ghost predicate Runs(s: State, es: seq<Event>, t: State) {
    Schedules.Leads(Steps, s, es, t)
  }

  lemma RunsFirst(s: State, es: seq<Event>, t: State)
    requires Runs(s, es, t) && es != []
    ensures Enabled(s, es[0]) && Runs(Apply(s, es[0]), es[1..], t)
  {
    var m := Schedules.First(Steps, s, es, t);
    assert Steps(s, es[0], m);
  }

  const START: State := State(Empty(), map[], [])

  lemma {:induction false} RunKeeps(s: State, es: seq<Event>, t: State)
    requires Inv(s) && Runs(s, es, t)
    ensures Inv(t)
    decreases |es|
  {
    if es != [] {
      RunsFirst(s, es, t);
      StepKeeps(s, es[0]);
      RunKeeps(Apply(s, es[0]), es[1..], t);
    } else {
      Schedules.NothingOnly(Steps, s, t);
    }
  }

  /**
   Late jobs resurrect nothing. In every state any interleaving reaches, every
   entry's owner is registered under a guard that is still set, and so are the
   owner and the run of every unfinished upload, even when the same name was
   closed and registered again.
   */
  lemma NoResurrection(es: seq<Event>, t: State)
    requires Runs(START, es, t)
    ensures forall e :: e in t.store.entries ==>
              e.owner in t.store.owners && t.store.owners[e.owner] in t.store.live
    ensures forall u :: u in t.store.uploads ==>
              u in t.store.arena
              && (var up := t.store.arena[u];
                  up.alive && up.owner in t.store.owners && t.store.owners[up.owner] in t.store.live
                  && (up.owner, up.run) in t.store.runs && t.store.runs[(up.owner, up.run)] in t.store.live)
  {
    RunKeeps(START, es, t);
    forall u | u in t.store.uploads ensures UploadOk(t.store, u) {}
  }

  /** The two limits of the queue and the upload and job slots hold throughout. */
  lemma LimitsHold(es: seq<Event>, t: State)
    requires Runs(START, es, t)
    ensures WithinLimits(t.store.entries) && |t.store.uploads| <= UPLOAD_SLOTS && |t.jobs| <= JOB_SLOTS
  {
    RunKeeps(START, es, t);
  }

  lemma ReleasedStep(s: State, e: Event)
    requires Enabled(s, e)
    ensures s.released <= Apply(s, e).released
  {}

  lemma {:induction false} ReleasedGrows(s: State, es: seq<Event>, t: State)
    requires Inv(s) && Runs(s, es, t)
    ensures s.released <= t.released
    decreases |es|
  {
    if es != [] {
      RunsFirst(s, es, t);
      StepKeeps(s, es[0]);
      ReleasedStep(s, es[0]);
      ReleasedGrows(Apply(s, es[0]), es[1..], t);
    } else {
      Schedules.NothingOnly(Steps, s, t);
    }
  }

  /**
   A publication is final: no two publications share a file, so an upload is
   published at most once, and whatever happens afterwards the published file
   keeps the bytes it had, even for readers of an evicted entry.
   */
  lemma PublishedOnceAndFrozen(es: seq<Event>, s: State, later: seq<Event>, t: State, i: nat)
    requires Runs(START, es, s) && Runs(s, later, t) && i < |s.released|
    ensures i < |t.released| && t.released[i] == s.released[i]
    ensures s.released[i].entry.file in t.store.files
            && t.store.files[s.released[i].entry.file] == s.released[i].content
    ensures forall k :: 0 <= k < |t.released| && t.released[k].entry.file == s.released[i].entry.file ==> k == i
  {
    RunKeeps(START, es, s);
    RunKeeps(s, later, t);
    ReleasedGrows(s, later, t);
    assert t.released[i] == s.released[i];
    assert ReleaseOk(t, i);
  }

  // ----- what an upload's file holds -----

  function Hashed(s: State, u: nat): seq<Byte> {
    if u in s.store.arena then s.store.arena[u].hashed else []
  }

  /** Event `e` is an append to `u` that the store accepts. */
  predicate Accepts(s: State, e: Event, u: nat)
    requires Enabled(s, e)
  {
    e.AppendChunk? && s.jobs[e.job].upload == u && Append(s.store, u, e.offset, e.data, e.written).1
  }

  /** The bytes of a run's accepted appends to `u`, in order. */
  function AcceptedIn(s: State, es: seq<Event>, u: nat): seq<Byte>
    decreases |es|
  {
    if es == [] || !Enabled(s, es[0]) then []
    else
      (if Accepts(s, es[0], u) then Decode(es[0].data).value else [])
      + AcceptedIn(Apply(s, es[0]), es[1..], u)
  }

  lemma HashedAfterAppend(s: State, e: Event, u: nat)
    requires UploadsOk(s.store) && e.AppendChunk? && Enabled(s, e)
    ensures Hashed(Apply(s, e), u) == Hashed(s, u) + if Accepts(s, e, u) then Decode(e.data).value else []
    ensures Accepts(s, e, u) ==> e.offset == |Hashed(s, u)|
  {
    assert UploadOk(s.store, s.jobs[e.job].upload);
  }

  lemma HashedAfterQuiet(s: State, e: Event, u: nat)
    requires Enabled(s, e)
    requires e.Dispatch? || e.Forward? || e.Capture? || e.Fetch? || e.Lock? || e.Find? || e.Finish? || e.DropOne?
             || e.Stage? || e.CopyBlock?
    ensures Hashed(Apply(s, e), u) == Hashed(s, u)
  {}

  lemma HashedAfterRetire(s: Store, dead: set<nat>, u: nat)
    ensures (u in Retire(s, dead).arena) == (u in s.arena)
    ensures u in s.arena ==> Retire(s, dead).arena[u].hashed == s.arena[u].hashed
  {}

  lemma HashedAfterGuards(s: State, e: Event, u: nat)
    requires Enabled(s, e)
    requires e.AddOwner? || e.AddRun? || e.FinishRun? || e.CloseOwner? || e.AbortUpload?
    ensures Hashed(Apply(s, e), u) == Hashed(s, u)
  {
    match e
    case FinishRun(owner, run) => HashedAfterRetire(s.store, RunUploads(s.store, owner, run), u);
    case CloseOwner(owner) => HashedAfterRetire(s.store, OwnerUploads(s.store, owner), u);
    case AbortUpload(j) => HashedAfterRetire(s.store, {s.jobs[j].upload}, u);
    case _ =>
  }

  lemma HashedAfterBegin(s: State, e: Event, u: nat)
    requires UploadsOk(s.store) && Enabled(s, e) && e.BeginUpload?
    ensures Hashed(Apply(s, e), u) == Hashed(s, u)
  {
    if u in s.store.arena { assert UploadOk(s.store, u); }
  }

  lemma HashedAfterPublish(s: State, e: Event, u: nat)
    requires Enabled(s, e) && (e.CommitUpload? || e.CreateEntry?)
    ensures Hashed(Apply(s, e), u) == Hashed(s, u)
  {}

  lemma HashedStep(s: State, e: Event, u: nat)
    requires UploadsOk(s.store) && Enabled(s, e)
    ensures Hashed(Apply(s, e), u) == Hashed(s, u) + if Accepts(s, e, u) then Decode(e.data).value else []
    ensures Accepts(s, e, u) ==> e.offset == |Hashed(s, u)|
  {
    match e
    case AppendChunk(_, _, _, _) => HashedAfterAppend(s, e, u);
    case BeginUpload(_, _) => HashedAfterBegin(s, e, u);
    case CommitUpload(_) => HashedAfterPublish(s, e, u);
    case CreateEntry(_) => HashedAfterPublish(s, e, u);
    case AddOwner(_) => HashedAfterGuards(s, e, u);
    case AddRun(_, _) => HashedAfterGuards(s, e, u);
    case FinishRun(_, _) => HashedAfterGuards(s, e, u);
    case CloseOwner(_) => HashedAfterGuards(s, e, u);
    case AbortUpload(_) => HashedAfterGuards(s, e, u);
    case _ => HashedAfterQuiet(s, e, u);
  }

  lemma {:induction false} HashedIsAccepted(s: State, es: seq<Event>, t: State, u: nat)
    requires Inv(s) && Runs(s, es, t)
    ensures Hashed(t, u) == Hashed(s, u) + AcceptedIn(s, es, u)
    decreases |es|
  {
    if es != [] {
      var e := es[0];
      RunsFirst(s, es, t);
      StepKeeps(s, e);
      HashedStep(s, e, u);
      HashedIsAccepted(Apply(s, e), es[1..], t, u);
      Prepend(Hashed(s, u), if Accepts(s, e, u) then Decode(e.data).value else [], AcceptedIn(Apply(s, e), es[1..], u));
    }
  }

  // ----- what half-failed appends leave behind -----

  /** Bytes an event leaves in an upload's file without counting them. */
  function TornBy(s: State, e: Event, u: nat): nat
    requires Enabled(s, e)
  {
    if e.AppendChunk? && s.jobs[e.job].upload == u && e.written.Torn?
       && Appendable(s.store.arena[u].size, e.offset, e.data) then
      var bytes := Decode(e.data).value;
      if e.written.kept < |bytes| then e.written.kept else |bytes|
    else 0
  }

  /** The same over a whole schedule. */
  function TornIn(s: State, es: seq<Event>, u: nat): nat
    decreases |es|
  {
    if es == [] || !Enabled(s, es[0]) then 0
    else TornBy(s, es[0], u) + TornIn(Apply(s, es[0]), es[1..], u)
  }

  /** How much longer an upload's file is than the bytes it accepted. */
  function Excess(s: Store, u: nat): int {
    if u in s.arena && u in s.files then |s.files[u]| - |s.arena[u].hashed| else 0
  }

  lemma ExcessAfterAppend(s: State, e: Event, u: nat)
    requires UploadsOk(s.store) && e.AppendChunk? && Enabled(s, e)
    ensures Excess(Apply(s, e).store, u) == Excess(s.store, u) + TornBy(s, e, u)
  {
    assert UploadOk(s.store, s.jobs[e.job].upload);
    if u in s.store.arena { assert UploadOk(s.store, u); }
  }

  lemma ExcessAfterFiles(s: State, e: Event, u: nat)
    requires UploadsOk(s.store) && Enabled(s, e) && (e.BeginUpload? || e.Stage?)
    ensures Excess(Apply(s, e).store, u) == Excess(s.store, u)
  {
    if u in s.store.arena { assert UploadOk(s.store, u); }
  }

  lemma ExcessAfterCopy(s: State, e: Event, u: nat)
    requires Enabled(s, e) && e.CopyBlock? && s.jobs[e.job].file !in s.store.arena
    ensures Excess(Apply(s, e).store, u) == Excess(s.store, u)
  {}

  lemma ExcessAfterRetire(s: State, e: Event, u: nat)
    requires UploadsOk(s.store) && Enabled(s, e)
    requires e.AddOwner? || e.AddRun? || e.FinishRun? || e.CloseOwner? || e.AbortUpload?
    ensures Excess(Apply(s, e).store, u) == Excess(s.store, u)
  {
    if u in s.store.arena { assert UploadOk(s.store, u); }
    match e
    case FinishRun(owner, run) => HashedAfterRetire(s.store, RunUploads(s.store, owner, run), u);
    case CloseOwner(owner) => HashedAfterRetire(s.store, OwnerUploads(s.store, owner), u);
    case AbortUpload(j) => HashedAfterRetire(s.store, {s.jobs[j].upload}, u);
    case _ =>
  }

  lemma ExcessAfterPublish(s: State, e: Event, u: nat)
    requires UploadsOk(s.store) && Enabled(s, e) && (e.CommitUpload? || e.CreateEntry?)
    ensures Excess(Apply(s, e).store, u) == Excess(s.store, u)
  {
    if u in s.store.arena { assert UploadOk(s.store, u); }
  }

  lemma ExcessAfterQuiet(s: State, e: Event, u: nat)
    requires Enabled(s, e)
    requires e.Dispatch? || e.Forward? || e.Capture? || e.Fetch? || e.Lock? || e.Find? || e.Finish? || e.DropOne?
    ensures Excess(Apply(s, e).store, u) == Excess(s.store, u)
  {}

  lemma ExcessStep(s: State, e: Event, u: nat)
    requires UploadsOk(s.store) && Enabled(s, e)
    requires e.CopyBlock? ==> JobOk(s, e.job)
    ensures Excess(Apply(s, e).store, u) == Excess(s.store, u) + TornBy(s, e, u)
  {
    if e.AppendChunk? { ExcessAfterAppend(s, e, u); }
    else if e.CopyBlock? { ExcessAfterCopy(s, e, u); }
    else if e.BeginUpload? || e.Stage? { ExcessAfterFiles(s, e, u); }
    else if e.CommitUpload? || e.CreateEntry? { ExcessAfterPublish(s, e, u); }
    else if e.AddOwner? || e.AddRun? || e.FinishRun? || e.CloseOwner? || e.AbortUpload? { ExcessAfterRetire(s, e, u); }
    else { ExcessAfterQuiet(s, e, u); }
  }

  lemma {:induction false} ExcessIsTorn(s: State, es: seq<Event>, t: State, u: nat)
    requires Inv(s) && Runs(s, es, t)
    ensures Excess(t.store, u) == Excess(s.store, u) + TornIn(s, es, u)
    decreases |es|
  {
    if es != [] {
      RunsFirst(s, es, t);
      StepKeeps(s, es[0]);
      ExcessStep(s, es[0], u);
      ExcessIsTorn(Apply(s, es[0]), es[1..], t, u);
    }
  }

  lemma StartInv()
    ensures Inv(START)
  {}

  /** An upload's file is longer than its recorded size by exactly what half-failed appends left in it. */
  lemma FileLength(es: seq<Event>, t: State, u: nat)
    requires Runs(START, es, t) && u in t.store.arena
    ensures u in t.store.files && |t.store.files[u]| == t.store.arena[u].size + TornIn(START, es, u)
  {
    StartInv();
    RunKeeps(START, es, t);
    assert UploadOk(t.store, u);
    ExcessIsTorn(START, es, t, u);
    assert Excess(START.store, u) == 0;
  }

  lemma Prepend(a: seq<Byte>, b: seq<Byte>, c: seq<Byte>)
    ensures (a + b) + c == a + (b + c)
  {}

  lemma ReleasedUpload(t: State, i: nat)
    requires Inv(t) && i < |t.released| && t.released[i].entry.file in t.store.arena
    ensures var r := t.released[i];
            && r.entry.hashed == Hashed(t, r.entry.file) && r.entry.size == |r.entry.hashed| <= |r.content|
            && (|r.content| == r.entry.size ==> r.content == r.entry.hashed)
            && r.entry.file in t.store.files && t.store.files[r.entry.file] == r.content
            && t.store.arena[r.entry.file].size == r.entry.size
  {
    assert ReleaseOk(t, i);
    assert UploadOk(t.store, t.released[i].entry.file);
  }

  lemma HashedFromStart(es: seq<Event>, t: State, u: nat)
    requires Runs(START, es, t)
    ensures Hashed(t, u) == AcceptedIn(START, es, u)
  {
    StartInv();
    HashedIsAccepted(START, es, t, u);
    NothingHashed(START, u);
    EmptyFirst(AcceptedIn(START, es, u));
  }

  lemma NothingHashed(s: State, u: nat)
    requires s.store.arena == map[]
    ensures Hashed(s, u) == []
  {}

  lemma EmptyFirst(b: seq<Byte>)
    ensures [] + b == b
  {}

  lemma ReadsBack(content: seq<Byte>, length: nat)
    requires 1 <= length <= RANGE_LIMIT
    ensures ReadAll(content, |content|, 0, length) == content
  {
    PagesReassemble(content, |content|, 0, length);
    assert content[0..|content|] == content;
  }

  /**
   The upload round trip. For a published upload, the digest covers exactly the
   accepted appends in order; the file holds exactly those bytes if and only if
   no append to it failed after writing some of its bytes; verify passes on
   nothing else, whatever the hash; and a client that follows has_more then
   reads those bytes back.
   */
  lemma UploadRoundTrip(es: seq<Event>, t: State, i: nat, hash: seq<Byte> -> int, length: nat)
    requires Runs(START, es, t) && i < |t.released|
    requires t.released[i].entry.file in t.store.arena && 1 <= length <= RANGE_LIMIT
    ensures var r := t.released[i];
            var accepted := AcceptedIn(START, es, r.entry.file);
            && r.entry.hashed == accepted && r.entry.size == |accepted| <= |r.content|
            && (r.content == accepted <==> TornIn(START, es, r.entry.file) == 0)
            && (Verifies(hash, r.entry, r.content) <==> r.content == accepted)
            && (r.content == accepted ==> ReadAll(r.content, r.entry.size, 0, length) == accepted)
  {
    StartInv();
    RunKeeps(START, es, t);
    ReleasedUpload(t, i);
    HashedFromStart(es, t, t.released[i].entry.file);
    FileLength(es, t, t.released[i].entry.file);
    if |t.released[i].content| == t.released[i].entry.size { ReadsBack(t.released[i].content, length); }
  }

  /**
   The if-and-only-if above is not idle: an append that fails after any of its
   bytes, followed by an accepted one, leaves the failed bytes in front while the
   digest and the size cover the accepted ones only.
   */
  lemma TornWriteCorrupts(s: Store, u: nat, x: seq<Byte>, y: seq<Byte>, kept: nat)
    requires u in s.arena && s.arena[u].file in s.files && s.files[s.arena[u].file] == []
    requires s.arena[u].size == 0 && s.arena[u].hashed == []
    requires kept < |x| <= CHUNK_LIMIT && |y| <= CHUNK_LIMIT
    ensures var (torn, _) := Append(s, u, 0, Encode(x), Torn(kept));
            var (t, ok) := Append(torn, u, 0, Encode(y), Whole);
            ok && t.arena[u].hashed == y && t.arena[u].size == |y| && t.files[t.arena[u].file] == x[..kept] + y
  {
    RequestIsAppendable(0, x);
    RequestIsAppendable(0, y);
    TornAppend(s, u, Encode(x), x, kept);
    var torn := Append(s, u, 0, Encode(x), Torn(kept)).0;
    WholeAppend(torn, u, Encode(y), y);
  }

  lemma TornAppend(s: Store, u: nat, data: string, x: seq<Byte>, kept: nat)
    requires u in s.arena && s.arena[u].file in s.files && s.files[s.arena[u].file] == [] && s.arena[u].size == 0
    requires Decode(data) == Some(x) && Appendable(0, 0, data) && kept < |x|
    ensures var t := Append(s, u, 0, data, Torn(kept)).0;
            t.arena == s.arena && s.arena[u].file in t.files && t.files[s.arena[u].file] == x[..kept]
  {
    assert [] + x[..kept] == x[..kept];
  }

  lemma WholeAppend(s: Store, u: nat, data: string, y: seq<Byte>)
    requires u in s.arena && s.arena[u].file in s.files && s.arena[u].size == 0 && s.arena[u].hashed == []
    requires Decode(data) == Some(y) && Appendable(0, 0, data)
    ensures var (t, ok) := Append(s, u, 0, data, Whole);
            && ok && u in t.arena && t.arena[u].hashed == y && t.arena[u].size == |y|
            && t.arena[u].file == s.arena[u].file && t.arena[u].file in t.files
            && t.files[t.arena[u].file] == s.files[s.arena[u].file] + y
  {
    assert [] + y == y;
  }

  // ----- who may change the queue -----

  /**
   Apart from a session closing and an explicit drop, the queue changes only by
   a publication, which appends the entry it released after the minimal eviction.
   Refused creates, appends and commits leave it alone, and so does an abort, even
   one that fetched its upload before a racing commit and answers after it.
   */
  lemma QueueChanges(s: State, e: Event)
    requires Inv(s) && Enabled(s, e) && !e.CloseOwner? && !e.DropOne?
    ensures var t := Apply(s, e);
            || (t.store.entries == s.store.entries && t.released == s.released)
            || ((e.CommitUpload? || e.CreateEntry?) && |t.released| == |s.released| + 1
                && t.released[..|s.released|] == s.released
                && var n := t.released[|s.released|].entry;
                   n.size <= ITEM_LIMIT && t.store.entries == Published(s.store.entries, n))
  {
    if e.CommitUpload? {
      if UploadLive(s.store, s.jobs[e.job].context, s.jobs[e.job].upload) { CommitAppends(s, e.job); }
    } else if e.CreateEntry? {
      if GuardsLive(s.store, s.jobs[e.job].context) { CreateAppends(s, e.job); }
    } else {
      QueueStays(s, e);
    }
  }

  lemma QueueStays(s: State, e: Event)
    requires Enabled(s, e) && !e.CloseOwner? && !e.DropOne? && !e.CommitUpload? && !e.CreateEntry?
    ensures Apply(s, e).store.entries == s.store.entries && Apply(s, e).released == s.released
  {}

  lemma PublishedLast(q: seq<Entry>, e: Entry)
    requires e.size <= TOTAL_LIMIT
    ensures var p := Published(q, e); |p| > 0 && p[|p| - 1] == e
  {}

  lemma CommitAppends(s: State, j: nat)
    requires Inv(s) && Enabled(s, CommitUpload(j))
    requires UploadLive(s.store, s.jobs[j].context, s.jobs[j].upload)
    ensures var t := Apply(s, CommitUpload(j));
            && |t.released| == |s.released| + 1 && t.released[..|s.released|] == s.released
            && var n := t.released[|s.released|].entry;
               n.size <= ITEM_LIMIT && t.store.entries == Published(s.store.entries, n)
  {
    var c, up := s.jobs[j].context, s.store.arena[s.jobs[j].upload];
    var n := Entry(s.store.next, c.owner, up.file, up.size, up.format, up.hashed);
    var store := Commit(s.store, c, s.jobs[j].upload).0;
    PublishedLast(s.store.entries, n);
    assert store.entries == Published(s.store.entries, n);
    ReleasedForm(s, j, store, n);
  }

  lemma CreateAppends(s: State, j: nat)
    requires Inv(s) && Enabled(s, CreateEntry(j)) && GuardsLive(s.store, s.jobs[j].context)
    ensures var t := Apply(s, CreateEntry(j));
            && |t.released| == |s.released| + 1 && t.released[..|s.released|] == s.released
            && var n := t.released[|s.released|].entry;
               n.size <= ITEM_LIMIT && t.store.entries == Published(s.store.entries, n)
  {
    var job := s.jobs[j];
    var content := s.store.files[job.file];
    var n := Entry(s.store.next, job.context.owner, job.file, |content|, job.format, content);
    var store := Create(s.store, job.context, job.file, job.format).0;
    PublishedLast(s.store.entries, n);
    assert store.entries == Published(s.store.entries, n);
    ReleasedForm(s, j, store, n);
  }

  predicate Undisturbed(es: seq<Event>) {
    forall i :: 0 <= i < |es| ==> !es[i].CloseOwner? && !es[i].DropOne?
  }

  /** Everything ever published, oldest first. */
  function EntriesOf(released: seq<Release>): (q: seq<Entry>)
    ensures |q| == |released| && forall i :: 0 <= i < |q| ==> q[i] == released[i].entry
  {
    if released == [] then [] else EntriesOf(released[..|released| - 1]) + [released[|released| - 1].entry]
  }

  lemma OneMoreRelease(before: seq<Release>, after: seq<Release>)
    requires |after| == |before| + 1 && after[..|before|] == before
    ensures EntriesOf(after) == EntriesOf(before) + [after[|before|].entry]
  {}

  lemma NewestStep(s: State, e: Event, m: nat) returns (k: nat)
    requires Inv(s) && Enabled(s, e) && !e.CloseOwner? && !e.DropOne?
    requires NewestFrom(EntriesOf(s.released), m) && s.store.entries == EntriesOf(s.released)[m..]
    ensures var t := Apply(s, e);
            NewestFrom(EntriesOf(t.released), k) && t.store.entries == EntriesOf(t.released)[k..]
  {
    QueueChanges(s, e);
    var t := Apply(s, e);
    if t.released == s.released {
      k := m;
    } else {
      OneMoreRelease(s.released, t.released);
      k := PublishKeepsNewest(EntriesOf(s.released), m, t.released[|s.released|].entry);
    }
  }

  lemma {:induction false} NewestRun(s: State, es: seq<Event>, t: State, m: nat) returns (k: nat)
    requires Inv(s) && Runs(s, es, t) && Undisturbed(es)
    requires NewestFrom(EntriesOf(s.released), m) && s.store.entries == EntriesOf(s.released)[m..]
    ensures NewestFrom(EntriesOf(t.released), k) && t.store.entries == EntriesOf(t.released)[k..]
    decreases |es|
  {
    if es != [] {
      RunsFirst(s, es, t);
      assert !es[0].CloseOwner? && !es[0].DropOne?;
      StepKeeps(s, es[0]);
      k := NewestStep(s, es[0], m);
      forall i | 0 <= i < |es[1..]| ensures !es[1..][i].CloseOwner? && !es[1..][i].DropOne? {
        assert es[1..][i] == es[i + 1];
      }
      k := NewestRun(Apply(s, es[0]), es[1..], t, k);
    } else {
      Schedules.NothingOnly(Steps, s, t);
      k := m;
    }
  }

  /**
   Over every run in which no session closes and no artifact is dropped: the queue
   is exactly the longest run of the newest publications within both limits,
   whatever imports and uploads raced to make them.
   */
  lemma QueueIsNewest(es: seq<Event>, t: State) returns (k: nat)
    requires Runs(START, es, t) && Undisturbed(es)
    ensures k <= |t.released| && t.store.entries == EntriesOf(t.released)[k..]
    ensures WithinLimits(t.store.entries)
    ensures forall i :: 0 <= i < k ==> !WithinLimits(EntriesOf(t.released)[i..])
  {
    StartInv();
    k := NewestRun(START, es, t, 0);
  }
}
