/**
 The global memory bound of the artifact store: bytes of distinct files that the
 queue, the unfinished uploads and the running jobs keep alive together.
 */
module ArtifactMemory {
  import opened Outcomes
  import opened ArtifactStore
  import opened ArtifactJobs
  import Base64
  import Schedules

  const MEMORY_LIMIT: nat := TOTAL_LIMIT + UPLOAD_SLOTS * ITEM_LIMIT + JOB_SLOTS * ITEM_LIMIT

  // ----- sums over finite sets -----

  ghost function SumOver(files: set<nat>, weight: map<nat, nat>): nat
    requires files <= weight.Keys
  {
    if files == {} then 0
    else
      var f :| f in files;
      weight[f] + SumOver(files - {f}, weight)
  }

  lemma {:induction false} SumPick(files: set<nat>, weight: map<nat, nat>, f: nat)
    requires files <= weight.Keys && f in files
    ensures SumOver(files, weight) == weight[f] + SumOver(files - {f}, weight)
  {
    var g :| g in files && SumOver(files, weight) == weight[g] + SumOver(files - {g}, weight);
    if g != f {
      SumPick(files - {g}, weight, f);
      SumPick(files - {f}, weight, g);
      assert files - {g} - {f} == files - {f} - {g};
    }
  }

  lemma {:induction false} SumUnion(a: set<nat>, b: set<nat>, weight: map<nat, nat>)
    requires a <= weight.Keys && b <= weight.Keys
    ensures SumOver(a + b, weight) <= SumOver(a, weight) + SumOver(b, weight)
    decreases |b|
  {
    if b == {} {
      assert a + b == a;
    } else {
      var f :| f in b;
      SumPick(b, weight, f);
      if f in a {
        assert a + b == a + (b - {f});
        SumUnion(a, b - {f}, weight);
      } else {
        SumPick(a + b, weight, f);
        assert a + b - {f} == a + (b - {f});
        SumUnion(a, b - {f}, weight);
      }
    }
  }

  lemma {:induction false} SumBound(files: set<nat>, weight: map<nat, nat>)
    requires files <= weight.Keys && forall f :: f in files ==> weight[f] <= ITEM_LIMIT
    ensures SumOver(files, weight) <= |files| * ITEM_LIMIT
    decreases |files|
  {
    if files != {} {
      var f :| f in files;
      SumPick(files, weight, f);
      SumBound(files - {f}, weight);
    }
  }

  lemma {:induction false} SumAdds(files: set<nat>, w: map<nat, nat>, v: map<nat, nat>, sum: map<nat, nat>)
    requires files <= w.Keys && files <= v.Keys && files <= sum.Keys
    requires forall f :: f in files ==> sum[f] == w[f] + v[f]
    ensures SumOver(files, sum) == SumOver(files, w) + SumOver(files, v)
    decreases |files|
  {
    if files != {} {
      var f :| f in files;
      SumPick(files, w, f);
      SumPick(files, v, f);
      SumPick(files, sum, f);
      SumAdds(files - {f}, w, v, sum);
    }
  }

  lemma {:induction false} SumZero(files: set<nat>, w: map<nat, nat>)
    requires files <= w.Keys
    ensures SumOver(files, w) == 0 <==> forall f :: f in files ==> w[f] == 0
    decreases |files|
  {
    if files != {} {
      var f :| f in files;
      SumPick(files, w, f);
      SumZero(files - {f}, w);
    }
  }

  // ----- what is alive -----

  function QueueFiles(q: seq<Entry>): set<nat> {
    if q == [] then {} else {q[0].file} + QueueFiles(q[1..])
  }

  /** The one file a running job keeps open, if any. */
  function JobFile(job: Job): set<nat> {
    match job
    case Staged(_, f, _) => {f}
    case Held(_, u) => {u}
    case Locked(_, u) => {u}
    case Reading(e) => {e.file}
    case Returning(f) => {f}
    case _ => {}
  }

  ghost function FilesOf(dom: set<nat>, jobs: map<nat, Job>): set<nat>
    requires dom <= jobs.Keys
  {
    if dom == {} then {}
    else
      var j :| j in dom;
      JobFile(jobs[j]) + FilesOf(dom - {j}, jobs)
  }

  lemma {:induction false} FilesOfCount(dom: set<nat>, jobs: map<nat, Job>)
    requires dom <= jobs.Keys
    ensures |FilesOf(dom, jobs)| <= |dom|
    decreases |dom|
  {
    if dom != {} {
      var j :| j in dom && FilesOf(dom, jobs) == JobFile(jobs[j]) + FilesOf(dom - {j}, jobs);
      FilesOfCount(dom - {j}, jobs);
      UnionCount(JobFile(jobs[j]), FilesOf(dom - {j}, jobs));
    }
  }

  lemma UnionCount(a: set<nat>, b: set<nat>)
    ensures |a + b| <= |a| + |b|
  {
    assert a + b == a + (b - a);
    assert |a + b| == |a| + |b - a|;
    SubsetCount(b - a, b);
  }

  lemma {:induction false} FilesOfMembers(dom: set<nat>, jobs: map<nat, Job>)
    requires dom <= jobs.Keys
    ensures forall f :: f in FilesOf(dom, jobs) <==> exists j :: j in dom && f in JobFile(jobs[j])
    decreases |dom|
  {
    if dom != {} {
      var j :| j in dom && FilesOf(dom, jobs) == JobFile(jobs[j]) + FilesOf(dom - {j}, jobs);
      FilesOfMembers(dom - {j}, jobs);
      forall f | f in JobFile(jobs[j]) ensures exists k :: k in dom && f in JobFile(jobs[k]) {}
    }
  }

  /** Every file something in the process still holds. */
  ghost function Alive(s: State): set<nat> {
    QueueFiles(s.store.entries) + s.store.uploads + FilesOf(s.jobs.Keys, s.jobs)
  }

  /** Bytes a file is recorded to hold: an upload's accepted bytes, or a finished file's length. */
  function Recorded(s: Store): map<nat, nat> {
    map f | f in s.files :: if f in s.arena then s.arena[f].size else |s.files[f]|
  }

  function Actual(s: Store): map<nat, nat> {
    map f | f in s.files :: |s.files[f]|
  }

  lemma {:induction false} QueueMembers(q: seq<Entry>)
    ensures forall f :: f in QueueFiles(q) <==> exists e :: e in q && e.file == f
  {
    if q != [] {
      QueueMembers(q[1..]);
      assert forall e :: e in q <==> e == q[0] || e in q[1..];
    }
  }

  lemma {:induction false} QueueSum(q: seq<Entry>, weight: map<nat, nat>)
    requires forall e :: e in q ==> e.file in weight && weight[e.file] == e.size
    ensures QueueFiles(q) <= weight.Keys && SumOver(QueueFiles(q), weight) <= Total(q)
  {
    if q != [] {
      QueueSum(q[1..], weight);
      SumUnion({q[0].file}, QueueFiles(q[1..]), weight);
      SumPick({q[0].file}, weight, q[0].file);
      assert {q[0].file} - {q[0].file} == {};
    }
  }

  lemma ReleasedWeight(s: State, e: Entry)
    requires Inv(s) && EntryReleased(s, e)
    ensures e.file in s.store.files && Recorded(s.store)[e.file] == e.size <= ITEM_LIMIT
  {
    var i :| 0 <= i < |s.released| && s.released[i].entry == e;
    assert ReleaseOk(s, i);
    if e.file in s.store.arena { assert UploadOk(s.store, e.file); }
  }

  lemma JobWeight(s: State, j: nat, f: nat)
    requires Inv(s) && j in s.jobs && f in JobFile(s.jobs[j])
    ensures f in s.store.files && Recorded(s.store)[f] <= ITEM_LIMIT
  {
    assert JobOk(s, j);
    match s.jobs[j]
    case Held(_, u) => assert UploadOk(s.store, u);
    case Locked(_, u) => assert UploadOk(s.store, u);
    case Reading(e) => ReleasedWeight(s, e);
    case Returning(u) => if u in s.store.arena { assert UploadOk(s.store, u); }
    case _ =>
  }

  lemma UploadWeight(s: State, u: nat)
    requires Inv(s) && u in s.store.uploads
    ensures u in s.store.files && Recorded(s.store)[u] <= ITEM_LIMIT
  {
    assert UploadOk(s.store, u);
  }

  lemma AliveFilesExist(s: State)
    requires Inv(s)
    ensures QueueFiles(s.store.entries) <= s.store.files.Keys
    ensures s.store.uploads <= s.store.files.Keys
    ensures FilesOf(s.jobs.Keys, s.jobs) <= s.store.files.Keys
    ensures forall f :: f in FilesOf(s.jobs.Keys, s.jobs) ==> Recorded(s.store)[f] <= ITEM_LIMIT
    ensures forall u :: u in s.store.uploads ==> Recorded(s.store)[u] <= ITEM_LIMIT
    ensures forall e :: e in s.store.entries ==> e.file in s.store.files && Recorded(s.store)[e.file] == e.size
  {
    forall e | e in s.store.entries
      ensures e.file in s.store.files && Recorded(s.store)[e.file] == e.size
    { ReleasedWeight(s, e); }
    QueueMembers(s.store.entries);
    forall u | u in s.store.uploads
      ensures u in s.store.files && Recorded(s.store)[u] <= ITEM_LIMIT
    { UploadWeight(s, u); }
    FilesOfMembers(s.jobs.Keys, s.jobs);
    forall f | f in FilesOf(s.jobs.Keys, s.jobs)
      ensures f in s.store.files && Recorded(s.store)[f] <= ITEM_LIMIT
    {
      var j :| j in s.jobs.Keys && f in JobFile(s.jobs[j]);
      JobWeight(s, j, f);
    }
  }

  lemma FourFiles(files: set<nat>, w: map<nat, nat>)
    requires files <= w.Keys && |files| <= 4
    requires forall f :: f in files ==> w[f] <= ITEM_LIMIT
    ensures SumOver(files, w) <= 4 * ITEM_LIMIT
  {
    SumBound(files, w);
  }

  lemma ThreeSums(queue: set<nat>, uploads: set<nat>, jobs: set<nat>, w: map<nat, nat>)
    requires queue <= w.Keys && uploads <= w.Keys && jobs <= w.Keys
    requires forall f :: f in uploads ==> w[f] <= ITEM_LIMIT
    requires forall f :: f in jobs ==> w[f] <= ITEM_LIMIT
    requires |uploads| <= UPLOAD_SLOTS && |jobs| <= JOB_SLOTS && SumOver(queue, w) <= TOTAL_LIMIT
    ensures SumOver(queue + uploads + jobs, w) <= MEMORY_LIMIT
  {
    FourFiles(uploads, w);
    FourFiles(jobs, w);
    SumUnion(queue, uploads, w);
    SumUnion(queue + uploads, jobs, w);
  }

  lemma RecordedBound(s: State)
    requires Inv(s)
    ensures Alive(s) <= s.store.files.Keys
    ensures SumOver(Alive(s), Recorded(s.store)) <= MEMORY_LIMIT
  {
    AliveFilesExist(s);
    QueueSum(s.store.entries, Recorded(s.store));
    FilesOfCount(s.jobs.Keys, s.jobs);
    ThreeSums(QueueFiles(s.store.entries), s.store.uploads, FilesOf(s.jobs.Keys, s.jobs), Recorded(s.store));
  }

  /** Bytes that half-failed appends of a schedule left in each file uncounted. */
  function Torn(es: seq<Event>, s: Store): map<nat, nat> {
    map f | f in s.files :: if f in s.arena then TornIn(START, es, f) else 0
  }

  /** Some append to this file failed after writing part of its bytes. */
  predicate TornUpload(es: seq<Event>, s: Store, f: nat) {
    f in s.arena && TornIn(START, es, f) > 0
  }

  lemma RealBytes(es: seq<Event>, t: State)
    requires Runs(START, es, t) && Alive(t) <= t.store.files.Keys
    ensures SumOver(Alive(t), Actual(t.store))
            == SumOver(Alive(t), Recorded(t.store)) + SumOver(Alive(t), Torn(es, t.store))
  {
    forall f | f in Alive(t)
      ensures Actual(t.store)[f] == Recorded(t.store)[f] + Torn(es, t.store)[f]
    {
      if f in t.store.arena { FileLength(es, t, f); }
    }
    SumAdds(Alive(t), Recorded(t.store), Torn(es, t.store), Actual(t.store));
  }

  lemma NoTornUpload(es: seq<Event>, s: Store, files: set<nat>)
    requires files <= s.files.Keys
    ensures SumOver(files, Torn(es, s)) == 0 <==> forall f :: f in files ==> !TornUpload(es, s, f)
  {
    SumZero(files, Torn(es, s));
    assert forall f :: f in files ==> (Torn(es, s)[f] == 0 <==> !TornUpload(es, s, f));
  }

  /**
   In every reachable state, over all files alive anywhere, including evicted
   entries and aborted uploads a job still holds: the recorded bytes stay within
   64 + 4*16 + 4*16 MiB, and the real bytes are the recorded ones plus what
   half-failed appends left in those files. So the real bytes meet the bound when
   no append to a file still alive has failed half-way, and only then are they
   what the store counts.
   */
  lemma MemoryBound(es: seq<Event>, t: State)
    requires Runs(START, es, t)
    ensures Alive(t) <= t.store.files.Keys
    ensures SumOver(Alive(t), Recorded(t.store)) <= MEMORY_LIMIT
    ensures SumOver(Alive(t), Actual(t.store))
            == SumOver(Alive(t), Recorded(t.store)) + SumOver(Alive(t), Torn(es, t.store))
    ensures SumOver(Alive(t), Actual(t.store)) == SumOver(Alive(t), Recorded(t.store)) <==>
            forall f :: f in Alive(t) ==> !TornUpload(es, t.store, f)
    ensures (forall f :: f in Alive(t) ==> !TornUpload(es, t.store, f)) ==>
              SumOver(Alive(t), Actual(t.store)) <= MEMORY_LIMIT
  {
    StartInv();
    RunKeeps(START, es, t);
    RecordedBound(t);
    RealBytes(es, t);
    NoTornUpload(es, t.store, Alive(t));
  }

  // ----- the real bytes have no bound of their own -----

  /** One open upload, nothing accepted, n bytes in its file. */
  predicate Leaking(s: State, n: nat) {
    && s.jobs == map[] && s.released == [] && s.store.entries == []
    && s.store.owners == map["o" := 0] && s.store.runs == map[("o", "r") := 1] && s.store.live == {0, 1}
    && s.store.uploads == {2} && s.store.arena == map[2 := Upload("o", "r", "binary", true, 2, 0, [])]
    && s.store.files.Keys == {2} && |s.store.files[2]| == n && s.store.next == 3
  }

  lemma RunSnoc(s: State, es: seq<Event>, m: State, e: Event, t: State)
    requires Runs(s, es, m) && Steps(m, e, t)
    ensures Runs(s, es + [e], t)
  {
    Schedules.Then(Steps, s, es, m, e, t);
  }

  const ORIGIN: Context := Context("o", 0, Some("r"), Some(1))
  const ASKING: Job := Asking("o", 0, Some("r"))

  lemma OwnerStep(t: State)
    requires t == START.(store := START.store.(owners := map["o" := 0], live := {0}, next := 1))
    ensures Steps(START, AddOwner("o"), t)
  {}

  lemma RunStep(s: State, t: State)
    requires s == START.(store := START.store.(owners := map["o" := 0], live := {0}, next := 1))
    requires t == s.(store := s.store.(runs := map[("o", "r") := 1], live := {0, 1}, next := 2))
    ensures Steps(s, AddRun("o", "r"), t)
  {
    assert {0} + {1} == {0, 1};
  }

  lemma DispatchStep(s: State, t: State)
    requires s.jobs == map[] && "o" in s.store.owners && s.store.owners["o"] == 0
    requires t == s.(jobs := map[0 := ASKING])
    ensures Steps(s, Dispatch(0, "o", Some("r")), t)
  {}

  lemma CaptureStep(s: State, t: State)
    requires s.jobs == map[0 := ASKING] && ("o", "r") in s.store.runs && s.store.runs[("o", "r")] == 1
    requires t == s.(jobs := map[0 := Ready(ORIGIN)])
    ensures Steps(s, Capture(0), t)
  {}

  lemma BeginStep(s: State, t: State)
    requires s.jobs == map[0 := Ready(ORIGIN)] && 0 in s.store.live && 1 in s.store.live && s.store.uploads == {}
    requires t == Apply(s, BeginUpload(0, "binary"))
    ensures Steps(s, BeginUpload(0, "binary"), t)
  {}

  lemma Opened() returns (es: seq<Event>, t: State)
    ensures Runs(START, es, t) && Leaking(t, 0)
  {
    var a := START.(store := START.store.(owners := map["o" := 0], live := {0}, next := 1));
    var b := a.(store := a.store.(runs := map[("o", "r") := 1], live := {0, 1}, next := 2));
    var c := b.(jobs := map[0 := ASKING]);
    var d := b.(jobs := map[0 := Ready(ORIGIN)]);
    OwnerStep(a);
    RunStep(a, b);
    DispatchStep(b, c);
    CaptureStep(c, d);
    es := Four(a, b, c, d);
    t := Apply(d, BeginUpload(0, "binary"));
    BeginStep(d, t);
    RunSnoc(START, es, d, BeginUpload(0, "binary"), t);
    es := es + [BeginUpload(0, "binary")];
  }

  lemma Four(a: State, b: State, c: State, d: State) returns (es: seq<Event>)
    requires Steps(START, AddOwner("o"), a) && Steps(a, AddRun("o", "r"), b)
    requires Steps(b, Dispatch(0, "o", Some("r")), c) && Steps(c, Capture(0), d)
    ensures Runs(START, es, d)
  {
    Schedules.Nothing(Steps, START);
    RunSnoc(START, [], START, AddOwner("o"), a);
    es := [] + [AddOwner("o")];
    RunSnoc(START, es, a, AddRun("o", "r"), b);
    es := es + [AddRun("o", "r")];
    RunSnoc(START, es, b, Dispatch(0, "o", Some("r")), c);
    es := es + [Dispatch(0, "o", Some("r"))];
    RunSnoc(START, es, c, Capture(0), d);
    es := es + [Capture(0)];
  }

  function OneByte(): string {
    Base64.Encode([65])
  }

  lemma OneByteIsAppendable()
    ensures Appendable(0, 0, OneByte()) && |Base64.Decode(OneByte()).value| == 1
  {
    Base64.DecodeEncode([65]);
    Base64.EncodedLength([65]);
  }

  /** A job that has locked the leaking upload. */
  predicate Poised(s: State, n: nat) {
    s.jobs == map[0 := Locked(ORIGIN, 2)] && Leaking(s.(jobs := map[]), n)
  }

  lemma FetchStep(s: State, t: State, n: nat)
    requires s.jobs == map[0 := Ready(ORIGIN)] && Leaking(s.(jobs := map[]), n)
    requires t == s.(jobs := map[0 := Held(ORIGIN, 2)])
    ensures Steps(s, Fetch(0, 2), t)
  {}

  lemma LockStep(s: State, t: State, n: nat)
    requires s.jobs == map[0 := Held(ORIGIN, 2)] && Leaking(s.(jobs := map[]), n)
    requires t == s.(jobs := map[0 := Locked(ORIGIN, 2)])
    ensures Steps(s, Lock(0), t)
  {}

  lemma Poise(es: seq<Event>, s: State, n: nat) returns (fs: seq<Event>, t: State)
    requires Runs(START, es, s) && Leaking(s, n)
    ensures Runs(START, fs, t) && Poised(t, n)
  {
    var a := s.(jobs := map[0 := ASKING]);
    DispatchStep(s, a);
    RunSnoc(START, es, s, Dispatch(0, "o", Some("r")), a);
    var b := s.(jobs := map[0 := Ready(ORIGIN)]);
    CaptureStep(a, b);
    RunSnoc(START, es + [Dispatch(0, "o", Some("r"))], a, Capture(0), b);
    fs := es + [Dispatch(0, "o", Some("r"))] + [Capture(0)];
    fs, t := Take(fs, s, b, n);
  }

  lemma Take(es: seq<Event>, s: State, b: State, n: nat) returns (fs: seq<Event>, t: State)
    requires Runs(START, es, b) && Leaking(s, n) && b == s.(jobs := map[0 := Ready(ORIGIN)])
    ensures Runs(START, fs, t) && Poised(t, n)
  {
    var c := s.(jobs := map[0 := Held(ORIGIN, 2)]);
    FetchStep(b, c, n);
    RunSnoc(START, es, b, Fetch(0, 2), c);
    t := s.(jobs := map[0 := Locked(ORIGIN, 2)]);
    LockStep(c, t, n);
    RunSnoc(START, es + [Fetch(0, 2)], c, Lock(0), t);
    fs := es + [Fetch(0, 2)] + [Lock(0)];
  }

  lemma Leak(es: seq<Event>, s: State, n: nat) returns (fs: seq<Event>, t: State)
    requires Runs(START, es, s) && Poised(s, n)
    ensures Runs(START, fs, t) && Leaking(t, n + 1)
  {
    OneByteIsAppendable();
    var e := AppendChunk(0, 0, OneByte(), Written.Torn(1));
    var a := Apply(s, e);
    RunSnoc(START, es, s, e, a);
    t := Apply(a, Finish(0));
    RunSnoc(START, es + [e], a, Finish(0), t);
    fs := es + [e] + [Finish(0)];
  }

  lemma {:induction false} LeakMany(n: nat) returns (es: seq<Event>, t: State)
    ensures Runs(START, es, t) && Leaking(t, n)
  {
    if n == 0 {
      es, t := Opened();
    } else {
      es, t := LeakMany(n - 1);
      es, t := Poise(es, t, n - 1);
      es, t := Leak(es, t, n - 1);
    }
  }

  /**
   Half-failed appends are not counted anywhere, so one upload can take any
   amount of real space: for every bound some run exceeds it.
   */
  lemma RealBytesUnbounded(bound: nat) returns (es: seq<Event>, t: State)
    ensures Runs(START, es, t) && Alive(t) <= t.store.files.Keys && SumOver(Alive(t), Actual(t.store)) > bound
  {
    es, t := LeakMany(bound + 1);
    assert QueueFiles(t.store.entries) == {} && FilesOf(t.jobs.Keys, t.jobs) == {};
    assert Alive(t) == {2};
    SumPick({2}, Actual(t.store), 2);
    assert {2} - {2} == {};
  }

  /**
   And such a file can be published: one append fails after its only byte, the
   upload is committed, and the entry says it is empty while its file is not.
   */
  lemma CorruptFilePublished() returns (es: seq<Event>, t: State)
    ensures Runs(START, es, t) && |t.released| == 1 && t.released[0].entry.file == 2
    ensures t.released[0].entry.size == 0 && |t.released[0].content| == 1 && TornIn(START, es, 2) == 1
  {
    es, t := LeakMany(1);
    es, t := Poise(es, t, 1);
    es, t := CommitLeaking(es, t);
    StartInv();
    RunKeeps(START, es, t);
    FileLength(es, t, 2);
  }

  lemma CommitLeaking(es: seq<Event>, s: State) returns (fs: seq<Event>, t: State)
    requires Runs(START, es, s) && Poised(s, 1)
    ensures Runs(START, fs, t) && |t.released| == 1 && t.released[0].entry.file == 2
    ensures t.released[0].entry.size == 0 && |t.released[0].content| == 1
    ensures 2 in t.store.arena && t.store.arena[2].size == 0 && 2 in t.store.files && |t.store.files[2]| == 1
  {
    t := Apply(s, CommitUpload(0));
    fs := es + [CommitUpload(0)];
    RunSnoc(START, es, s, CommitUpload(0), t);
    var e := Entry(3, "o", 2, 0, "binary", []);
    PublishedLast(s.store.entries, e);
    assert Commit(s.store, ORIGIN, 2).0.entries == Published(s.store.entries, e);
    ReleasedForm(s, 0, Commit(s.store, ORIGIN, 2).0, e);
  }
}
