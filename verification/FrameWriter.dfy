/**
 The actor that owns a worker's command pipe (`native/src/supervisor.rs`):
 callers queue newline-ended frames, the actor writes them one at a time, and
 callers may stop waiting, the writer may be stopped, and a write may fail at
 any byte.
 */
module FrameWriter {
  import opened Bytes
  import Schedules

  const FRAME_LIMIT: nat := 1_048_576
  const QUEUE_LIMIT: nat := 4
  const NEWLINE: Byte := 10

  /** A serialised command: JSON text has no raw newline of its own. */
  predicate Command(c: seq<Byte>) {
    NEWLINE !in c
  }

  function Frame(c: seq<Byte>): seq<Byte> {
    c + [NEWLINE]
  }

  function Frames(cs: seq<seq<Byte>>): seq<Byte> {
    if cs == [] then [] else Frame(cs[0]) + Frames(cs[1..])
  }

  /** What a reader that splits on newlines has received so far: the complete lines. */
  function Lines(bytes: seq<Byte>): seq<seq<Byte>> {
    LinesAfter([], bytes)
  }

  function LinesAfter(begun: seq<Byte>, bytes: seq<Byte>): seq<seq<Byte>>
    decreases |bytes|
  {
    if bytes == [] then []
    else if bytes[0] == NEWLINE then [begun] + LinesAfter([], bytes[1..])
    else LinesAfter(begun + [bytes[0]], bytes[1..])
  }

  lemma {:induction false} LinesOfPartial(begun: seq<Byte>, part: seq<Byte>, rest: seq<Byte>)
    requires Command(part)
    ensures LinesAfter(begun, part + rest) == LinesAfter(begun + part, rest)
    decreases |part|
  {
    if part == [] {
      assert part + rest == rest && begun + part == begun;
    } else {
      assert (part + rest)[1..] == part[1..] + rest;
      LinesOfPartial(begun + [part[0]], part[1..], rest);
      assert begun + [part[0]] + part[1..] == begun + part;
    }
  }

  lemma LinesOfFrame(c: seq<Byte>, rest: seq<Byte>)
    requires Command(c)
    ensures Lines(Frame(c) + rest) == [c] + Lines(rest)
  {
    assert Frame(c) + rest == c + ([NEWLINE] + rest);
    LinesOfPartial([], c, [NEWLINE] + rest);
    assert [] + c == c;
    assert ([NEWLINE] + rest)[1..] == rest;
  }

  /** Splitting whole frames and what follows them on newlines gives the commands back. */
  lemma {:induction false} LinesOfFrames(cs: seq<seq<Byte>>, rest: seq<Byte>)
    requires forall c :: c in cs ==> Command(c)
    ensures Lines(Frames(cs) + rest) == cs + Lines(rest)
  {
    if cs == [] {
      assert Frames(cs) + rest == rest;
      assert cs + Lines(rest) == Lines(rest);
    } else {
      assert Frames(cs) + rest == Frame(cs[0]) + (Frames(cs[1..]) + rest);
      LinesOfFrame(cs[0], Frames(cs[1..]) + rest);
      LinesOfFrames(cs[1..], rest);
      assert cs == [cs[0]] + cs[1..];
    }
  }

  lemma {:induction false} FramesGrow(cs: seq<seq<Byte>>, c: seq<Byte>)
    ensures Frames(cs + [c]) == Frames(cs) + Frame(c)
  {
    if cs == [] {
      assert (cs + [c])[1..] == [];
    } else {
      assert (cs + [c])[1..] == cs[1..] + [c];
      FramesGrow(cs[1..], c);
    }
  }

  // ----- the actor and its callers -----

  datatype Phase =
    | Receiving
    | Writing(written: nat)
    | Ended

  datatype Answer = Written | Failed

  /**
   `accepted` holds every queued command in order; the first `taken` have left
   the queue and the first `done` were written and flushed. `answers` is what
   callers were told, by position in `accepted`.
   */
  datatype State = State(
    accepted: seq<seq<Byte>>, taken: nat, done: nat, phase: Phase, gone: set<nat>,
    answers: map<nat, Answer>, pipe: seq<Byte>)

  datatype Event =
    | Accept(command: seq<Byte>)
    | Abandon(caller: nat)
    | Take
    | Write(count: nat)
    | Flush
    | Fail
    | End

  function Current(s: State): seq<Byte>
    requires s.taken <= |s.accepted| && s.phase.Writing? && s.done < s.taken
  {
    Frame(s.accepted[s.done])
  }

  /** The frame being written is the next one after the finished ones. */
  predicate Placed(s: State) {
    && s.done <= s.taken <= |s.accepted|
    && s.taken <= s.done + 1
    && (s.phase.Receiving? ==> s.taken == s.done)
    && (s.phase.Writing? ==> s.taken == s.done + 1 && s.phase.written <= |Current(s)|)
  }

  /**
   An over-long command is refused before queueing, and a closed queue refuses
   everything. A write can be stopped or fail after any number of its bytes.
   */
  predicate Enabled(s: State, e: Event)
    requires Placed(s)
  {
    match e
    case Accept(command) =>
      !s.phase.Ended? && Command(command) && |command| <= FRAME_LIMIT && |s.accepted| - s.taken < QUEUE_LIMIT
    case Abandon(caller) => caller < |s.accepted|
    case Take => s.phase.Receiving? && s.taken < |s.accepted|
    case Write(count) => s.phase.Writing? && s.phase.written + count <= |Current(s)|
    case Flush => s.phase.Writing? && s.phase.written == |Current(s)|
    case Fail => s.phase.Writing?
    case End => true
  }

  /** A caller that stopped waiting is told nothing. */
  function Answered(s: State, caller: nat, a: Answer): State {
    if caller in s.gone then s else s.(answers := s.answers[caller := a])
  }

  function Apply(s: State, e: Event): State
    requires Placed(s) && Enabled(s, e)
  {
    match e
    case Accept(command) => s.(accepted := s.accepted + [command])
    case Abandon(caller) => s.(gone := s.gone + {caller})
    case Take => s.(taken := s.taken + 1, phase := Writing(0))
    case Write(count) =>
      s.(pipe := s.pipe + Current(s)[s.phase.written..s.phase.written + count],
         phase := Writing(s.phase.written + count))
    case Flush => Answered(s, s.done, Written).(done := s.done + 1, phase := Receiving)
    case Fail => Answered(s, s.done, Failed).(phase := Ended)
    case End => s.(phase := Ended)
  }

  // ----- what every reachable state satisfies -----

  /** Whole frames, then at most one partial one. */
  ghost predicate PipeOk(s: State)
    requires Placed(s)
  {
    if s.taken == s.done then s.pipe == Frames(s.accepted[..s.done])
    else exists n :: PartialOk(s, n)
  }

  predicate PartialOk(s: State, n: nat)
    requires Placed(s)
  {
    && s.taken == s.done + 1
    && n <= |Frame(s.accepted[s.done])|
    && (s.phase.Writing? ==> n == s.phase.written)
    && s.pipe == Frames(s.accepted[..s.done]) + Frame(s.accepted[s.done])[..n]
  }

  predicate AnswersOk(s: State)
    requires Placed(s)
  {
    && (forall i :: i in s.answers && s.answers[i].Written? ==> i < s.done)
    && (forall i :: i in s.answers && s.answers[i].Failed? ==> i == s.done < s.taken && s.phase.Ended?)
    && (forall i :: 0 <= i < s.done && i !in s.gone ==> i in s.answers && s.answers[i].Written?)
  }

  predicate QueueOk(s: State)
    requires Placed(s)
  {
    && |s.accepted| - s.taken <= QUEUE_LIMIT
    && forall c :: c in s.accepted ==> Command(c) && |c| <= FRAME_LIMIT
  }

  ghost predicate Inv(s: State) {
    Placed(s) && PipeOk(s) && AnswersOk(s) && QueueOk(s)
  }

  lemma AcceptKeeps(s: State, c: seq<Byte>)
    requires Inv(s) && Enabled(s, Accept(c))
    ensures Inv(Apply(s, Accept(c)))
  {
    var t := Apply(s, Accept(c));
    assert t.accepted[..t.done] == s.accepted[..s.done];
    if s.taken != s.done {
      var n: nat :| PartialOk(s, n);
      assert PartialOk(t, n);
    }
  }

  lemma TakeKeeps(s: State)
    requires Inv(s) && Enabled(s, Take)
    ensures Inv(Apply(s, Take))
  {
    assert PartialOk(Apply(s, Take), 0);
  }

  lemma PartialGrows(s: State, count: nat)
    requires Placed(s) && Enabled(s, Write(count)) && PartialOk(s, s.phase.written)
    ensures PartialOk(Apply(s, Write(count)), s.phase.written + count)
  {
    var f, n := Frame(s.accepted[s.done]), s.phase.written;
    assert f[..n + count] == f[..n] + f[n..n + count];
  }

  lemma WriteKeeps(s: State, count: nat)
    requires Inv(s) && Enabled(s, Write(count))
    ensures Inv(Apply(s, Write(count)))
  {
    var n: nat :| PartialOk(s, n);
    PartialGrows(s, count);
    assert AnswersOk(s) && QueueOk(s);
  }

  lemma FlushKeeps(s: State)
    requires Inv(s) && Enabled(s, Flush)
    ensures Inv(Apply(s, Flush))
  {
    var n: nat :| PartialOk(s, n);
    var f := Frame(s.accepted[s.done]);
    assert f[..n] == f;
    FramesGrow(s.accepted[..s.done], s.accepted[s.done]);
    assert s.accepted[..s.done + 1] == s.accepted[..s.done] + [s.accepted[s.done]];
  }

  lemma EndKeeps(s: State, e: Event)
    requires Inv(s) && Enabled(s, e) && (e.Fail? || e.End? || e.Abandon?)
    ensures Inv(Apply(s, e))
  {
    if s.taken != s.done {
      var n: nat :| PartialOk(s, n);
      assert PartialOk(Apply(s, e), n);
    }
  }

  lemma StepKeeps(s: State, e: Event)
    requires Inv(s) && Enabled(s, e)
    ensures Inv(Apply(s, e))
  {
    match e
    case Accept(c) => AcceptKeeps(s, c);
    case Take => TakeKeeps(s);
    case Write(count) => WriteKeeps(s, count);
    case Flush => FlushKeeps(s);
    case _ => EndKeeps(s, e);
  }

  // ----- runs -----

  predicate Steps(s: State, e: Event, t: State) {
    Placed(s) && Enabled(s, e) && t == Apply(s, e)
  }

  /** `es` leads from `s` to `t`, in whatever order the tasks were scheduled. */
  ghost predicate Leads(s: State, es: seq<Event>, t: State) {
    Schedules.Leads(Steps, s, es, t)
  }

  lemma LeadsFirst(s: State, es: seq<Event>, t: State)
    requires Leads(s, es, t) && es != []
    ensures Placed(s) && Enabled(s, es[0]) && Leads(Apply(s, es[0]), es[1..], t)
  {
    var m := Schedules.First(Steps, s, es, t);
    assert Steps(s, es[0], m);
  }

  const START: State := State([], 0, 0, Receiving, {}, map[], [])

  lemma {:induction false} RunKeeps(s: State, es: seq<Event>, t: State)
    requires Inv(s) && Leads(s, es, t)
    ensures Inv(t)
    decreases |es|
  {
    if es != [] {
      LeadsFirst(s, es, t);
      StepKeeps(s, es[0]);
      RunKeeps(Apply(s, es[0]), es[1..], t);
    } else {
      Schedules.NothingOnly(Steps, s, t);
    }
  }

  lemma StartInv()
    ensures Inv(START)
  {
    assert START.accepted[..0] == [];
  }

  /** How many accepted frames are wholly on the pipe, flushed or not. */
  ghost function OnPipe(s: State): nat
    requires Inv(s)
  {
    if s.taken == s.done + 1 && PartialOk(s, |Frame(s.accepted[s.done])|) then s.done + 1 else s.done
  }

  lemma PartialLines(c: seq<Byte>, n: nat)
    requires Command(c) && n <= |Frame(c)|
    ensures Lines(Frame(c)[..n]) == if n == |Frame(c)| then [c] else []
  {
    if n == |Frame(c)| {
      assert Frame(c)[..n] == Frame(c) + [];
      LinesOfFrame(c, []);
    } else {
      var p := Frame(c)[..n];
      assert p == c[..n] && Command(p);
      assert p + [] == p;
      LinesOfPartial([], p, []);
    }
  }

  /** What the pipe holds and how it splits, between frames. */
  lemma WholeFrames(t: State)
    requires Inv(t) && t.taken == t.done
    ensures OnPipe(t) == t.done && Lines(t.pipe) == t.accepted[..t.done]
    ensures t.pipe == Frames(t.accepted[..t.done]) + []
  {
    var whole := t.accepted[..t.done];
    LinesOfFrames(whole, []);
    assert Frames(whole) + [] == Frames(whole);
    assert whole + Lines([]) == whole;
  }

  /** The same with a frame begun; it counts once all its bytes are there. */
  lemma BegunFrame(t: State, n: nat)
    requires Inv(t) && t.taken != t.done && PartialOk(t, n)
    ensures OnPipe(t) == if n == |Frame(t.accepted[t.done])| then t.done + 1 else t.done
    ensures Lines(t.pipe) == t.accepted[..OnPipe(t)]
  {
    var whole, f := t.accepted[..t.done], Frame(t.accepted[t.done]);
    LinesOfFrames(whole, f[..n]);
    PartialLines(t.accepted[t.done], n);
    LastPartialIsUnique(t, n);
    if n == |f| {
      assert t.accepted[..t.done + 1] == whole + [t.accepted[t.done]];
    } else {
      assert whole + [] == whole;
    }
  }

  lemma BegunRest(t: State, n: nat)
    requires Inv(t) && t.taken != t.done && PartialOk(t, n)
    ensures var whole, c := t.accepted[..t.done], t.accepted[t.done];
            if n == |Frame(c)| then t.pipe == Frames(t.accepted[..t.done + 1]) + []
            else n <= |c| && NEWLINE !in c[..n] && t.pipe == Frames(whole) + c[..n]
  {
    var whole, c := t.accepted[..t.done], t.accepted[t.done];
    if n == |Frame(c)| {
      FramesGrow(whole, c);
      assert t.accepted[..t.done + 1] == whole + [c] && Frame(c)[..n] == Frame(c);
    } else {
      assert Frame(c)[..n] == c[..n];
    }
  }

  /**
   Whoever stops waiting and wherever a write fails or is stopped, the pipe
   holds the accepted frames in order and at most one partial frame after them,
   and a reader that splits on newlines has exactly the completed commands.
   */
  lemma FrameIntegrity(es: seq<Event>, t: State)
    requires Leads(START, es, t)
    ensures Inv(t) && OnPipe(t) <= |t.accepted|
    ensures Lines(t.pipe) == t.accepted[..OnPipe(t)]
    ensures exists part: seq<Byte> :: NEWLINE !in part && t.pipe == Frames(t.accepted[..OnPipe(t)]) + part
  {
    StartInv();
    RunKeeps(START, es, t);
    if t.taken == t.done {
      WholeFrames(t);
    } else {
      var n: nat :| PartialOk(t, n);
      BegunFrame(t, n);
      BegunRest(t, n);
    }
  }

  lemma LastPartialIsUnique(s: State, n: nat)
    requires Placed(s) && PartialOk(s, n)
    ensures PartialOk(s, |Frame(s.accepted[s.done])|) <==> n == |Frame(s.accepted[s.done])|
  {
    assert |s.pipe| == |Frames(s.accepted[..s.done])| + n;
  }

  /** Once the writer has ended nothing more is written, nothing more is accepted and no caller is told of success. */
  lemma {:induction false} NothingAfterEnd(s: State, es: seq<Event>, t: State)
    requires Inv(s) && s.phase.Ended? && Leads(s, es, t)
    ensures t.phase.Ended? && t.pipe == s.pipe && t.accepted == s.accepted && t.answers == s.answers
    decreases |es|
  {
    if es != [] {
      LeadsFirst(s, es, t);
      StepKeeps(s, es[0]);
      NothingAfterEnd(Apply(s, es[0]), es[1..], t);
    } else {
      Schedules.NothingOnly(Steps, s, t);
    }
  }

  /**
   A caller told of success has its command whole on the pipe at its own place;
   one that is told of failure has the last frame, on a pipe that has ended; and
   a caller that kept waiting is told of every flushed frame.
   */
  lemma AnswersAreTrue(es: seq<Event>, t: State, caller: nat)
    requires Leads(START, es, t)
    ensures Inv(t)
    ensures caller in t.answers && t.answers[caller].Written? ==>
              caller < |Lines(t.pipe)| && Lines(t.pipe)[caller] == t.accepted[caller]
    ensures caller in t.answers && t.answers[caller].Failed? ==> t.phase.Ended? && caller >= t.done
    ensures caller < t.done && caller !in t.gone ==> caller in t.answers && t.answers[caller].Written?
  {
    FrameIntegrity(es, t);
  }

  /** Callers giving up changes nothing on the pipe: without them the same bytes are written. */
  function Patient(es: seq<Event>): seq<Event> {
    if es == [] then []
    else if es[0].Abandon? then Patient(es[1..])
    else [es[0]] + Patient(es[1..])
  }

  function Deaf(s: State): State {
    s.(gone := {}, answers := map[])
  }

  lemma DeafStep(s: State, u: State, e: Event)
    requires Placed(s) && Enabled(s, e) && Deaf(s) == Deaf(u)
    ensures Placed(u) && Enabled(u, e)
    ensures Deaf(Apply(s, e)) == Deaf(Apply(u, e))
    ensures e.Abandon? ==> Deaf(Apply(s, e)) == Deaf(u)
  {
    assert Deaf(s).accepted == s.accepted == u.accepted && Deaf(s).taken == s.taken == u.taken;
    assert Deaf(s).done == s.done == u.done && Deaf(s).phase == s.phase == u.phase;
    assert Deaf(s).pipe == s.pipe == u.pipe;
  }

  lemma {:induction false} AbandonmentIsInvisible(s: State, u: State, es: seq<Event>, t: State) returns (v: State)
    requires Leads(s, es, t) && Deaf(s) == Deaf(u)
    ensures Leads(u, Patient(es), v) && Deaf(v) == Deaf(t)
    decreases |es|
  {
    if es == [] {
      Schedules.NothingOnly(Steps, s, t);
      Schedules.Nothing(Steps, u);
      v := u;
    } else {
      LeadsFirst(s, es, t);
      DeafStep(s, u, es[0]);
      if es[0].Abandon? {
        v := AbandonmentIsInvisible(Apply(s, es[0]), u, es[1..], t);
      } else {
        var m := Apply(u, es[0]);
        v := AbandonmentIsInvisible(Apply(s, es[0]), m, es[1..], t);
        Schedules.Before(Steps, u, es[0], m, Patient(es[1..]), v);
      }
    }
  }

  // ----- the loop itself -----

  /** What becomes of one turn of the loop; a count is the bytes written before it ended. */
  datatype Turn = Stopped | Flushed | Broken(count: nat) | Interrupted(count: nat)

  function Cut(bytes: seq<Byte>, count: nat): (r: seq<Byte>)
    ensures r <= bytes
  {
    if count < |bytes| then bytes[..count] else bytes
  }

  /**
   The actor's loop over the messages it receives, each turn going the way the
   pipe and the stop request make it go. It answers every frame it finished and
   the one it failed on, and what it leaves on the pipe is the frames it finished
   and part of the next.
   */
  method WriteFrames(messages: seq<seq<Byte>>, turns: seq<Turn>)
    returns (pipe: seq<Byte>, answers: seq<Answer>, finished: nat)
    requires |turns| == |messages| && forall c :: c in messages ==> Command(c)
    ensures finished <= |messages| && forall i :: 0 <= i < finished ==> turns[i].Flushed?
    ensures finished < |messages| ==> !turns[finished].Flushed?
    ensures Frames(messages[..finished]) <= pipe
    ensures finished == |messages| ==> pipe == Frames(messages)
    ensures finished < |messages| ==> pipe <= Frames(messages[..finished]) + Frame(messages[finished])
    ensures Lines(pipe) == messages[..finished] || (finished < |messages| && Lines(pipe) == messages[..finished + 1])
    ensures finished <= |answers| <= finished + 1 && forall i :: 0 <= i < finished ==> answers[i].Written?
    ensures |answers| > finished <==> finished < |messages| && turns[finished].Broken?
    ensures |answers| > finished ==> answers[finished].Failed?
  {
    pipe, answers, finished := [], [], 0;
    assert messages[..0] == [];
    while finished < |messages|
      invariant finished <= |messages| && forall i :: 0 <= i < finished ==> turns[i].Flushed?
      invariant pipe == Frames(messages[..finished])
      invariant |answers| == finished && forall i :: 0 <= i < finished ==> answers[i].Written?
    {
      var bytes := Frame(messages[finished]);
      assert pipe + [] == pipe;
      match turns[finished] {
        case Stopped =>
          PartLines(messages, finished, []);
          return;
        case Interrupted(count) =>
          PartLines(messages, finished, Cut(bytes, count));
          pipe := pipe + Cut(bytes, count);
          return;
        case Broken(count) =>
          PartLines(messages, finished, Cut(bytes, count));
          pipe := pipe + Cut(bytes, count);
          answers := answers + [Failed];
          return;
        case Flushed =>
          FramesGrow(messages[..finished], messages[finished]);
          assert messages[..finished + 1] == messages[..finished] + [messages[finished]];
          pipe := pipe + bytes;
          answers := answers + [Written];
          finished := finished + 1;
      }
    }
    assert messages[..finished] == messages;
    LinesOfFrames(messages, []);
    assert Frames(messages) + [] == Frames(messages) && messages + Lines([]) == messages;
  }

  lemma PartLines(messages: seq<seq<Byte>>, k: nat, part: seq<Byte>)
    requires k < |messages| && (forall c :: c in messages ==> Command(c)) && part <= Frame(messages[k])
    ensures var pipe := Frames(messages[..k]) + part;
            Lines(pipe) == messages[..k] || Lines(pipe) == messages[..k + 1]
  {
    LinesOfFrames(messages[..k], part);
    assert part == Frame(messages[k])[..|part|];
    PartialLines(messages[k], |part|);
    assert messages[..k] + [] == messages[..k] && messages[..k + 1] == messages[..k] + [messages[k]];
  }
}
