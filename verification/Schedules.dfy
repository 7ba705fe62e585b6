/** Runs of a machine: the states a schedule of events passes through. */
module Schedules {
  /** `ss` starts somewhere and takes one step for each event. */
  predicate Trace<S, E>(step: (S, E, S) -> bool, es: seq<E>, ss: seq<S>) {
    |ss| == |es| + 1 && forall i {:trigger es[i]} :: 0 <= i < |es| ==> step(ss[i], es[i], ss[i + 1])
  }

  /** `es` leads from `s` to `t`. */
  ghost predicate Leads<S(!new), E>(step: (S, E, S) -> bool, s: S, es: seq<E>, t: S) {
    exists ss :: Trace(step, es, ss) && ss[0] == s && ss[|es|] == t
  }

  lemma First<S(!new), E>(step: (S, E, S) -> bool, s: S, es: seq<E>, t: S) returns (m: S)
    requires Leads(step, s, es, t) && es != []
    ensures step(s, es[0], m) && Leads(step, m, es[1..], t)
  {
    var ss :| Trace(step, es, ss) && ss[0] == s && ss[|es|] == t;
    m := ss[1];
    var later, rest := ss[1..], es[1..];
    forall i | 0 <= i < |rest| ensures step(later[i], rest[i], later[i + 1]) {
      assert later[i] == ss[i + 1] && later[i + 1] == ss[i + 2] && rest[i] == es[i + 1];
    }
    assert Trace(step, rest, later);
  }

  lemma Nothing<S(!new), E>(step: (S, E, S) -> bool, s: S)
    ensures Leads(step, s, [], s)
  {
    assert Trace(step, [], [s]);
  }

  lemma NothingOnly<S(!new), E>(step: (S, E, S) -> bool, s: S, t: S)
    requires Leads(step, s, [], t)
    ensures s == t
  {}

  /** A schedule can be followed by one more event. */
  lemma Then<S(!new), E>(step: (S, E, S) -> bool, s: S, es: seq<E>, m: S, e: E, t: S)
    requires Leads(step, s, es, m) && step(m, e, t)
    ensures Leads(step, s, es + [e], t)
  {
    var ss :| Trace(step, es, ss) && ss[0] == s && ss[|es|] == m;
    var more, all := ss + [t], es + [e];
    forall i | 0 <= i < |all| ensures step(more[i], all[i], more[i + 1]) {
      if i < |es| {
        assert more[i] == ss[i] && more[i + 1] == ss[i + 1] && all[i] == es[i];
      } else {
        assert more[i] == m && more[i + 1] == t && all[i] == e;
      }
    }
    assert Trace(step, all, more);
  }

  /** One more event can come before a schedule. */
  lemma Before<S(!new), E>(step: (S, E, S) -> bool, s: S, e: E, m: S, es: seq<E>, t: S)
    requires step(s, e, m) && Leads(step, m, es, t)
    ensures Leads(step, s, [e] + es, t)
  {
    var ss :| Trace(step, es, ss) && ss[0] == m && ss[|es|] == t;
    var more, all := [s] + ss, [e] + es;
    forall i | 0 <= i < |all| ensures step(more[i], all[i], more[i + 1]) {
      if i > 0 {
        assert more[i] == ss[i - 1] && more[i + 1] == ss[i] && all[i] == es[i - 1];
      } else {
        assert more[i] == s && more[i + 1] == m && all[i] == e;
      }
    }
    assert Trace(step, all, more);
  }

  /** Two schedules, one after the other. */
  lemma {:induction false} Through<S(!new), E>(step: (S, E, S) -> bool, s: S, es: seq<E>, m: S, fs: seq<E>, t: S)
    requires Leads(step, s, es, m) && Leads(step, m, fs, t)
    ensures Leads(step, s, es + fs, t)
    decreases |es|
  {
    if es == [] {
      NothingOnly(step, s, m);
      assert [] + fs == fs;
    } else {
      var n := First(step, s, es, m);
      Through(step, n, es[1..], m, fs, t);
      Before(step, s, es[0], n, es[1..] + fs, t);
      assert es + fs == [es[0]] + (es[1..] + fs);
    }
  }
}
