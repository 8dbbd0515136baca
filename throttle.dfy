/** The event-log throttle of `log_db`: a candidate event reaches the database
    only when strictly more than 4.0 time units have passed since the last one
    that did, and the last-emit timestamp then moves to the candidate's time. */
module Throttle {

  const Cooldown: real := 4.0

  datatype Severity = Low | Medium | High | Critical

  /** An event as handed to the database session (`ActivityLog`), with the
      time the camera's clock read when it was submitted. */
  datatype LogEntry = LogEntry(eventType: string, details: string, severity: Severity, time: real)

  /** The guard `time.time() - self.last_log_time > 4.0`. */
  predicate Admits(last: real, now: real) {
    now - last > Cooldown
  }

  /** The last-emit timestamp after a run of candidates, starting from `last`. */
  function LastEmit(last: real, cands: seq<LogEntry>): real
    decreases |cands|
  {
    if cands == [] then last
    else
      var before := LastEmit(last, cands[..|cands| - 1]);
      if Admits(before, cands[|cands| - 1].time) then cands[|cands| - 1].time else before
  }

  /** The candidates that reach the database, in order, when `cands` are
      submitted one after another starting from last-emit timestamp `last`. */
  function Forwarded(last: real, cands: seq<LogEntry>): seq<LogEntry>
    decreases |cands|
  {
    if cands == [] then []
    else
      var init := cands[..|cands| - 1];
      var c := cands[|cands| - 1];
      Forwarded(last, init) + (if Admits(LastEmit(last, init), c.time) then [c] else [])
  }

  /** The time of the most recent entry, or `start` when there is none. */
  function LastTime(start: real, es: seq<LogEntry>): real {
    if es == [] then start else es[|es| - 1].time
  }

  /** Every entry is strictly more than the cooldown after the one before it;
      the first is measured from `start`. */
  ghost predicate Spaced(start: real, es: seq<LogEntry>) {
    forall i {:trigger es[i]} :: 0 <= i < |es| ==> Admits(if i == 0 then start else es[i - 1].time, es[i].time)
  }

  lemma SpacedSnoc(start: real, es: seq<LogEntry>, e: LogEntry)
    requires Spaced(start, es)
    requires Admits(LastTime(start, es), e.time)
    ensures Spaced(start, es + [e]) && LastTime(start, es + [e]) == e.time
  {
    var es' := es + [e];
    forall i | 0 <= i < |es'|
      ensures Admits(if i == 0 then start else es'[i - 1].time, es'[i].time)
    {
      if i < |es| {
        assert es'[i] == es[i];
        if i > 0 { assert es'[i - 1] == es[i - 1]; }
      }
    }
  }

  /** Submitting one more candidate: it is forwarded exactly when the guard
      admits it against the current last-emit timestamp. */
  lemma ForwardedStep(last: real, cands: seq<LogEntry>, c: LogEntry)
    ensures Forwarded(last, cands + [c]) ==
      Forwarded(last, cands) + (if Admits(LastEmit(last, cands), c.time) then [c] else [])
    ensures LastEmit(last, cands + [c]) ==
      if Admits(LastEmit(last, cands), c.time) then c.time else LastEmit(last, cands)
  {
    assert (cands + [c])[..|cands|] == cands;
  }

  /** Submitting two runs one after the other: the second starts from the
      timestamp the first left behind. */
  lemma {:induction false} ForwardedAppend(last: real, first: seq<LogEntry>, second: seq<LogEntry>)
    ensures Forwarded(last, first + second) ==
      Forwarded(last, first) + Forwarded(LastEmit(last, first), second)
    ensures LastEmit(last, first + second) == LastEmit(LastEmit(last, first), second)
  {
    if second == [] {
      assert first + second == first;
    } else {
      var init := second[..|second| - 1];
      var c := second[|second| - 1];
      assert first + second == (first + init) + [c];
      assert second == init + [c];
      ForwardedAppend(last, first, init);
      ForwardedStep(last, first + init, c);
      ForwardedStep(LastEmit(last, first), init, c);
    }
  }

  /** A log that has received the forwarded part of `first` and then the
      forwarded part of `second` holds the forwarded part of both runs. */
  lemma LogAfterTwoRuns(log0: seq<LogEntry>, last: real, first: seq<LogEntry>, second: seq<LogEntry>,
                        log1: seq<LogEntry>, log2: seq<LogEntry>)
    requires log1 == log0 + Forwarded(last, first)
    requires log2 == log1 + Forwarded(LastEmit(last, first), second)
    ensures log2 == log0 + Forwarded(last, first + second)
    ensures LastEmit(LastEmit(last, first), second) == LastEmit(last, first + second)
  {
    ForwardedAppend(last, first, second);
    ConcatAssoc(log0, Forwarded(last, first), Forwarded(LastEmit(last, first), second));
  }

  /** A log and timestamp that have been through the guard once more, for
      candidate `e`, hold the forwarded part of the longer run. */
  lemma LogAfterOne(log0: seq<LogEntry>, last: real, cands: seq<LogEntry>, e: LogEntry,
                    log1: seq<LogEntry>, last1: real, log2: seq<LogEntry>, last2: real)
    requires log1 == log0 + Forwarded(last, cands) && last1 == LastEmit(last, cands)
    requires Admits(last1, e.time) ==> log2 == log1 + [e] && last2 == e.time
    requires !Admits(last1, e.time) ==> log2 == log1 && last2 == last1
    ensures log2 == log0 + Forwarded(last, cands + [e])
    ensures last2 == LastEmit(last, cands + [e])
  {
    ForwardedStep(last, cands, e);
    ConcatAssoc(log0, Forwarded(last, cands), if Admits(last1, e.time) then [e] else []);
  }

  lemma ConcatAssoc<T>(a: seq<T>, b: seq<T>, c: seq<T>)
    ensures a + b + c == a + (b + c)
  {
  }

  /** Whatever the candidates' times, what reaches the database is spaced by
      more than the cooldown, and the stored timestamp is that of the last
      forwarded entry. */
  lemma {:induction false} ForwardedSpaced(last: real, cands: seq<LogEntry>)
    ensures Spaced(last, Forwarded(last, cands))
    ensures LastEmit(last, cands) == LastTime(last, Forwarded(last, cands))
  {
    if cands != [] {
      var init := cands[..|cands| - 1];
      ForwardedSpaced(last, init);
      if Admits(LastEmit(last, init), cands[|cands| - 1].time) {
        SpacedSnoc(last, Forwarded(last, init), cands[|cands| - 1]);
      }
    }
  }

  /** Forwarding only drops candidates: every forwarded entry was submitted. */
  lemma {:induction false} ForwardedFromCandidates(last: real, cands: seq<LogEntry>)
    ensures |Forwarded(last, cands)| <= |cands|
    ensures forall e :: e in Forwarded(last, cands) ==> e in cands
  {
    if cands != [] {
      var init := cands[..|cands| - 1];
      ForwardedFromCandidates(last, init);
      assert forall e :: e in init ==> e in cands;
    }
  }

  /** Dropping the newest entry keeps the spacing, and the newest entry is
      admitted after the one before it. */
  lemma SpacedInit(start: real, es: seq<LogEntry>)
    requires Spaced(start, es) && es != []
    ensures Spaced(start, es[..|es| - 1])
    ensures Admits(LastTime(start, es[..|es| - 1]), es[|es| - 1].time)
  {
    var init := es[..|es| - 1];
    forall i | 0 <= i < |init|
      ensures Admits(if i == 0 then start else init[i - 1].time, init[i].time)
    {
      assert init[i] == es[i];
      if i > 0 { assert init[i - 1] == es[i - 1]; }
    }
    var n := |es| - 1;
    assert es[n] == es[n];
    if n > 0 { assert init[n - 1] == es[n - 1]; }
  }

  /** Candidates already spaced by more than the cooldown all get through. */
  lemma {:induction false} SpacedAllForwarded(last: real, cands: seq<LogEntry>)
    requires Spaced(last, cands)
    ensures Forwarded(last, cands) == cands
    ensures LastEmit(last, cands) == LastTime(last, cands)
  {
    if cands != [] {
      var init := cands[..|cands| - 1];
      SpacedInit(last, cands);
      SpacedAllForwarded(last, init);
      assert init + [cands[|cands| - 1]] == cands;
    }
  }

  /** A first candidate that passes the guard is the first entry forwarded. */
  lemma {:induction false} FirstAdmittedIsForwarded(last: real, cands: seq<LogEntry>)
    requires cands != [] && Admits(last, cands[0].time)
    ensures Forwarded(last, cands) != [] && Forwarded(last, cands)[0] == cands[0]
  {
    if |cands| == 1 {
      assert cands[..0] == [];
    } else {
      var init := cands[..|cands| - 1];
      assert init[0] == cands[0];
      FirstAdmittedIsForwarded(last, init);
    }
  }

  /** All candidates of one instant: only the first can get through, and it does
      exactly when the guard admits that instant. */
  lemma {:induction false} SameInstant(last: real, now: real, cands: seq<LogEntry>)
    requires forall i :: 0 <= i < |cands| ==> cands[i].time == now
    ensures Forwarded(last, cands) == if cands != [] && Admits(last, now) then [cands[0]] else []
    ensures LastEmit(last, cands) == if cands != [] && Admits(last, now) then now else last
  {
    if cands != [] {
      var init := cands[..|cands| - 1];
      SameInstant(last, now, init);
      if init != [] {
        assert init[0] == cands[0];
      }
    }
  }

  /** Candidates whose times lie in one window no longer than the cooldown:
      once one is forwarded, the rest fall inside the cooldown. */
  lemma {:induction false} WindowAtMostOne(last: real, t0: real, cands: seq<LogEntry>)
    requires forall i :: 0 <= i < |cands| ==> t0 <= cands[i].time <= t0 + Cooldown
    ensures |Forwarded(last, cands)| <= 1
    ensures |Forwarded(last, cands)| == 1 ==> t0 <= LastEmit(last, cands)
  {
    if cands != [] {
      var init := cands[..|cands| - 1];
      assert forall i :: 0 <= i < |init| ==> init[i] == cands[i];
      WindowAtMostOne(last, t0, init);
    }
  }

  /** A burst of candidates whose times all lie in a window no longer than the
      cooldown forwards at most one entry, and exactly one when the first of them
      passes the guard. */
  lemma Burst(last: real, t0: real, cands: seq<LogEntry>)
    requires forall i :: 0 <= i < |cands| ==> t0 <= cands[i].time <= t0 + Cooldown
    ensures |Forwarded(last, cands)| <= 1
    ensures cands != [] && Admits(last, cands[0].time) ==> |Forwarded(last, cands)| == 1
  {
    WindowAtMostOne(last, t0, cands);
    if cands != [] && Admits(last, cands[0].time) {
      FirstAdmittedIsForwarded(last, cands);
    }
  }
}
