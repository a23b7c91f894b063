/** The interval rule both runners share. A candidate telemetry interval
    is applied only when it differs from the current one; applying it
    replaces the running timer by `Observable.Interval(period)` merged with
    an immediate `Observable.Return(0)`, which fires at its start and then
    once every period. Times are whole seconds on the scheduler's clock. */
module Scheduling {

  /** The running timer: started at `start`, it has fired `fired` times. */
  datatype Timer = Timer(start: int, period: int, fired: nat)

  /** When the timer fires next. */
  function NextDue(t: Timer): int {
    t.start + t.fired * t.period
  }

  /** The first `n` firing times of a timer started at `start`. */
  function TickTimes(start: int, period: int, n: nat): (times: seq<int>)
    ensures |times| == n
    ensures forall i :: 0 <= i < n ==> times[i] == start + i * period
  {
    seq(n, i requires 0 <= i < n => start + i * period)
  }

  /** One more firing extends the firing times by the next due time. */
  lemma TickTimesNext(t: Timer)
    ensures TickTimes(t.start, t.period, t.fired + 1) == TickTimes(t.start, t.period, t.fired) + [NextDue(t)]
  {
  }

  /** After firing, the timer is next due one period later. */
  lemma NextDueAfterFiring(t: Timer)
    ensures NextDue(t.(fired := t.fired + 1)) == NextDue(t) + t.period
  {
    assert (t.fired + 1) * t.period == t.fired * t.period + t.period;
  }

  /** A timer fires first at its start and then every `period` seconds. */
  lemma TickTimesEvenlySpaced(start: int, period: int, n: nat)
    requires n > 0
    ensures TickTimes(start, period, n)[0] == start
    ensures forall i :: 0 < i < n ==> TickTimes(start, period, n)[i] - TickTimes(start, period, n)[i - 1] == period
  {
    var times := TickTimes(start, period, n);
    forall i | 0 < i < n
      ensures times[i] - times[i - 1] == period
    {
      assert times[i] == start + (i - 1) * period + period;
    }
  }

  /** The intervals that a sequence of candidates applies, starting from the
      interval `current`. */
  function Applied(current: int, candidates: seq<int>): seq<int>
    decreases |candidates|
  {
    if candidates == [] then []
    else if candidates[0] != current then [candidates[0]] + Applied(candidates[0], candidates[1..])
    else Applied(current, candidates[1..])
  }

  /** The interval after a sequence of candidates. */
  function FinalInterval(current: int, candidates: seq<int>): int
    decreases |candidates|
  {
    if candidates == [] then current
    else if candidates[0] != current then FinalInterval(candidates[0], candidates[1..])
    else FinalInterval(current, candidates[1..])
  }

  /** Every applied interval is a candidate and differs from the one before
      it: no restart ever happens for a repeated value. */
  lemma {:induction false} AppliedChanges(current: int, candidates: seq<int>)
    ensures var applied := Applied(current, candidates);
            (applied != [] ==> applied[0] != current) &&
            (forall i :: 0 < i < |applied| ==> applied[i] != applied[i - 1]) &&
            (forall i :: 0 <= i < |applied| ==> applied[i] in candidates)
    decreases |candidates|
  {
    if candidates != [] {
      AppliedChanges(if candidates[0] != current then candidates[0] else current, candidates[1..]);
    }
  }

  /** Candidates equal to the current interval apply nothing. */
  lemma {:induction false} AppliedNothingWhenUnchanged(current: int, candidates: seq<int>)
    requires forall i :: 0 <= i < |candidates| ==> candidates[i] == current
    ensures Applied(current, candidates) == []
    ensures FinalInterval(current, candidates) == current
    decreases |candidates|
  {
    if candidates != [] {
      AppliedNothingWhenUnchanged(current, candidates[1..]);
    }
  }

  /** Whether or not it was applied, the last candidate is the current
      interval afterwards, and it is the last interval applied unless it
      was already current; nothing is applied only when the last candidate
      is the interval started from. */
  lemma {:induction false} FinalIntervalIsLastCandidate(current: int, candidates: seq<int>)
    requires candidates != []
    ensures FinalInterval(current, candidates) == candidates[|candidates| - 1]
    ensures var applied := Applied(current, candidates);
            if applied == [] then candidates[|candidates| - 1] == current
            else applied[|applied| - 1] == candidates[|candidates| - 1]
    decreases |candidates|
  {
    if |candidates| > 1 {
      FinalIntervalIsLastCandidate(if candidates[0] != current then candidates[0] else current, candidates[1..]);
      if candidates[0] != current {
        assert FinalInterval(current, candidates) == FinalInterval(candidates[0], candidates[1..]);
      }
    }
  }

  /** Applying candidates one at a time: a candidate is applied exactly when
      it differs from the interval reached so far. */
  lemma {:induction false} AppliedSnoc(current: int, candidates: seq<int>, candidate: int)
    ensures Applied(current, candidates + [candidate]) ==
      Applied(current, candidates) + (if candidate != FinalInterval(current, candidates) then [candidate] else [])
    ensures FinalInterval(current, candidates + [candidate]) == candidate
    decreases |candidates|
  {
    if candidates == [] {
      assert candidates + [candidate] == [candidate];
    } else {
      assert (candidates + [candidate])[1..] == candidates[1..] + [candidate];
      AppliedSnoc(if candidates[0] != current then candidates[0] else current, candidates[1..], candidate);
    }
  }
}
