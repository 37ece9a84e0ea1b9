/**
 * `throttle` and `debounce`. Each wrapper keeps one closure variable that
 * every call updates; the clock (`Date.now()` for throttle, the timer queue
 * for debounce) is an explicit input here.
 */
module RateLimit {
  import opened Wrappers

  // ---------------------------------------------------------------- throttle

  /** The throttle test: the wrapped function runs when at least `delay` has passed since it last ran. */
  predicate Admits(delay: int, lastTime: int, now: int) {
    now - lastTime >= delay
  }

  /** `lastTime` after a sequence of calls made at the given times, starting from 0. */
  function LastRun(delay: int, calls: seq<int>): int {
    if calls == [] then 0
    else
      var prev := LastRun(delay, calls[..|calls| - 1]);
      if Admits(delay, prev, calls[|calls| - 1]) then calls[|calls| - 1] else prev
  }

  /** The times at which the wrapped function ran, for calls made at the given times. */
  function Runs(delay: int, calls: seq<int>): seq<int> {
    if calls == [] then []
    else
      var prefix := calls[..|calls| - 1];
      var now := calls[|calls| - 1];
      Runs(delay, prefix) + (if Admits(delay, LastRun(delay, prefix), now) then [now] else [])
  }

  /** Consecutive runs are at least `delay` apart. */
  ghost predicate Spaced(runs: seq<int>, delay: int) {
    forall k :: 0 <= k < |runs| - 1 ==> runs[k + 1] - runs[k] >= delay
  }

  /**
   * What the throttle promises: its runs are calls it received, in order,
   * `lastTime` is the latest run (0 before any), and consecutive runs are at
   * least `delay` apart, whatever the clock did between calls.
   */
  lemma {:induction false} RunsSpaced(delay: int, calls: seq<int>)
    ensures |Runs(delay, calls)| <= |calls|
    ensures Runs(delay, calls) == [] ==> LastRun(delay, calls) == 0
    ensures Runs(delay, calls) != [] ==> LastRun(delay, calls) == Runs(delay, calls)[|Runs(delay, calls)| - 1]
    ensures Spaced(Runs(delay, calls), delay)
    ensures forall k :: 0 <= k < |Runs(delay, calls)| ==> Runs(delay, calls)[k] in calls
  {
    if calls != [] {
      var prefix := calls[..|calls| - 1];
      RunsSpaced(delay, prefix);
      assert forall x :: x in prefix ==> x in calls;
    }
  }

  /** With a non-negative delay any two runs, not only neighbours, are at least `delay` apart. */
  lemma {:induction false} RunsPairwiseSpaced(delay: int, calls: seq<int>, i: int, j: int)
    requires delay >= 0
    requires 0 <= i < j < |Runs(delay, calls)|
    ensures Runs(delay, calls)[j] - Runs(delay, calls)[i] >= delay
  {
    RunsSpaced(delay, calls);
    var runs := Runs(delay, calls);
    if j > i + 1 {
      RunsPairwiseSpaced(delay, calls, i, j - 1);
      assert runs[j] - runs[j - 1] >= delay;
    }
  }

  /** The closure of `throttle(fn, delay)`. */
  class Throttle<A> {
    const delay: int
    var lastTime: int
    /** The times of the calls made so far. */
    ghost var calls: seq<int>

    ghost predicate Valid()
      reads this
    {
      lastTime == LastRun(delay, calls)
    }

    constructor (delay: int)
      ensures Valid() && this.delay == delay && calls == [] && lastTime == 0
    {
      this.delay := delay;
      lastTime := 0;
      calls := [];
    }

    /** One call at time `now`: `fn(args)` runs, and `lastTime` moves to `now`, exactly when the throttle admits it. */
    method Call(now: int, args: A) returns (ran: Option<A>)
      requires Valid()
      modifies this
      ensures Valid() && calls == old(calls) + [now]
      ensures ran == (if Admits(delay, old(lastTime), now) then Some(args) else None)
      ensures lastTime == (if ran.Some? then now else old(lastTime))
      ensures Runs(delay, calls) == Runs(delay, old(calls)) + (if ran.Some? then [now] else [])
    {
      assert (old(calls) + [now])[..|old(calls)|] == old(calls);
      calls := calls + [now];
      if now - lastTime >= delay {
        ran := Some(args);
        lastTime := now;
      } else {
        ran := None;
      }
    }
  }

  // ---------------------------------------------------------------- debounce

  /** The one scheduled call: its arguments and the time its timer fires. */
  datatype Scheduled<A> = Scheduled(args: A, due: int)

  /** What happens to the debounced wrapper: a call, or the clock reaching a time. */
  datatype Event<A> = Invoke(at: int, args: A) | Elapse(now: int)

  /** The pending slot after one event, and the arguments `fn` ran with, if it ran. */
  datatype Step<A> = Step(pending: Option<Scheduled<A>>, ran: Option<A>)

  /**
   * A call clears whatever timer is pending and schedules `fn` with its own
   * arguments `delay` later; when the clock reaches the pending timer's due
   * time, `fn` runs with the arguments it holds and the slot empties.
   */
  function DebounceStep<A>(delay: int, pending: Option<Scheduled<A>>, e: Event<A>): (s: Step<A>)
    ensures e.Invoke? ==> s.pending == Some(Scheduled(e.args, e.at + delay)) && s.ran == None
    ensures s.ran.Some? ==> pending.Some? && s.ran.value == pending.value.args && s.pending == None
    ensures e.Elapse? ==> (s.ran.Some? <==> pending.Some? && pending.value.due <= e.now)
    ensures e.Elapse? && s.ran.None? ==> s.pending == pending
  {
    match e
    case Invoke(at, args) => Step(Some(Scheduled(args, at + delay)), None)
    case Elapse(now) =>
      if pending.Some? && pending.value.due <= now then Step(None, Some(pending.value.args))
      else Step(pending, None)
  }

  /** The pending slot after a sequence of events, starting empty. */
  function PendingAfter<A>(delay: int, events: seq<Event<A>>): Option<Scheduled<A>> {
    if events == [] then None
    else DebounceStep(delay, PendingAfter(delay, events[..|events| - 1]), events[|events| - 1]).pending
  }

  /** The arguments `fn` ran with, in order, over a sequence of events. */
  function Fired<A>(delay: int, events: seq<Event<A>>): seq<A> {
    if events == [] then []
    else
      var prefix := events[..|events| - 1];
      var s := DebounceStep(delay, PendingAfter(delay, prefix), events[|events| - 1]);
      Fired(delay, prefix) + (if s.ran.Some? then [s.ran.value] else [])
  }

  /** The number of calls in a sequence of events. */
  function Invocations<A>(events: seq<Event<A>>): nat {
    if events == [] then 0
    else Invocations(events[..|events| - 1]) + (if events[|events| - 1].Invoke? then 1 else 0)
  }

  /**
   * A pending call always carries the arguments of the most recent call,
   * due `delay` after it; and `fn` runs at most once per call, however
   * often the clock is consulted.
   */
  lemma {:induction false} DebounceKeepsLatest<A>(delay: int, events: seq<Event<A>>)
    ensures PendingAfter(delay, events).Some? ==>
              exists k :: 0 <= k < |events| && events[k].Invoke? &&
                PendingAfter(delay, events) == Some(Scheduled(events[k].args, events[k].at + delay)) &&
                forall j :: k < j < |events| ==> events[j].Elapse?
    ensures |Fired(delay, events)| + (if PendingAfter(delay, events).Some? then 1 else 0) <= Invocations(events)
  {
    if events != [] {
      var prefix := events[..|events| - 1];
      var last := events[|events| - 1];
      DebounceKeepsLatest(delay, prefix);
      if PendingAfter(delay, events).Some? && last.Elapse? {
        var k :| 0 <= k < |prefix| && prefix[k].Invoke? &&
                 PendingAfter(delay, prefix) == Some(Scheduled(prefix[k].args, prefix[k].at + delay)) &&
                 forall j :: k < j < |prefix| ==> prefix[j].Elapse?;
        assert events[k] == prefix[k];
        assert forall j :: k < j < |events| ==> events[j].Elapse?;
      }
    }
  }

  /** Some clock reading among `events` reaches `due`. */
  predicate Reached<A>(events: seq<Event<A>>, due: int) {
    exists j :: 0 <= j < |events| && events[j].Elapse? && events[j].now >= due
  }

  /**
   * The trailing call: after a call at `t` with `args`, followed only by
   * clock readings, `fn` runs with exactly `args`, once, as soon as the
   * clock reaches `t + delay`, and until then the call stays pending.
   */
  lemma {:induction false} DebounceFiresLatest<A>(delay: int, before: seq<Event<A>>, t: int, args: A, after: seq<Event<A>>)
    requires forall j :: 0 <= j < |after| ==> after[j].Elapse?
    ensures Fired(delay, before + [Invoke(t, args)] + after) ==
              Fired(delay, before) + (if Reached(after, t + delay) then [args] else [])
    ensures PendingAfter(delay, before + [Invoke(t, args)] + after) ==
              if Reached(after, t + delay) then None else Some(Scheduled(args, t + delay))
  {
    var events := before + [Invoke(t, args)] + after;
    if after == [] {
      assert events == before + [Invoke(t, args)];
      assert events[..|events| - 1] == before;
      assert !Reached(after, t + delay);
    } else {
      var prefix := after[..|after| - 1];
      var last := after[|after| - 1];
      DebounceFiresLatest(delay, before, t, args, prefix);
      assert events[..|events| - 1] == before + [Invoke(t, args)] + prefix;
      assert events[|events| - 1] == last;
      if Reached(prefix, t + delay) {
        var j :| 0 <= j < |prefix| && prefix[j].Elapse? && prefix[j].now >= t + delay;
        assert after[j] == prefix[j];
      } else if last.now >= t + delay {
        assert after[|after| - 1] == last;
      } else {
        assert !Reached(after, t + delay) by {
          forall j | 0 <= j < |after| && after[j].Elapse?
            ensures after[j].now < t + delay
          {
            if j < |prefix| { assert after[j] == prefix[j]; }
          }
        }
      }
    }
  }

  /** The closure of `debounce(fn, delay)`: a single timer slot. */
  class Debounce<A> {
    const delay: int
    var pending: Option<Scheduled<A>>

    constructor (delay: int)
      ensures this.delay == delay && pending == None
    {
      this.delay := delay;
      pending := None;
    }

    /** A call at time `now`: the pending timer, if any, is cleared and replaced by one for these arguments. */
    method Call(now: int, args: A)
      modifies this
      ensures pending == DebounceStep(delay, old(pending), Invoke(now, args)).pending
      ensures pending == Some(Scheduled(args, now + delay))
    {
      pending := Some(Scheduled(args, now + delay));
    }

    /** The clock reaches `now`: a due timer fires `fn` with the arguments it holds. */
    method Tick(now: int) returns (ran: Option<A>)
      modifies this
      ensures Step(pending, ran) == DebounceStep(delay, old(pending), Elapse(now))
    {
      ran := None;
      if pending.Some? && pending.value.due <= now {
        ran := Some(pending.value.args);
        pending := None;
      }
    }
  }
}
