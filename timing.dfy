/**
 * `debounce`, `throttle` and `once` of src/core/utils.js. Each wrapper keeps its state in a
 * closure; here that state is the fields of an object. Time is an explicit clock reading
 * `now` (what `Date.now()` would return), a pending `setTimeout` is a `Timer` field, and
 * `Advance(now)` is the event loop reaching time `now` and running the timer if it is due.
 * Every run of the wrapped function is recorded, with the arguments it got.
 */
module Timing {
  import opened Optional

  /** A pending `setTimeout`: when it is due and the arguments it captured. */
  datatype Timer<A> = Timer(due: int, args: A)

  /** One run of the wrapped function. */
  datatype Run<A> = Run(time: int, args: A)

  /** `utils.debounce(fn, wait)`: every call cancels the pending timer and starts a new one,
      so `fn` runs once a burst of calls has been quiet for `wait`, with the last call's
      arguments. */
  class Debouncer<A> {
    const wait: int
    var pending: Option<Timer<A>>
    var runs: seq<Run<A>>
    /** The calls made so far, with their times. */
    ghost var calls: seq<Run<A>>

    ghost predicate Valid()
      reads this
    {
      // the pending timer belongs to the latest call and carries its arguments
      && (pending.Some? ==>
            |calls| > 0 && pending.value == Timer(calls[|calls| - 1].time + wait, calls[|calls| - 1].args))
      // every run carries the arguments of some call made at least `wait` before it
      && (forall i :: 0 <= i < |runs| ==> exists j :: 0 <= j < |calls| && calls[j].args == runs[i].args && calls[j].time + wait <= runs[i].time)
    }

    constructor (wait: int)
      ensures Valid()
      ensures this.wait == wait && pending == None && runs == [] && calls == []
    {
      this.wait := wait;
      pending := None;
      runs := [];
      calls := [];
    }

    method Call(now: int, args: A)
      requires Valid()
      modifies this
      ensures Valid()
      ensures pending == Some(Timer(now + wait, args))
      ensures runs == old(runs) && calls == old(calls) + [Run(now, args)]
    {
      calls := calls + [Run(now, args)];
      pending := Some(Timer(now + wait, args));
      forall i | 0 <= i < |runs|
        ensures exists j :: 0 <= j < |calls| && calls[j].args == runs[i].args && calls[j].time + wait <= runs[i].time
      {
        var j :| 0 <= j < |old(calls)| && old(calls)[j].args == runs[i].args && old(calls)[j].time + wait <= runs[i].time;
        assert calls[j] == old(calls)[j];
      }
    }

    method Advance(now: int)
      requires Valid()
      modifies this
      ensures Valid()
      ensures calls == old(calls)
      ensures old(pending).Some? && old(pending).value.due <= now ==>
        pending == None && runs == old(runs) + [Run(now, old(pending).value.args)]
      ensures !(old(pending).Some? && old(pending).value.due <= now) ==>
        pending == old(pending) && runs == old(runs)
    {
      if pending.Some? && pending.value.due <= now {
        ghost var last := |calls| - 1;
        runs := runs + [Run(now, pending.value.args)];
        pending := None;
        assert calls[last].args == runs[|runs| - 1].args && calls[last].time + wait <= runs[|runs| - 1].time;
      }
    }
  }

  /** `utils.throttle(fn, wait)`: a call runs `fn` at once when `wait` has passed since the last
      run, cancelling any pending trailing timer; otherwise it schedules one trailing run for the
      moment `wait` will have passed, unless one is already pending, in which case the call is
      dropped. `last` starts at 0, as in the source. */
  class Throttler<A> {
    const wait: int
    var last: int
    var timer: Option<Timer<A>>
    var runs: seq<Run<A>>

    ghost predicate Valid()
      reads this
    {
      // a pending trailing run is due exactly `wait` after the last run
      && (timer.Some? ==> timer.value.due == last + wait)
      && (|runs| > 0 ==> runs[|runs| - 1].time == last)
      // consecutive runs are at least `wait` apart
      && (forall i :: 0 < i < |runs| ==> runs[i - 1].time + wait <= runs[i].time)
    }

    constructor (wait: int)
      ensures Valid()
      ensures this.wait == wait && last == 0 && timer == None && runs == []
    {
      this.wait := wait;
      last := 0;
      timer := None;
      runs := [];
    }

    method Call(now: int, args: A)
      requires Valid()
      modifies this
      ensures Valid()
      ensures now - old(last) >= wait ==>
        timer == None && last == now && runs == old(runs) + [Run(now, args)]
      ensures now - old(last) < wait && old(timer).None? ==>
        timer == Some(Timer(now + (wait - (now - old(last))), args)) && last == old(last) && runs == old(runs)
      ensures now - old(last) < wait && old(timer).Some? ==>
        timer == old(timer) && last == old(last) && runs == old(runs)
    {
      var remaining := wait - (now - last);
      if remaining <= 0 {
        if timer.Some? {
          timer := None;
        }
        last := now;
        runs := runs + [Run(now, args)];
        return;
      }
      if timer.Some? {
        return;
      }
      timer := Some(Timer(now + remaining, args));
    }

    method Advance(now: int)
      requires Valid()
      modifies this
      ensures Valid()
      ensures old(timer).Some? && old(timer).value.due <= now ==>
        timer == None && last == now && runs == old(runs) + [Run(now, old(timer).value.args)]
      ensures !(old(timer).Some? && old(timer).value.due <= now) ==>
        timer == old(timer) && last == old(last) && runs == old(runs)
    {
      if timer.Some? && timer.value.due <= now {
        var args := timer.value.args;
        timer := None;
        last := now;
        runs := runs + [Run(now, args)];
      }
    }
  }

  /** `utils.once(fn)`: the first call runs `fn`; every later call does nothing. */
  class Once<A> {
    var called: bool
    var runs: seq<A>

    ghost predicate Valid()
      reads this
    {
      |runs| <= 1 && (called <==> |runs| == 1)
    }

    constructor ()
      ensures Valid() && !called && runs == []
    {
      called := false;
      runs := [];
    }

    method Call(args: A)
      requires Valid()
      modifies this
      ensures Valid()
      ensures old(called) ==> called && runs == old(runs)
      ensures !old(called) ==> called && runs == [args]
    {
      if called {
        return;
      }
      called := true;
      runs := runs + [args];
    }
  }
}
