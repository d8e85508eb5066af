/**
 * The adhan scheduling decision of `listenToAdhan` (src/Prayers.ts): at
 * subscription time, with `now` read once, register one timer per prayer whose
 * time has not passed, attach completion to Isha's timer, and emit the
 * "no prayer left" sentinel when no prayer qualified.
 *
 * Timers and subscriber delivery are not executed: the model produces the
 * plan (which timers, with which delays) and the idealised event trace.
 */
module AdhanScheduler {
  import opened CalculationsConfig

  /** One prayer and its time, in epoch milliseconds. */
  datatype PrayerTime = PrayerTime(prayer: Prayer, time: int)

  /** A registered `setTimeout`: which prayer it emits, after how long, and whether it then completes. */
  datatype Timer = Timer(prayer: Prayer, delay: nat, completes: bool)

  /** What one subscription does: the timers it registers and whether it emits the sentinel. */
  datatype Plan = Plan(timers: seq<Timer>, noPrayerLeft: bool)

  /** What the subscriber observes: a prayer, the `Prayer.None` sentinel, or completion. */
  datatype Event = Next(prayer: Prayer) | NoPrayerLeft | Complete

  /** The deferred stream `listenToAdhan` returns; it holds the times captured when it was created. */
  datatype AdhanStream = AdhanStream(times: seq<PrayerTime>)

  /** The prayer's time has not passed at `now` (a delay of exactly 0 counts). */
  predicate Due(e: PrayerTime, now: int) {
    e.time - now >= 0
  }

  predicate AllPassed(times: seq<PrayerTime>, now: int) {
    forall i :: 0 <= i < |times| ==> !Due(times[i], now)
  }

  /** The timer registered for one prayer, if any. */
  function TimerFor(e: PrayerTime, now: int): seq<Timer> {
    if Due(e, now) then [Timer(e.prayer, e.time - now, e.prayer == Isha)] else []
  }

  /** The timers registered by a scan of `times`, in scan order. */
  function Timers(times: seq<PrayerTime>, now: int): seq<Timer> {
    if times == [] then [] else Timers(times[..|times| - 1], now) + TimerFor(times[|times| - 1], now)
  }

  /** The plan of one subscription made at `now`. */
  function PlanFor(times: seq<PrayerTime>, now: int): Plan {
    Plan(Timers(times, now), |times| > 0 && AllPassed(times, now))
  }

  /**
   * The body of the deferred factory: one pass over the prayers in key order,
   * keeping `tooLate` until a prayer qualifies.
   */
  method Subscribe(stream: AdhanStream, now: int) returns (plan: Plan)
    ensures plan == PlanFor(stream.times, now)
  {
    var times := stream.times;
    var tooLate := true;
    var timers: seq<Timer> := [];
    var noPrayerLeft := false;
    var i := 0;
    while i < |times|
      invariant 0 <= i <= |times|
      invariant timers == Timers(times[..i], now)
      invariant tooLate <==> AllPassed(times[..i], now)
      invariant noPrayerLeft <==> (i == |times| && i > 0 && AllPassed(times[..i], now))
    {
      var delay := times[i].time - now;
      if delay >= 0 {
        tooLate := false;
        timers := timers + [Timer(times[i].prayer, delay, times[i].prayer == Isha)];
      }
      if tooLate && i == |times| - 1 {
        noPrayerLeft := true;
      }
      assert times[..i + 1][..i] == times[..i];
      i := i + 1;
    }
    assert times[..i] == times;
    plan := Plan(timers, noPrayerLeft);
  }

  /** Every prayer that is due gets its timer, with delay `time - now`. */
  lemma {:induction false} DueIsRegistered(times: seq<PrayerTime>, now: int, i: int)
    requires 0 <= i < |times| && Due(times[i], now)
    ensures Timer(times[i].prayer, times[i].time - now, times[i].prayer == Isha) in Timers(times, now)
  {
    var n := |times| - 1;
    if i < n {
      assert times[..n][i] == times[i];
      DueIsRegistered(times[..n], now, i);
    }
  }

  /** Every registered timer fires exactly at its prayer's time and completes exactly for Isha. */
  lemma {:induction false} RegisteredIsDue(times: seq<PrayerTime>, now: int, t: Timer)
    requires t in Timers(times, now)
    ensures PrayerTime(t.prayer, now + t.delay) in times
    ensures t.completes <==> t.prayer == Isha
  {
    var n := |times| - 1;
    if t in Timers(times[..n], now) {
      RegisteredIsDue(times[..n], now, t);
      assert PrayerTime(t.prayer, now + t.delay) in times[..n];
    }
  }

  predicate DistinctPrayers(times: seq<PrayerTime>) {
    forall i, j :: 0 <= i < j < |times| ==> times[i].prayer != times[j].prayer
  }

  /** With one time per prayer, a prayer whose time has passed gets no timer. */
  lemma PassedIsNotRegistered(times: seq<PrayerTime>, now: int, i: int)
    requires DistinctPrayers(times)
    requires 0 <= i < |times| && !Due(times[i], now)
    ensures forall t :: t in Timers(times, now) ==> t.prayer != times[i].prayer
  {
    forall t | t in Timers(times, now)
      ensures t.prayer != times[i].prayer
    {
      RegisteredIsDue(times, now, t);
      var j :| 0 <= j < |times| && times[j] == PrayerTime(t.prayer, now + t.delay);
      assert Due(times[j], now);
    }
  }

  /** No timer is registered exactly when every prayer's time has passed. */
  lemma {:induction false} NoTimersIffAllPassed(times: seq<PrayerTime>, now: int)
    ensures Timers(times, now) == [] <==> AllPassed(times, now)
  {
    if times != [] {
      var n := |times| - 1;
      var prefix := times[..n];
      NoTimersIffAllPassed(prefix, now);
      assert Timers(times, now) == Timers(prefix, now) + TimerFor(times[n], now);
      if AllPassed(times, now) {
        forall i | 0 <= i < n
          ensures !Due(prefix[i], now)
        {
          assert prefix[i] == times[i];
        }
      } else {
        var i :| 0 <= i < |times| && Due(times[i], now);
        if i < n {
          assert prefix[i] == times[i];
        }
      }
    }
  }

  /** The sentinel is emitted exactly when the scan found no prayer to schedule. */
  lemma SentinelIffNoTimers(times: seq<PrayerTime>, now: int)
    requires |times| > 0
    ensures PlanFor(times, now).noPrayerLeft <==> PlanFor(times, now).timers == []
  {
    NoTimersIffAllPassed(times, now);
  }

  predicate Increasing(times: seq<PrayerTime>) {
    forall i, j :: 0 <= i < j < |times| ==> times[i].time < times[j].time
  }

  /** Timers fire in increasing delay order, so registration order is firing order. */
  predicate FiresInOrder(timers: seq<Timer>) {
    forall i, j :: 0 <= i < j < |timers| ==> timers[i].delay < timers[j].delay
  }

  /** With increasing prayer times, the timers fire in the order they were registered. */
  lemma {:induction false} IncreasingTimesFireInOrder(times: seq<PrayerTime>, now: int)
    requires Increasing(times)
    ensures FiresInOrder(Timers(times, now))
  {
    if times != [] {
      var n := |times| - 1;
      var prefix := times[..n];
      assert Increasing(prefix);
      IncreasingTimesFireInOrder(prefix, now);
      var early := Timers(prefix, now);
      forall t | t in early
        ensures now + t.delay < times[n].time
      {
        RegisteredIsDue(prefix, now, t);
      }
      var all := Timers(times, now);
      assert all == early + TimerFor(times[n], now);
      forall i, j | 0 <= i < j < |all|
        ensures all[i].delay < all[j].delay
      {
        if j >= |early| {
          assert all[i] in early;
        }
      }
    }
  }

  /** The events of one timer's callback. */
  function Fired(t: Timer): seq<Event> {
    [Next(t.prayer)] + (if t.completes then [Complete] else [])
  }

  /** The events of timers that fire in registration order. */
  function FiredAll(timers: seq<Timer>): seq<Event> {
    if timers == [] then [] else FiredAll(timers[..|timers| - 1]) + Fired(timers[|timers| - 1])
  }

  /** The events a subscriber observes, when registration order is firing order. */
  function Trace(plan: Plan): seq<Event>
    requires FiresInOrder(plan.timers)
  {
    if plan.noPrayerLeft then [NoPrayerLeft, Complete] else FiredAll(plan.timers)
  }

  /** The prayer times as the calculator lists them: the six prayers, Fajr to Isha. */
  predicate InPrayerOrder(times: seq<PrayerTime>) {
    |times| == |PRAYER_ORDER| && forall i :: 0 <= i < |times| ==> times[i].prayer == PRAYER_ORDER[i]
  }

  lemma {:induction false} NoCompletionFired(timers: seq<Timer>)
    requires forall t :: t in timers ==> !t.completes
    ensures Complete !in FiredAll(timers)
  {
    if timers != [] {
      NoCompletionFired(timers[..|timers| - 1]);
    }
  }

  /**
   * For a day's increasing prayer times with some prayer still due, Isha is
   * due too: its timer is registered last and is the only one that completes.
   */
  lemma IshaTimerLast(times: seq<PrayerTime>, now: int)
    requires InPrayerOrder(times) && Increasing(times) && !AllPassed(times, now)
    ensures var n := |times| - 1;
      Timers(times, now) == Timers(times[..n], now) + [Timer(Isha, times[n].time - now, true)]
    ensures forall t :: t in Timers(times[..|times| - 1], now) ==> !t.completes
  {
    var n := |times| - 1;
    var i :| 0 <= i < |times| && Due(times[i], now);
    assert Due(times[n], now);
    var prefix := times[..n];
    forall t | t in Timers(prefix, now)
      ensures !t.completes
    {
      RegisteredIsDue(prefix, now, t);
      var j :| 0 <= j < |prefix| && prefix[j] == PrayerTime(t.prayer, now + t.delay);
      assert t.prayer == PRAYER_ORDER[j];
    }
  }

  /**
   * For a day's increasing prayer times, every subscription ends with exactly
   * one completion, and nothing follows it.
   */
  lemma CompletesOnceAtEnd(times: seq<PrayerTime>, now: int)
    requires InPrayerOrder(times) && Increasing(times)
    ensures FiresInOrder(PlanFor(times, now).timers)
    ensures var trace := Trace(PlanFor(times, now));
      |trace| > 0 && trace[|trace| - 1] == Complete
      && forall k :: 0 <= k < |trace| - 1 ==> trace[k] != Complete
  {
    IncreasingTimesFireInOrder(times, now);
    if !AllPassed(times, now) {
      IshaTimerLast(times, now);
      var early := Timers(times[..|times| - 1], now);
      var ts := Timers(times, now);
      assert ts[..|ts| - 1] == early;
      NoCompletionFired(early);
      var trace := Trace(PlanFor(times, now));
      assert trace == FiredAll(early) + [Next(Isha), Complete];
      forall k | 0 <= k < |trace| - 1
        ensures trace[k] != Complete
      {
        if k < |FiredAll(early)| {
          assert trace[k] == FiredAll(early)[k];
        }
      }
    }
  }

  /** Every time due: one timer per prayer, in key order, with delay `time - now`. */
  lemma {:induction false} AllDueTimers(times: seq<PrayerTime>, now: int)
    requires forall i :: 0 <= i < |times| ==> Due(times[i], now)
    ensures |Timers(times, now)| == |times|
    ensures forall i :: 0 <= i < |times| ==>
      && Timers(times, now)[i].prayer == times[i].prayer
      && Timers(times, now)[i].delay == times[i].time - now
      && Timers(times, now)[i].completes == (times[i].prayer == Isha)
  {
    if times != [] {
      AllDueTimers(times[..|times| - 1], now);
    }
  }

  /**
   * Subscribing before Fajr of an increasing day: six prayers in order, then
   * one completion.
   */
  lemma EveryPrayerInOrder(times: seq<PrayerTime>, now: int)
    requires InPrayerOrder(times) && Increasing(times)
    requires now <= times[0].time
    ensures FiresInOrder(PlanFor(times, now).timers)
    ensures Trace(PlanFor(times, now))
         == [Next(Fajr), Next(Sunrise), Next(Dhuhr), Next(Asr), Next(Maghrib), Next(Isha), Complete]
  {
    IncreasingTimesFireInOrder(times, now);
    assert forall i :: 0 <= i < |times| ==> Due(times[i], now);
    AllDueTimers(times, now);
    var ts := Timers(times, now);
    assert !AllPassed(times, now) by { assert Due(times[0], now); }
    assert FiredAll(ts[..1]) == [Next(Fajr)] by {
      assert ts[..1][..0] == [];
    }
    assert FiredAll(ts[..2]) == [Next(Fajr), Next(Sunrise)] by {
      assert ts[..2][..1] == ts[..1];
    }
    assert FiredAll(ts[..3]) == [Next(Fajr), Next(Sunrise), Next(Dhuhr)] by {
      assert ts[..3][..2] == ts[..2];
    }
    assert FiredAll(ts[..4]) == [Next(Fajr), Next(Sunrise), Next(Dhuhr), Next(Asr)] by {
      assert ts[..4][..3] == ts[..3];
    }
    assert FiredAll(ts[..5]) == [Next(Fajr), Next(Sunrise), Next(Dhuhr), Next(Asr), Next(Maghrib)] by {
      assert ts[..5][..4] == ts[..4];
    }
    assert FiredAll(ts) == FiredAll(ts[..5]) + Fired(ts[5]);
  }

  /** Subscribing after Isha: no timer, only the sentinel and completion. */
  lemma NothingLeftAfterIsha(times: seq<PrayerTime>, now: int)
    requires InPrayerOrder(times) && Increasing(times)
    requires now > times[|times| - 1].time
    ensures PlanFor(times, now).timers == []
    ensures Trace(PlanFor(times, now)) == [NoPrayerLeft, Complete]
  {
    NoTimersIffAllPassed(times, now);
  }
}
