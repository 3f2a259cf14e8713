/**
 * The timer table of src/ReminderScheduler.ts: at most one pending timer per
 * reminder id. A pending timer is its deadline; the injected trigger callback
 * is modelled by `fired`, the ids it has been called with, in order.
 */
module ReminderScheduling {
  import opened Optional
  import opened ReminderEntity

  /** What `schedule` does with a reminder once the old timer is cancelled. */
  datatype Decision = Skip | FireNow | Arm(deadline: real)

  /**
   * Lines 19-41: a paused reminder or one without a (truthy) trigger time is
   * skipped, one whose trigger time has come fires at once, and any other gets
   * a timer at its trigger time.
   */
  function Decide(d: ReminderData, now: real): (o: Decision)
    ensures o.Skip? <==> !IsActiveState(d.state) || !Truthy(d.nextTriggerTime)
    ensures o.FireNow? <==> IsActiveState(d.state) && Truthy(d.nextTriggerTime) && d.nextTriggerTime.value <= now
    ensures o.Arm? ==> d.nextTriggerTime == Some(o.deadline) && o.deadline > now
  {
    if !IsActiveState(d.state) then Skip
    else match TimeUntilTrigger(d.nextTriggerTime, now)
      case None => Skip
      case Some(delay) => if delay <= 0.0 then FireNow else Arm(now + delay)
  }

  /** The scheduler's state: pending deadlines by id, and the callback log. */
  datatype TimerTable = TimerTable(timers: map<string, real>, fired: seq<string>)

  /** `cancel(id)`: that id's entry goes, nothing else changes; no entry is no error. */
  function AfterCancel(t: TimerTable, id: string): (u: TimerTable)
    ensures id !in u.timers && u.fired == t.fired
    ensures forall k :: k != id ==> (k in u.timers <==> k in t.timers)
    ensures forall k :: k in u.timers ==> u.timers[k] == t.timers[k]
  {
    t.(timers := t.timers - {id})
  }

  /** `triggerImmediately`: the entry is removed first, then the callback runs once. */
  function AfterTrigger(t: TimerTable, id: string): (u: TimerTable)
    ensures id !in u.timers && u.fired == t.fired + [id]
    ensures forall k :: k != id ==> (k in u.timers <==> k in t.timers)
    ensures forall k :: k in u.timers ==> u.timers[k] == t.timers[k]
  {
    AfterCancel(t, id).(fired := t.fired + [id])
  }

  /** `schedule(r)`: cancel first, then act on `Decide`. */
  function AfterSchedule(t: TimerTable, d: ReminderData, now: real): (u: TimerTable)
    ensures d.id in u.timers <==> Decide(d, now).Arm?
    ensures d.id in u.timers ==> Some(u.timers[d.id]) == d.nextTriggerTime && u.timers[d.id] > now
    ensures u.fired == t.fired + (if Decide(d, now).FireNow? then [d.id] else [])
    ensures forall k :: k != d.id ==> (k in u.timers <==> k in t.timers)
    ensures forall k :: k != d.id && k in u.timers ==> u.timers[k] == t.timers[k]
  {
    var c := AfterCancel(t, d.id);
    match Decide(d, now)
    case Skip => c
    case FireNow => AfterTrigger(c, d.id)
    case Arm(deadline) => c.(timers := c.timers[d.id := deadline])
  }

  /** Scheduling the same reminder twice leaves the timers as scheduling it once: re-arming replaces. */
  lemma ScheduleTwiceOneTimer(t: TimerTable, d: ReminderData, now: real)
    ensures AfterSchedule(AfterSchedule(t, d, now), d, now).timers == AfterSchedule(t, d, now).timers
  {
  }

  /** Cancelling before scheduling changes nothing: `schedule` cancels itself. */
  lemma ScheduleAfterCancel(t: TimerTable, d: ReminderData, now: real)
    ensures AfterSchedule(AfterCancel(t, d.id), d, now) == AfterSchedule(t, d, now)
  {
    assert AfterCancel(AfterCancel(t, d.id), d.id) == AfterCancel(t, d.id);
  }

  /** The size of a map with one key removed. */
  lemma CardRemove<V>(m: map<string, V>, id: string)
    ensures |m - {id}| == if id in m then |m| - 1 else |m|
  {
    if id in m {
      assert (m - {id}).Keys + {id} == m.Keys;
      assert id !in (m - {id}).Keys;
    } else {
      assert m - {id} == m;
    }
  }

  /**
   * The table grows by at most one entry per `schedule`: by one exactly when
   * the reminder is armed and had no timer before.
   */
  lemma ScheduleCount(t: TimerTable, d: ReminderData, now: real)
    ensures |AfterSchedule(t, d, now).timers|
            == |t.timers| - (if d.id in t.timers then 1 else 0) + (if Decide(d, now).Arm? then 1 else 0)
  {
    var c := t.timers - {d.id};
    CardRemove(t.timers, d.id);
    if Decide(d, now).Arm? {
      assert d.id !in c;
      assert (c[d.id := Decide(d, now).deadline]).Keys == c.Keys + {d.id};
    }
  }

  class ReminderScheduler {
    var timers: map<string, real>
    var fired: seq<string>

    constructor ()
      ensures timers == map[] && fired == []
    {
      timers := map[];
      fired := [];
    }

    function Table(): TimerTable
      reads this
    {
      TimerTable(timers, fired)
    }

    /** Getter `activeTimerCount`: the number of pending timers. */
    function ActiveTimerCount(): nat
      reads this
    {
      |timers|
    }

    /** Method `isScheduled`: a scheduled id is one of the timers the count includes. */
    predicate IsScheduled(id: string)
      reads this
      ensures IsScheduled(id) ==> ActiveTimerCount() > 0
    {
      id in timers
    }

    /** The count is zero exactly when no id is scheduled. */
    lemma CountZeroIffNoneScheduled()
      ensures ActiveTimerCount() == 0 <==> forall id :: !IsScheduled(id)
    {
      if |timers| != 0 {
        var k :| k in timers;
        assert IsScheduled(k);
      }
    }

    method Schedule(r: Reminder, now: real)
      modifies this
      ensures Table() == AfterSchedule(old(Table()), r.ToJSON(), now)
    {
      Cancel(r.id);
      if !r.IsActive() {
        return;
      }
      var timeUntilTrigger := r.TimeUntil(now);
      if timeUntilTrigger.None? {
        return;
      }
      if timeUntilTrigger.value <= 0.0 {
        TriggerImmediately(r.id);
        return;
      }
      timers := timers[r.id := now + timeUntilTrigger.value];
    }

    method Cancel(id: string)
      modifies this
      ensures Table() == AfterCancel(old(Table()), id)
    {
      if id in timers {
        timers := timers - {id};
      }
    }

    /** `cancelAll`: every entry's timer is cleared, then the table is emptied. */
    method CancelAll()
      modifies this
      ensures timers == map[] && fired == old(fired)
      ensures ActiveTimerCount() == 0
    {
      var pending := timers.Keys;
      while pending != {}
        invariant pending <= old(timers).Keys
        invariant timers.Keys == pending
        invariant forall k :: k in timers ==> timers[k] == old(timers)[k]
        invariant fired == old(fired)
        decreases pending
      {
        var k :| k in pending;
        timers := timers - {k};
        pending := pending - {k};
      }
      timers := map[];
    }

    /** `reschedule`: cancel, then schedule (which cancels again). */
    method Reschedule(r: Reminder, now: real)
      modifies this
      ensures Table() == AfterSchedule(old(Table()), r.ToJSON(), now)
    {
      ScheduleAfterCancel(Table(), r.ToJSON(), now);
      Cancel(r.id);
      Schedule(r, now);
    }

    method TriggerImmediately(id: string)
      modifies this
      ensures Table() == AfterTrigger(old(Table()), id)
    {
      timers := timers - {id};
      fired := fired + [id];
    }

    /** The host timer armed in `schedule` (lines 37-39) elapses. */
    method TimerElapsed(id: string)
      requires id in timers
      modifies this
      ensures Table() == AfterTrigger(old(Table()), id)
    {
      TriggerImmediately(id);
    }

    method Dispose()
      modifies this
      ensures timers == map[] && fired == old(fired)
    {
      CancelAll();
    }
  }
}
