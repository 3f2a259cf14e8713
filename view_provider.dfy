/**
 * The sidebar provider of src/RemindersViewProvider.ts, the copy of the
 * reminder logic the extension actually registers. It keeps flat records
 * (`isActive` / `isSnoozed` flags instead of a state) in an array, mutates
 * them in place, and keeps its own timer map. A timer that elapses, or a
 * reminder that is already due when scheduled, opens a notification; the
 * user's answer to it (or its timeout) is a separate event, `Respond`.
 */
module LegacyViewProvider {
  import opened Optional
  import opened ReminderEntity
  import opened ReminderScheduling
  import ReminderManagement

  /** The length of the notification's "Snooze (5 min)" button, in minutes. */
  const SnoozeButtonMinutes: real := 5.0

  /** The answers `triggerReminder` tells apart; a timeout or a closed notification is `NoResponse`. */
  datatype Action = Snooze | Pause | Dismiss | NoResponse

  /** The provider's `Reminder` interface, as a value. */
  datatype Flat = Flat(
    id: string,
    text: string,
    intervalMinutes: real,
    isActive: bool,
    isSnoozed: bool,
    nextTriggerTime: Option<real>)

  /** One of the provider's record objects; `id`, `text` and the interval are never reassigned. */
  class LegacyReminder {
    const id: string
    const text: string
    const intervalMinutes: real
    var isActive: bool
    var isSnoozed: bool
    var nextTriggerTime: Option<real>

    constructor (d: Flat)
      ensures Data() == d
    {
      id := d.id;
      text := d.text;
      intervalMinutes := d.intervalMinutes;
      isActive := d.isActive;
      isSnoozed := d.isSnoozed;
      nextTriggerTime := d.nextTriggerTime;
    }

    function Data(): Flat
      reads this
    {
      Flat(id, text, intervalMinutes, isActive, isSnoozed, nextTriggerTime)
    }
  }

  /** A `setTimeout` handle in the `timers` map: the record its callback holds and when it runs. */
  datatype Pending = Pending(target: LegacyReminder, deadline: real, elapsed: bool)

  /** The provider's timers and the notifications that are open, awaiting an answer. */
  datatype Clock = Clock(timers: map<string, Pending>, shown: seq<LegacyReminder>)

  // ---------------------------------------------------------------------
  // Records
  // ---------------------------------------------------------------------

  /** The record `addReminder` builds (lines 63-70). */
  function Added(id: string, text: string, minutes: real, now: real): Flat {
    Flat(id, text, minutes, true, false, Some(now + minutes * MillisPerMinute))
  }

  /**
   * Lines 91-101: the flag flips; switching on sets the next time one interval
   * from now, switching off clears the time and the snooze.
   */
  function Toggled(d: Flat, now: real): (r: Flat)
    ensures r.id == d.id && r.text == d.text && r.intervalMinutes == d.intervalMinutes
    ensures r.isActive == !d.isActive
    ensures r.isActive ==> r.nextTriggerTime == Some(now + d.intervalMinutes * MillisPerMinute) && r.isSnoozed == d.isSnoozed
    ensures !r.isActive ==> r.nextTriggerTime == None && !r.isSnoozed
  {
    if !d.isActive then d.(isActive := true, nextTriggerTime := Some(now + d.intervalMinutes * MillisPerMinute))
    else d.(isActive := false, nextTriggerTime := None, isSnoozed := false)
  }

  /** Lines 231-252: what each answer does to the record. */
  function Answered(d: Flat, a: Action, now: real): (r: Flat)
    ensures r.id == d.id && r.text == d.text && r.intervalMinutes == d.intervalMinutes
    ensures a == Snooze ==> r.isSnoozed && r.isActive == d.isActive
                            && r.nextTriggerTime == Some(now + SnoozeButtonMinutes * MillisPerMinute)
    ensures a == Pause ==> !r.isActive && !r.isSnoozed && r.nextTriggerTime == None
    ensures a in {Dismiss, NoResponse} ==> !r.isSnoozed && r.isActive == d.isActive
                                           && r.nextTriggerTime == Some(now + d.intervalMinutes * MillisPerMinute)
  {
    match a
    case Snooze => d.(isSnoozed := true, nextTriggerTime := Some(now + SnoozeButtonMinutes * MillisPerMinute))
    case Pause => d.(isActive := false, isSnoozed := false, nextTriggerTime := None)
    case Dismiss => d.(isSnoozed := false, nextTriggerTime := Some(now + d.intervalMinutes * MillisPerMinute))
    case NoResponse => d.(isSnoozed := false, nextTriggerTime := Some(now + d.intervalMinutes * MillisPerMinute))
  }

  /** Dismissing and letting the notification time out leave the same record. */
  lemma DismissSameAsNoResponse(d: Flat, now: real)
    ensures Answered(d, Dismiss, now) == Answered(d, NoResponse, now)
  {
  }

  /** Whether `loadReminders` schedules a record (line 296). */
  predicate LoadSchedules(d: Flat) {
    d.isActive && Truthy(d.nextTriggerTime)
  }

  /**
   * Lines 296-303: a scheduled record whose time has passed is moved one
   * interval forward unless it is snoozed; every other record is kept.
   */
  function LoadFix(d: Flat, now: real): (r: Flat)
    ensures LoadSchedules(d) && d.nextTriggerTime.value <= now && !d.isSnoozed
            ==> r == d.(nextTriggerTime := Some(now + d.intervalMinutes * MillisPerMinute))
    ensures !(LoadSchedules(d) && d.nextTriggerTime.value <= now && !d.isSnoozed) ==> r == d
  {
    if LoadSchedules(d) && d.nextTriggerTime.value <= now && !d.isSnoozed then
      d.(nextTriggerTime := Some(now + d.intervalMinutes * MillisPerMinute))
    else d
  }

  /** Every record as `loadReminders` leaves it. */
  function LoadFixAll(ds: seq<Flat>, now: real): (r: seq<Flat>)
    ensures |r| == |ds| && forall j :: 0 <= j < |ds| ==> r[j] == LoadFix(ds[j], now)
  {
    seq(|ds|, j requires 0 <= j < |ds| => LoadFix(ds[j], now))
  }

  /** The records of a list of record objects. */
  function DataOf(rs: seq<LegacyReminder>): (ds: seq<Flat>)
    reads rs
    ensures |ds| == |rs| && forall j :: 0 <= j < |rs| ==> ds[j] == rs[j].Data()
  {
    seq(|rs|, j requires 0 <= j < |rs| reads rs => rs[j].Data())
  }

  /** No record object appears twice in the array. */
  predicate DistinctObjects(rs: seq<LegacyReminder>) {
    forall i, j :: 0 <= i < j < |rs| ==> rs[i] != rs[j]
  }

  /** `reminders.find(r => r.id === id)`: the first record with that id. */
  function FindFirst(rs: seq<LegacyReminder>, id: string): (o: Option<nat>)
    ensures o.Some? ==> o.value < |rs| && rs[o.value].id == id && forall j :: 0 <= j < o.value ==> rs[j].id != id
    ensures o.None? ==> forall j :: 0 <= j < |rs| ==> rs[j].id != id
  {
    if rs == [] then None
    else if rs[0].id == id then Some(0)
    else match FindFirst(rs[1..], id)
      case None => None
      case Some(i) => Some(i + 1)
  }

  /** `reminders.filter(r => r.id !== id)`. */
  function FilterOut(rs: seq<LegacyReminder>, id: string): (r: seq<LegacyReminder>)
    ensures forall x :: x in r ==> x in rs && x.id != id
    ensures forall x :: x in rs && x.id != id ==> x in r
    ensures |r| <= |rs|
  {
    if rs == [] then []
    else (if rs[0].id == id then [] else [rs[0]]) + FilterOut(rs[1..], id)
  }

  /** Filtering works piece by piece, so the kept records stay in their order. */
  lemma {:induction false} FilterOutConcat(a: seq<LegacyReminder>, b: seq<LegacyReminder>, id: string)
    ensures FilterOut(a + b, id) == FilterOut(a, id) + FilterOut(b, id)
  {
    if a == [] {
      assert a + b == b;
    } else {
      var head := if a[0].id == id then [] else [a[0]];
      assert (a + b)[0] == a[0] && (a + b)[1..] == a[1..] + b;
      FilterOutConcat(a[1..], b, id);
      calc {
        FilterOut(a + b, id);
        head + FilterOut(a[1..] + b, id);
        head + (FilterOut(a[1..], id) + FilterOut(b, id));
        (head + FilterOut(a[1..], id)) + FilterOut(b, id);
        FilterOut(a, id) + FilterOut(b, id);
      }
    }
  }

  /** `find` misses exactly when `filter` keeps everything. */
  lemma {:induction false} FindMissIffFilterKeeps(rs: seq<LegacyReminder>, id: string)
    ensures FindFirst(rs, id).None? <==> FilterOut(rs, id) == rs
  {
    if rs != [] {
      FindMissIffFilterKeeps(rs[1..], id);
      if rs[0].id == id {
        assert |FilterOut(rs, id)| < |rs|;
      } else {
        assert FilterOut(rs, id) == [rs[0]] + FilterOut(rs[1..], id);
        if FilterOut(rs, id) == rs {
          assert FilterOut(rs[1..], id) == FilterOut(rs, id)[1..];
        }
        assert rs == [rs[0]] + rs[1..];
      }
    }
  }

  /** Filtering keeps the record objects distinct. */
  lemma {:induction false} FilterOutDistinct(rs: seq<LegacyReminder>, id: string)
    requires DistinctObjects(rs)
    ensures DistinctObjects(FilterOut(rs, id))
  {
    if rs != [] {
      FilterOutDistinct(rs[1..], id);
      assert rs[0] !in rs[1..] by {
        forall j | 0 <= j < |rs[1..]|
          ensures rs[1..][j] != rs[0]
        {
          assert rs[1..][j] == rs[j + 1];
        }
      }
      assert rs[0] !in FilterOut(rs[1..], id);
    }
  }

  // ---------------------------------------------------------------------
  // Timers
  // ---------------------------------------------------------------------

  /** What `scheduleReminder` does with a trigger time once the old timer is cancelled. */
  datatype Plan = NoTimer | ShowNow | ArmAt(deadline: real)

  /**
   * Lines 109-139: no (truthy) time gives no timer, a time that has come shows
   * the notification at once, any other time gets a timer for it. The record's
   * `isActive` flag plays no part.
   */
  function ProviderDecide(next: Option<real>, now: real): (p: Plan)
    ensures p.NoTimer? <==> !Truthy(next)
    ensures p.ShowNow? <==> Truthy(next) && next.value <= now
    ensures p.ArmAt? ==> next == Some(p.deadline) && p.deadline > now
  {
    if !Truthy(next) then NoTimer
    else
      var delta := next.value - now;
      if delta <= 0.0 then ShowNow else ArmAt(now + delta)
  }

  /** For an active reminder the provider decides as `ReminderScheduler.schedule` does. */
  lemma ProviderAgreesWithScheduler(d: ReminderData, now: real)
    requires IsActiveState(d.state)
    ensures Decide(d, now).Skip? <==> ProviderDecide(d.nextTriggerTime, now).NoTimer?
    ensures Decide(d, now).FireNow? <==> ProviderDecide(d.nextTriggerTime, now).ShowNow?
    ensures Decide(d, now).Arm? ==> ProviderDecide(d.nextTriggerTime, now) == ArmAt(Decide(d, now).deadline)
  {
  }

  /** `cancelReminder` (lines 258-264): the handle is cleared and leaves the map. */
  function CancelTimer(c: Clock, id: string): (u: Clock)
    ensures id !in u.timers && u.shown == c.shown
    ensures forall k :: k != id ==> (k in u.timers <==> k in c.timers)
    ensures forall k :: k in u.timers ==> u.timers[k] == c.timers[k]
  {
    c.(timers := c.timers - {id})
  }

  /** `scheduleReminder(r)` with `r.nextTriggerTime == next`: cancel, then act on `ProviderDecide`. */
  function AfterScheduleFor(c: Clock, r: LegacyReminder, next: Option<real>, now: real): (u: Clock)
    ensures r.id in u.timers <==> ProviderDecide(next, now).ArmAt?
    ensures r.id in u.timers ==> u.timers[r.id] == Pending(r, next.value, false) && next.value > now
    ensures u.shown == c.shown + (if ProviderDecide(next, now).ShowNow? then [r] else [])
    ensures forall k :: k != r.id ==> (k in u.timers <==> k in c.timers)
    ensures forall k :: k != r.id && k in u.timers ==> u.timers[k] == c.timers[k]
  {
    var c' := CancelTimer(c, r.id);
    match ProviderDecide(next, now)
    case NoTimer => c'
    case ShowNow => c'.(shown := c'.shown + [r])
    case ArmAt(t) => c'.(timers := c'.timers[r.id := Pending(r, t, false)])
  }

  /** Scheduling the same record twice leaves the timers as scheduling it once. */
  lemma ScheduleTwiceOneTimer(c: Clock, r: LegacyReminder, next: Option<real>, now: real)
    ensures AfterScheduleFor(AfterScheduleFor(c, r, next, now), r, next, now).timers
            == AfterScheduleFor(c, r, next, now).timers
  {
  }

  /** A new reminder with a positive interval always gets a timer one interval out and shows nothing. */
  lemma AddedArmsOneTimer(c: Clock, r: LegacyReminder, id: string, text: string, minutes: real, now: real)
    requires minutes > 0.0 && now >= 0.0
    ensures var u := AfterScheduleFor(c, r, Added(id, text, minutes, now).nextTriggerTime, now);
            r.id in u.timers && u.timers[r.id].deadline == now + minutes * MillisPerMinute && u.shown == c.shown
  {
  }

  /** The timers after toggling the record `r` whose data was `d` (lines 93-101). */
  function ToggleClock(c: Clock, r: LegacyReminder, d: Flat, now: real): Clock {
    if Toggled(d, now).isActive then AfterScheduleFor(c, r, Toggled(d, now).nextTriggerTime, now)
    else CancelTimer(c, r.id)
  }

  /** Switching a reminder off leaves it without a timer; switching it on (interval positive) arms one. */
  lemma ToggleTimers(c: Clock, r: LegacyReminder, d: Flat, now: real)
    requires now >= 0.0
    ensures !Toggled(d, now).isActive ==> r.id !in ToggleClock(c, r, d, now).timers
    ensures Toggled(d, now).isActive && d.intervalMinutes > 0.0
            ==> r.id in ToggleClock(c, r, d, now).timers
                && ToggleClock(c, r, d, now).timers[r.id].deadline == now + d.intervalMinutes * MillisPerMinute
  {
  }

  /** The open notifications with the `k`-th one taken out. */
  function Close(shown: seq<LegacyReminder>, k: nat): (s: seq<LegacyReminder>)
    requires k < |shown|
    ensures |s| == |shown| - 1
  {
    shown[..k] + shown[k + 1..]
  }

  /**
   * The timers after answering the `k`-th notification, whose record held `d`:
   * pause cancels, every other answer schedules the answered record.
   */
  function AnswerClock(c: Clock, k: nat, d: Flat, a: Action, now: real): Clock
    requires k < |c.shown|
  {
    var c' := c.(shown := Close(c.shown, k));
    if a == Pause then CancelTimer(c', c.shown[k].id)
    else AfterScheduleFor(c', c.shown[k], Answered(d, a, now).nextTriggerTime, now)
  }

  /**
   * Every timer belongs to a listed record under that record's own id, so
   * deleting a record leaves no timer behind.
   */
  predicate NoStray(c: Clock, rs: seq<LegacyReminder>) {
    forall k :: k in c.timers ==> c.timers[k].target in rs && c.timers[k].target.id == k
  }

  lemma ScheduleKeepsNoStray(c: Clock, rs: seq<LegacyReminder>, r: LegacyReminder, next: Option<real>, now: real)
    requires NoStray(c, rs) && r in rs
    ensures NoStray(AfterScheduleFor(c, r, next, now), rs)
  {
  }

  /** Appending a record and scheduling it, as `addReminder` does, keeps every timer's record listed. */
  lemma AddKeepsNoStray(c: Clock, rs: seq<LegacyReminder>, r: LegacyReminder, next: Option<real>, now: real)
    requires NoStray(c, rs)
    ensures NoStray(AfterScheduleFor(c, r, next, now), rs + [r])
  {
    forall k | k in c.timers
      ensures c.timers[k].target in rs + [r]
    {
      assert c.timers[k].target in rs;
    }
    ScheduleKeepsNoStray(c, rs + [r], r, next, now);
  }

  /** Toggling a listed record keeps every timer's record listed. */
  lemma ToggleKeepsNoStray(c: Clock, rs: seq<LegacyReminder>, r: LegacyReminder, d: Flat, now: real)
    requires NoStray(c, rs) && r in rs
    ensures NoStray(ToggleClock(c, r, d, now), rs)
  {
    if Toggled(d, now).isActive {
      ScheduleKeepsNoStray(c, rs, r, Toggled(d, now).nextTriggerTime, now);
    }
  }

  /** Cancelling and then filtering out the id, as `deleteReminder` does, keeps every timer's record listed. */
  lemma DeleteKeepsNoStray(c: Clock, rs: seq<LegacyReminder>, id: string)
    requires NoStray(c, rs)
    ensures NoStray(CancelTimer(c, id), FilterOut(rs, id))
  {
    var u := CancelTimer(c, id);
    forall k | k in u.timers
      ensures u.timers[k].target in FilterOut(rs, id)
    {
      assert u.timers[k] == c.timers[k];
    }
  }

  /** A timer elapsing keeps its entry, only marked as run. */
  function ElapseClock(c: Clock, id: string): Clock
    requires id in c.timers
  {
    Clock(c.timers[id := c.timers[id].(elapsed := true)], c.shown + [c.timers[id].target])
  }

  lemma ElapseKeepsNoStray(c: Clock, rs: seq<LegacyReminder>, id: string)
    requires NoStray(c, rs) && id in c.timers
    ensures NoStray(ElapseClock(c, id), rs)
  {
  }

  /** The fold `loadReminders` performs over the loaded records `rs`, whose data was `ds`. */
  function LoadClock(c: Clock, rs: seq<LegacyReminder>, ds: seq<Flat>, now: real): Clock
    requires |rs| == |ds|
    decreases |rs|
  {
    if rs == [] then c
    else
      var n := |rs| - 1;
      var before := LoadClock(c, rs[..n], ds[..n], now);
      if LoadSchedules(ds[n]) then AfterScheduleFor(before, rs[n], LoadFix(ds[n], now).nextTriggerTime, now)
      else before
  }

  /** Loading from no timers leaves only timers of loaded records. */
  lemma {:induction false} LoadClockNoStray(rs: seq<LegacyReminder>, ds: seq<Flat>, now: real)
    requires |rs| == |ds|
    ensures NoStray(LoadClock(Clock(map[], []), rs, ds, now), rs)
  {
    if rs != [] {
      var n := |rs| - 1;
      LoadClockNoStray(rs[..n], ds[..n], now);
      var before := LoadClock(Clock(map[], []), rs[..n], ds[..n], now);
      assert NoStray(before, rs) by {
        forall k | k in before.timers
          ensures before.timers[k].target in rs
        {
          assert before.timers[k].target in rs[..n];
        }
      }
      if LoadSchedules(ds[n]) {
        ScheduleKeepsNoStray(before, rs, rs[n], LoadFix(ds[n], now).nextTriggerTime, now);
      }
    }
  }

  /**
   * On load, an overdue snoozed record is shown at once, and an overdue
   * active one with a positive interval is moved forward and armed.
   */
  lemma LoadDecision(d: Flat, now: real)
    requires LoadSchedules(d) && d.nextTriggerTime.value <= now && now >= 0.0
    ensures d.isSnoozed ==> ProviderDecide(LoadFix(d, now).nextTriggerTime, now).ShowNow?
    ensures !d.isSnoozed && d.intervalMinutes > 0.0
            ==> ProviderDecide(LoadFix(d, now).nextTriggerTime, now) == ArmAt(now + d.intervalMinutes * MillisPerMinute)
  {
  }

  /** The record the newer `ReminderManager.load` reads from a provider record. */
  function AsStored(d: Flat): ReminderManagement.StoredRecord {
    ReminderManagement.StoredRecord(d.id, d.text, d.intervalMinutes, None, Some(d.isActive), Some(d.isSnoozed), d.nextTriggerTime, None)
  }

  /** The scheduler's decision in provider terms. */
  function AsPlan(o: Decision): Plan {
    match o
    case Skip => NoTimer
    case FireNow => ShowNow
    case Arm(t) => ArmAt(t)
  }

  /**
   * A provider record the manager loads (through the legacy migration) is
   * scheduled as the provider itself would load it, provided a switched-off
   * record is not marked snoozed. A snooze answer to the notification of a
   * reminder switched off meanwhile produces exactly such a record.
   */
  lemma ManagerLoadsProviderRecords(d: Flat, now: real, generatedId: string)
    requires d.isActive || !d.isSnoozed
    ensures var v := ReminderManagement.Loaded(AsStored(d), now, generatedId);
            IsActiveState(v.state) == d.isActive
            && AsPlan(Decide(v, now)) == (if LoadSchedules(d) then ProviderDecide(LoadFix(d, now).nextTriggerTime, now) else NoTimer)
  {
    var b := Build(ReminderManagement.Migrate(AsStored(d), now), now, generatedId);
    assert b.nextTriggerTime == (if Truthy(d.nextTriggerTime) then d.nextTriggerTime else None);
    assert IsActiveState(b.state) == d.isActive;
    assert b.state == Snoozed <==> d.isSnoozed;
  }

  /**
   * As written, the record a snooze answer leaves on a reminder the user had
   * switched off is not scheduled by the provider's own load, but the
   * manager's migration reads it as snoozed and arms or fires it: after the
   * upgrade the switched-off reminder runs again.
   */
  lemma SwitchedOffSnoozeRunsAfterUpgrade(d: Flat, t: real, now: real, generatedId: string)
    requires !d.isActive && t >= 0.0
    ensures var e := Answered(d, Snooze, t);
            var v := ReminderManagement.Loaded(AsStored(e), now, generatedId);
            !LoadSchedules(e) && v.state == Snoozed && !Decide(v, now).Skip?
  {
    var e := Answered(d, Snooze, t);
    assert Truthy(e.nextTriggerTime);
  }

  /**
   * With the corrected migration the manager schedules every provider record,
   * whatever its flags, as the provider itself would load it.
   */
  lemma CheckedMigrationAgreesWithProvider(d: Flat, now: real, generatedId: string)
    ensures var v := ReminderManagement.LoadedChecked(AsStored(d), now, generatedId);
            IsActiveState(v.state) == d.isActive
            && AsPlan(Decide(v, now)) == (if LoadSchedules(d) then ProviderDecide(LoadFix(d, now).nextTriggerTime, now) else NoTimer)
  {
    var b := Build(ReminderManagement.MigrateChecked(AsStored(d), now), now, generatedId);
    assert b.nextTriggerTime == (if Truthy(d.nextTriggerTime) then d.nextTriggerTime else None);
    assert IsActiveState(b.state) == d.isActive;
    assert d.isActive ==> (b.state == Snoozed <==> d.isSnoozed);
  }

  // ---------------------------------------------------------------------
  // Findings: an answer applied to a reminder that is gone or paused
  // ---------------------------------------------------------------------

  /**
   * As written, an answer other than pause re-arms the notification's record
   * even after `deleteReminder` took it out of the list: a timer is left
   * behind that no later delete of a listed record can reach.
   */
  lemma LateAnswerLeavesStrayTimer(c: Clock, rs: seq<LegacyReminder>, k: nat, d: Flat, a: Action, now: real)
    requires k < |c.shown| && a != Pause && now >= 0.0
    requires a != Snooze ==> d.intervalMinutes > 0.0
    ensures !NoStray(AnswerClock(c, k, d, a, now), FilterOut(rs, c.shown[k].id))
  {
    var r := c.shown[k];
    var u := AnswerClock(c, k, d, a, now);
    assert r.id in u.timers && u.timers[r.id].target == r;
  }

  /**
   * As written, an answer other than pause to the notification of a reminder
   * that was switched off meanwhile arms a timer for it while it stays off.
   */
  lemma PausedAnswerArmsTimer(d: Flat, a: Action, now: real)
    requires !d.isActive && a != Pause && now >= 0.0
    requires a != Snooze ==> d.intervalMinutes > 0.0
    ensures !Answered(d, a, now).isActive && ProviderDecide(Answered(d, a, now).nextTriggerTime, now).ArmAt?
  {
  }

  /** The answer is applied only to a record that is still listed and switched on. */
  predicate AnswerApplies(r: LegacyReminder, rs: seq<LegacyReminder>, active: bool) {
    r in rs && active
  }

  /** The timers after the corrected answer: an answer that does not apply only closes the notification. */
  function CheckedAnswerClock(c: Clock, k: nat, d: Flat, rs: seq<LegacyReminder>, a: Action, now: real): Clock
    requires k < |c.shown|
  {
    if AnswerApplies(c.shown[k], rs, d.isActive) then AnswerClock(c, k, d, a, now)
    else c.(shown := Close(c.shown, k))
  }

  /** With the check, answering never leaves a timer for an unlisted record. */
  lemma CheckedAnswerKeepsNoStray(c: Clock, rs: seq<LegacyReminder>, k: nat, d: Flat, a: Action, now: real)
    requires NoStray(c, rs) && k < |c.shown|
    ensures NoStray(CheckedAnswerClock(c, k, d, rs, a, now), rs)
  {
    if AnswerApplies(c.shown[k], rs, d.isActive) && a != Pause {
      ScheduleKeepsNoStray(c.(shown := Close(c.shown, k)), rs, c.shown[k], Answered(d, a, now).nextTriggerTime, now);
    }
  }

  /** With the check, a reminder that is off when answered gets no new timer. */
  lemma CheckedAnswerArmsOnlyActive(c: Clock, rs: seq<LegacyReminder>, k: nat, d: Flat, a: Action, now: real)
    requires k < |c.shown| && !d.isActive
    ensures CheckedAnswerClock(c, k, d, rs, a, now).timers == c.timers
  {
  }

  // ---------------------------------------------------------------------
  // The provider
  // ---------------------------------------------------------------------

  /** `saved || []`. */
  function OrEmpty(stored: Option<seq<LegacyReminder>>): seq<LegacyReminder> {
    if stored.Some? then stored.value else []
  }

  class RemindersViewProvider {
    var reminders: seq<LegacyReminder>
    var timers: map<string, Pending>
    var shown: seq<LegacyReminder>
    /** The array last written by `saveReminders`. */
    var saved: seq<Flat>

    ghost predicate Valid()
      reads this`reminders
    {
      DistinctObjects(reminders)
    }

    function Records(): seq<Flat>
      reads this`reminders, reminders
    {
      DataOf(reminders)
    }

    function TimerState(): Clock
      reads this`timers, this`shown
    {
      Clock(timers, shown)
    }

    /**
     * The constructor, which runs `loadReminders` (lines 289-307) on the
     * deserialised array. The stored array itself is not rewritten.
     */
    constructor (stored: Option<seq<LegacyReminder>>, now: real)
      requires DistinctObjects(OrEmpty(stored))
      modifies OrEmpty(stored)
      ensures Valid() && reminders == OrEmpty(stored)
      ensures Records() == LoadFixAll(old(DataOf(OrEmpty(stored))), now)
      ensures TimerState() == LoadClock(Clock(map[], []), reminders, old(DataOf(OrEmpty(stored))), now)
      ensures NoStray(TimerState(), reminders)
      ensures saved == old(DataOf(OrEmpty(stored)))
    {
      reminders := OrEmpty(stored);
      timers := map[];
      shown := [];
      saved := DataOf(OrEmpty(stored));
      new;
      LoadReminders(now);
      LoadClockNoStray(reminders, saved, now);
    }

    /** The loop of lines 295-306. */
    method LoadReminders(now: real)
      requires Valid()
      modifies this`timers, this`shown, reminders
      ensures Valid() && reminders == old(reminders)
      ensures Records() == LoadFixAll(old(Records()), now)
      ensures TimerState() == LoadClock(old(TimerState()), reminders, old(Records()), now)
    {
      ghost var before := Records();
      var i := 0;
      while i < |reminders|
        invariant 0 <= i <= |reminders| && reminders == old(reminders)
        invariant forall j :: 0 <= j < i ==> reminders[j].Data() == LoadFix(before[j], now)
        invariant forall j :: i <= j < |reminders| ==> reminders[j].Data() == before[j]
        invariant TimerState() == LoadClock(old(TimerState()), reminders[..i], before[..i], now)
      {
        assert reminders[..i + 1][..i] == reminders[..i];
        assert before[..i + 1][..i] == before[..i];
        LoadOne(reminders[i], now);
        i := i + 1;
      }
      assert reminders[..i] == reminders;
      assert before[..i] == before;
    }

    /** One pass of the loop of lines 295-306: reconcile the record, then schedule it. */
    method LoadOne(reminder: LegacyReminder, now: real)
      modifies this`timers, this`shown, reminder
      ensures reminder.Data() == LoadFix(old(reminder.Data()), now)
      ensures TimerState() == if LoadSchedules(old(reminder.Data()))
                              then AfterScheduleFor(old(TimerState()), reminder, reminder.nextTriggerTime, now)
                              else old(TimerState())
    {
      if reminder.isActive && Truthy(reminder.nextTriggerTime) {
        if reminder.nextTriggerTime.value <= now {
          if !reminder.isSnoozed {
            reminder.nextTriggerTime := Some(now + reminder.intervalMinutes * MillisPerMinute);
          }
        }
        ScheduleReminder(reminder, now);
      }
    }

    /** `scheduleReminder` (lines 106-140). */
    method ScheduleReminder(reminder: LegacyReminder, now: real)
      modifies this`timers, this`shown
      ensures TimerState() == AfterScheduleFor(old(TimerState()), reminder, reminder.nextTriggerTime, now)
    {
      CancelReminder(reminder.id);
      if !Truthy(reminder.nextTriggerTime) {
        return;
      }
      var delta := reminder.nextTriggerTime.value - now;
      if delta <= 0.0 {
        shown := shown + [reminder];
        return;
      }
      timers := timers[reminder.id := Pending(reminder, now + delta, false)];
    }

    /** `cancelReminder` (lines 258-264). */
    method CancelReminder(id: string)
      modifies this`timers
      ensures TimerState() == CancelTimer(old(TimerState()), id)
    {
      if id in timers {
        timers := timers - {id};
      }
    }

    /** `saveReminders`. */
    method SaveReminders()
      modifies this`saved
      ensures saved == Records()
    {
      saved := Records();
    }

    /** `addReminder` (lines 62-83); the id `Date.now().toString()` is a parameter. */
    method AddReminder(id: string, text: string, minutes: real, now: real)
      requires Valid()
      modifies this`reminders, this`timers, this`shown, this`saved
      ensures Valid()
      ensures minutes <= 0.0 ==> reminders == old(reminders) && TimerState() == old(TimerState()) && saved == old(saved)
      ensures minutes > 0.0 ==>
                && |reminders| == |old(reminders)| + 1 && reminders[..|old(reminders)|] == old(reminders)
                && fresh(reminders[|old(reminders)|])
                && Records() == old(Records()) + [Added(id, text, minutes, now)]
                && TimerState() == AfterScheduleFor(old(TimerState()), reminders[|old(reminders)|], Some(now + minutes * MillisPerMinute), now)
                && saved == Records()
      ensures NoStray(old(TimerState()), old(reminders)) ==> NoStray(TimerState(), reminders)
    {
      var reminder := new LegacyReminder(Added(id, text, minutes, now));
      if reminder.intervalMinutes <= 0.0 {
        return;
      }
      AppendRecord(reminder, now);
      SaveReminders();
    }

    /** Lines 79-80: the new record is pushed and scheduled. */
    method AppendRecord(reminder: LegacyReminder, now: real)
      requires Valid() && reminder !in reminders
      modifies this`reminders, this`timers, this`shown
      ensures Valid() && reminders == old(reminders) + [reminder]
      ensures Records() == old(Records()) + [reminder.Data()]
      ensures TimerState() == AfterScheduleFor(old(TimerState()), reminder, reminder.nextTriggerTime, now)
      ensures NoStray(old(TimerState()), old(reminders)) ==> NoStray(TimerState(), reminders)
    {
      if NoStray(TimerState(), reminders) {
        AddKeepsNoStray(TimerState(), reminders, reminder, reminder.nextTriggerTime, now);
      }
      assert DataOf(reminders + [reminder]) == DataOf(reminders) + [reminder.Data()];
      reminders := reminders + [reminder];
      ScheduleReminder(reminder, now);
    }

    /** Lines 91-101 for the record found. */
    method ToggleRecord(reminder: LegacyReminder, now: real)
      modifies this`timers, this`shown, reminder
      ensures reminder.Data() == Toggled(old(reminder.Data()), now)
      ensures TimerState() == ToggleClock(old(TimerState()), reminder, old(reminder.Data()), now)
    {
      reminder.isActive := !reminder.isActive;
      if reminder.isActive {
        reminder.nextTriggerTime := Some(now + reminder.intervalMinutes * MillisPerMinute);
        ScheduleReminder(reminder, now);
      } else {
        CancelReminder(reminder.id);
        reminder.nextTriggerTime := None;
        reminder.isSnoozed := false;
      }
    }

    /** The record at `i` changed alone: the records change at `i` only. */
    twostate lemma RecordChanged(i: nat)
      requires Valid() && i < |reminders| && reminders == old(reminders)
      requires forall j :: 0 <= j < |reminders| && j != i ==> unchanged(reminders[j])
      ensures Records() == old(Records())[i := reminders[i].Data()]
    {
    }

    /** `toggleReminder` (lines 85-104): an unknown id changes nothing and saves nothing. */
    method ToggleReminder(id: string, now: real)
      requires Valid()
      modifies this`timers, this`shown, this`saved, reminders
      ensures Valid() && reminders == old(reminders)
      ensures FindFirst(reminders, id).None? ==> Records() == old(Records()) && TimerState() == old(TimerState()) && saved == old(saved)
      ensures var o := FindFirst(reminders, id);
              o.Some? ==>
                && Records() == old(Records())[o.value := Toggled(old(Records())[o.value], now)]
                && TimerState() == ToggleClock(old(TimerState()), reminders[o.value], old(Records())[o.value], now)
                && saved == Records()
      ensures NoStray(old(TimerState()), reminders) ==> NoStray(TimerState(), reminders)
    {
      var found := FindFirst(reminders, id);
      if found.None? {
        return;
      }
      if NoStray(TimerState(), reminders) {
        ToggleKeepsNoStray(TimerState(), reminders, reminders[found.value], reminders[found.value].Data(), now);
      }
      ToggleRecord(reminders[found.value], now);
      RecordChanged(found.value);
      SaveReminders();
    }

    /** `deleteReminder` (lines 266-271). */
    method DeleteReminder(id: string)
      requires Valid()
      modifies this`reminders, this`timers, this`saved
      ensures Valid() && reminders == FilterOut(old(reminders), id)
      ensures TimerState() == CancelTimer(old(TimerState()), id)
      ensures saved == Records()
      ensures NoStray(old(TimerState()), old(reminders)) ==> NoStray(TimerState(), reminders)
    {
      if NoStray(TimerState(), reminders) {
        DeleteKeepsNoStray(TimerState(), reminders, id);
      }
      CancelReminder(id);
      FilterOutDistinct(reminders, id);
      reminders := FilterOut(reminders, id);
      SaveReminders();
    }

    /** The callback a timer armed at lines 131-136 runs: `triggerReminder` on the record it holds. */
    method TimerElapsed(id: string)
      requires id in timers && !timers[id].elapsed
      modifies this`timers, this`shown
      ensures TimerState() == ElapseClock(old(TimerState()), id)
      ensures NoStray(old(TimerState()), reminders) ==> NoStray(TimerState(), reminders)
    {
      if NoStray(TimerState(), reminders) {
        ElapseKeepsNoStray(TimerState(), reminders, id);
      }
      var t := timers[id];
      timers := timers[id := t.(elapsed := true)];
      shown := shown + [t.target];
    }

    /** The `k`-th open notification is answered: lines 231-255 as written. */
    method Respond(k: nat, a: Action, now: real)
      requires k < |shown|
      modifies this`timers, this`shown, this`saved, shown[k]
      ensures reminders == old(reminders)
      ensures old(shown[k]).Data() == Answered(old(shown[k].Data()), a, now)
      ensures TimerState() == AnswerClock(old(TimerState()), k, old(shown[k].Data()), a, now)
      ensures saved == Records()
    {
      var reminder := shown[k];
      shown := Close(shown, k);
      match a {
        case Snooze =>
          reminder.isSnoozed := true;
          reminder.nextTriggerTime := Some(now + SnoozeButtonMinutes * MillisPerMinute);
          ScheduleReminder(reminder, now);
        case Pause =>
          reminder.isActive := false;
          reminder.isSnoozed := false;
          reminder.nextTriggerTime := None;
          CancelReminder(reminder.id);
        case Dismiss =>
          reminder.isSnoozed := false;
          reminder.nextTriggerTime := Some(now + reminder.intervalMinutes * MillisPerMinute);
          ScheduleReminder(reminder, now);
        case NoResponse =>
          reminder.isSnoozed := false;
          reminder.nextTriggerTime := Some(now + reminder.intervalMinutes * MillisPerMinute);
          ScheduleReminder(reminder, now);
      }
      SaveReminders();
    }

    /**
     * The corrected answer: a record that was deleted or switched off while
     * its notification was open is left alone.
     */
    method RespondChecked(k: nat, a: Action, now: real)
      requires k < |shown|
      modifies this`timers, this`shown, this`saved, shown[k]
      ensures reminders == old(reminders)
      ensures TimerState() == CheckedAnswerClock(old(TimerState()), k, old(shown[k].Data()), reminders, a, now)
      ensures AnswerApplies(old(shown[k]), reminders, old(shown[k].isActive))
              ==> old(shown[k]).Data() == Answered(old(shown[k].Data()), a, now)
      ensures !AnswerApplies(old(shown[k]), reminders, old(shown[k].isActive)) ==> unchanged(old(shown[k]))
      ensures NoStray(old(TimerState()), reminders) ==> NoStray(TimerState(), reminders)
      ensures saved == Records()
    {
      var reminder := shown[k];
      if NoStray(TimerState(), reminders) {
        CheckedAnswerKeepsNoStray(TimerState(), reminders, k, reminder.Data(), a, now);
      }
      if reminder in reminders && reminder.isActive {
        Respond(k, a, now);
      } else {
        shown := Close(shown, k);
        SaveReminders();
      }
    }
  }
}
