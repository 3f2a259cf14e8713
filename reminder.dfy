/**
 * The reminder entity (src/Reminder.ts): one reminder with three exclusive
 * states and a nullable next trigger time, its named transitions, validation
 * and the JSON record it is saved as.
 *
 * Times are milliseconds as `real` (the source reads `Date.now()`; here the
 * clock reading is the parameter `now`), intervals are minutes as `real`
 * (fractional minutes are allowed).
 */
module ReminderEntity {
  import opened Optional

  datatype ReminderState = Active | Paused | Snoozed

  /** The factor of every `minutes * 60000` in the source. */
  const MillisPerMinute: real := 60000.0

  /** The default argument of `snooze`, in minutes. */
  const DefaultSnoozeMinutes: real := 5.0

  const IntervalError: string := "Interval must be greater than zero."
  const EmptyTextError: string := "Reminder text cannot be empty."

  /** The record `toJSON` produces and `fromJSON` reads (interface ReminderData). */
  datatype ReminderData = ReminderData(
    id: string,
    text: string,
    intervalMinutes: real,
    state: ReminderState,
    nextTriggerTime: Option<real>,
    createdAt: real)

  /**
   * The constructor's argument, `Partial<ReminderData>` with text and interval
   * always present. The empty id stands for a missing one (both are falsy);
   * None stands for a missing state, trigger time or creation time.
   */
  datatype ReminderInit = ReminderInit(
    id: string,
    text: string,
    intervalMinutes: real,
    state: Option<ReminderState>,
    nextTriggerTime: Option<real>,
    createdAt: Option<real>)

  /** Getter `isActive`: active and snoozed reminders both count as active. */
  predicate IsActiveState(s: ReminderState) {
    s == Active || s == Snoozed
  }

  /** JavaScript truthiness of a nullable number: null and 0 are falsy. */
  predicate Truthy(t: Option<real>) {
    t.Some? && t.value != 0.0
  }

  /**
   * Getter `timeUntilTrigger`: null for a falsy trigger time, otherwise the
   * delay until the trigger, clamped at zero.
   */
  function TimeUntilTrigger(next: Option<real>, now: real): (r: Option<real>)
    ensures r.None? <==> !Truthy(next)
    ensures r.Some? ==> r.value >= 0.0 && r.value >= next.value - now
    ensures r.Some? ==> (r.value == 0.0 <==> next.value <= now)
    ensures r.Some? && next.value > now ==> r.value == next.value - now
  {
    if !Truthy(next) then None
    else if next.value - now > 0.0 then Some(next.value - now)
    else Some(0.0)
  }

  /** The characters `String.prototype.trim` removes (white space and line terminators). */
  predicate IsTrimmed(c: char) {
    || c == ' ' || c == '\t' || c == '\n' || c == '\r'
    || c == '\U{000B}' || c == '\U{000C}' || c == '\U{00A0}' || c == '\U{1680}'
    || ('\U{2000}' <= c <= '\U{200A}')
    || c == '\U{2028}' || c == '\U{2029}' || c == '\U{202F}' || c == '\U{205F}'
    || c == '\U{3000}' || c == '\U{FEFF}'
  }

  /** `!text || text.trim().length === 0`: empty, or white space only. */
  predicate IsBlank(text: string) {
    forall i :: 0 <= i < |text| ==> IsTrimmed(text[i])
  }

  datatype Validation = Valid | Invalid(error: string)

  /**
   * Method `validate`: a reminder is valid exactly when its interval is
   * positive and its text is not blank; the interval check comes first, so its
   * message wins when both fail.
   */
  function ValidateFields(intervalMinutes: real, text: string): (r: Validation)
    ensures r.Valid? <==> intervalMinutes > 0.0 && !IsBlank(text)
    ensures intervalMinutes <= 0.0 ==> r == Invalid(IntervalError)
    ensures intervalMinutes > 0.0 && IsBlank(text) ==> r == Invalid(EmptyTextError)
  {
    if intervalMinutes <= 0.0 then Invalid(IntervalError)
    else if IsBlank(text) then Invalid(EmptyTextError)
    else Valid
  }

  /** The empty text is rejected whatever the interval, with one of the two messages. */
  lemma EmptyTextNeverValid(intervalMinutes: real)
    ensures ValidateFields(intervalMinutes, "").Invalid?
    ensures ValidateFields(intervalMinutes, "").error
            == if intervalMinutes <= 0.0 then IntervalError else EmptyTextError
  {
  }

  /**
   * The fields the constructor assigns: each falsy value of the argument is
   * replaced by its default (a generated id, ACTIVE, null, `Date.now()`).
   */
  function Build(init: ReminderInit, now: real, generatedId: string): ReminderData {
    ReminderData(
      if init.id != "" then init.id else generatedId,
      init.text,
      init.intervalMinutes,
      if init.state.Some? then init.state.value else Active,
      if Truthy(init.nextTriggerTime) then init.nextTriggerTime else None,
      if Truthy(init.createdAt) then init.createdAt.value else now)
  }

  /** `fromJSON(data)` is `new Reminder(data)`: every field of the record is supplied. */
  function InitOf(d: ReminderData): ReminderInit {
    ReminderInit(d.id, d.text, d.intervalMinutes, Some(d.state), d.nextTriggerTime, Some(d.createdAt))
  }

  /**
   * The round trip `fromJSON(toJSON(r))` gives back the same fields exactly
   * when no field is collapsed by a `||` default: the id is non-empty (or the
   * generated id happens to be empty too), the trigger time is not 0, and the
   * creation time is not 0 (or the clock reads 0).
   */
  lemma JsonRoundTrip(d: ReminderData, now: real, generatedId: string)
    ensures Build(InitOf(d), now, generatedId) == d
            <==> (d.id != "" || generatedId == "")
                 && d.nextTriggerTime != Some(0.0)
                 && (d.createdAt != 0.0 || now == 0.0)
  {
  }

  /** The defaults the round trip applies: a 0 trigger time becomes null, a 0 creation time becomes now. */
  lemma JsonRoundTripCollapses(d: ReminderData, now: real, generatedId: string)
    ensures d.nextTriggerTime == Some(0.0) ==> Build(InitOf(d), now, generatedId).nextTriggerTime == None
    ensures d.createdAt == 0.0 ==> Build(InitOf(d), now, generatedId).createdAt == now
    ensures d.id == "" ==> Build(InitOf(d), now, generatedId).id == generatedId
    ensures Build(InitOf(d), now, generatedId).state == d.state
  {
  }

  /** `calculateNextTriggerTime`: one interval from now. */
  function NextFromInterval(d: ReminderData, now: real): real {
    now + d.intervalMinutes * MillisPerMinute
  }

  /** No transition touches the identity fields. */
  predicate SameIdentity(a: ReminderData, b: ReminderData) {
    a.id == b.id && a.text == b.text && a.intervalMinutes == b.intervalMinutes && a.createdAt == b.createdAt
  }

  /** The entity invariant: paused exactly when there is no trigger time. */
  predicate Consistent(d: ReminderData) {
    d.state == Paused <==> d.nextTriggerTime.None?
  }

  /** Transition `pause`: a no-op on a paused reminder, otherwise paused with no trigger time. */
  function AfterPause(d: ReminderData): (r: ReminderData)
    ensures r.state == Paused && SameIdentity(r, d)
    ensures d.state == Paused ==> r == d
    ensures d.state != Paused ==> r.nextTriggerTime == None
  {
    if d.state == Paused then d
    else d.(state := Paused, nextTriggerTime := None)
  }

  /** Transition `resume`: a no-op unless paused; from paused, active one interval from now. */
  function AfterResume(d: ReminderData, now: real): (r: ReminderData)
    ensures SameIdentity(r, d)
    ensures d.state != Paused ==> r == d
    ensures d.state == Paused ==> r.state == Active && r.nextTriggerTime == Some(now + d.intervalMinutes * MillisPerMinute)
  {
    if d.state != Paused then d
    else d.(state := Active, nextTriggerTime := Some(NextFromInterval(d, now)))
  }

  /** Transition `snooze(minutes)`: snoozed `minutes` from now, from every state (paused included). */
  function AfterSnooze(d: ReminderData, minutes: real, now: real): (r: ReminderData)
    ensures SameIdentity(r, d)
    ensures r.state == Snoozed && r.nextTriggerTime == Some(now + minutes * MillisPerMinute)
  {
    d.(state := Snoozed, nextTriggerTime := Some(now + minutes * MillisPerMinute))
  }

  /** Transition `dismiss`: back to active, one regular interval from now, from every state. */
  function AfterDismiss(d: ReminderData, now: real): (r: ReminderData)
    ensures SameIdentity(r, d)
    ensures r.state == Active && r.nextTriggerTime == Some(now + d.intervalMinutes * MillisPerMinute)
  {
    d.(state := Active, nextTriggerTime := Some(NextFromInterval(d, now)))
  }

  /**
   * Transition `reschedule`: an active or snoozed reminder gets a trigger time
   * one interval from now; the state never changes and a paused one is untouched.
   */
  function AfterReschedule(d: ReminderData, now: real): (r: ReminderData)
    ensures SameIdentity(r, d) && r.state == d.state
    ensures IsActiveState(d.state) ==> r.nextTriggerTime == Some(now + d.intervalMinutes * MillisPerMinute)
    ensures !IsActiveState(d.state) ==> r == d
  {
    if IsActiveState(d.state) then d.(nextTriggerTime := Some(NextFromInterval(d, now))) else d
  }

  /** Pausing twice is pausing once. */
  lemma PauseIdempotent(d: ReminderData)
    ensures AfterPause(AfterPause(d)) == AfterPause(d)
  {
  }

  /**
   * Every transition keeps the entity invariant, and snooze, dismiss and
   * pause from an unpaused state establish it whatever came before.
   */
  lemma TransitionsKeepConsistency(d: ReminderData, minutes: real, now: real)
    ensures Consistent(d) ==> Consistent(AfterPause(d))
    ensures d.state != Paused ==> Consistent(AfterPause(d))
    ensures Consistent(d) ==> Consistent(AfterResume(d, now))
    ensures Consistent(AfterSnooze(d, minutes, now))
    ensures Consistent(AfterDismiss(d, now))
    ensures Consistent(d) ==> Consistent(AfterReschedule(d, now))
  {
  }

  /** A reminder as the source holds it: the private fields of class Reminder. */
  class Reminder {
    const id: string
    const text: string
    const intervalMinutes: real
    var state: ReminderState
    var nextTriggerTime: Option<real>
    const createdAt: real

    /** The constructor applies the `||` defaults of `Build`; `generatedId` stands for `generateId()`. */
    constructor (init: ReminderInit, now: real, generatedId: string)
      ensures ToJSON() == Build(init, now, generatedId)
    {
      id := if init.id != "" then init.id else generatedId;
      text := init.text;
      intervalMinutes := init.intervalMinutes;
      state := if init.state.Some? then init.state.value else Active;
      nextTriggerTime := if Truthy(init.nextTriggerTime) then init.nextTriggerTime else None;
      createdAt := if Truthy(init.createdAt) then init.createdAt.value else now;
    }

    /** Method `toJSON`: every current field, unchanged, as a record. */
    function ToJSON(): (d: ReminderData)
      reads this
      ensures d.id == id && d.text == text && d.intervalMinutes == intervalMinutes && d.createdAt == createdAt
      ensures d.state == state && d.nextTriggerTime == nextTriggerTime
    {
      ReminderData(id, text, intervalMinutes, state, nextTriggerTime, createdAt)
    }

    /** Getter `isActive`: exactly the reminders that are not paused; a snoozed one is active. */
    predicate IsActive()
      reads this
      ensures IsActive() <==> !IsPaused()
      ensures IsSnoozed() ==> IsActive()
    {
      IsActiveState(state)
    }

    /** Getter `isPaused`: the one state that is not active. */
    predicate IsPaused()
      reads this
      ensures IsPaused() <==> !IsActiveState(state)
    {
      state == Paused
    }

    /** Getter `isSnoozed`: a snoozed reminder is still active. */
    predicate IsSnoozed()
      reads this
      ensures IsSnoozed() ==> IsActiveState(state)
    {
      state == Snoozed
    }

    /** Getter `timeUntilTrigger`: no delay without a trigger time, otherwise a clamped one that is 0 exactly when due. */
    function TimeUntil(now: real): (r: Option<real>)
      reads this
      ensures r.None? <==> !Truthy(nextTriggerTime)
      ensures r.Some? ==> r.value >= 0.0 && (r.value == 0.0 <==> nextTriggerTime.value <= now)
      ensures r.Some? && nextTriggerTime.value > now ==> r.value == nextTriggerTime.value - now
    {
      TimeUntilTrigger(nextTriggerTime, now)
    }

    /** Method `validate`: valid exactly when the interval is positive and the text is not blank. */
    function Validate(): (r: Validation)
      ensures r.Valid? <==> intervalMinutes > 0.0 && !IsBlank(text)
      ensures intervalMinutes <= 0.0 ==> r == Invalid(IntervalError)
      ensures intervalMinutes > 0.0 && IsBlank(text) ==> r == Invalid(EmptyTextError)
    {
      ValidateFields(intervalMinutes, text)
    }

    method Pause()
      modifies this
      ensures ToJSON() == AfterPause(old(ToJSON()))
    {
      if state == Paused {
        return;
      }
      state := Paused;
      nextTriggerTime := None;
    }

    method Resume(now: real)
      modifies this
      ensures ToJSON() == AfterResume(old(ToJSON()), now)
    {
      if state != Paused {
        return;
      }
      state := Active;
      nextTriggerTime := Some(now + intervalMinutes * MillisPerMinute);
    }

    method Snooze(minutes: real, now: real)
      modifies this
      ensures ToJSON() == AfterSnooze(old(ToJSON()), minutes, now)
    {
      state := Snoozed;
      nextTriggerTime := Some(now + minutes * MillisPerMinute);
    }

    /** `snooze()` with the default argument: five minutes. */
    method SnoozeDefault(now: real)
      modifies this
      ensures ToJSON() == AfterSnooze(old(ToJSON()), DefaultSnoozeMinutes, now)
    {
      Snooze(DefaultSnoozeMinutes, now);
    }

    method Dismiss(now: real)
      modifies this
      ensures ToJSON() == AfterDismiss(old(ToJSON()), now)
    {
      state := Active;
      nextTriggerTime := Some(now + intervalMinutes * MillisPerMinute);
    }

    method Reschedule(now: real)
      modifies this
      ensures ToJSON() == AfterReschedule(old(ToJSON()), now)
    {
      if IsActive() {
        nextTriggerTime := Some(now + intervalMinutes * MillisPerMinute);
      }
    }

    /** Static `fromJSON`: a fresh reminder built from the record. */
    static method FromJSON(d: ReminderData, now: real, generatedId: string) returns (r: Reminder)
      ensures fresh(r)
      ensures r.ToJSON() == Build(InitOf(d), now, generatedId)
    {
      r := new Reminder(InitOf(d), now, generatedId);
    }
  }
}
