/**
 * The orchestration layer of src/ReminderManager.ts. The manager owns a
 * JavaScript `Map<id, Reminder>`, modelled as the keys in insertion order
 * (`order`) beside a Dafny map (`reminders`), and one scheduler. Every
 * operation runs entity transition, then scheduler, then save; `saved` is the
 * list of records the last save wrote. Each operation is specified by a pure
 * function on `ManagerState`, the manager's abstract value, and the
 * properties of the operations are lemmas about those functions.
 */
module ReminderManagement {
  import opened Optional
  import opened ReminderEntity
  import opened ReminderScheduling

  // ---------------------------------------------------------------------
  // Sequences of keys
  // ---------------------------------------------------------------------

  predicate Distinct(s: seq<string>) {
    forall i, j :: 0 <= i < j < |s| ==> s[i] != s[j]
  }

  /** Removing a key (`Map.delete`) keeps the other keys in their order. */
  function Without(s: seq<string>, x: string): (r: seq<string>)
    ensures forall y :: y in r <==> y in s && y != x
    ensures Distinct(s) ==> Distinct(r)
    ensures |r| <= |s|
  {
    if s == [] then []
    else if s[0] == x then Without(s[1..], x)
    else
      var rest := Without(s[1..], x);
      assert Distinct(s) ==> s[0] !in s[1..];
      [s[0]] + rest
  }

  /** The values under `keys`, in the order of `keys` (`Array.from(map.values())`). */
  function Lookup<V>(keys: seq<string>, m: map<string, V>): (r: seq<V>)
    requires forall k :: k in keys ==> k in m
    ensures |r| == |keys|
    ensures forall i :: 0 <= i < |keys| ==> r[i] == m[keys[i]]
  {
    seq(|keys|, i requires 0 <= i < |keys| => m[keys[i]])
  }

  /** Distinct keys that list exactly the members of a set are as many as the set. */
  lemma {:induction false} DistinctKeysCount(order: seq<string>, keys: set<string>)
    requires Distinct(order)
    requires forall k :: k in order <==> k in keys
    ensures |order| == |keys|
  {
    if order != [] {
      var last := order[|order| - 1];
      var rest := order[..|order| - 1];
      assert forall k :: k in rest <==> k in keys - {last} by {
        forall k ensures k in rest <==> k in keys - {last} {
          if k in rest {
            var j :| 0 <= j < |rest| && rest[j] == k;
            assert order[j] == k;
          }
          if k in keys - {last} {
            assert k in order;
            var j :| 0 <= j < |order| && order[j] == k;
            assert j != |order| - 1;
            assert rest[j] == k;
          }
        }
      }
      DistinctKeysCount(rest, keys - {last});
    }
  }

  // ---------------------------------------------------------------------
  // Stored records and the load-time migration
  // ---------------------------------------------------------------------

  /**
   * A record as read back from the persistence slot: the canonical shape, or
   * the legacy one carrying boolean `isActive` / `isSnoozed` flags. A missing
   * field is None; the empty id stands for a missing id.
   */
  datatype StoredRecord = StoredRecord(
    id: string,
    text: string,
    intervalMinutes: real,
    state: Option<ReminderState>,
    isActive: Option<bool>,
    isSnoozed: Option<bool>,
    nextTriggerTime: Option<real>,
    createdAt: Option<real>)

  /** `'isActive' in data || 'isSnoozed' in data`. */
  predicate IsLegacy(s: StoredRecord) {
    s.isActive.Some? || s.isSnoozed.Some?
  }

  /**
   * Lines 160-172: a legacy record gets its state from its flags (snoozed
   * wins, then active, else paused) and a missing creation time defaults to
   * now; a canonical record is used as it is.
   */
  function Migrate(s: StoredRecord, now: real): (init: ReminderInit)
    ensures init.id == s.id && init.text == s.text && init.intervalMinutes == s.intervalMinutes
    ensures init.nextTriggerTime == s.nextTriggerTime
    ensures IsLegacy(s) && s.isSnoozed == Some(true) ==> init.state == Some(Snoozed)
    ensures IsLegacy(s) && s.isSnoozed != Some(true) && s.isActive == Some(true) ==> init.state == Some(Active)
    ensures IsLegacy(s) && s.isSnoozed != Some(true) && s.isActive != Some(true) ==> init.state == Some(Paused)
    ensures IsLegacy(s) ==> init.createdAt == Some(if Truthy(s.createdAt) then s.createdAt.value else now)
    ensures !IsLegacy(s) ==> init.state == s.state && init.createdAt == s.createdAt
  {
    if IsLegacy(s) then
      ReminderInit(
        s.id, s.text, s.intervalMinutes,
        Some(if s.isSnoozed == Some(true) then Snoozed else if s.isActive == Some(true) then Active else Paused),
        s.nextTriggerTime,
        Some(if Truthy(s.createdAt) then s.createdAt.value else now))
    else
      ReminderInit(s.id, s.text, s.intervalMinutes, s.state, s.nextTriggerTime, s.createdAt)
  }

  /**
   * The migration as evidently intended: a record whose `isActive` flag is
   * false stays paused whatever its snooze flag says; every other record
   * migrates as before.
   */
  function MigrateChecked(s: StoredRecord, now: real): (init: ReminderInit)
    ensures s.isActive == Some(false) ==> init.state == Some(Paused)
    ensures s.isActive == Some(false) ==> init == Migrate(s, now).(state := Some(Paused))
    ensures s.isActive != Some(false) ==> init == Migrate(s, now)
  {
    if s.isActive == Some(false) then Migrate(s, now).(state := Some(Paused)) else Migrate(s, now)
  }

  /** The two legacy flag shapes: both flags false, both flags true. */
  lemma LegacyMigrationExamples(s: StoredRecord, now: real, generatedId: string)
    ensures s.isActive == Some(false) && s.isSnoozed == Some(false)
            ==> Build(Migrate(s, now), now, generatedId).state == Paused
    ensures s.isActive == Some(true) && s.isSnoozed == Some(true)
            ==> Build(Migrate(s, now), now, generatedId).state == Snoozed
  {
  }

  /** The overdue test of line 179. */
  predicate Overdue(d: ReminderData, now: real) {
    Truthy(d.nextTriggerTime) && d.nextTriggerTime.value <= now
  }

  /**
   * Lines 178-183: an active (not snoozed) reminder whose trigger time has
   * passed is moved one interval forward; every other reminder is kept, so an
   * overdue snoozed one keeps its time.
   */
  function Reconciled(d: ReminderData, now: real): (r: ReminderData)
    ensures r.state == d.state && SameIdentity(r, d)
    ensures d.state == Active && Overdue(d, now) ==> r.nextTriggerTime == Some(now + d.intervalMinutes * MillisPerMinute)
    ensures !(d.state == Active && Overdue(d, now)) ==> r == d
  {
    if IsActiveState(d.state) && Overdue(d, now) && d.state != Snoozed then AfterReschedule(d, now) else d
  }

  /** The reminder one stored record becomes: migrated, constructed, reconciled. */
  function Loaded(s: StoredRecord, now: real, generatedId: string): ReminderData {
    Reconciled(Build(Migrate(s, now), now, generatedId), now)
  }

  /** The reminder one stored record becomes under the corrected migration. */
  function LoadedChecked(s: StoredRecord, now: real, generatedId: string): ReminderData {
    Reconciled(Build(MigrateChecked(s, now), now, generatedId), now)
  }

  /**
   * After reconciliation only a snoozed reminder (or one with a non-positive
   * interval, which load does not validate) is still due, and an overdue
   * snoozed reminder is indeed fired at once by the scheduler.
   */
  lemma LoadedDecision(s: StoredRecord, now: real, generatedId: string)
    ensures var v := Loaded(s, now, generatedId);
            Decide(v, now).FireNow? ==> v.state == Snoozed || v.intervalMinutes <= 0.0
    ensures var b := Build(Migrate(s, now), now, generatedId);
            b.state == Snoozed && Overdue(b, now) ==> Decide(Loaded(s, now, generatedId), now).FireNow?
    ensures Loaded(s, now, generatedId).state == Paused ==> Decide(Loaded(s, now, generatedId), now).Skip?
  {
  }

  /** The record of a reminder `add` creates, field by field. */
  function Created(text: string, intervalMinutes: real, now: real, generatedId: string): ReminderData {
    ReminderData(generatedId, text, intervalMinutes, Active, Some(now + intervalMinutes * MillisPerMinute), now)
  }

  /**
   * `new Reminder({ text, intervalMinutes })` followed by `reschedule()`
   * (lines 25 and 33) gives that record: a fresh id, active, due one
   * interval from now, created now.
   */
  lemma CreatedByConstructor(text: string, intervalMinutes: real, now: real, generatedId: string)
    ensures AfterReschedule(Build(ReminderInit("", text, intervalMinutes, None, None, None), now, generatedId), now)
            == Created(text, intervalMinutes, now, generatedId)
    ensures Consistent(Created(text, intervalMinutes, now, generatedId))
  {
  }

  // ---------------------------------------------------------------------
  // The manager's abstract value and the operations on it
  // ---------------------------------------------------------------------

  datatype ManagerState = ManagerState(order: seq<string>, values: map<string, ReminderData>, table: TimerTable)

  const Empty: ManagerState := ManagerState([], map[], TimerTable(map[], []))

  /**
   * The bookkeeping every operation keeps: distinct keys in insertion order,
   * each reminder keyed by its own id, and no timer without a reminder (so no
   * timer can outlive a deletion).
   */
  predicate WellKeyed(st: ManagerState) {
    && Distinct(st.order)
    && (forall k :: k in st.order ==> k in st.values)
    && (forall k :: k in st.values ==> k in st.order)
    && (forall k :: k in st.values ==> st.values[k].id == k)
    && st.table.timers.Keys <= st.values.Keys
  }

  /**
   * Every pending timer belongs to an active or snoozed reminder and is due
   * at that reminder's current trigger time: no stale timer, no paused timer.
   */
  predicate TimersAgree(st: ManagerState) {
    forall k :: k in st.table.timers ==>
      k in st.values && IsActiveState(st.values[k].state)
      && st.values[k].nextTriggerTime == Some(st.table.timers[k])
  }

  /** `Map.set`: an existing key keeps its place, a new one goes last. */
  function Put(st: ManagerState, v: ReminderData): ManagerState {
    ManagerState(if v.id in st.values then st.order else st.order + [v.id], st.values[v.id := v], st.table)
  }

  /** `add` once validation passed: insert, then schedule. */
  function AddedState(st: ManagerState, v: ReminderData, now: real): ManagerState {
    Put(st, v).(table := AfterSchedule(st.table, v, now))
  }

  /** The reminder under `v.id` has changed to `v` and is scheduled again. */
  function Rescheduled(st: ManagerState, v: ReminderData, now: real): ManagerState {
    st.(values := st.values[v.id := v], table := AfterSchedule(st.table, v, now))
  }

  /** The reminder under `v.id` has changed to `v` and its timer is cancelled. */
  function Halted(st: ManagerState, v: ReminderData): ManagerState {
    st.(values := st.values[v.id := v], table := AfterCancel(st.table, v.id))
  }

  /** `delete`: cancel the timer, then remove the reminder; the other keys keep their order. */
  function DeletedState(st: ManagerState, id: string): ManagerState {
    ManagerState(Without(st.order, id), st.values - {id}, AfterCancel(st.table, id))
  }

  /** The entity side of `toggle`: paused resumes, anything else pauses. */
  function Toggled(d: ReminderData, now: real): (r: ReminderData)
    ensures r.state == (if d.state == Paused then Active else Paused)
    ensures SameIdentity(r, d)
  {
    if d.state == Paused then AfterResume(d, now) else AfterPause(d)
  }

  /** `toggle`: from paused resume and schedule, otherwise pause and cancel. */
  function ToggledState(st: ManagerState, id: string, now: real): ManagerState
    requires id in st.values
  {
    var v := Toggled(st.values[id], now);
    if st.values[id].state == Paused then Rescheduled(st, v, now) else Halted(st, v)
  }

  /** `snooze(id, minutes)`: entity snooze, then reschedule. */
  function SnoozedState(st: ManagerState, id: string, minutes: real, now: real): ManagerState
    requires id in st.values
  {
    Rescheduled(st, AfterSnooze(st.values[id], minutes, now), now)
  }

  /** `dismiss(id)`: entity dismiss, then reschedule. */
  function DismissedState(st: ManagerState, id: string, now: real): ManagerState
    requires id in st.values
  {
    Rescheduled(st, AfterDismiss(st.values[id], now), now)
  }

  /** `pause(id)`: entity pause, then cancel. */
  function PausedState(st: ManagerState, id: string): ManagerState
    requires id in st.values
  {
    Halted(st, AfterPause(st.values[id]))
  }

  /** One iteration of the load loop: insert the loaded reminder, and schedule it only if it is active. */
  function LoadStep(st: ManagerState, v: ReminderData, now: real): ManagerState {
    if IsActiveState(v.state) then AddedState(st, v, now) else Put(st, v)
  }

  /** The whole load loop, a left fold over the stored records. */
  function LoadAll(st: ManagerState, stored: seq<StoredRecord>, generatedIds: seq<string>, now: real): ManagerState
    requires |generatedIds| == |stored|
    decreases |stored|
  {
    if stored == [] then st
    else
      var n := |stored| - 1;
      LoadStep(LoadAll(st, stored[..n], generatedIds[..n], now), Loaded(stored[n], now, generatedIds[n]), now)
  }

  /** One more record extends the fold by one step. */
  lemma LoadAllStep(st: ManagerState, stored: seq<StoredRecord>, generatedIds: seq<string>, now: real, i: nat)
    requires |generatedIds| == |stored| && i < |stored|
    ensures LoadAll(st, stored[..i + 1], generatedIds[..i + 1], now)
            == LoadStep(LoadAll(st, stored[..i], generatedIds[..i], now), Loaded(stored[i], now, generatedIds[i]), now)
  {
    assert stored[..i + 1][..i] == stored[..i];
    assert generatedIds[..i + 1][..i] == generatedIds[..i];
  }

  /** The ids the stored records end up with. */
  function LoadedIds(stored: seq<StoredRecord>, generatedIds: seq<string>, now: real): (ids: seq<string>)
    requires |generatedIds| == |stored|
    ensures |ids| == |stored|
    ensures forall i :: 0 <= i < |stored| ==> ids[i] == Loaded(stored[i], now, generatedIds[i]).id
  {
    seq(|stored|, i requires 0 <= i < |stored| => Loaded(stored[i], now, generatedIds[i]).id)
  }

  // ---------------------------------------------------------------------
  // Properties of the operations
  // ---------------------------------------------------------------------

  /** Nothing about any id but `id` differs between `a` and `b`: reminder, timer, key. */
  ghost predicate SameElsewhere(a: ManagerState, b: ManagerState, id: string) {
    && (forall k :: k != id ==> (k in a.values <==> k in b.values))
    && (forall k :: k != id && k in a.values ==> b.values[k] == a.values[k])
    && (forall k :: k != id ==> (k in a.table.timers <==> k in b.table.timers))
    && (forall k :: k != id && k in a.table.timers ==> b.table.timers[k] == a.table.timers[k])
  }

  /** Inserting keeps the bookkeeping, and the timers too when the id had no timer. */
  lemma PutKeeps(st: ManagerState, v: ReminderData)
    requires WellKeyed(st)
    ensures WellKeyed(Put(st, v)) && SameElsewhere(st, Put(st, v), v.id)
    ensures TimersAgree(st) && v.id !in st.table.timers ==> TimersAgree(Put(st, v))
  {
  }

  /** Adding keeps both invariants and touches no other reminder. */
  lemma AddKeepsInvariants(st: ManagerState, v: ReminderData, now: real)
    requires WellKeyed(st)
    ensures var r := AddedState(st, v, now);
            && WellKeyed(r) && SameElsewhere(st, r, v.id)
            && (TimersAgree(st) ==> TimersAgree(r))
            && v.id in r.values && r.values[v.id] == v
  {
    PutKeeps(st, v);
  }

  lemma RescheduledKeeps(st: ManagerState, v: ReminderData, now: real)
    requires WellKeyed(st) && v.id in st.values
    ensures var r := Rescheduled(st, v, now);
            WellKeyed(r) && SameElsewhere(st, r, v.id) && (TimersAgree(st) ==> TimersAgree(r))
  {
  }

  lemma HaltedKeeps(st: ManagerState, v: ReminderData)
    requires WellKeyed(st) && v.id in st.values
    ensures var r := Halted(st, v);
            WellKeyed(r) && SameElsewhere(st, r, v.id) && (TimersAgree(st) ==> TimersAgree(r))
  {
  }

  /** Deleting keeps both invariants; the id has neither reminder nor timer afterwards. */
  lemma DeleteKeepsInvariants(st: ManagerState, id: string)
    requires WellKeyed(st)
    ensures var r := DeletedState(st, id);
            && WellKeyed(r) && SameElsewhere(st, r, id)
            && (TimersAgree(st) ==> TimersAgree(r))
            && id !in r.values && id !in r.table.timers && r.table.fired == st.table.fired
  {
  }

  /**
   * Toggling keeps both invariants and flips paused: a paused reminder resumes
   * (and is scheduled), any other is paused with no timer left.
   */
  lemma ToggleKeepsInvariants(st: ManagerState, id: string, now: real)
    requires WellKeyed(st) && id in st.values
    ensures var r := ToggledState(st, id, now);
            && WellKeyed(r) && SameElsewhere(st, r, id)
            && (TimersAgree(st) ==> TimersAgree(r))
            && r.values[id].state == (if st.values[id].state == Paused then Active else Paused)
            && (r.values[id].state == Paused ==> id !in r.table.timers)
            && (st.values[id].state == Paused ==> r.values[id].nextTriggerTime == Some(now + st.values[id].intervalMinutes * MillisPerMinute))
  {
    var v := Toggled(st.values[id], now);
    if st.values[id].state == Paused {
      RescheduledKeeps(st, v, now);
    } else {
      HaltedKeeps(st, v);
    }
  }

  /** Snoozing keeps both invariants; the one timer for the id is the snooze deadline when it lies ahead. */
  lemma SnoozeKeepsInvariants(st: ManagerState, id: string, minutes: real, now: real)
    requires WellKeyed(st) && id in st.values
    ensures var r := SnoozedState(st, id, minutes, now);
            && WellKeyed(r) && SameElsewhere(st, r, id)
            && (TimersAgree(st) ==> TimersAgree(r))
            && r.values[id].state == Snoozed
            && (id in r.table.timers <==> now + minutes * MillisPerMinute > now && now + minutes * MillisPerMinute != 0.0)
            && (id in r.table.timers ==> r.table.timers[id] == now + minutes * MillisPerMinute)
  {
    RescheduledKeeps(st, AfterSnooze(st.values[id], minutes, now), now);
  }

  /** Dismissing keeps both invariants and re-arms the id one interval ahead. */
  lemma DismissKeepsInvariants(st: ManagerState, id: string, now: real)
    requires WellKeyed(st) && id in st.values
    ensures var r := DismissedState(st, id, now);
            && WellKeyed(r) && SameElsewhere(st, r, id)
            && (TimersAgree(st) ==> TimersAgree(r))
            && r.values[id].state == Active
            && r.values[id].nextTriggerTime == Some(now + st.values[id].intervalMinutes * MillisPerMinute)
  {
    RescheduledKeeps(st, AfterDismiss(st.values[id], now), now);
  }

  /** Pausing keeps both invariants and leaves the id without a timer. */
  lemma PauseKeepsInvariants(st: ManagerState, id: string)
    requires WellKeyed(st) && id in st.values
    ensures var r := PausedState(st, id);
            && WellKeyed(r) && SameElsewhere(st, r, id)
            && (TimersAgree(st) ==> TimersAgree(r))
            && r.values[id].state == Paused && id !in r.table.timers
  {
    HaltedKeeps(st, AfterPause(st.values[id]));
  }

  /**
   * Toggling twice from an unpaused state ends active one interval after the
   * second toggle, with a timer at that time exactly when it lies ahead.
   */
  lemma ToggleTwiceEndsActive(st: ManagerState, id: string, t1: real, t2: real)
    requires WellKeyed(st) && id in st.values && st.values[id].state != Paused
    ensures var r := ToggledState(ToggledState(st, id, t1), id, t2);
            && r.values[id].state == Active
            && r.values[id].nextTriggerTime == Some(t2 + st.values[id].intervalMinutes * MillisPerMinute)
            && (id in r.table.timers <==> Decide(r.values[id], t2).Arm?)
            && (id in r.table.timers ==> r.table.timers[id] == t2 + st.values[id].intervalMinutes * MillisPerMinute)
  {
    var once := ToggledState(st, id, t1);
    assert once.values[id].state == Paused;
    assert once.values[id].id == id;
  }

  /**
   * Snoozing and then dismissing before the snooze fires leaves no timer for
   * the snooze deadline: the one timer left for the id is the dismiss deadline.
   */
  lemma SnoozeThenDismissOneTimer(st: ManagerState, id: string, minutes: real, t1: real, t2: real)
    requires WellKeyed(st) && id in st.values
    requires st.values[id].intervalMinutes > 0.0 && t2 >= 0.0
    ensures var r := DismissedState(SnoozedState(st, id, minutes, t1), id, t2);
            id in r.table.timers && r.table.timers[id] == t2 + st.values[id].intervalMinutes * MillisPerMinute
  {
    var s1 := SnoozedState(st, id, minutes, t1);
    assert s1.values[id].id == id;
    assert s1.values[id].intervalMinutes == st.values[id].intervalMinutes;
  }

  /** Pausing and then deleting leaves no timer for the id and keeps every other timer. */
  lemma PauseThenDeleteNoTimer(st: ManagerState, id: string)
    requires WellKeyed(st) && id in st.values
    ensures var r := DeletedState(PausedState(st, id), id);
            r.table.timers == st.table.timers - {id} && id !in r.values
  {
    assert AfterPause(st.values[id]).id == id;
  }

  /** The keys after a load: the keys before, plus the ids of the loaded records. */
  lemma {:induction false} LoadAllKeys(st: ManagerState, stored: seq<StoredRecord>, generatedIds: seq<string>, now: real)
    requires |generatedIds| == |stored|
    ensures forall k :: k in LoadAll(st, stored, generatedIds, now).values
                        <==> k in st.values || k in LoadedIds(stored, generatedIds, now)
  {
    if stored != [] {
      var n := |stored| - 1;
      LoadAllKeys(st, stored[..n], generatedIds[..n], now);
      assert LoadedIds(stored, generatedIds, now) == LoadedIds(stored[..n], generatedIds[..n], now) + [Loaded(stored[n], now, generatedIds[n]).id];
    }
  }

  /** Load keeps the bookkeeping invariant, duplicates included. */
  lemma {:induction false} LoadKeepsWellKeyed(st: ManagerState, stored: seq<StoredRecord>, generatedIds: seq<string>, now: real)
    requires |generatedIds| == |stored| && WellKeyed(st)
    ensures WellKeyed(LoadAll(st, stored, generatedIds, now))
  {
    if stored != [] {
      var n := |stored| - 1;
      LoadKeepsWellKeyed(st, stored[..n], generatedIds[..n], now);
      var before := LoadAll(st, stored[..n], generatedIds[..n], now);
      var v := Loaded(stored[n], now, generatedIds[n]);
      if IsActiveState(v.state) {
        AddKeepsInvariants(before, v, now);
      } else {
        PutKeeps(before, v);
      }
    }
  }

  /**
   * When the loaded ids are distinct and new, load leaves every timer in step
   * with its reminder; in particular no paused reminder is scheduled.
   */
  lemma {:induction false} LoadKeepsTimersAgree(st: ManagerState, stored: seq<StoredRecord>, generatedIds: seq<string>, now: real)
    requires |generatedIds| == |stored| && WellKeyed(st) && TimersAgree(st)
    requires Distinct(LoadedIds(stored, generatedIds, now))
    requires forall k :: k in LoadedIds(stored, generatedIds, now) ==> k !in st.values
    ensures TimersAgree(LoadAll(st, stored, generatedIds, now))
  {
    if stored != [] {
      var n := |stored| - 1;
      var ids := LoadedIds(stored, generatedIds, now);
      var prefix := LoadedIds(stored[..n], generatedIds[..n], now);
      assert prefix == ids[..n];
      assert Distinct(prefix);
      LoadKeepsTimersAgree(st, stored[..n], generatedIds[..n], now);
      LoadKeepsWellKeyed(st, stored[..n], generatedIds[..n], now);
      LoadAllKeys(st, stored[..n], generatedIds[..n], now);
      var before := LoadAll(st, stored[..n], generatedIds[..n], now);
      var v := Loaded(stored[n], now, generatedIds[n]);
      assert v.id == ids[n];
      assert v.id !in prefix;
      assert v.id !in before.values;
      if IsActiveState(v.state) {
        AddKeepsInvariants(before, v, now);
      } else {
        PutKeeps(before, v);
      }
    }
  }

  /**
   * Loading into an empty manager keeps the bookkeeping, and keeps every timer
   * in agreement with its reminder provided the loaded ids are distinct.
   */
  lemma LoadFromEmptyAgrees(stored: seq<StoredRecord>, generatedIds: seq<string>, now: real)
    requires |generatedIds| == |stored|
    requires Distinct(LoadedIds(stored, generatedIds, now))
    ensures WellKeyed(LoadAll(Empty, stored, generatedIds, now))
    ensures TimersAgree(LoadAll(Empty, stored, generatedIds, now))
  {
    LoadKeepsWellKeyed(Empty, stored, generatedIds, now);
    LoadKeepsTimersAgree(Empty, stored, generatedIds, now);
  }

  /**
   * Without distinct ids the agreement fails: a running record armed first and
   * a paused record under the same id loaded after it replace the reminder
   * but leave the first record's timer pending.
   */
  lemma RepeatedIdLeavesStaleTimer()
    ensures var running := StoredRecord("x", "t", 1.0, Some(Active), None, None, Some(60000.0), Some(1.0));
            var paused := StoredRecord("x", "t", 1.0, Some(Paused), None, None, None, Some(1.0));
            var st := LoadAll(Empty, [running, paused], ["a", "b"], 0.0);
            WellKeyed(st) && "x" in st.table.timers && !TimersAgree(st)
  {
    var running := StoredRecord("x", "t", 1.0, Some(Active), None, None, Some(60000.0), Some(1.0));
    var paused := StoredRecord("x", "t", 1.0, Some(Paused), None, None, None, Some(1.0));
    var v1 := Loaded(running, 0.0, "a");
    var v2 := Loaded(paused, 0.0, "b");
    assert v1 == ReminderData("x", "t", 1.0, Active, Some(60000.0), 1.0);
    assert v2 == ReminderData("x", "t", 1.0, Paused, None, 1.0);
    var first := LoadAll(Empty, [running], ["a"], 0.0);
    assert [running, paused][..1] == [running];
    assert ["a", "b"][..1] == ["a"];
    assert [running][..0] == [] && ["a"][..0] == [];
    assert LoadAll(Empty, [running][..0], ["a"][..0], 0.0) == Empty;
    assert first == LoadStep(Empty, v1, 0.0) == AddedState(Empty, v1, 0.0);
    assert Decide(v1, 0.0) == Arm(60000.0);
    assert first.table.timers == map["x" := 60000.0];
    var st := LoadAll(Empty, [running, paused], ["a", "b"], 0.0);
    assert st == Put(first, v2);
    assert st.values["x"].state == Paused;
  }

  // ---------------------------------------------------------------------
  // Statistics
  // ---------------------------------------------------------------------

  datatype Stats = Stats(total: nat, active: nat, paused: nat, snoozed: nat)

  /**
   * `getStats` as written (lines 207-226): every branch of the loop body
   * breaks, so only the first reminder in insertion order is classified.
   */
  function StatsAsWritten(rs: seq<ReminderData>): (s: Stats)
    ensures s.total == |rs|
    ensures s.active + s.paused + s.snoozed == if rs == [] then 0 else 1
    ensures rs != [] ==> (s.paused == 1 <==> rs[0].state == Paused)
    ensures rs != [] ==> (s.snoozed == 1 <==> rs[0].state == Snoozed)
    ensures rs != [] ==> (s.active == 1 <==> rs[0].state == Active)
  {
    if rs == [] then Stats(0, 0, 0, 0)
    else match rs[0].state
      case Paused => Stats(|rs|, 0, 1, 0)
      case Snoozed => Stats(|rs|, 0, 0, 1)
      case Active => Stats(|rs|, 1, 0, 0)
  }

  /** The number of reminders in a given state. */
  function Count(rs: seq<ReminderData>, s: ReminderState): nat {
    if rs == [] then 0
    else Count(rs[..|rs| - 1], s) + (if rs[|rs| - 1].state == s then 1 else 0)
  }

  lemma CountStep(rs: seq<ReminderData>, i: nat)
    requires i < |rs|
    ensures Count(rs[..i + 1], Active) == Count(rs[..i], Active) + (if rs[i].state == Active then 1 else 0)
    ensures Count(rs[..i + 1], Paused) == Count(rs[..i], Paused) + (if rs[i].state == Paused then 1 else 0)
    ensures Count(rs[..i + 1], Snoozed) == Count(rs[..i], Snoozed) + (if rs[i].state == Snoozed then 1 else 0)
  {
    assert rs[..i + 1][..i] == rs[..i];
  }

  /** The intended statistics: one full pass, three independent counters. */
  function FullStats(rs: seq<ReminderData>): Stats {
    Stats(|rs|, Count(rs, Active), Count(rs, Paused), Count(rs, Snoozed))
  }

  /** The three counters of a full pass partition the reminders. */
  lemma {:induction false} FullStatsPartition(rs: seq<ReminderData>)
    ensures FullStats(rs).active + FullStats(rs).paused + FullStats(rs).snoozed == FullStats(rs).total
  {
    if rs != [] {
      FullStatsPartition(rs[..|rs| - 1]);
    }
  }

  /**
   * With two or more reminders the code as written undercounts: its three
   * counters add up to 1, while the reminders number at least 2.
   */
  lemma StatsUndercount(rs: seq<ReminderData>)
    requires |rs| >= 2
    ensures StatsAsWritten(rs).active + StatsAsWritten(rs).paused + StatsAsWritten(rs).snoozed == 1
    ensures FullStats(rs).active + FullStats(rs).paused + FullStats(rs).snoozed == |rs|
    ensures StatsAsWritten(rs) != FullStats(rs)
  {
    FullStatsPartition(rs);
  }

  // ---------------------------------------------------------------------
  // The manager
  // ---------------------------------------------------------------------

  /**
   * The bookkeeping of the JavaScript map: distinct keys in insertion order,
   * the same keys as the map, each reminder under its own id. Ids are
   * constant, so this does not depend on the reminders' mutable state.
   */
  ghost predicate KeyedBy(order: seq<string>, m: map<string, Reminder>) {
    && Distinct(order)
    && (forall k :: k in order ==> k in m)
    && (forall k :: k in m ==> k in order)
    && (forall k :: k in m ==> m[k].id == k)
  }

  lemma PutKeepsKeyed(order: seq<string>, m: map<string, Reminder>, r: Reminder)
    requires KeyedBy(order, m)
    ensures KeyedBy(if r.id in m then order else order + [r.id], m[r.id := r])
  {
  }

  lemma RemoveKeepsKeyed(order: seq<string>, m: map<string, Reminder>, id: string)
    requires KeyedBy(order, m)
    ensures KeyedBy(Without(order, id), m - {id})
  {
  }

  class ReminderManager {
    var order: seq<string>
    var reminders: map<string, Reminder>
    const scheduler: ReminderScheduler
    var saved: seq<ReminderData>

    /** The map's bookkeeping (see `KeyedBy`). */
    ghost predicate Valid()
      reads this`order, this`reminders
    {
      KeyedBy(order, reminders)
    }

    /** The current record of each reminder. */
    function Values(): map<string, ReminderData>
      reads this`reminders, reminders.Values
    {
      map k | k in reminders :: reminders[k].ToJSON()
    }

    ghost function Abstract(): ManagerState
      reads this`order, this`reminders, reminders.Values, scheduler
    {
      ManagerState(order, Values(), scheduler.Table())
    }

    /** The bookkeeping of the object is that of its abstract value, timers aside. */
    lemma ValidIsWellKeyed()
      requires Valid() && scheduler.timers.Keys <= reminders.Keys
      ensures WellKeyed(Abstract())
    {
    }

    /** Every pending timer is in step with its reminder. */
    ghost predicate TimersInSync()
      reads this`order, this`reminders, reminders.Values, scheduler
    {
      TimersAgree(Abstract())
    }

    /** What `save` writes: `getAll().map(r => r.toJSON())`. */
    function Records(): seq<ReminderData>
      reads this`order, this`reminders, reminders.Values
      requires forall k :: k in order ==> k in reminders
    {
      Lookup(order, Values())
    }

    /**
     * The constructor runs `load` on the stored records; `generatedIds` stands
     * for the ids `generateId()` would give records without one.
     */
    constructor (stored: seq<StoredRecord>, generatedIds: seq<string>, now: real)
      requires |generatedIds| == |stored|
      ensures Valid() && fresh(scheduler)
      ensures Abstract() == LoadAll(Empty, stored, generatedIds, now)
      ensures saved == if stored == [] then [] else Records()
      ensures Distinct(LoadedIds(stored, generatedIds, now)) ==> TimersInSync()
    {
      order := [];
      reminders := map[];
      scheduler := new ReminderScheduler();
      saved := [];
      new;
      assert Abstract() == Empty;
      Load(stored, generatedIds, now);
      if Distinct(LoadedIds(stored, generatedIds, now)) {
        LoadFromEmptyAgrees(stored, generatedIds, now);
      }
    }

    /**
     * Method `load`: each stored record is migrated, constructed, inserted,
     * reconciled and, when active, scheduled; a non-empty load ends in a save.
     */
    method Load(stored: seq<StoredRecord>, generatedIds: seq<string>, now: real)
      requires |generatedIds| == |stored|
      requires Valid()
      modifies this, scheduler
      ensures Valid()
      ensures Abstract() == LoadAll(old(Abstract()), stored, generatedIds, now)
      ensures saved == if stored == [] then old(saved) else Records()
    {
      if |stored| == 0 {
        return;
      }
      var i := 0;
      while i < |stored|
        invariant 0 <= i <= |stored|
        invariant Valid()
        invariant Abstract() == LoadAll(old(Abstract()), stored[..i], generatedIds[..i], now)
      {
        LoadAllStep(old(Abstract()), stored, generatedIds, now, i);
        var reminder := Revive(stored[i], generatedIds[i], now);
        LoadRecord(reminder, now);
        i := i + 1;
      }
      assert stored[..i] == stored;
      assert generatedIds[..i] == generatedIds;
      Save();
    }

    /**
     * The body of the load loop once the record is revived: insert the
     * reminder and schedule it when active.
     */
    method LoadRecord(reminder: Reminder, now: real)
      requires Valid() && reminder !in reminders.Values
      modifies this`order, this`reminders, scheduler
      ensures Valid()
      ensures Abstract() == LoadStep(old(Abstract()), reminder.ToJSON(), now)
    {
      Insert(reminder);
      if reminder.IsActive() {
        scheduler.Schedule(reminder, now);
      }
    }

    /** `this.reminders.set(r.id, r)`. */
    method Insert(r: Reminder)
      requires Valid()
      modifies this`order, this`reminders
      ensures Valid() && reminders == old(reminders)[r.id := r]
      ensures Abstract() == Put(old(Abstract()), r.ToJSON())
    {
      PutKeepsKeyed(order, reminders, r);
      if r.id !in reminders {
        order := order + [r.id];
      }
      reminders := reminders[r.id := r];
      RecordPut(r);
    }

    /**
     * The reminder one stored record becomes: migrated, constructed with
     * `fromJSON`, and moved one interval forward when active and overdue
     * (lines 178-183; the reminder is already the object the map holds).
     */
    static method Revive(s: StoredRecord, generatedId: string, now: real) returns (reminder: Reminder)
      ensures fresh(reminder) && reminder.ToJSON() == Loaded(s, now, generatedId)
    {
      var init := Migrate(s, now);
      reminder := new Reminder(init, now, generatedId);
      if reminder.IsActive() {
        if Truthy(reminder.nextTriggerTime) && reminder.nextTriggerTime.value <= now {
          if !reminder.IsSnoozed() {
            reminder.Reschedule(now);
          }
        }
      }
    }

    method Save()
      requires forall k :: k in order ==> k in reminders
      modifies this`saved
      ensures saved == Records()
      ensures Abstract() == old(Abstract())
    {
      saved := Records();
    }

    /** Method `add`. `generatedId` stands for the random id the new reminder draws. */
    method Add(text: string, intervalMinutes: real, now: real, generatedId: string)
      returns (success: bool, error: string, reminder: Reminder?)
      requires Valid()
      modifies this, scheduler
      ensures Valid()
      ensures success <==> ValidateFields(intervalMinutes, text).Valid?
      ensures !success ==> && error == ValidateFields(intervalMinutes, text).error && reminder == null
                           && Abstract() == old(Abstract()) && saved == old(saved)
      ensures success ==> && reminder != null && fresh(reminder)
                          && reminders == old(reminders)[generatedId := reminder]
                          && reminder.ToJSON() == Created(text, intervalMinutes, now, generatedId)
                          && Abstract() == AddedState(old(Abstract()), Created(text, intervalMinutes, now, generatedId), now)
                          && saved == Records()
    {
      var r := new Reminder(ReminderInit("", text, intervalMinutes, None, None, None), now, generatedId);
      CreatedByConstructor(text, intervalMinutes, now, generatedId);
      var validation := r.Validate();
      if validation.Invalid? {
        return false, validation.error, null;
      }
      r.Reschedule(now);
      Install(r, now);
      return true, "", r;
    }

    /** The tail of `add`: insert, schedule, save. */
    method Install(r: Reminder, now: real)
      requires Valid() && r !in reminders.Values
      modifies this, scheduler
      ensures Valid() && reminders == old(reminders)[r.id := r]
      ensures Abstract() == AddedState(old(Abstract()), r.ToJSON(), now)
      ensures saved == Records()
    {
      Insert(r);
      scheduler.Schedule(r, now);
      Save();
    }

    /** Method `get`: the reminder under `id`, if any, and it carries that id. */
    function Get(id: string): (r: Reminder?)
      reads this`order, this`reminders
      requires Valid()
      ensures r != null <==> id in reminders
      ensures r != null ==> r.id == id && r in reminders.Values
    {
      if id in reminders then reminders[id] else null
    }

    /** Method `getAll`: each reminder once, in insertion order, as a snapshot sequence. */
    function GetAll(): (all: seq<Reminder>)
      reads this`order, this`reminders
      requires Valid()
      ensures |all| == |order| == |reminders|
      ensures forall i :: 0 <= i < |all| ==> all[i].id == order[i] && all[i] in reminders.Values
      ensures forall r :: r in reminders.Values ==> r in all
      ensures forall i, j :: 0 <= i < j < |all| ==> all[i] != all[j]
    {
      DistinctKeysCount(order, reminders.Keys);
      var all := Lookup(order, reminders);
      assert forall r :: r in reminders.Values ==> r in all by {
        forall r | r in reminders.Values ensures r in all {
          var k :| k in reminders && reminders[k] == r;
          var j :| 0 <= j < |order| && order[j] == k;
          assert all[j] == r;
        }
      }
      all
    }

    /** Method `delete`: unknown ids fail and change nothing; known ones lose timer and entry. */
    method Delete(id: string) returns (ok: bool)
      requires Valid()
      modifies this, scheduler
      ensures Valid()
      ensures ok <==> id in old(reminders)
      ensures !ok ==> Abstract() == old(Abstract()) && saved == old(saved)
      ensures ok ==> && reminders == old(reminders) - {id}
                     && Abstract() == DeletedState(old(Abstract()), id)
                     && saved == Records()
    {
      if id !in reminders {
        return false;
      }
      ghost var before := Abstract();
      scheduler.Cancel(id);
      RemoveKeepsKeyed(order, reminders, id);
      reminders := reminders - {id};
      order := Without(order, id);
      RecordRemoved(id);
      assert Abstract() == DeletedState(before, id);
      Save();
      return true;
    }

    /** A reminder was put under its id and no other reminder changed. */
    twostate lemma RecordPut(r: Reminder)
      requires reminders == old(reminders)[r.id := r]
      requires forall k :: k in old(reminders) && k != r.id ==> unchanged(reminders[k])
      ensures Values() == old(Values())[r.id := r.ToJSON()]
    {
    }

    /** The reminder under `id` left the map and nothing else changed. */
    twostate lemma RecordRemoved(id: string)
      requires reminders == old(reminders) - {id}
      requires forall k :: k in reminders ==> unchanged(reminders[k])
      ensures Values() == old(Values()) - {id}
    {
    }

    /** The reminder under `id` changed alone: the record map changes at `id` only. */
    twostate lemma OneRecordChanged(id: string)
      requires Valid() && id in reminders && reminders == old(reminders)
      requires forall k :: k in reminders && k != id ==> unchanged(reminders[k])
      ensures Values() == old(Values())[id := reminders[id].ToJSON()]
    {
    }

    /** Method `toggle`. */
    method Toggle(id: string, now: real) returns (ok: bool)
      requires Valid()
      modifies this`saved, scheduler, reminders.Values
      ensures Valid()
      ensures ok <==> id in reminders
      ensures !ok ==> Abstract() == old(Abstract()) && saved == old(saved)
      ensures ok ==> Abstract() == ToggledState(old(Abstract()), id, now) && saved == Records()
    {
      if id !in reminders {
        return false;
      }
      ghost var before := Abstract();
      var r := reminders[id];
      if r.IsPaused() {
        r.Resume(now);
        scheduler.Schedule(r, now);
      } else {
        r.Pause();
        scheduler.Cancel(id);
      }
      OneRecordChanged(id);
      assert Abstract() == ToggledState(before, id, now);
      Save();
      return true;
    }

    /** Method `snooze`. */
    method Snooze(id: string, minutes: real, now: real) returns (ok: bool)
      requires Valid()
      modifies this`saved, scheduler, reminders.Values
      ensures Valid()
      ensures ok <==> id in reminders
      ensures !ok ==> Abstract() == old(Abstract()) && saved == old(saved)
      ensures ok ==> Abstract() == SnoozedState(old(Abstract()), id, minutes, now) && saved == Records()
    {
      if id !in reminders {
        return false;
      }
      ghost var before := Abstract();
      var r := reminders[id];
      r.Snooze(minutes, now);
      scheduler.Reschedule(r, now);
      OneRecordChanged(id);
      assert Abstract() == SnoozedState(before, id, minutes, now);
      Save();
      return true;
    }

    /** `snooze(id)` with the default argument: five minutes. */
    method SnoozeDefault(id: string, now: real) returns (ok: bool)
      requires Valid()
      modifies this`saved, scheduler, reminders.Values
      ensures Valid()
      ensures ok <==> id in reminders
      ensures !ok ==> Abstract() == old(Abstract()) && saved == old(saved)
      ensures ok ==> Abstract() == SnoozedState(old(Abstract()), id, DefaultSnoozeMinutes, now) && saved == Records()
    {
      ok := Snooze(id, DefaultSnoozeMinutes, now);
    }

    /** Method `dismiss`. */
    method Dismiss(id: string, now: real) returns (ok: bool)
      requires Valid()
      modifies this`saved, scheduler, reminders.Values
      ensures Valid()
      ensures ok <==> id in reminders
      ensures !ok ==> Abstract() == old(Abstract()) && saved == old(saved)
      ensures ok ==> Abstract() == DismissedState(old(Abstract()), id, now) && saved == Records()
    {
      if id !in reminders {
        return false;
      }
      ghost var before := Abstract();
      var r := reminders[id];
      r.Dismiss(now);
      scheduler.Reschedule(r, now);
      OneRecordChanged(id);
      assert Abstract() == DismissedState(before, id, now);
      Save();
      return true;
    }

    /** Method `pause`. */
    method Pause(id: string) returns (ok: bool)
      requires Valid()
      modifies this`saved, scheduler, reminders.Values
      ensures Valid()
      ensures ok <==> id in reminders
      ensures !ok ==> Abstract() == old(Abstract()) && saved == old(saved)
      ensures ok ==> Abstract() == PausedState(old(Abstract()), id) && saved == Records()
    {
      if id !in reminders {
        return false;
      }
      ghost var before := Abstract();
      var r := reminders[id];
      r.Pause();
      scheduler.Cancel(id);
      OneRecordChanged(id);
      assert Abstract() == PausedState(before, id);
      Save();
      return true;
    }

    /** Method `getStats`, as written: every branch of the loop body leaves the loop. */
    method GetStats() returns (s: Stats)
      requires Valid()
      ensures s == StatsAsWritten(Records())
      ensures s.total == |reminders|
    {
      DistinctKeysCount(order, reminders.Keys);
      var active, paused, snoozed := 0, 0, 0;
      var i := 0;
      var left := false;
      while i < |order| && !left
        invariant 0 <= i <= |order|
        invariant !left ==> i == 0 && active == 0 && paused == 0 && snoozed == 0
        invariant left ==> i == 1 && Stats(|order|, active, paused, snoozed) == StatsAsWritten(Records())
        decreases |order| - i
      {
        var reminder := reminders[order[i]];
        assert reminder.ToJSON() == Records()[0];
        if reminder.IsPaused() {
          paused := paused + 1;
          left := true;
        } else if reminder.IsSnoozed() {
          snoozed := snoozed + 1;
          left := true;
        } else if reminder.IsActive() {
          active := active + 1;
          left := true;
        }
        i := i + 1;
      }
      s := Stats(|reminders|, active, paused, snoozed);
    }

    /** The intended statistics: every reminder is tallied once. */
    method GetStatsFullPass() returns (s: Stats)
      requires Valid()
      ensures s == FullStats(Records())
      ensures s.active + s.paused + s.snoozed == s.total == |reminders|
    {
      DistinctKeysCount(order, reminders.Keys);
      ghost var records := Records();
      var active, paused, snoozed := 0, 0, 0;
      var i := 0;
      while i < |order|
        invariant 0 <= i <= |order|
        invariant active == Count(records[..i], Active)
        invariant paused == Count(records[..i], Paused)
        invariant snoozed == Count(records[..i], Snoozed)
      {
        CountStep(records, i);
        var reminder := reminders[order[i]];
        assert reminder.ToJSON() == records[i];
        if reminder.IsPaused() {
          paused := paused + 1;
        } else if reminder.IsSnoozed() {
          snoozed := snoozed + 1;
        } else if reminder.IsActive() {
          active := active + 1;
        }
        i := i + 1;
      }
      assert records[..i] == records;
      FullStatsPartition(records);
      s := Stats(|reminders|, active, paused, snoozed);
    }

    /** Method `dispose`: every timer is released. */
    method Dispose()
      requires Valid()
      modifies scheduler
      ensures Valid()
      ensures scheduler.timers == map[] && scheduler.fired == old(scheduler.fired)
    {
      scheduler.Dispose();
    }
  }
}
