# Reminder lifecycle of vscode-reminder, in Dafny

vscode-reminder is a VS Code extension that pops up recurring notifications
("drink water every 30 minutes"). This project models its reminder lifecycle
and proves properties of that model:

- **The reminder entity** (`reminder.dfy`, module `ReminderEntity`). This is
  `src/Reminder.ts`. A reminder has an id, a text, an interval in minutes, a
  state (active, paused or snoozed), a next trigger time and a creation time.
  `Reminder` is a class: its methods update the state and the next trigger
  time in place. Each method is specified by a pure transition function on the
  serialised record `ReminderData` (`AfterPause`, `AfterResume`, ...). The
  constructor's `||` defaults are `Build`. `toJSON` and `fromJSON` form a round
  trip, except for the falsy values the constructor overwrites.
- **The scheduler** (`scheduler.dfy`, module `ReminderScheduling`). This is
  `src/ReminderScheduler.ts`. It keeps at most one pending timer per reminder
  id. A pending timer is represented by its deadline. The trigger callback is a
  log `fired` of the ids it was called with. `Decide` is the decision of
  `schedule`: skip, fire now, or arm at the trigger time.
- **The manager** (`manager.dfy`, module `ReminderManagement`). This is
  `src/ReminderManager.ts`. Reminders live in a map that keeps insertion order
  (`order` plus `reminders`). `saved` is the last array written to storage.
  Loading migrates legacy records (the flat `isActive` / `isSnoozed` format)
  and moves overdue reminders forward. Each method is specified against a pure
  function on the abstract value `ManagerState`. Lemmas prove that every
  operation keeps two invariants:
  - the keys stay well-formed;
  - no timer outlives its reminder or disagrees with its reminder's trigger
    time. For `load` this holds only when the loaded ids are distinct:
    `RepeatedIdLeavesStaleTimer` shows a stored array with a repeated id that
    leaves a stale timer.
- **The legacy sidebar provider** (`view_provider.dfy`, module
  `LegacyViewProvider`). This is the part of `src/RemindersViewProvider.ts`
  that handles reminders: adding, toggling, scheduling, answering a
  notification, cancelling, deleting and loading.
  - Its records are flat objects in an array, and fields are assigned in place.
  - The object a timer or a notification holds is kept as an object
    reference. This matters when that record has been deleted meanwhile.
  - A notification that is shown waits in `shown` until the user answers it, or
    until it times out (`Respond`).
  - The lemma `ManagerLoadsProviderRecords` ties this copy to the newer
    manager. The manager's legacy migration loads a provider record with the
    same scheduling as the provider, unless the record is switched off but
    marked snoozed. A snooze answer to the notification of a reminder that
    was switched off meanwhile leaves exactly such a record. The manager then
    runs it again (third finding below).

Time is a parameter `now` in milliseconds, and numbers are `real`. JavaScript
truthiness of a nullable number (`null` and `0` are falsy) is `Truthy`. The
random ids of `generateId()` and the `Date.now().toString()` id of
`addReminder` are parameters too.

## Model

| member | source | states |
|---|---|---|
| ReminderEntity.TimeUntilTrigger | src/Reminder.ts:71-76 | No trigger time (null or 0) gives null. Otherwise the remaining time is never negative, is zero exactly when the time has come, and equals the difference when it is in the future. |
| ReminderEntity.ValidateFields | src/Reminder.ts:121-130 | Valid exactly when the interval is positive and the text is not blank. The interval error takes precedence over the empty-text error, and each comes with its own message. |
| ReminderEntity.EmptyTextNeverValid | src/Reminder.ts:121-130 | An empty text is never valid, whatever the interval. |
| ReminderEntity.JsonRoundTrip | src/Reminder.ts:26-33 | `fromJSON(toJSON())` gives back the same record when no field is falsy. |
| ReminderEntity.JsonRoundTripCollapses | src/Reminder.ts:26-33 | A trigger time of 0 comes back as null. A creation time of 0 comes back as now. An empty id comes back as a generated one. The state always survives. |
| ReminderEntity.AfterPause | src/Reminder.ts:79-85 | The result is paused and keeps its identity. Pausing a paused reminder changes nothing. Otherwise the trigger time is cleared. |
| ReminderEntity.AfterResume | src/Reminder.ts:87-93 | Only a paused reminder changes. It becomes active, due one interval from now. |
| ReminderEntity.AfterSnooze | src/Reminder.ts:95-98 | The result is snoozed and due the given minutes from now, from any state. |
| ReminderEntity.AfterDismiss | src/Reminder.ts:100-104 | The result is active and due one interval from now, from any state. |
| ReminderEntity.AfterReschedule | src/Reminder.ts:106-111 | An active or snoozed reminder is due one interval from now. A paused one is unchanged. The state is kept. |
| ReminderEntity.PauseIdempotent | src/Reminder.ts:79-85 | Pausing twice is pausing once. |
| ReminderEntity.TransitionsKeepConsistency | src/Reminder.ts:79-111 | Every transition keeps the rule that a paused reminder has no trigger time and a running one has one. Snooze and dismiss establish that rule from any state. |
| ReminderEntity.Reminder.constructor | src/Reminder.ts:26-33 | The new object's record is `Build` of the argument. |
| ReminderEntity.Reminder.Pause | src/Reminder.ts:79-85 | The object's record becomes `AfterPause` of the old one. |
| ReminderEntity.Reminder.Resume | src/Reminder.ts:87-93 | The object's record becomes `AfterResume` of the old one. |
| ReminderEntity.Reminder.Snooze | src/Reminder.ts:95-98 | The object's record becomes `AfterSnooze` of the old one. |
| ReminderEntity.Reminder.Dismiss | src/Reminder.ts:100-104 | The object's record becomes `AfterDismiss` of the old one. |
| ReminderEntity.Reminder.Reschedule | src/Reminder.ts:106-111 | The object's record becomes `AfterReschedule` of the old one. |
| ReminderEntity.Reminder.SnoozeDefault | src/Reminder.ts:95-98 | `snooze()` without an argument snoozes for 5 minutes. |
| ReminderEntity.Reminder.ToJSON | src/Reminder.ts:133-142 | The record carries every current field unchanged, so `fromJSON` can rebuild the object. |
| ReminderEntity.Reminder.IsActive | src/Reminder.ts:59-61 | Active exactly when not paused. A snoozed reminder counts as active. |
| ReminderEntity.Reminder.IsPaused | src/Reminder.ts:63-65 | Paused exactly when the state is not a running one. |
| ReminderEntity.Reminder.IsSnoozed | src/Reminder.ts:67-69 | A snoozed reminder is in a running state. |
| ReminderEntity.Reminder.TimeUntil | src/Reminder.ts:71-76 | No delay without a (truthy) trigger time. Otherwise the delay is never negative, is 0 exactly when the time has come, and is the difference when the time is in the future. |
| ReminderEntity.Reminder.Validate | src/Reminder.ts:121-130 | Valid exactly when the interval is positive and the text is not blank. The interval message wins when both checks fail. |
| ReminderEntity.Reminder.FromJSON | src/Reminder.ts:144-146 | A fresh object whose record is `Build` of the given record. |
| ReminderScheduling.Decide | src/ReminderScheduler.ts:19-41 | Skip exactly for a paused reminder or one without a trigger time. Fire now exactly for a running reminder whose time has come. Otherwise arm a timer at its trigger time, which lies in the future. |
| ReminderScheduling.AfterCancel | src/ReminderScheduler.ts:46-53 | The id has no timer afterwards. No other timer changes, and nothing fires. |
| ReminderScheduling.AfterTrigger | src/ReminderScheduler.ts:80-90 | The id's timer is removed and the callback runs once for it. No other timer changes. |
| ReminderScheduling.AfterSchedule | src/ReminderScheduler.ts:15-43 | The id has a timer exactly when `Decide` arms it, and then at the trigger time. The callback runs once exactly when `Decide` fires now. Every other id's timer is unchanged. |
| ReminderScheduling.ScheduleTwiceOneTimer | src/ReminderScheduler.ts:15-43 | Scheduling twice leaves the timers of scheduling once: there is at most one timer per reminder. |
| ReminderScheduling.ScheduleAfterCancel | src/ReminderScheduler.ts:65-68 | Cancelling before scheduling, as `reschedule` does, changes nothing. |
| ReminderScheduling.ScheduleCount | src/ReminderScheduler.ts:15-43 | `schedule` changes the number of timers by one at most: it removes the old timer and adds one only when it arms. |
| ReminderScheduling.ReminderScheduler.constructor | src/ReminderScheduler.ts:7-12 | No timers, nothing fired. |
| ReminderScheduling.ReminderScheduler.CountZeroIffNoneScheduled | src/ReminderScheduler.ts:71-78 | `activeTimerCount` is zero exactly when no id is scheduled. |
| ReminderScheduling.ReminderScheduler.IsScheduled | src/ReminderScheduler.ts:76-78 | A scheduled id has a timer, so the count of active timers is positive. |
| ReminderScheduling.ReminderScheduler.Schedule | src/ReminderScheduler.ts:15-43 | The table becomes `AfterSchedule` of the old one. |
| ReminderScheduling.ReminderScheduler.Cancel | src/ReminderScheduler.ts:46-53 | The table becomes `AfterCancel` of the old one. |
| ReminderScheduling.ReminderScheduler.CancelAll | src/ReminderScheduler.ts:56-62 | The loop over the timers leaves none, and nothing fires. |
| ReminderScheduling.ReminderScheduler.Reschedule | src/ReminderScheduler.ts:65-68 | The same table as a single `schedule`. |
| ReminderScheduling.ReminderScheduler.TriggerImmediately | src/ReminderScheduler.ts:80-90 | The table becomes `AfterTrigger` of the old one. |
| ReminderScheduling.ReminderScheduler.TimerElapsed | src/ReminderScheduler.ts:37-39 | A pending timer that elapses triggers its reminder, as `triggerImmediately` does. |
| ReminderScheduling.ReminderScheduler.Dispose | src/ReminderScheduler.ts:93-95 | All timers are gone. |
| ReminderManagement.Migrate | src/ReminderManager.ts:160-172 | A legacy record gets snoozed if flagged snoozed, else active if flagged active, else paused. A missing creation time defaults to now. A new-format record is passed through unchanged. |
| ReminderManagement.MigrateChecked | src/ReminderManager.ts:165-166 | Corrected migration: a record whose `isActive` flag is false loads paused, whatever its snooze flag. Every other record migrates as before. |
| ReminderManagement.LegacyMigrationExamples | src/ReminderManager.ts:160-172 | A legacy record with both flags false loads paused. One with both flags true loads snoozed. |
| ReminderManagement.Reconciled | src/ReminderManager.ts:177-183 | An active (not snoozed) reminder that is overdue is moved one interval from now. Every other reminder, including an overdue snoozed one, is kept. |
| ReminderManagement.LoadedDecision | src/ReminderManager.ts:174-185 | After loading, a reminder due immediately is snoozed, or has a non-positive interval. An overdue snoozed reminder fires at once. A paused reminder is never scheduled. |
| ReminderManagement.CreatedByConstructor | src/ReminderManager.ts:25-33 | The reminder `add` builds is active, due one interval from now, created now, with a generated id and a consistent state. |
| ReminderManagement.Toggled | src/ReminderManager.ts:68-85 | The state goes from paused to active and from any other state to paused. The identity is kept. |
| ReminderManagement.LoadAllStep | src/ReminderManager.ts:155-189 | Loading one more record is one more step of the fold. |
| ReminderManagement.PutKeeps | src/ReminderManager.ts:35 | `Map.set` keeps the keys well-formed and changes nothing under other keys. Timers still agree with reminders when the key had no timer. |
| ReminderManagement.AddKeepsInvariants | src/ReminderManager.ts:35-37 | Adding keeps both invariants. The new reminder has a timer exactly when it is armed. |
| ReminderManagement.RescheduledKeeps | src/ReminderManager.ts:68-113 | Replacing a record and rescheduling it keeps both invariants. |
| ReminderManagement.HaltedKeeps | src/ReminderManager.ts:68-127 | Replacing a record and cancelling its timer keeps both invariants. |
| ReminderManagement.DeleteKeepsInvariants | src/ReminderManager.ts:54-65 | Deleting keeps both invariants. It leaves no timer and no key for the id, and every other reminder is untouched. |
| ReminderManagement.ToggleKeepsInvariants | src/ReminderManager.ts:68-85 | Toggling keeps both invariants. A paused reminder resumes due one interval from now. An active one pauses and loses its timer. |
| ReminderManagement.SnoozeKeepsInvariants | src/ReminderManager.ts:88-99 | Snoozing keeps both invariants. The reminder is snoozed, with a timer exactly when the snooze time is in the future. |
| ReminderManagement.DismissKeepsInvariants | src/ReminderManager.ts:102-113 | Dismissing keeps both invariants. The reminder is active again, due one interval from now. |
| ReminderManagement.PauseKeepsInvariants | src/ReminderManager.ts:116-127 | Pausing keeps both invariants. The reminder is paused and has no timer. |
| ReminderManagement.ToggleTwiceEndsActive | src/ReminderManager.ts:68-85 | Toggling a running reminder twice makes it active again, due one interval after the second toggle. It has a timer exactly when `Decide` arms it, at that time. |
| ReminderManagement.SnoozeThenDismissOneTimer | src/ReminderManager.ts:88-113 | Snooze followed by dismiss leaves exactly one timer for the reminder, one interval out. |
| ReminderManagement.PauseThenDeleteNoTimer | src/ReminderManager.ts:54-65 | Pause followed by delete leaves no key for the id. The timers are the old ones without that id. |
| ReminderManagement.LoadAllKeys | src/ReminderManager.ts:155-189 | After loading, the keys are the old keys plus the loaded ids. |
| ReminderManagement.LoadKeepsWellKeyed | src/ReminderManager.ts:155-189 | Loading keeps the keys well-formed, including when ids repeat. |
| ReminderManagement.LoadKeepsTimersAgree | src/ReminderManager.ts:174-185 | Loading records with distinct new ids leaves every timer in step with its reminder. |
| ReminderManagement.LoadFromEmptyAgrees | src/ReminderManager.ts:145-193 | Loading into an empty manager keeps the keys well-formed. When the loaded ids are distinct, every timer is also in step with its reminder. |
| ReminderManagement.RepeatedIdLeavesStaleTimer | src/ReminderManager.ts:174-185 | Without distinct ids the agreement fails. A running record armed first and a paused record with the same id loaded after it leave the first record's timer pending on a paused reminder. |
| ReminderManagement.StatsAsWritten | src/ReminderManager.ts:207-226 | As written, `total` is the number of reminders, and at most one reminder is tallied: the first one, under its state. |
| ReminderManagement.CountStep | src/ReminderManager.ts:212-223 | One more reminder adds one to exactly the counter of its state. |
| ReminderManagement.FullStatsPartition | src/ReminderManager.ts:207-226 | In a full pass, the active, paused and snoozed counts add up to the total. |
| ReminderManagement.StatsUndercount | src/ReminderManager.ts:212-223 | With two or more reminders, the statistics as written differ from the full tally. |
| ReminderManagement.PutKeepsKeyed | src/ReminderManager.ts:35 | Putting a reminder under its own id keeps the object map keyed by ids in insertion order. |
| ReminderManagement.RemoveKeepsKeyed | src/ReminderManager.ts:61 | Removing an id keeps the object map keyed by ids in insertion order. |
| ReminderManagement.ReminderManager.ValidIsWellKeyed | src/ReminderManager.ts:8-9 | The object's bookkeeping is that of its abstract value. |
| ReminderManagement.ReminderManager.constructor | src/ReminderManager.ts:12-21 | The manager holds exactly what `load` folds from the stored records. It saves only if something was stored. Timers agree with reminders when the loaded ids are distinct. |
| ReminderManagement.ReminderManager.Load | src/ReminderManager.ts:145-193 | An empty store returns early without saving. Otherwise the loop's result is the fold `LoadAll` over the records, and the result is saved. |
| ReminderManagement.ReminderManager.LoadRecord | src/ReminderManager.ts:175-185 | The record is put into the map, and scheduled only if it is running. |
| ReminderManagement.ReminderManager.Insert | src/ReminderManager.ts:35 | `Map.set` on the object map and on the abstract value. |
| ReminderManagement.ReminderManager.Revive | src/ReminderManager.ts:158-183 | A fresh reminder with the migrated, constructed and reconciled record. |
| ReminderManagement.ReminderManager.Save | src/ReminderManager.ts:138-142 | The saved array is every record in insertion order. The abstract value is unchanged. |
| ReminderManagement.ReminderManager.Add | src/ReminderManager.ts:24-41 | It succeeds exactly when validation passes. On failure it returns the validation error, and nothing changes or is saved. On success a fresh reminder, active and due one interval out, is added and scheduled, and the records are saved. |
| ReminderManagement.ReminderManager.Install | src/ReminderManager.ts:35-37 | Set, schedule and save, as `AddedState`. |
| ReminderManagement.ReminderManager.Get | src/ReminderManager.ts:44-46 | The result is the reminder under that id, or nothing. |
| ReminderManagement.ReminderManager.GetAll | src/ReminderManager.ts:49-51 | Every reminder, each once, in insertion order. |
| ReminderManagement.ReminderManager.Delete | src/ReminderManager.ts:54-65 | An unknown id fails and changes nothing. A known id loses its timer and its entry, and the records are saved. |
| ReminderManagement.ReminderManager.RecordPut | src/ReminderManager.ts:35 | The record map changes at the new key only. |
| ReminderManagement.ReminderManager.RecordRemoved | src/ReminderManager.ts:61 | The record map loses exactly that key. |
| ReminderManagement.ReminderManager.OneRecordChanged | src/ReminderManager.ts:68-127 | After an in-place update of one reminder, the record map changes at that key only. |
| ReminderManagement.ReminderManager.Toggle | src/ReminderManager.ts:68-85 | An unknown id fails and changes nothing. Otherwise the state is `ToggledState`: resume and schedule, or pause and cancel. The records are saved. |
| ReminderManagement.ReminderManager.Snooze | src/ReminderManager.ts:88-99 | An unknown id fails and changes nothing. Otherwise snooze and reschedule, then save. |
| ReminderManagement.ReminderManager.SnoozeDefault | src/ReminderManager.ts:88-99 | `snooze(id)` without minutes snoozes for 5 minutes. Otherwise it behaves as `Snooze`. |
| ReminderManagement.ReminderManager.Dismiss | src/ReminderManager.ts:102-113 | An unknown id fails and changes nothing. Otherwise dismiss and reschedule, then save. |
| ReminderManagement.ReminderManager.Pause | src/ReminderManager.ts:116-127 | An unknown id fails and changes nothing. Otherwise pause and cancel, then save. |
| ReminderManagement.ReminderManager.GetStats | src/ReminderManager.ts:207-226 | The loop as written computes `StatsAsWritten`. The total is the number of reminders. |
| ReminderManagement.ReminderManager.GetStatsFullPass | src/ReminderManager.ts:207-226 | The corrected loop tallies every reminder once, so the counts add up to the total. |
| ReminderManagement.ReminderManager.Dispose | src/ReminderManager.ts:229-232 | All timers are released. |
| LegacyViewProvider.LegacyReminder.constructor | src/RemindersViewProvider.ts:4-11 | The object holds the given record. |
| LegacyViewProvider.Toggled | src/RemindersViewProvider.ts:91-101 | `isActive` flips. Switching on makes the record due one interval from now. Switching off clears the time and the snooze. |
| LegacyViewProvider.Answered | src/RemindersViewProvider.ts:231-252 | Snooze marks the record snoozed and due in 5 minutes, leaving `isActive` alone. Pause switches the record off and clears the snooze and the time. Dismiss and no answer clear the snooze and make it due one interval from now. |
| LegacyViewProvider.DismissSameAsNoResponse | src/RemindersViewProvider.ts:242-252 | Dismissing and timing out leave identical records. |
| LegacyViewProvider.LoadFix | src/RemindersViewProvider.ts:296-303 | Only a scheduled (active, with a time), overdue, non-snoozed record is moved one interval from now. Every other record is kept. |
| LegacyViewProvider.FindFirst | src/RemindersViewProvider.ts:86 | The first record with the id, or none when no record has it. |
| LegacyViewProvider.FilterOut | src/RemindersViewProvider.ts:268 | The kept records are exactly those with a different id. |
| LegacyViewProvider.FilterOutConcat | src/RemindersViewProvider.ts:268 | Filtering distributes over concatenation, so the kept records keep their order. |
| LegacyViewProvider.FindMissIffFilterKeeps | src/RemindersViewProvider.ts:86-89 | `find` misses exactly when `filter` keeps the whole array. |
| LegacyViewProvider.FilterOutDistinct | src/RemindersViewProvider.ts:268 | Filtering keeps record objects distinct. |
| LegacyViewProvider.ProviderDecide | src/RemindersViewProvider.ts:106-140 | No timer exactly when there is no (truthy) time. Shown at once exactly when the time has come. Otherwise armed at the time, which lies in the future. `isActive` plays no part. |
| LegacyViewProvider.ProviderAgreesWithScheduler | src/RemindersViewProvider.ts:106-140 | For a running reminder, the provider decides as `ReminderScheduler.schedule` does. |
| LegacyViewProvider.CancelTimer | src/RemindersViewProvider.ts:258-264 | The id has no timer afterwards. Nothing else changes. |
| LegacyViewProvider.AfterScheduleFor | src/RemindersViewProvider.ts:106-140 | The id has a timer exactly when `ProviderDecide` arms it: one live timer holding this record, at its time. The notification opens exactly when the time has come. Other ids' timers are unchanged. |
| LegacyViewProvider.ScheduleTwiceOneTimer | src/RemindersViewProvider.ts:106-140 | Scheduling twice leaves the timers of scheduling once. |
| LegacyViewProvider.AddedArmsOneTimer | src/RemindersViewProvider.ts:62-83 | A new reminder with a positive interval gets a timer one interval out and opens no notification. |
| LegacyViewProvider.ToggleTimers | src/RemindersViewProvider.ts:93-101 | Switching off leaves no timer. Switching on, with a positive interval, leaves one timer one interval out. |
| LegacyViewProvider.ScheduleKeepsNoStray | src/RemindersViewProvider.ts:106-140 | Scheduling a listed record keeps every timer's record listed under its own id. |
| LegacyViewProvider.AddKeepsNoStray | src/RemindersViewProvider.ts:62-83 | Appending a record and scheduling it keeps every timer's record listed. |
| LegacyViewProvider.ToggleKeepsNoStray | src/RemindersViewProvider.ts:85-104 | Toggling a listed record keeps every timer's record listed. |
| LegacyViewProvider.DeleteKeepsNoStray | src/RemindersViewProvider.ts:266-271 | Cancelling, then filtering out the id, keeps every timer's record listed. |
| LegacyViewProvider.ElapseKeepsNoStray | src/RemindersViewProvider.ts:131-136 | A timer elapsing keeps every timer's record listed. |
| LegacyViewProvider.LoadClockNoStray | src/RemindersViewProvider.ts:295-306 | Loading leaves only timers of loaded records. |
| LegacyViewProvider.LoadDecision | src/RemindersViewProvider.ts:296-305 | On load, an overdue snoozed record is shown at once. An overdue active record with a positive interval is armed one interval out. |
| LegacyViewProvider.ManagerLoadsProviderRecords | src/ReminderManager.ts:160-185 | A provider record loaded by the newer manager gets the same running flag and the same scheduling as in the provider's own load, provided it is not both switched off and marked snoozed. |
| LegacyViewProvider.SwitchedOffSnoozeRunsAfterUpgrade | src/ReminderManager.ts:165-166 | As written, the record a snooze answer leaves on a switched-off reminder is not scheduled by the provider's load. The manager loads it snoozed and arms or fires it. |
| LegacyViewProvider.CheckedMigrationAgreesWithProvider | src/ReminderManager.ts:160-185 | With the corrected migration, every provider record, whatever its flags, loads with the provider's running flag and the provider's scheduling. |
| LegacyViewProvider.LateAnswerLeavesStrayTimer | src/RemindersViewProvider.ts:231-252 | As written, an answer other than pause to the notification of a deleted reminder arms a timer for a record that is no longer listed. |
| LegacyViewProvider.PausedAnswerArmsTimer | src/RemindersViewProvider.ts:231-252 | As written, an answer other than pause to the notification of a reminder switched off meanwhile arms a timer while the reminder stays off. |
| LegacyViewProvider.CheckedAnswerKeepsNoStray | src/RemindersViewProvider.ts:231-252 | With the check on the answer, no timer is left for an unlisted record. |
| LegacyViewProvider.CheckedAnswerArmsOnlyActive | src/RemindersViewProvider.ts:231-252 | With the check on the answer, a reminder that is off gets no timer. |
| LegacyViewProvider.RemindersViewProvider.constructor | src/RemindersViewProvider.ts:19-24 | Loads the stored array (or an empty one). Every record is reconciled by `LoadFix`. The timers are the load fold, and none is stray. The stored array is not written back. |
| LegacyViewProvider.RemindersViewProvider.LoadReminders | src/RemindersViewProvider.ts:289-307 | The loop reconciles every record and schedules exactly the active ones with a time, in array order. |
| LegacyViewProvider.RemindersViewProvider.LoadOne | src/RemindersViewProvider.ts:295-306 | One pass of the loop: reconcile, then schedule only if scheduled on load. |
| LegacyViewProvider.RemindersViewProvider.ScheduleReminder | src/RemindersViewProvider.ts:106-140 | The timers become `AfterScheduleFor` with the record's current time. |
| LegacyViewProvider.RemindersViewProvider.CancelReminder | src/RemindersViewProvider.ts:258-264 | The timers become `CancelTimer`. |
| LegacyViewProvider.RemindersViewProvider.SaveReminders | src/RemindersViewProvider.ts:285-287 | The saved array is the current records. |
| LegacyViewProvider.RemindersViewProvider.AddReminder | src/RemindersViewProvider.ts:62-83 | A non-positive interval changes nothing and saves nothing. The text is not checked. Otherwise a fresh record is appended and scheduled, and the records are saved. No stray timer appears. |
| LegacyViewProvider.RemindersViewProvider.AppendRecord | src/RemindersViewProvider.ts:79-80 | The record is pushed at the end and scheduled with its own time. The objects stay distinct, and no stray timer appears. |
| LegacyViewProvider.RemindersViewProvider.ToggleRecord | src/RemindersViewProvider.ts:91-101 | The record becomes `Toggled`. On: scheduled. Off: cancelled. |
| LegacyViewProvider.RemindersViewProvider.RecordChanged | src/RemindersViewProvider.ts:91-101 | An in-place update of one record changes the records at its index only. |
| LegacyViewProvider.RemindersViewProvider.ToggleReminder | src/RemindersViewProvider.ts:85-104 | An unknown id changes nothing and saves nothing. Otherwise only the first record with the id is toggled, its timer follows, and the records are saved. No stray timer appears. |
| LegacyViewProvider.RemindersViewProvider.DeleteReminder | src/RemindersViewProvider.ts:266-271 | The timer is cancelled and every record with the id is filtered out. The records are saved. No stray timer appears. |
| LegacyViewProvider.RemindersViewProvider.TimerElapsed | src/RemindersViewProvider.ts:131-134 | The timer runs `triggerReminder` on the record it holds. Its map entry stays. No stray timer appears. |
| LegacyViewProvider.RemindersViewProvider.Respond | src/RemindersViewProvider.ts:231-255 | The answered object becomes `Answered`. Its timer is cancelled (pause) or rescheduled (other answers). The records are saved. |
| LegacyViewProvider.RemindersViewProvider.RespondChecked | src/RemindersViewProvider.ts:231-255 | Corrected answer. A record that is gone or switched off is left alone and gets no timer, and no stray timer appears. |

## Left out

- Listeners: `onChange`, `notifyChange` and `vscode.Disposable` are callback plumbing with no reminder state.
- The webview and its plumbing are UI and I/O: `resolveWebviewView`, `_getHtmlForWebview`, `updateWebview`, `postMessage`, `getNonce` (random) and `media/script.js`.
- `src/extension.ts` is not part of this model; it only wires the provider up.
- The commented-out notification code at `src/RemindersViewProvider.ts:142-197` is dead code.
- Storage through `globalState` is modelled only as the `saved` field, the last array written.
- Notifications and timing are not modelled:
  - `showInformationMessage` and its 10-second `Promise.race` become an `Action` input to `Respond`.
  - `setTimeout` elapsing is a separate event, `TimerElapsed`.
  - `async` interleaving is left out.
- Host-function results are parameters: `Date.now()`, `generateId()` and the id `addReminder` takes from the clock.
- The `try`/`catch` around each stored record in `load` and around the trigger callback is left out. Corrupt stored data and throwing callbacks are not modelled.
- Console logging and `showErrorMessage` are left out.
- Numbers are `real`: NaN, infinities and floating-point rounding are left out.
- ReminderScheduling.ReminderScheduler.Schedule: its contract gives the resulting table, not the timer count. The count is stated on the table by `ScheduleCount`.
- ReminderManagement.ReminderManager: the well-keyed and timers-agree invariants are proved on the abstract value `ManagerState`, lemma by lemma. The class invariant `Valid` carries only the key bookkeeping.
- ReminderManagement.LoadFromEmptyAgrees: the timer agreement is promised only for stored arrays whose loaded ids are distinct. `RepeatedIdLeavesStaleTimer` shows that a repeated id can leave a stale timer.
- LegacyViewProvider.ManagerLoadsProviderRecords: the agreement is promised only for records that are not both switched off and marked snoozed. `SwitchedOffSnoozeRunsAfterUpgrade` shows the exception, and `CheckedMigrationAgreesWithProvider` covers every record under the corrected migration.
- LegacyViewProvider.RemindersViewProvider.constructor: it requires the deserialised records to be distinct objects, as a fresh deserialised array is.

## Findings

| source | as written | input that shows it | evidently intended | confidence | as-written member | corrected member |
|---|---|---|---|---|---|---|
| src/ReminderManager.ts:212-223 | Every branch of the loop in `getStats` ends in `break`, so only the first reminder is tallied. | Two active reminders: `active` is 1 while `total` is 2. | Tally every reminder, so that `active + paused + snoozed == total`. | not executed | ReminderManagement.ReminderManager.GetStats, ReminderManagement.StatsUndercount | ReminderManagement.ReminderManager.GetStatsFullPass, ReminderManagement.FullStatsPartition |
| src/RemindersViewProvider.ts:231-252 | The answer to a notification is applied to the record the notification holds, even if the record was deleted or switched off while the notification was open. The record is then rescheduled. | Open a reminder's notification, delete the reminder, then answer "Dismiss" or let it time out: a timer is armed for a record that is no longer listed. If the reminder is switched off instead, it gets a timer while it stays off. | An answer to a stale notification only closes it. | not executed | LegacyViewProvider.RemindersViewProvider.Respond, LegacyViewProvider.LateAnswerLeavesStrayTimer, LegacyViewProvider.PausedAnswerArmsTimer | LegacyViewProvider.RemindersViewProvider.RespondChecked, LegacyViewProvider.CheckedAnswerKeepsNoStray, LegacyViewProvider.CheckedAnswerArmsOnlyActive |
| src/ReminderManager.ts:165-166 | The legacy migration lets the snoozed flag win over `isActive`, so a switched-off record marked snoozed loads as snoozed and is scheduled. | In the sidebar provider, open a reminder's notification, switch the reminder off, then answer "Snooze": the saved record is `{isActive: false, isSnoozed: true}`. The provider's load skips it, but the manager schedules it: after the upgrade, a reminder the user switched off starts firing again. | A record that is switched off loads paused. | not executed | ReminderManagement.Migrate, LegacyViewProvider.ManagerLoadsProviderRecords, LegacyViewProvider.SwitchedOffSnoozeRunsAfterUpgrade | ReminderManagement.MigrateChecked, LegacyViewProvider.CheckedMigrationAgreesWithProvider |
