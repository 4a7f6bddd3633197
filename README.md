# BMW ConnectedDrive binding: status, charge profile and channel bookkeeping in Dafny

This project models the core logic of the openHAB BMW ConnectedDrive binding:

- **Status normaliser** (`vehicle_status.dfy`, module `Status`). The vendor's
  status record becomes:
  - the aggregate door or window state (`checkClosed`);
  - the next service entry;
  - the next service date and the next service mileage;
  - the check-control summary;
  - the last update time.
- **Charge-profile editor** (`charge_profile.dfy`, module `ChargeProfiles`).
  `ChargeProfileWrapper` is a class:
  - it detects the profile variant (WEEKLY, TWO_TIMES or EMPTY);
  - it caches the parsed hours and minutes of the "HH:MM" strings at
    construction;
  - it edits the planner in place: departure and window times, weekday
    lists, timer enable flags, climatisation, charging mode and preferences.

  The planner of the WEEKLY and TWO_TIMES variants is the object inside the
  profile, so edits reach the profile. The EMPTY variant gets a detached new
  planner. The model states this for every edit through `Publish`.
- **Channel handler** (`vehicle_channel_handler.dfy`, module `ChannelHandler`):
  - the drive-train flags derived from the vehicle type;
  - the table from charge-timer day channels to weekday names;
  - the three list cursors (services, check-control messages, destinations),
    each with the view it publishes;
  - the charging-status display rule.
- **Image retry bookkeeping** (`image_properties.dfy`, module `Images`): the
  fail counter with its retry limit, `isSame` and `toString`.

The supporting modules are:
- `java_text.dfy` (module `JavaText`): Java `int` with wrap-around, and the
  library functions the code relies on. These are `Integer.toString`,
  `Integer.parseInt`, `String.format("%02d")`, `String.split` on one
  character, and `equalsIgnoreCase` restricted to ASCII.
- `constants.dfy` (module `Constants`): the string constants.
- `wrappers.dfy` (module `Wrappers`): `Option`, which stands for a Java
  reference that may be null.

Every Java `int` is the subset type `Int32`. Increments wrap explicitly (`Inc32`).

## Model

Source paths are relative to
`bundles/org.openhab.binding.bmwconnecteddrive/src/main/java/org/openhab/binding/bmwconnecteddrive/internal/`
and are written out in full below.

| member | source | states |
|---|---|---|
| Status.Aggregate | bundles/org.openhab.binding.bmwconnecteddrive/src/main/java/org/openhab/binding/bmwconnecteddrive/internal/dto/status/VehicleStatus.java:208-241 | The aggregate is UNKNOWN exactly when every field is null, INVALID or unrecognised. |
| Status.CheckClosed | bundles/org.openhab.binding.bmwconnecteddrive/src/main/java/org/openhab/binding/bmwconnecteddrive/internal/dto/status/VehicleStatus.java:208-241 | The loop, with its early break on OPEN, returns the aggregate: an open field wins, then intermediate, then closed, else unknown. |
| Status.OccursSnoc | bundles/org.openhab.binding.bmwconnecteddrive/src/main/java/org/openhab/binding/bmwconnecteddrive/internal/dto/status/VehicleStatus.java:208-241 | A state occurs in a longer field list iff it occurred before or the new field has it. |
| Status.AggregateSnoc | bundles/org.openhab.binding.bmwconnecteddrive/src/main/java/org/openhab/binding/bmwconnecteddrive/internal/dto/status/VehicleStatus.java:216-238 | One loop step: OPEN sets Open, INTERMEDIATE sets Intermediate, CLOSED upgrades only Unknown, skipped values change nothing. |
| Status.OccursPermuted | bundles/org.openhab.binding.bmwconnecteddrive/src/main/java/org/openhab/binding/bmwconnecteddrive/internal/dto/status/VehicleStatus.java:208-241 | Whether a state occurs does not depend on the order of the fields. |
| Status.AggregateOrderIndependent | bundles/org.openhab.binding.bmwconnecteddrive/src/main/java/org/openhab/binding/bmwconnecteddrive/internal/dto/status/VehicleStatus.java:208-241 | Two field lists that are permutations of each other aggregate to the same state. |
| Status.OccursWithout | bundles/org.openhab.binding.bmwconnecteddrive/src/main/java/org/openhab/binding/bmwconnecteddrive/internal/dto/status/VehicleStatus.java:216-222 | Removing a null or INVALID field changes no state's occurrence. |
| Status.AggregateIgnoresSkipped | bundles/org.openhab.binding.bmwconnecteddrive/src/main/java/org/openhab/binding/bmwconnecteddrive/internal/dto/status/VehicleStatus.java:216-222 | Null and INVALID fields never change the aggregate. |
| Status.ClosedIffAllShut | bundles/org.openhab.binding.bmwconnecteddrive/src/main/java/org/openhab/binding/bmwconnecteddrive/internal/dto/status/VehicleStatus.java:200-241 | The documented promise: CLOSED iff every field is closed or skipped and at least one is closed; OPEN iff some field is open. |
| Status.GetNextService | bundles/org.openhab.binding.bmwconnecteddrive/src/main/java/org/openhab/binding/bmwconnecteddrive/internal/dto/status/VehicleStatus.java:87-126 | The loop computes the scan function: the default message for a null or empty list, otherwise the entry the inclusive-or rule picks last. |
| Status.ScanKeepsStartOrSelectable | bundles/org.openhab.binding.bmwconnecteddrive/src/main/java/org/openhab/binding/bmwconnecteddrive/internal/dto/status/VehicleStatus.java:95-124 | The scan result is the start message or an entry of the list with a mileage or a due date. |
| Status.NextServiceIsDefaultOrEntry | bundles/org.openhab.binding.bmwconnecteddrive/src/main/java/org/openhab/binding/bmwconnecteddrive/internal/dto/status/VehicleStatus.java:87-126 | getNextService returns the default message or a list entry with a mileage or a due date. |
| Status.MileageOnlyScan | bundles/org.openhab.binding.bmwconnecteddrive/src/main/java/org/openhab/binding/bmwconnecteddrive/internal/dto/status/VehicleStatus.java:95-124 | On mileage-only entries, the scan stops at the first entry with the smallest mileage and tracks that mileage. |
| Status.MileageOnlyPicksFirstMinimum | bundles/org.openhab.binding.bmwconnecteddrive/src/main/java/org/openhab/binding/bmwconnecteddrive/internal/dto/status/VehicleStatus.java:87-126 | On mileage-only entries, getNextService is the first entry with the smallest mileage. |
| Status.DateOnlyScan | bundles/org.openhab.binding.bmwconnecteddrive/src/main/java/org/openhab/binding/bmwconnecteddrive/internal/dto/status/VehicleStatus.java:95-124 | On date-only entries before the horizon, the scan stops at the first entry with the earliest date. |
| Status.DateOnlyPicksFirstEarliest | bundles/org.openhab.binding.bmwconnecteddrive/src/main/java/org/openhab/binding/bmwconnecteddrive/internal/dto/status/VehicleStatus.java:87-126 | On date-only entries before the horizon, getNextService is the first entry with the earliest due date. |
| Status.NextServiceDependsOnOrder | bundles/org.openhab.binding.bmwconnecteddrive/src/main/java/org/openhab/binding/bmwconnecteddrive/internal/dto/status/VehicleStatus.java:100-107 | Entries with both a mileage and a date win on either axis: reversing two entries changes the choice, and the tracked mileage can rise. |
| Status.NextServiceIndependentOfMinima | bundles/org.openhab.binding.bmwconnecteddrive/src/main/java/org/openhab/binding/bmwconnecteddrive/internal/dto/status/VehicleStatus.java:87-178 | The next service entry need not carry the smallest mileage or the earliest date that the other two getters report. |
| Status.GetNextServiceMileage | bundles/org.openhab.binding.bmwconnecteddrive/src/main/java/org/openhab/binding/bmwconnecteddrive/internal/dto/status/VehicleStatus.java:156-178 | The loop computes the mileage scan: -1 for a null or empty list, or when no mileage went below Integer.MAX_VALUE. |
| Status.MileageScanIsMinimum | bundles/org.openhab.binding.bmwconnecteddrive/src/main/java/org/openhab/binding/bmwconnecteddrive/internal/dto/status/VehicleStatus.java:163-172 | The scan gives the smallest non-zero mileage: it is attained by an entry, bounds every non-zero mileage, and stays at MAX_VALUE iff no entry counts. |
| Status.NextServiceMileageIsMinimum | bundles/org.openhab.binding.bmwconnecteddrive/src/main/java/org/openhab/binding/bmwconnecteddrive/internal/dto/status/VehicleStatus.java:156-178 | getNextServiceMileage is attained by a counting entry and is at most every non-zero remaining mileage whenever some entry counts (non-zero, below MAX_VALUE); it is -1 when none counts. |
| Status.GetNextServiceDate | bundles/org.openhab.binding.bmwconnecteddrive/src/main/java/org/openhab/binding/bmwconnecteddrive/internal/dto/status/VehicleStatus.java:128-154 | The loop computes the date scan: NULL_DATE for a null or empty list, or when no due date is before the horizon. |
| Status.DateScanIsEarliest | bundles/org.openhab.binding.bmwconnecteddrive/src/main/java/org/openhab/binding/bmwconnecteddrive/internal/dto/status/VehicleStatus.java:135-148 | The scan gives the earliest due date: it is attained, no due date is earlier, and it stays at the horizon iff no date is before it. |
| Status.NextServiceDateIsEarliest | bundles/org.openhab.binding.bmwconnecteddrive/src/main/java/org/openhab/binding/bmwconnecteddrive/internal/dto/status/VehicleStatus.java:128-154 | getNextServiceDate is the earliest due date of the list, and NULL_DATE iff the list is null or no date is before the horizon. |
| Status.CheckControl | bundles/org.openhab.binding.bmwconnecteddrive/src/main/java/org/openhab/binding/bmwconnecteddrive/internal/dto/status/VehicleStatus.java:180-189 | A null list gives title-cased UNKNOWN, an empty list gives OK, otherwise the title-cased short description of the first message. |
| Status.CheckControlIgnoresLaterMessages | bundles/org.openhab.binding.bmwconnecteddrive/src/main/java/org/openhab/binding/bmwconnecteddrive/internal/dto/status/VehicleStatus.java:180-189 | Messages after the first never change the summary (no sorting). |
| Status.UpdateTime | bundles/org.openhab.binding.bmwconnecteddrive/src/main/java/org/openhab/binding/bmwconnecteddrive/internal/dto/status/VehicleStatus.java:191-199 | internalDataTimeUTC if set, else updateTime; NULL_DATE iff both are null. |
| ChargeProfiles.TypeOf | bundles/org.openhab.binding.bmwconnecteddrive/src/main/java/org/openhab/binding/bmwconnecteddrive/internal/utils/ChargeProfileWrapper.java:52-62 | WEEKLY iff a weekly planner is present; TWO_TIMES iff only a two-times timer is; EMPTY iff neither is. |
| ChargeProfiles.ChargeProfileWrapper.constructor | bundles/org.openhab.binding.bmwconnecteddrive/src/main/java/org/openhab/binding/bmwconnecteddrive/internal/utils/ChargeProfileWrapper.java:49-92 | Detects the variant, picks the planner (a fresh one for EMPTY) and fills the cache with the parsed time of each key of the variant. |
| ChargeProfiles.ChargeProfileWrapper.GetType | bundles/org.openhab.binding.bmwconnecteddrive/src/main/java/org/openhab/binding/bmwconnecteddrive/internal/utils/ChargeProfileWrapper.java:45-47 | 0, 1 or -1 exactly for the weekly, two-times and empty profile shapes. |
| ChargeProfiles.ChargeProfileWrapper.GetTime | bundles/org.openhab.binding.bmwconnecteddrive/src/main/java/org/openhab/binding/bmwconnecteddrive/internal/utils/ChargeProfileWrapper.java:94-102 | For a key the variant caches, the value parsed from the planner at construction; -1 for any other key. |
| ChargeProfiles.EditTime | bundles/org.openhab.binding.bmwconnecteddrive/src/main/java/org/openhab/binding/bmwconnecteddrive/internal/utils/ChargeProfileWrapper.java:104-165 | setTime rewrites only the key's own "HH:MM" string, plus the single timer's hour for the timer-3 minute (fall-through). Timer-3 and single keys act only on WEEKLY; unknown keys do nothing. |
| ChargeProfiles.ChargeProfileWrapper.SetTime | bundles/org.openhab.binding.bmwconnecteddrive/src/main/java/org/openhab/binding/bmwconnecteddrive/internal/utils/ChargeProfileWrapper.java:104-165 | The planner becomes the edited planner and the profile sees it unless EMPTY; the cache is not refreshed. |
| ChargeProfiles.SetHourKeepsMinute | bundles/org.openhab.binding.bmwconnecteddrive/src/main/java/org/openhab/binding/bmwconnecteddrive/internal/utils/ChargeProfileWrapper.java:104-111 | Splitting an hour-edited string gives the padded hour and the old minute part, and the hour parses to t. |
| ChargeProfiles.SetMinuteKeepsHour | bundles/org.openhab.binding.bmwconnecteddrive/src/main/java/org/openhab/binding/bmwconnecteddrive/internal/utils/ChargeProfileWrapper.java:104-116 | Splitting a minute-edited string gives the old hour part and the padded minute, and the minute parses to t. |
| ChargeProfiles.SetHourReadsBack | bundles/org.openhab.binding.bmwconnecteddrive/src/main/java/org/openhab/binding/bmwconnecteddrive/internal/utils/ChargeProfileWrapper.java:104-111 | An hour edit of a parsing string still parses, to t and the old minute. |
| ChargeProfiles.SetMinuteReadsBack | bundles/org.openhab.binding.bmwconnecteddrive/src/main/java/org/openhab/binding/bmwconnecteddrive/internal/utils/ChargeProfileWrapper.java:104-116 | A minute edit of a parsing string still parses, to the old hour and t. |
| ChargeProfiles.EditTimeReadsBack | bundles/org.openhab.binding.bmwconnecteddrive/src/main/java/org/openhab/binding/bmwconnecteddrive/internal/utils/ChargeProfileWrapper.java:104-165 | Re-parsing after setTime (the constructor's parse) gives t for the edited key and the old value for the other half of its string. |
| ChargeProfiles.Timer3MinuteOverwritesSingleHour | bundles/org.openhab.binding.bmwconnecteddrive/src/main/java/org/openhab/binding/bmwconnecteddrive/internal/utils/ChargeProfileWrapper.java:147-157 | After the timer-3 minute edit, the single timer's hour parses to the minute value written; its minute is unchanged. |
| ChargeProfiles.EditTimeIntended | bundles/org.openhab.binding.bmwconnecteddrive/src/main/java/org/openhab/binding/bmwconnecteddrive/internal/utils/ChargeProfileWrapper.java:104-165 | setTime with a break after the timer-3 minute: every key edits its own string and no other slot changes. |
| ChargeProfiles.EditTimeIntendedReadsBack | bundles/org.openhab.binding.bmwconnecteddrive/src/main/java/org/openhab/binding/bmwconnecteddrive/internal/utils/ChargeProfileWrapper.java:104-165 | With the break, the edited key parses to t, its other half is kept, and every key of another slot keeps its parsed value. |
| ChargeProfiles.AddDay | bundles/org.openhab.binding.bmwconnecteddrive/src/main/java/org/openhab/binding/bmwconnecteddrive/internal/utils/ChargeProfileWrapper.java:181-224 | ON adds the day once when absent and leaves every other day's count alone. |
| ChargeProfiles.RemoveFirstMultiset | bundles/org.openhab.binding.bmwconnecteddrive/src/main/java/org/openhab/binding/bmwconnecteddrive/internal/utils/ChargeProfileWrapper.java:181-224 | OFF (List.remove) takes away exactly one copy of the day and nothing else. |
| ChargeProfiles.RemoveFirstClears | bundles/org.openhab.binding.bmwconnecteddrive/src/main/java/org/openhab/binding/bmwconnecteddrive/internal/utils/ChargeProfileWrapper.java:181-224 | On a list without duplicates, removal leaves the day absent, adds nothing and introduces no duplicate. |
| ChargeProfiles.RemoveDayClears | bundles/org.openhab.binding.bmwconnecteddrive/src/main/java/org/openhab/binding/bmwconnecteddrive/internal/utils/ChargeProfileWrapper.java:181-224 | OFF on a duplicate-free list leaves the day unselected and the list duplicate-free. |
| ChargeProfiles.DaySelectionIdempotent | bundles/org.openhab.binding.bmwconnecteddrive/src/main/java/org/openhab/binding/bmwconnecteddrive/internal/utils/ChargeProfileWrapper.java:181-224 | ON twice equals ON once and keeps a list duplicate-free; OFF twice equals OFF once on a duplicate-free list. |
| ChargeProfiles.SelectDay | bundles/org.openhab.binding.bmwconnecteddrive/src/main/java/org/openhab/binding/bmwconnecteddrive/internal/utils/ChargeProfileWrapper.java:181-224 | Only WEEKLY and ids 1-3 are edited; only the chosen timer's weekday list changes. |
| ChargeProfiles.DaySelectionReadsBack | bundles/org.openhab.binding.bmwconnecteddrive/src/main/java/org/openhab/binding/bmwconnecteddrive/internal/utils/ChargeProfileWrapper.java:167-224 | After daySelection on a weekly planner, isDaySelected answers ON/OFF as set (OFF on a duplicate-free list). |
| ChargeProfiles.ChargeProfileWrapper.IsDaySelected | bundles/org.openhab.binding.bmwconnecteddrive/src/main/java/org/openhab/binding/bmwconnecteddrive/internal/utils/ChargeProfileWrapper.java:167-179 | True iff the variant is WEEKLY, the id is 1-3 and the day is in that timer's list. |
| ChargeProfiles.ChargeProfileWrapper.DaySelection | bundles/org.openhab.binding.bmwconnecteddrive/src/main/java/org/openhab/binding/bmwconnecteddrive/internal/utils/ChargeProfileWrapper.java:181-224 | The planner becomes the day-selected planner; the profile sees it unless EMPTY. |
| ChargeProfiles.ChargeProfileWrapper.IsTimerEnabled | bundles/org.openhab.binding.bmwconnecteddrive/src/main/java/org/openhab/binding/bmwconnecteddrive/internal/utils/ChargeProfileWrapper.java:226-239 | The flag of timer 1 or 2, of timer 3 only for WEEKLY; false for every other id. |
| ChargeProfiles.EnableCascade | bundles/org.openhab.binding.bmwconnecteddrive/src/main/java/org/openhab/binding/bmwconnecteddrive/internal/utils/ChargeProfileWrapper.java:241-253 | Sets the flag of every timer from id up to 3 (timer 3 only for WEEKLY), as the switch without breaks does; other timers keep theirs. |
| ChargeProfiles.EnableTimerOneCascades | bundles/org.openhab.binding.bmwconnecteddrive/src/main/java/org/openhab/binding/bmwconnecteddrive/internal/utils/ChargeProfileWrapper.java:243-248 | Enabling or disabling timer 1 on a weekly planner sets all three timers' flags. |
| ChargeProfiles.EnableOne | bundles/org.openhab.binding.bmwconnecteddrive/src/main/java/org/openhab/binding/bmwconnecteddrive/internal/utils/ChargeProfileWrapper.java:241-253 | With breaks, only the named timer's flag changes (timer 3 only for WEEKLY); other ids change nothing. |
| ChargeProfiles.EnableOneReadsBack | bundles/org.openhab.binding.bmwconnecteddrive/src/main/java/org/openhab/binding/bmwconnecteddrive/internal/utils/ChargeProfileWrapper.java:226-253 | With breaks, the named timer reads back the new state and the others keep theirs; this agrees with the cascade iff the cascaded timers already had that state. |
| ChargeProfiles.ChargeProfileWrapper.EnableDisableTimer | bundles/org.openhab.binding.bmwconnecteddrive/src/main/java/org/openhab/binding/bmwconnecteddrive/internal/utils/ChargeProfileWrapper.java:241-253 | The planner becomes the cascaded planner; the profile sees it unless EMPTY. |
| ChargeProfiles.Publish | bundles/org.openhab.binding.bmwconnecteddrive/src/main/java/org/openhab/binding/bmwconnecteddrive/internal/utils/ChargeProfileWrapper.java:52-62 | The edited planner replaces the weekly or two-times planner inside the profile; the EMPTY profile is untouched. |
| ChargeProfiles.ChargeProfileWrapper.WritePlanner | bundles/org.openhab.binding.bmwconnecteddrive/src/main/java/org/openhab/binding/bmwconnecteddrive/internal/utils/ChargeProfileWrapper.java:52-62 | Stores an edited planner and publishes it into the profile; the wrapper invariant is kept. |
| ChargeProfiles.ChargeProfileWrapper.IsClimatizationEnabled | bundles/org.openhab.binding.bmwconnecteddrive/src/main/java/org/openhab/binding/bmwconnecteddrive/internal/utils/ChargeProfileWrapper.java:259-261 | The planner's climatisation flag. |
| ChargeProfiles.ChargeProfileWrapper.EnableDisableClimate | bundles/org.openhab.binding.bmwconnecteddrive/src/main/java/org/openhab/binding/bmwconnecteddrive/internal/utils/ChargeProfileWrapper.java:263-265 | Only the climatisation flag changes, and it reads back as set. |
| ChargeProfiles.ChargeProfileWrapper.GetChargingMode | bundles/org.openhab.binding.bmwconnecteddrive/src/main/java/org/openhab/binding/bmwconnecteddrive/internal/utils/ChargeProfileWrapper.java:267-269 | The planner's charging mode, possibly null. |
| ChargeProfiles.ChargeProfileWrapper.SetChargeMode | bundles/org.openhab.binding.bmwconnecteddrive/src/main/java/org/openhab/binding/bmwconnecteddrive/internal/utils/ChargeProfileWrapper.java:271-273 | Only the charging mode changes, and getChargingMode reads it back. |
| ChargeProfiles.ChargeProfileWrapper.SetChargePreferences | bundles/org.openhab.binding.bmwconnecteddrive/src/main/java/org/openhab/binding/bmwconnecteddrive/internal/utils/ChargeProfileWrapper.java:275-277 | Only the charging preferences change, and getChargingPreferences reads them back. |
| ChargeProfiles.ChargeProfileWrapper.GetChargingPreferences | bundles/org.openhab.binding.bmwconnecteddrive/src/main/java/org/openhab/binding/bmwconnecteddrive/internal/utils/ChargeProfileWrapper.java:279-281 | The planner's charging preferences, possibly null. |
| ChannelHandler.DriveTrainOf | bundles/org.openhab.binding.bmwconnecteddrive/src/main/java/org/openhab/binding/bmwconnecteddrive/internal/handler/VehicleChannelHandler.java:223-231 | Hybrid iff fuel and electric, iff PHEV or BEV_REX; fuel only iff CONV; electric only iff BEV; neither for any other type. |
| ChannelHandler.VehicleChannelHandler.constructor | bundles/org.openhab.binding.bmwconnecteddrive/src/main/java/org/openhab/binding/bmwconnecteddrive/internal/handler/VehicleChannelHandler.java:223-231 | Sets the flags from the type (lines 223-231); fills the day table with the 21 puts of lines 347-367; starts with empty lists and cursors at -1, the field initialisers of lines 67-72. |
| ChannelHandler.DayTableEntry | bundles/org.openhab.binding.bmwconnecteddrive/src/main/java/org/openhab/binding/bmwconnecteddrive/internal/handler/VehicleChannelHandler.java:347-367 | Each of the 21 timer day channels is in the table and maps to the name of its own weekday. |
| ChannelHandler.WeekdayNameRoundTrip | bundles/org.openhab.binding.bmwconnecteddrive/src/main/java/org/openhab/binding/bmwconnecteddrive/internal/handler/VehicleChannelHandler.java:347-367 | A weekday name gives back its weekday, so each timer's seven channels select seven different days. |
| ChannelHandler.Cursor | bundles/org.openhab.binding.bmwconnecteddrive/src/main/java/org/openhab/binding/bmwconnecteddrive/internal/handler/VehicleChannelHandler.java:458-462 | On a non-empty list the cursor ends in [0, size): kept if in range, else 0. On an empty list it is untouched. |
| ChannelHandler.View | bundles/org.openhab.binding.bmwconnecteddrive/src/main/java/org/openhab/binding/bmwconnecteddrive/internal/handler/VehicleChannelHandler.java:457-487 | Publishes the entry under the cursor, the size and the index; an empty list publishes INVALID, size 0 and index -1. |
| ChannelHandler.VehicleChannelHandler.UpdateService | bundles/org.openhab.binding.bmwconnecteddrive/src/main/java/org/openhab/binding/bmwconnecteddrive/internal/handler/VehicleChannelHandler.java:457-487 | Normalises the service cursor and returns the view of the list under it. |
| ChannelHandler.VehicleChannelHandler.NextService | bundles/org.openhab.binding.bmwconnecteddrive/src/main/java/org/openhab/binding/bmwconnecteddrive/internal/handler/VehicleChannelHandler.java:447-450 | Increments (with int wrap-around) then normalises the cursor, and publishes the view. |
| ChannelHandler.VehicleChannelHandler.SetServiceList | bundles/org.openhab.binding.bmwconnecteddrive/src/main/java/org/openhab/binding/bmwconnecteddrive/internal/handler/VehicleChannelHandler.java:452-455 | Replaces the list, keeps the cursor if still in range (else 0), and publishes the view. |
| ChannelHandler.VehicleChannelHandler.UpdateCheckControls | bundles/org.openhab.binding.bmwconnecteddrive/src/main/java/org/openhab/binding/bmwconnecteddrive/internal/handler/VehicleChannelHandler.java:416-445 | Normalises the check-control cursor and returns the view under it. |
| ChannelHandler.VehicleChannelHandler.NextCheckControl | bundles/org.openhab.binding.bmwconnecteddrive/src/main/java/org/openhab/binding/bmwconnecteddrive/internal/handler/VehicleChannelHandler.java:406-409 | As written: increments the check-control cursor without resetting it, and normalises and publishes the service view. |
| ChannelHandler.VehicleChannelHandler.NextCheckControlIntended | bundles/org.openhab.binding.bmwconnecteddrive/src/main/java/org/openhab/binding/bmwconnecteddrive/internal/handler/VehicleChannelHandler.java:406-445 | As intended: steps the check-control cursor like nextService and publishes the check-control view. |
| ChannelHandler.VehicleChannelHandler.SetCheckControlList | bundles/org.openhab.binding.bmwconnecteddrive/src/main/java/org/openhab/binding/bmwconnecteddrive/internal/handler/VehicleChannelHandler.java:411-414 | Replaces the list, keeps the cursor if in range (else 0), and publishes the check-control view. |
| ChannelHandler.VehicleChannelHandler.UpdateDestination | bundles/org.openhab.binding.bmwconnecteddrive/src/main/java/org/openhab/binding/bmwconnecteddrive/internal/handler/VehicleChannelHandler.java:502-522 | Normalises the destination cursor and returns the view under it. |
| ChannelHandler.VehicleChannelHandler.SetDestinationList | bundles/org.openhab.binding.bmwconnecteddrive/src/main/java/org/openhab/binding/bmwconnecteddrive/internal/handler/VehicleChannelHandler.java:489-492 | Replaces the list, keeps the cursor if in range (else 0), and publishes the destination view. |
| ChannelHandler.VehicleChannelHandler.NextDestination | bundles/org.openhab.binding.bmwconnecteddrive/src/main/java/org/openhab/binding/bmwconnecteddrive/internal/handler/VehicleChannelHandler.java:494-497 | Increments then normalises the destination cursor, and publishes the view. |
| ChannelHandler.StepMovesOn | bundles/org.openhab.binding.bmwconnecteddrive/src/main/java/org/openhab/binding/bmwconnecteddrive/internal/handler/VehicleChannelHandler.java:447-462 | A next call moves an in-range cursor to the following element, and from the last back to 0. |
| ChannelHandler.AdvanceWithinList | bundles/org.openhab.binding.bmwconnecteddrive/src/main/java/org/openhab/binding/bmwconnecteddrive/internal/handler/VehicleChannelHandler.java:447-462 | Before the end of the list, k next calls move the cursor k elements on. |
| ChannelHandler.AdvanceWraps | bundles/org.openhab.binding.bmwconnecteddrive/src/main/java/org/openhab/binding/bmwconnecteddrive/internal/handler/VehicleChannelHandler.java:447-462 | Running off the end brings the cursor back to the first element. |
| ChannelHandler.AdvanceComposes | bundles/org.openhab.binding.bmwconnecteddrive/src/main/java/org/openhab/binding/bmwconnecteddrive/internal/handler/VehicleChannelHandler.java:447-450 | a + b next calls are a calls followed by b calls. |
| ChannelHandler.AdvanceFullCycle | bundles/org.openhab.binding.bmwconnecteddrive/src/main/java/org/openhab/binding/bmwconnecteddrive/internal/handler/VehicleChannelHandler.java:447-450 | size next calls return the cursor to where it started: the cursor cycles through the list. |
| ChannelHandler.AdvanceVisitsAll | bundles/org.openhab.binding.bmwconnecteddrive/src/main/java/org/openhab/binding/bmwconnecteddrive/internal/handler/VehicleChannelHandler.java:447-450 | From the first element, every element is reached in fewer than size next calls. |
| ChannelHandler.CheckControlCursorEscapes | bundles/org.openhab.binding.bmwconnecteddrive/src/main/java/org/openhab/binding/bmwconnecteddrive/internal/handler/VehicleChannelHandler.java:406-409 | On the last message, nextCheckControl as written leaves the cursor past the end; the intended step wraps to 0. |
| ChannelHandler.ChargingStatusShown | bundles/org.openhab.binding.bmwconnecteddrive/src/main/java/org/openhab/binding/bmwconnecteddrive/internal/handler/VehicleChannelHandler.java:727-737 | Shown iff electric with a non-null status: the last end reason for INVALID, otherwise the status itself. |
| ChannelHandler.EndReasonOnlyForInvalid | bundles/org.openhab.binding.bmwconnecteddrive/src/main/java/org/openhab/binding/bmwconnecteddrive/internal/handler/VehicleChannelHandler.java:727-737 | The last charging end reason changes the display only while the status is INVALID. |
| ChannelHandler.DoorsAndWindows | bundles/org.openhab.binding.bmwconnecteddrive/src/main/java/org/openhab/binding/bmwconnecteddrive/internal/handler/VehicleChannelHandler.java:663-666 | The doors and windows channels carry the checkClosed aggregate of the door view and of the window view of the status record. |
| Images.ImageProperties.constructor | bundles/org.openhab.binding.bmwconnecteddrive/src/main/java/org/openhab/binding/bmwconnecteddrive/internal/utils/ImageProperties.java:29-32 | Stores viewport and size; the fail counter starts at 0. |
| Images.ImageProperties.Default | bundles/org.openhab.binding.bmwconnecteddrive/src/main/java/org/openhab/binding/bmwconnecteddrive/internal/utils/ImageProperties.java:24-35 | Viewport EMPTY, size -1, fail counter 0. |
| Images.ImageProperties.Failed | bundles/org.openhab.binding.bmwconnecteddrive/src/main/java/org/openhab/binding/bmwconnecteddrive/internal/utils/ImageProperties.java:41-43 | The fail counter goes up by one (int wrap-around) and nothing else changes. |
| Images.ImageProperties.IsSame | bundles/org.openhab.binding.bmwconnecteddrive/src/main/java/org/openhab/binding/bmwconnecteddrive/internal/utils/ImageProperties.java:37-39 | Holds iff the stored viewport equals the given viewport and the stored size equals the given size; then toString renders exactly that pair. |
| Images.ImageProperties.FailLimitReached | bundles/org.openhab.binding.bmwconnecteddrive/src/main/java/org/openhab/binding/bmwconnecteddrive/internal/utils/ImageProperties.java:45-47 | True iff the fail counter exceeds RETRY_COUNTER (5). |
| Images.FailCountExact | bundles/org.openhab.binding.bmwconnecteddrive/src/main/java/org/openhab/binding/bmwconnecteddrive/internal/utils/ImageProperties.java:41-43 | Up to Integer.MAX_VALUE failures, the counter equals the number of failures. |
| Images.LimitAfterFailures | bundles/org.openhab.binding.bmwconnecteddrive/src/main/java/org/openhab/binding/bmwconnecteddrive/internal/utils/ImageProperties.java:24-47 | A fresh object reaches the limit after k failures exactly when k > 5. |
| Images.LimitMonotone | bundles/org.openhab.binding.bmwconnecteddrive/src/main/java/org/openhab/binding/bmwconnecteddrive/internal/utils/ImageProperties.java:41-47 | Once reached, the limit stays reached under failed() until the counter would wrap. |
| Images.ImageProperties.ToString | bundles/org.openhab.binding.bmwconnecteddrive/src/main/java/org/openhab/binding/bmwconnecteddrive/internal/utils/ImageProperties.java:50-52 | The viewport followed by a suffix that Integer.parseInt reads back as the size. |
| Images.IsSameMatchesToString | bundles/org.openhab.binding.bmwconnecteddrive/src/main/java/org/openhab/binding/bmwconnecteddrive/internal/utils/ImageProperties.java:37-52 | With the same viewport, isSame holds iff the two renderings are equal. |
| JavaText.IntToDecimalRoundTrip | bundles/org.openhab.binding.bmwconnecteddrive/src/main/java/org/openhab/binding/bmwconnecteddrive/internal/utils/ImageProperties.java:50-52 | Integer.parseInt undoes Integer.toString on every int. |
| JavaText.Pad2RoundTrip | bundles/org.openhab.binding.bmwconnecteddrive/src/main/java/org/openhab/binding/bmwconnecteddrive/internal/utils/ChargeProfileWrapper.java:105 | Integer.parseInt undoes String.format("%02d") on every int. |
| JavaText.SplitJoin | bundles/org.openhab.binding.bmwconnecteddrive/src/main/java/org/openhab/binding/bmwconnecteddrive/internal/utils/ChargeProfileWrapper.java:104-116 | Splitting h + ":" + m on ':' gives [h, m] when neither contains ':' and m is not empty. |

## Findings

| source | as written | input that shows it | evidently intended | confidence | as-written member | corrected member |
|---|---|---|---|---|---|---|
| bundles/org.openhab.binding.bmwconnecteddrive/src/main/java/org/openhab/binding/bmwconnecteddrive/internal/handler/VehicleChannelHandler.java:406-409 | nextCheckControl increments the check-control cursor and then calls updateService | one check-control message, cursor 0: the cursor becomes 1, past the end, and the check-control channels are not refreshed | call updateCheckControls, as nextService and nextDestination call their own update | high, not executed | ChannelHandler.CheckControlCursorEscapes | ChannelHandler.VehicleChannelHandler.NextCheckControlIntended |
| bundles/org.openhab.binding.bmwconnecteddrive/src/main/java/org/openhab/binding/bmwconnecteddrive/internal/utils/ChargeProfileWrapper.java:147-157 | the timer-3 minute case of setTime has no break and falls into the single-timer hour case | weekly planner, setTime(timer-3 minute, 30): the single timer's hour also becomes 30 | a break after the timer-3 minute case; only timer 3's string changes | high, not executed | ChargeProfiles.Timer3MinuteOverwritesSingleHour | ChargeProfiles.EditTimeIntendedReadsBack |
| bundles/org.openhab.binding.bmwconnecteddrive/src/main/java/org/openhab/binding/bmwconnecteddrive/internal/utils/ChargeProfileWrapper.java:241-253 | the switch of enableDisableTimer has no breaks, so id 1 also sets timers 2 and 3, and id 2 also sets timer 3 | weekly planner, enableDisableTimer(1, true) with timers 2 and 3 disabled: all three become enabled | a break after each case; only the named timer changes | high, not executed | ChargeProfiles.EnableTimerOneCascades | ChargeProfiles.EnableOneReadsBack |

`ChargeProfileWrapper` and `VehicleChannelHandler` keep the as-written
behaviour, since that is what the binding does. The corrected definitions
(`EditTimeIntended`, `EnableOne`, `NextCheckControlIntended`) stand beside
them with the intended property proved.

## Left out

- JSON parsing and serialisation are not modelled. The profile arrives as
  the parsed datatype; `getJson` is the `chargeProfile` field, whose content
  is stated after every edit.
- Reflection in `checkClosed` is not modelled. The door or window fields
  arrive as a sequence, in the order `DoorFields` and `WindowFields` give.
  The classes they come from are not part of this model, so their
  declaration order is unknown. `AggregateOrderIndependent` shows that the
  order does not change the result. The field set is assumed as well: the
  door view and the window view each consist of exactly the six fields that
  `updateDoors` and `updateWindows` publish.
- The clock is a parameter: "now plus 100 years" is the parameter `horizon`.
- Due-date strings are already parsed: a `Date` is a point on a time line,
  and NULL_DATE is `None`.
- `Converter.toTitleCase` is not part of this model and is passed in as a
  function.
- Unit conversion, rounding and date formatting of published values are not
  modelled. Published floats are passed through (destination coordinates as
  `real`).
- `updateState` and channel ids are outputs: the cursor methods return the
  view they publish.
- The channel-id strings and the values of `Constants` are not part of this
  model. The state constants (OPEN, CLOSED, INTERMEDIATE, INVALID, UNKNOWN,
  OK) take their own names as values, `EMPTY` is the empty string, and day
  channels are named by timer and weekday. The proofs use only that the
  state constants differ from each other.
- The vehicle type strings follow the `CarType` enum of
  ConnectedDriveConstants.java ("CONV", "PHEV", "BEV_REX", "BEV"). The
  `VehicleType` enum the handler refers to is not part of this model.
- `synchronized` and concurrency are not modelled.
- The rest of the handler (`VehicleHandler`, remote services, trip and range
  channels) is not modelled.
- Unicode: `equalsIgnoreCase` folds ASCII letters only.
- JavaText.ParseInt: accepts ASCII digits only; `Integer.parseInt` also
  accepts the other Unicode decimal digits.
- JavaText.Pad2: `String.format("%02d")` is modelled with ASCII digits; the
  default locale, which can choose other digits, is not modelled.
- Status.CheckControl: a message's `ccmDescriptionShort` is a plain string. A
  null description, which getCheckControl would hand to `toTitleCase`, is
  not modelled.
- ChargeProfiles.ChargeProfileWrapper.constructor: the "HH:MM" strings
  `startTime`, `endTime` and `departureTime` are plain strings. A null one
  inside a present window or timer, where Java throws NullPointerException
  in the constructor and in setTime, is not modelled.
- ChargeProfiles.FreshPlanner: the EMPTY variant's `new WeeklyPlanner()` is
  taken to have every field null (WeeklyPlanner.java is not part of this
  model). Several answers on an EMPTY profile rest on this assumption:
  getChargingMode and getChargingPreferences give null; isClimatizationEnabled
  has no present flag to read; and setTime has no window or timer to edit.
- ChargeProfiles.ChargeProfileWrapper.constructor: where Java throws
  (NullPointerException on a missing window or timer, NumberFormatException,
  ArrayIndexOutOfBoundsException on a string without ':'), the model has a
  precondition (`Parseable`) instead of an error path.
- ChargeProfiles.ChargeProfileWrapper.SetTime: likewise for setTime
  (`TimeEditAllowed`), as are the NullPointerException cases of
  isTimerEnabled and enableDisableTimer on an EMPTY planner.
- ChargeProfiles.ChargeProfileWrapper.IsClimatizationEnabled: unboxing a
  null flag throws in Java; the model requires the flag to be present.
- A null `timerEnabled` or a null weekday list inside a timer is not
  modelled: both are plain values.
- ChannelHandler.AdvanceFullCycle: the cycling lemmas assume at most
  Integer.MAX_VALUE list elements, the size bound of a Java list.
- Images.LimitMonotone: monotonicity is stated only below Integer.MAX_VALUE.
  `failed()` wraps the counter there, and the limit then reads false again.
