/**
 * The charge-profile editor. A charge profile holds either a weekly planner
 * (three weekly timers with weekday lists, plus an override timer), a legacy
 * two-times timer, or neither. The wrapper detects the variant once, caches
 * the hours and minutes of the "HH:MM" strings it finds at construction, and
 * then edits the planner in place.
 *
 * The planner of the WEEKLY and TWO_TIMES variants is the very object inside
 * the profile, so every edit reaches the profile; the EMPTY variant gets a
 * fresh planner that the profile never sees. Here the planner is a value and
 * the wrapper writes it back into `chargeProfile` after every edit where the
 * source's aliasing would have made the edit visible there.
 */
module ChargeProfiles {
  import opened Wrappers
  import opened JavaText
  import opened Constants

  datatype ChargingWindow = ChargingWindow(startTime: string, endTime: string)

  datatype Timer = Timer(departureTime: string, timerEnabled: bool, weekdays: seq<string>)

  /** Every reference field may be null in the JSON, hence the Options. */
  datatype WeeklyPlanner = WeeklyPlanner(
    climatizationEnabled: Option<bool>,
    chargingMode: Option<string>,
    chargingPreferences: Option<string>,
    preferredChargingWindow: Option<ChargingWindow>,
    timer1: Option<Timer>,
    timer2: Option<Timer>,
    timer3: Option<Timer>,
    overrideTimer: Option<Timer>)

  datatype ChargeProfile = ChargeProfile(weeklyPlanner: Option<WeeklyPlanner>, twoTimesTimer: Option<WeeklyPlanner>)

  /**
   * `new WeeklyPlanner()`. WeeklyPlanner.java is not part of this model; its
   * fields are taken to have no initialisers, so every field is null.
   */
  const FreshPlanner: WeeklyPlanner := WeeklyPlanner(None, None, None, None, None, None, None, None)

  /** The three variants, with the integer codes getType returns. */
  datatype ProfileType = Weekly | TwoTimes | Empty
  {
    function Code(): int
    {
      match this
      case Weekly => 0
      case TwoTimes => 1
      case Empty => -1
    }
  }

  /** Variant detection: a weekly planner wins over a two-times timer; with neither the profile is EMPTY. */
  function TypeOf(profile: ChargeProfile): (t: ProfileType)
    ensures t == Weekly <==> profile.weeklyPlanner.Some?
    ensures t == TwoTimes <==> profile.weeklyPlanner.None? && profile.twoTimesTimer.Some?
    ensures t == Empty <==> profile.weeklyPlanner.None? && profile.twoTimesTimer.None?
  {
    if profile.weeklyPlanner.Some? then Weekly
    else if profile.twoTimesTimer.Some? then TwoTimes
    else Empty
  }

  /** The planner the wrapper works on for a given profile. */
  function PlannerOf(profile: ChargeProfile): WeeklyPlanner
  {
    match TypeOf(profile)
    case Weekly => profile.weeklyPlanner.value
    case TwoTimes => profile.twoTimesTimer.value
    case Empty => FreshPlanner
  }

  /** The six "HH:MM" strings of a planner. */
  datatype Slot = WindowStart | WindowEnd | Departure1 | Departure2 | Departure3 | DepartureSingle

  /**
   * The keys getTime and setTime accept. `OtherKey` stands for any channel
   * name other than the twelve time channels: its name is only a label, and
   * an `OtherKey` carrying one of the twelve names does not occur.
   */
  datatype TimeKey =
    | WindowStartHour | WindowStartMinute | WindowEndHour | WindowEndMinute
    | Timer1Hour | Timer1Minute | Timer2Hour | Timer2Minute
    | Timer3Hour | Timer3Minute | SingleHour | SingleMinute
    | OtherKey(name: string)
  {
    predicate IsHour()
    {
      WindowStartHour? || WindowEndHour? || Timer1Hour? || Timer2Hour? || Timer3Hour? || SingleHour?
    }

    /** Keys whose setTime case is guarded by "type == WEEKLY". */
    predicate WeeklyOnly()
    {
      Timer3Hour? || Timer3Minute? || SingleHour? || SingleMinute?
    }

    /** The other half of the same "HH:MM" string. */
    function Sibling(): (k: TimeKey)
      requires !OtherKey?
      ensures !k.OtherKey? && k.SlotOf() == SlotOf() && k.IsHour() == !IsHour()
    {
      match this
      case WindowStartHour => WindowStartMinute
      case WindowStartMinute => WindowStartHour
      case WindowEndHour => WindowEndMinute
      case WindowEndMinute => WindowEndHour
      case Timer1Hour => Timer1Minute
      case Timer1Minute => Timer1Hour
      case Timer2Hour => Timer2Minute
      case Timer2Minute => Timer2Hour
      case Timer3Hour => Timer3Minute
      case Timer3Minute => Timer3Hour
      case SingleHour => SingleMinute
      case SingleMinute => SingleHour
    }

    function SlotOf(): Slot
      requires !OtherKey?
    {
      match this
      case WindowStartHour => WindowStart
      case WindowStartMinute => WindowStart
      case WindowEndHour => WindowEnd
      case WindowEndMinute => WindowEnd
      case Timer1Hour => Departure1
      case Timer1Minute => Departure1
      case Timer2Hour => Departure2
      case Timer2Minute => Departure2
      case Timer3Hour => Departure3
      case Timer3Minute => Departure3
      case SingleHour => DepartureSingle
      case SingleMinute => DepartureSingle
    }
  }

  /** The keys whose values the constructor caches: window and timers 1-2 for any non-EMPTY variant, timer 3 and the single timer only for WEEKLY. */
  predicate CachedKey(kind: ProfileType, key: TimeKey)
  {
    kind != Empty && !key.OtherKey? && (kind == Weekly || !key.WeeklyOnly())
  }

  function TimeAt(p: WeeklyPlanner, slot: Slot): Option<string>
  {
    match slot
    case WindowStart => if p.preferredChargingWindow.Some? then Some(p.preferredChargingWindow.value.startTime) else None
    case WindowEnd => if p.preferredChargingWindow.Some? then Some(p.preferredChargingWindow.value.endTime) else None
    case Departure1 => if p.timer1.Some? then Some(p.timer1.value.departureTime) else None
    case Departure2 => if p.timer2.Some? then Some(p.timer2.value.departureTime) else None
    case Departure3 => if p.timer3.Some? then Some(p.timer3.value.departureTime) else None
    case DepartureSingle => if p.overrideTimer.Some? then Some(p.overrideTimer.value.departureTime) else None
  }

  /** The planner with all its time strings blanked: what a time edit must leave alone. */
  function WithoutTimes(p: WeeklyPlanner): WeeklyPlanner
  {
    p.(preferredChargingWindow := if p.preferredChargingWindow.Some? then Some(ChargingWindow("", "")) else None,
       timer1 := BlankTime(p.timer1),
       timer2 := BlankTime(p.timer2),
       timer3 := BlankTime(p.timer3),
       overrideTimer := BlankTime(p.overrideTimer))
  }

  function BlankTime(t: Option<Timer>): Option<Timer>
  {
    if t.Some? then Some(t.value.(departureTime := "")) else None
  }

  /** The planner with the string in `slot` replaced by `s`. */
  function WithTime(p: WeeklyPlanner, slot: Slot, s: string): (r: WeeklyPlanner)
    requires TimeAt(p, slot).Some?
    ensures TimeAt(r, slot) == Some(s)
    ensures forall other :: other != slot ==> TimeAt(r, other) == TimeAt(p, other)
    ensures WithoutTimes(r) == WithoutTimes(p)
  {
    match slot
    case WindowStart => p.(preferredChargingWindow := Some(p.preferredChargingWindow.value.(startTime := s)))
    case WindowEnd => p.(preferredChargingWindow := Some(p.preferredChargingWindow.value.(endTime := s)))
    case Departure1 => p.(timer1 := Some(p.timer1.value.(departureTime := s)))
    case Departure2 => p.(timer2 := Some(p.timer2.value.(departureTime := s)))
    case Departure3 => p.(timer3 := Some(p.timer3.value.(departureTime := s)))
    case DepartureSingle => p.(overrideTimer := Some(p.overrideTimer.value.(departureTime := s)))
  }

  /** Both halves of an "HH:MM" string exist and go through Integer.parseInt. */
  predicate TimeParses(s: string)
  {
    var parts := Split(s, COLON);
    |parts| >= 2 && ParseInt(parts[0]).Some? && ParseInt(parts[1]).Some?
  }

  function HourOf(s: string): Int32
    requires TimeParses(s)
  {
    ParseInt(Split(s, COLON)[0]).value
  }

  function MinuteOf(s: string): Int32
    requires TimeParses(s)
  {
    ParseInt(Split(s, COLON)[1]).value
  }

  /** What the constructor caches for a key: the parsed hour or minute of its slot's string, if it parses. */
  function ParsedTime(p: WeeklyPlanner, key: TimeKey): Option<Int32>
  {
    if key.OtherKey? then None
    else
      var s := TimeAt(p, key.SlotOf());
      if s.None? || !TimeParses(s.value) then None
      else Some(if key.IsHour() then HourOf(s.value) else MinuteOf(s.value))
  }

  /** The cached keys as a set. */
  function CachedKeys(kind: ProfileType): (keys: set<TimeKey>)
    ensures forall key :: key in keys <==> CachedKey(kind, key)
  {
    var common := {WindowStartHour, WindowStartMinute, WindowEndHour, WindowEndMinute,
                   Timer1Hour, Timer1Minute, Timer2Hour, Timer2Minute};
    match kind
    case Weekly => common + {Timer3Hour, Timer3Minute, SingleHour, SingleMinute}
    case TwoTimes => common
    case Empty => {}
  }

  /** The sub-objects every non-EMPTY planner carries (the constructor has read them). */
  predicate HasTimers(p: WeeklyPlanner, kind: ProfileType)
  {
    && (kind != Empty ==> p.preferredChargingWindow.Some? && p.timer1.Some? && p.timer2.Some?)
    && (kind == Weekly ==> p.timer3.Some? && p.overrideTimer.Some?)
  }

  /** What the constructor demands: the sub-objects it reads are there, and every string it splits has two parts that parse as ints. */
  predicate PlannerParses(p: WeeklyPlanner, kind: ProfileType)
  {
    && HasTimers(p, kind)
    && forall key | key in CachedKeys(kind) :: ParsedTime(p, key).Some?
  }

  /** What the constructor demands of the profile. */
  predicate Parseable(profile: ChargeProfile)
  {
    PlannerParses(PlannerOf(profile), TypeOf(profile))
  }

  /** The timer map the constructor fills: each cached key with its parsed hour or minute. */
  function TimeCache(p: WeeklyPlanner, kind: ProfileType): (m: map<TimeKey, int>)
    requires PlannerParses(p, kind)
  {
    map key | key in CachedKeys(kind) :: ParsedTime(p, key).value
  }

  // ---------------------------------------------------------------------
  // setTime
  // ---------------------------------------------------------------------

  /** The hour case of setTime: pad2(t) + ":" + split[1]. */
  function SetHour(s: string, t: Int32): string
    requires |Split(s, COLON)| >= 2
  {
    Pad2(t) + ":" + Split(s, COLON)[1]
  }

  /** The minute case of setTime: split[0] + ":" + pad2(t). */
  function SetMinute(s: string, t: Int32): string
    requires |Split(s, COLON)| >= 1
  {
    Split(s, COLON)[0] + ":" + Pad2(t)
  }

  /** The string in `slot` can take the hour (needs split[1]) or minute (needs split[0]) edit. */
  predicate Editable(p: WeeklyPlanner, slot: Slot, hour: bool)
  {
    TimeAt(p, slot).Some? && |Split(TimeAt(p, slot).value, COLON)| >= (if hour then 2 else 1)
  }

  function Spliced(p: WeeklyPlanner, slot: Slot, hour: bool, t: Int32): (r: WeeklyPlanner)
    requires Editable(p, slot, hour)
    ensures TimeAt(r, slot).Some?
    ensures forall other :: other != slot ==> TimeAt(r, other) == TimeAt(p, other)
    ensures WithoutTimes(r) == WithoutTimes(p)
  {
    var s := TimeAt(p, slot).value;
    WithTime(p, slot, if hour then SetHour(s, t) else SetMinute(s, t))
  }

  /** setTime does not throw: the strings its case touches are there and split far enough. */
  predicate TimeEditAllowed(p: WeeklyPlanner, weekly: bool, key: TimeKey)
  {
    match key
    case OtherKey(_) => true
    case Timer3Minute => weekly ==> Editable(p, Departure3, false) && Editable(p, DepartureSingle, true)
    case _ => (key.WeeklyOnly() && !weekly) || Editable(p, key.SlotOf(), key.IsHour())
  }

  /**
   * The switch of setTime. The timer-3 and single-timer cases act only on a
   * weekly planner, and the timer-3 minute case falls through into the
   * single-timer hour case (no break), writing the same padded value there.
   */
  function EditTime(p: WeeklyPlanner, weekly: bool, key: TimeKey, t: Int32): (r: WeeklyPlanner)
    requires TimeEditAllowed(p, weekly, key)
    ensures WithoutTimes(r) == WithoutTimes(p)
    ensures key.OtherKey? || (key.WeeklyOnly() && !weekly) ==> r == p
    ensures !key.OtherKey? && (weekly || !key.WeeklyOnly()) ==>
      var s := TimeAt(p, key.SlotOf()).value;
      TimeAt(r, key.SlotOf()) == Some(if key.IsHour() then SetHour(s, t) else SetMinute(s, t))
    ensures key == Timer3Minute && weekly ==>
      TimeAt(r, DepartureSingle) == Some(SetHour(TimeAt(p, DepartureSingle).value, t))
    ensures forall slot :: (key.OtherKey? || slot != key.SlotOf()) && (key != Timer3Minute || !weekly || slot != DepartureSingle) ==>
      TimeAt(r, slot) == TimeAt(p, slot)
  {
    match key
    case OtherKey(_) => p
    case Timer3Minute =>
      if weekly then Spliced(Spliced(p, Departure3, false, t), DepartureSingle, true, t) else p
    case _ =>
      if key.WeeklyOnly() && !weekly then p else Spliced(p, key.SlotOf(), key.IsHour(), t)
  }

  /**
   * An hour edit keeps the old minute part: splitting the new string gives
   * back pad2(t), which parses to t, and the old minute part unchanged.
   */
  lemma SetHourKeepsMinute(s: string, t: Int32)
    requires |Split(s, COLON)| >= 2 && Split(s, COLON)[1] != []
    ensures Split(SetHour(s, t), COLON) == [Pad2(t), Split(s, COLON)[1]]
    ensures ParseInt(Split(SetHour(s, t), COLON)[0]) == Some(t)
  {
    SplitJoin(Pad2(t), Split(s, COLON)[1]);
    Pad2RoundTrip(t);
  }

  /** A minute edit keeps the old hour part, and the new minute part parses to t. */
  lemma SetMinuteKeepsHour(s: string, t: Int32)
    requires |Split(s, COLON)| >= 1
    ensures Split(SetMinute(s, t), COLON) == [Split(s, COLON)[0], Pad2(t)]
    ensures ParseInt(Split(SetMinute(s, t), COLON)[1]) == Some(t)
  {
    SplitJoin(Split(s, COLON)[0], Pad2(t));
    Pad2RoundTrip(t);
  }

  /**
   * A setTime edit of a well-formed "HH:MM" string reads back: parsing the
   * edited string the way the constructor does gives t for the edited half
   * and the old value for the other half. (The wrapper's own cache is not
   * refreshed, so getTime keeps answering with the old value.)
   */
  lemma EditTimeReadsBack(p: WeeklyPlanner, weekly: bool, key: TimeKey, t: Int32)
    requires !key.OtherKey? && (weekly || !key.WeeklyOnly())
    requires TimeAt(p, key.SlotOf()).Some? && TimeParses(TimeAt(p, key.SlotOf()).value)
    requires TimeEditAllowed(p, weekly, key)
    ensures ParsedTime(EditTime(p, weekly, key, t), key) == Some(t)
    ensures ParsedTime(EditTime(p, weekly, key, t), key.Sibling()) == ParsedTime(p, key.Sibling())
  {
    var s := TimeAt(p, key.SlotOf()).value;
    var x := if key.IsHour() then SetHour(s, t) else SetMinute(s, t);
    var r := EditTime(p, weekly, key, t);
    assert TimeAt(r, key.SlotOf()) == Some(x);
    if key.IsHour() {
      SetHourReadsBack(s, t);
    } else {
      SetMinuteReadsBack(s, t);
    }
    ParsedFromSlot(r, key, x);
    ParsedFromSlot(r, key.Sibling(), x);
    ParsedFromSlot(p, key.Sibling(), s);
  }

  /** ParsedTime of a key whose slot holds a parsing string. */
  lemma ParsedFromSlot(p: WeeklyPlanner, key: TimeKey, x: string)
    requires !key.OtherKey? && TimeAt(p, key.SlotOf()) == Some(x) && TimeParses(x)
    ensures ParsedTime(p, key) == Some(if key.IsHour() then HourOf(x) else MinuteOf(x))
  {
  }

  /**
   * The timer-3 minute edit as written also rewrites the hour of the single
   * departure timer: afterwards the single timer's hour parses to the minute
   * value just written.
   */
  lemma Timer3MinuteOverwritesSingleHour(p: WeeklyPlanner, t: Int32)
    requires TimeEditAllowed(p, true, Timer3Minute)
    requires TimeParses(TimeAt(p, DepartureSingle).value)
    ensures ParsedTime(EditTime(p, true, Timer3Minute, t), SingleHour) == Some(t)
    ensures ParsedTime(EditTime(p, true, Timer3Minute, t), SingleMinute) == ParsedTime(p, SingleMinute)
  {
    var s := TimeAt(p, DepartureSingle).value;
    var r := EditTime(p, true, Timer3Minute, t);
    SingleSlotAfterTimer3Minute(p, t);
    SetHourReadsBack(s, t);
    SingleReadsBack(r, SetHour(s, t));
    SingleReadsBack(p, s);
  }

  /** ParsedTime of the single timer's hour and minute when its string parses. */
  lemma SingleReadsBack(p: WeeklyPlanner, x: string)
    requires TimeAt(p, DepartureSingle) == Some(x) && TimeParses(x)
    ensures ParsedTime(p, SingleHour) == Some(HourOf(x)) && ParsedTime(p, SingleMinute) == Some(MinuteOf(x))
  {
    ParsedFromSlot(p, SingleHour, x);
    ParsedFromSlot(p, SingleMinute, x);
  }

  lemma SingleSlotAfterTimer3Minute(p: WeeklyPlanner, t: Int32)
    requires TimeEditAllowed(p, true, Timer3Minute)
    ensures TimeAt(EditTime(p, true, Timer3Minute, t), DepartureSingle) == Some(SetHour(TimeAt(p, DepartureSingle).value, t))
  {
  }

  /** What setTime needs with a break after the timer-3 minute case: only the key's own string is split. */
  predicate IntendedEditAllowed(p: WeeklyPlanner, weekly: bool, key: TimeKey)
  {
    key.OtherKey? || (key.WeeklyOnly() && !weekly) || Editable(p, key.SlotOf(), key.IsHour())
  }

  /** setTime with a break after the timer-3 minute case: every key edits its own string and nothing else. */
  function EditTimeIntended(p: WeeklyPlanner, weekly: bool, key: TimeKey, t: Int32): (r: WeeklyPlanner)
    requires IntendedEditAllowed(p, weekly, key)
    ensures WithoutTimes(r) == WithoutTimes(p)
    ensures key.OtherKey? || (key.WeeklyOnly() && !weekly) ==> r == p
    ensures !key.OtherKey? && (weekly || !key.WeeklyOnly()) ==>
      var s := TimeAt(p, key.SlotOf()).value;
      TimeAt(r, key.SlotOf()) == Some(if key.IsHour() then SetHour(s, t) else SetMinute(s, t))
    ensures forall slot :: key.OtherKey? || slot != key.SlotOf() ==> TimeAt(r, slot) == TimeAt(p, slot)
  {
    if key.OtherKey? || (key.WeeklyOnly() && !weekly) then p else Spliced(p, key.SlotOf(), key.IsHour(), t)
  }

  /**
   * The intended setTime reads back: the edited key parses to t, the other
   * half of its string keeps its value, and every key of another slot keeps
   * its parsed value.
   */
  lemma EditTimeIntendedReadsBack(p: WeeklyPlanner, weekly: bool, key: TimeKey, t: Int32)
    requires !key.OtherKey? && (weekly || !key.WeeklyOnly())
    requires TimeAt(p, key.SlotOf()).Some? && TimeParses(TimeAt(p, key.SlotOf()).value)
    ensures IntendedEditAllowed(p, weekly, key)
    ensures ParsedTime(EditTimeIntended(p, weekly, key, t), key) == Some(t)
    ensures ParsedTime(EditTimeIntended(p, weekly, key, t), key.Sibling()) == ParsedTime(p, key.Sibling())
    ensures forall other: TimeKey :: !other.OtherKey? && other.SlotOf() != key.SlotOf() ==>
      ParsedTime(EditTimeIntended(p, weekly, key, t), other) == ParsedTime(p, other)
  {
    var s := TimeAt(p, key.SlotOf()).value;
    assert |Split(s, COLON)| >= 2;
    var x := if key.IsHour() then SetHour(s, t) else SetMinute(s, t);
    var r := EditTimeIntended(p, weekly, key, t);
    assert TimeAt(r, key.SlotOf()) == Some(x);
    if key.IsHour() {
      SetHourReadsBack(s, t);
    } else {
      SetMinuteReadsBack(s, t);
    }
    ParsedFromSlot(r, key, x);
    ParsedFromSlot(r, key.Sibling(), x);
    ParsedFromSlot(p, key.Sibling(), s);
  }

  /** An hour edit of a parsing "HH:MM" string parses, to t and the old minute. */
  lemma SetHourReadsBack(s: string, t: Int32)
    requires TimeParses(s)
    ensures TimeParses(SetHour(s, t)) && HourOf(SetHour(s, t)) == t && MinuteOf(SetHour(s, t)) == MinuteOf(s)
  {
    SetHourKeepsMinute(s, t);
  }

  /** A minute edit of a parsing "HH:MM" string parses, to the old hour and t. */
  lemma SetMinuteReadsBack(s: string, t: Int32)
    requires TimeParses(s)
    ensures TimeParses(SetMinute(s, t)) && HourOf(SetMinute(s, t)) == HourOf(s) && MinuteOf(SetMinute(s, t)) == t
  {
    SetMinuteKeepsHour(s, t);
  }

  // ---------------------------------------------------------------------
  // weekday lists
  // ---------------------------------------------------------------------

  /** List.remove(Object): drops the first occurrence, if any. */
  function RemoveFirst(days: seq<string>, day: string): seq<string>
  {
    if days == [] then []
    else if days[0] == day then days[1..]
    else [days[0]] + RemoveFirst(days[1..], day)
  }

  /** The ON case: add the day only when absent. */
  function AddDay(days: seq<string>, day: string): (r: seq<string>)
    ensures day in r
    ensures multiset(r)[day] == if day in days then multiset(days)[day] else 1
    ensures forall other :: other != day ==> multiset(r)[other] == multiset(days)[other]
  {
    if day in days then days else days + [day]
  }

  /** The OFF case: remove the day only when present. */
  function RemoveDay(days: seq<string>, day: string): (r: seq<string>)
  {
    if day in days then RemoveFirst(days, day) else days
  }

  predicate NoDuplicates(days: seq<string>)
  {
    forall i, j :: 0 <= i < j < |days| ==> days[i] != days[j]
  }

  /** Removing a day takes away exactly one copy of it, if there is one, and nothing else. */
  lemma {:induction false} RemoveFirstMultiset(days: seq<string>, day: string)
    ensures multiset(RemoveFirst(days, day)) == multiset(days) - multiset{day}
  {
    if days != [] {
      assert days == [days[0]] + days[1..];
      if days[0] != day {
        RemoveFirstMultiset(days[1..], day);
      }
    }
  }

  /** On a list without duplicates, removing a day leaves it absent, adds nothing and introduces no duplicate. */
  lemma {:induction false} RemoveFirstClears(days: seq<string>, day: string)
    requires NoDuplicates(days)
    ensures day !in RemoveFirst(days, day)
    ensures NoDuplicates(RemoveFirst(days, day))
    ensures forall x :: x in RemoveFirst(days, day) ==> x in days
  {
    if days != [] {
      var rest := days[1..];
      assert NoDuplicates(rest) by {
        forall i, j | 0 <= i < j < |rest| ensures rest[i] != rest[j] {
          assert rest[i] == days[i + 1] && rest[j] == days[j + 1];
        }
      }
      assert days[0] !in rest by {
        forall k | 0 <= k < |rest| ensures rest[k] != days[0] {
          assert rest[k] == days[k + 1];
        }
      }
      if days[0] != day {
        RemoveFirstClears(rest, day);
        var r := RemoveFirst(rest, day);
        assert RemoveFirst(days, day) == [days[0]] + r;
        forall i, j | 0 <= i < j < |[days[0]] + r| ensures ([days[0]] + r)[i] != ([days[0]] + r)[j] {
          if i > 0 {
            assert ([days[0]] + r)[i] == r[i - 1];
          }
          assert ([days[0]] + r)[j] == r[j - 1];
        }
      }
    }
  }

  /** On a list without duplicates, OFF leaves the day absent and introduces no duplicate. */
  lemma RemoveDayClears(days: seq<string>, day: string)
    requires NoDuplicates(days)
    ensures day !in RemoveDay(days, day)
    ensures NoDuplicates(RemoveDay(days, day))
  {
    RemoveFirstClears(days, day);
  }

  /** ON twice is ON once, OFF twice is OFF once on a list without duplicates; ON keeps a list free of duplicates. */
  lemma DaySelectionIdempotent(days: seq<string>, day: string)
    ensures AddDay(AddDay(days, day), day) == AddDay(days, day)
    ensures NoDuplicates(days) ==> NoDuplicates(AddDay(days, day))
    ensures NoDuplicates(days) ==> RemoveDay(RemoveDay(days, day), day) == RemoveDay(days, day)
  {
    if NoDuplicates(days) {
      RemoveDayClears(days, day);
    }
  }

  /** After daySelection on a weekly planner, isDaySelected answers what was asked (for OFF, on a list without duplicates). */
  lemma DaySelectionReadsBack(p: WeeklyPlanner, id: int, day: string, on: bool)
    requires HasTimers(p, Weekly) && 1 <= id <= 3
    requires !on ==> NoDuplicates(TimerOf(p, id).value.weekdays)
    ensures TimerOf(SelectDay(p, true, id, day, on), id).Some?
    ensures day in TimerOf(SelectDay(p, true, id, day, on), id).value.weekdays <==> on
  {
    if !on {
      RemoveDayClears(TimerOf(p, id).value.weekdays, day);
    }
  }

  /** The timer with id 1, 2 or 3. */
  function TimerOf(p: WeeklyPlanner, id: int): Option<Timer>
  {
    if id == 1 then p.timer1 else if id == 2 then p.timer2 else if id == 3 then p.timer3 else None
  }

  function WithTimer(p: WeeklyPlanner, id: int, t: Timer): (r: WeeklyPlanner)
    requires 1 <= id <= 3
    ensures TimerOf(r, id) == Some(t)
    ensures forall j :: j != id ==> TimerOf(r, j) == TimerOf(p, j)
    ensures r.overrideTimer == p.overrideTimer && r.preferredChargingWindow == p.preferredChargingWindow
    ensures r.climatizationEnabled == p.climatizationEnabled
    ensures r.chargingMode == p.chargingMode && r.chargingPreferences == p.chargingPreferences
  {
    if id == 1 then p.(timer1 := Some(t)) else if id == 2 then p.(timer2 := Some(t)) else p.(timer3 := Some(t))
  }

  /**
   * daySelection: only a weekly planner and timer ids 1-3 are edited, and
   * only the chosen timer's weekday list changes.
   */
  function SelectDay(p: WeeklyPlanner, weekly: bool, id: int, day: string, on: bool): (r: WeeklyPlanner)
    requires weekly ==> HasTimers(p, Weekly)
    ensures !weekly || id < 1 || id > 3 ==> r == p
    ensures weekly && 1 <= id <= 3 ==>
      var t := TimerOf(p, id).value;
      TimerOf(r, id) == Some(t.(weekdays := if on then AddDay(t.weekdays, day) else RemoveDay(t.weekdays, day)))
    ensures forall j :: j != id ==> TimerOf(r, j) == TimerOf(p, j)
    ensures r.overrideTimer == p.overrideTimer && r.preferredChargingWindow == p.preferredChargingWindow
    ensures r.climatizationEnabled == p.climatizationEnabled
    ensures r.chargingMode == p.chargingMode && r.chargingPreferences == p.chargingPreferences
  {
    if weekly && 1 <= id <= 3 then
      var t := TimerOf(p, id).value;
      WithTimer(p, id, t.(weekdays := if on then AddDay(t.weekdays, day) else RemoveDay(t.weekdays, day)))
    else p
  }

  // ---------------------------------------------------------------------
  // timer enable flags
  // ---------------------------------------------------------------------

  /** The timers enableDisableTimer writes for `id` (the switch has no breaks). */
  predicate Cascades(weekly: bool, id: int, j: int)
  {
    1 <= id <= j <= 3 && (j < 3 || weekly)
  }

  predicate CascadeDefined(p: WeeklyPlanner, weekly: bool, id: int)
  {
    forall j :: 1 <= j <= 3 && Cascades(weekly, id, j) ==> TimerOf(p, j).Some?
  }

  function SetEnabled(p: WeeklyPlanner, j: int, state: bool): (r: WeeklyPlanner)
    requires 1 <= j <= 3 && TimerOf(p, j).Some?
    ensures TimerOf(r, j) == Some(TimerOf(p, j).value.(timerEnabled := state))
    ensures forall i :: i != j ==> TimerOf(r, i) == TimerOf(p, i)
    ensures r.overrideTimer == p.overrideTimer && r.preferredChargingWindow == p.preferredChargingWindow
    ensures r.climatizationEnabled == p.climatizationEnabled
    ensures r.chargingMode == p.chargingMode && r.chargingPreferences == p.chargingPreferences
  {
    WithTimer(p, j, TimerOf(p, j).value.(timerEnabled := state))
  }

  /**
   * enableDisableTimer: id 1 falls through to 2 and then to 3, id 2 falls
   * through to 3, and the timer-3 write happens only for a weekly planner.
   */
  function EnableCascade(p: WeeklyPlanner, weekly: bool, id: int, state: bool): (r: WeeklyPlanner)
    requires CascadeDefined(p, weekly, id)
    ensures forall j :: 1 <= j <= 3 && Cascades(weekly, id, j) ==>
      TimerOf(r, j) == Some(TimerOf(p, j).value.(timerEnabled := state))
    ensures forall j :: !Cascades(weekly, id, j) ==> TimerOf(r, j) == TimerOf(p, j)
    ensures r.overrideTimer == p.overrideTimer && r.preferredChargingWindow == p.preferredChargingWindow
    ensures r.climatizationEnabled == p.climatizationEnabled
    ensures r.chargingMode == p.chargingMode && r.chargingPreferences == p.chargingPreferences
  {
    assert Cascades(weekly, id, 1) <==> id == 1;
    assert Cascades(weekly, id, 2) <==> id == 1 || id == 2;
    var p1 := if id == 1 then SetEnabled(p, 1, state) else p;
    var p2 := if id == 1 || id == 2 then SetEnabled(p1, 2, state) else p1;
    if (id == 1 || id == 2 || id == 3) && weekly then SetEnabled(p2, 3, state) else p2
  }

  /** enableDisableTimer(1, state) as written sets the flags of timers 2 and 3 as well (timer 3 on a weekly planner). */
  lemma EnableTimerOneCascades(p: WeeklyPlanner, state: bool)
    requires HasTimers(p, Weekly)
    ensures CascadeDefined(p, true, 1)
    ensures forall j :: 1 <= j <= 3 ==> TimerOf(EnableCascade(p, true, 1, state), j).value.timerEnabled == state
  {
  }

  /** enableDisableTimer with a break after each case: timer 3 only on a weekly planner, other ids ignored. */
  function EnableOne(p: WeeklyPlanner, weekly: bool, id: int, state: bool): (r: WeeklyPlanner)
    requires 1 <= id <= 3 && (id < 3 || weekly) ==> TimerOf(p, id).Some?
    ensures 1 <= id <= 3 && (id < 3 || weekly) ==> TimerOf(r, id) == Some(TimerOf(p, id).value.(timerEnabled := state))
    ensures forall j :: j != id || !(1 <= id <= 3 && (id < 3 || weekly)) ==> TimerOf(r, j) == TimerOf(p, j)
    ensures r.overrideTimer == p.overrideTimer && r.preferredChargingWindow == p.preferredChargingWindow
    ensures r.climatizationEnabled == p.climatizationEnabled
    ensures r.chargingMode == p.chargingMode && r.chargingPreferences == p.chargingPreferences
  {
    if 1 <= id <= 3 && (id < 3 || weekly) then SetEnabled(p, id, state) else p
  }

  /**
   * The intended enableDisableTimer reads back through isTimerEnabled: the
   * named timer reports the new state and every other timer keeps its flag;
   * and it coincides with the as-written cascade exactly for the last
   * timer it reaches.
   */
  lemma {:induction false} EnableOneReadsBack(p: WeeklyPlanner, weekly: bool, id: int, state: bool)
    requires HasTimers(p, Weekly) && 1 <= id <= 3
    ensures TimerOf(EnableOne(p, weekly, id, state), id).value.timerEnabled == (if id < 3 || weekly then state else TimerOf(p, id).value.timerEnabled)
    ensures forall j :: 1 <= j <= 3 && j != id ==> TimerOf(EnableOne(p, weekly, id, state), j) == TimerOf(p, j)
    ensures CascadeDefined(p, weekly, id)
    ensures EnableCascade(p, weekly, id, state) == EnableOne(p, weekly, id, state) <==>
      forall j :: 1 <= j <= 3 && j != id && Cascades(weekly, id, j) ==> TimerOf(p, j).value.timerEnabled == state
  {
    var a := EnableCascade(p, weekly, id, state);
    var b := EnableOne(p, weekly, id, state);
    if forall j :: 1 <= j <= 3 && j != id && Cascades(weekly, id, j) ==> TimerOf(p, j).value.timerEnabled == state {
      assert forall j :: 1 <= j <= 3 ==> TimerOf(a, j) == TimerOf(b, j);
      assert a.timer1 == TimerOf(a, 1) && a.timer2 == TimerOf(a, 2) && a.timer3 == TimerOf(a, 3);
      assert b.timer1 == TimerOf(b, 1) && b.timer2 == TimerOf(b, 2) && b.timer3 == TimerOf(b, 3);
    }
    if a == b {
      forall j | 1 <= j <= 3 && j != id && Cascades(weekly, id, j)
        ensures TimerOf(p, j).value.timerEnabled == state
      {
        assert TimerOf(a, j) == TimerOf(b, j);
      }
    }
  }

  /** Where a planner's edits become visible: inside the profile, except for the detached EMPTY planner. */
  function Publish(profile: ChargeProfile, kind: ProfileType, p: WeeklyPlanner): (r: ChargeProfile)
    ensures kind == Empty ==> r == profile
    ensures kind == Weekly ==> r.weeklyPlanner == Some(p) && r.twoTimesTimer == profile.twoTimesTimer
    ensures kind == TwoTimes ==> r.twoTimesTimer == Some(p) && r.weeklyPlanner == profile.weeklyPlanner
  {
    match kind
    case Weekly => profile.(weeklyPlanner := Some(p))
    case TwoTimes => profile.(twoTimesTimer := Some(p))
    case Empty => profile
  }

  /** ChargeProfileWrapper. */
  class ChargeProfileWrapper {
    /** The variant and the cached times are set by the constructor and never reassigned. */
    const kind: ProfileType
    var chargeProfile: ChargeProfile
    var planner: WeeklyPlanner
    /** The hour and minute integers parsed at construction, by key. */
    const timers: map<TimeKey, int>
    /** The planner as it was when `timers` was filled. */
    ghost const initialPlanner: WeeklyPlanner

    ghost predicate Valid()
      reads this
    {
      && kind == TypeOf(chargeProfile)
      && (kind != Empty ==> chargeProfile == Publish(chargeProfile, kind, planner))
      && HasTimers(planner, kind)
      && CacheValid()
    }

    /** The cache holds exactly the variant's keys, each with what parsing the initial planner's string gave. */
    ghost predicate CacheValid()
    {
      && PlannerParses(initialPlanner, kind)
      && timers == TimeCache(initialPlanner, kind)
    }

    constructor (profile: ChargeProfile)
      requires Parseable(profile)
      ensures Valid()
      ensures kind == TypeOf(profile) && chargeProfile == profile
      ensures planner == PlannerOf(profile) && initialPlanner == planner
    {
      var k, p;
      if profile.weeklyPlanner.Some? {
        k, p := Weekly, profile.weeklyPlanner.value;
      } else if profile.twoTimesTimer.Some? {
        k, p := TwoTimes, profile.twoTimesTimer.value;
      } else {
        k, p := Empty, FreshPlanner;
      }
      assert p == PlannerOf(profile);
      chargeProfile, kind, planner, initialPlanner := profile, k, p, p;
      timers := TimeCache(p, k);
    }

    /** getType: 0 for WEEKLY, 1 for TWO_TIMES, -1 for EMPTY. */
    function GetType(): (r: int)
      reads this
      requires Valid()
      ensures r == 0 <==> chargeProfile.weeklyPlanner.Some?
      ensures r == 1 <==> chargeProfile.weeklyPlanner.None? && chargeProfile.twoTimesTimer.Some?
      ensures r == -1 <==> chargeProfile.weeklyPlanner.None? && chargeProfile.twoTimesTimer.None?
    {
      kind.Code()
    }

    /**
     * getTime: the value parsed at construction for a cached key, -1 for any
     * other key; edits made since do not show.
     */
    function GetTime(key: TimeKey): (r: int)
      reads this
      requires Valid()
      ensures CachedKey(kind, key) ==> ParsedTime(initialPlanner, key) == Some(r)
      ensures !CachedKey(kind, key) ==> r == -1
    {
      if key in timers then timers[key] else -1
    }

    /** Stores an edited planner; the profile sees it unless the variant is EMPTY. */
    method WritePlanner(p: WeeklyPlanner)
      requires Valid() && HasTimers(p, kind)
      modifies this
      ensures Valid()
      ensures planner == p && chargeProfile == Publish(old(chargeProfile), kind, p)
    {
      planner := p;
      if kind == Weekly {
        chargeProfile := chargeProfile.(weeklyPlanner := Some(p));
      } else if kind == TwoTimes {
        chargeProfile := chargeProfile.(twoTimesTimer := Some(p));
      }
    }

    /** setTime: rewrites one "HH:MM" string (two for the timer-3 minute); the cache is left as it was. */
    method SetTime(key: TimeKey, t: Int32)
      requires Valid() && TimeEditAllowed(planner, kind == Weekly, key)
      modifies this
      ensures Valid()
      ensures planner == EditTime(old(planner), kind == Weekly, key, t)
      ensures chargeProfile == Publish(old(chargeProfile), kind, planner)
    {
      var edited := EditTime(planner, kind == Weekly, key, t);
      assert WithoutTimes(edited) == WithoutTimes(planner);
      WritePlanner(edited);
    }

    /** isDaySelected: list membership for a weekly planner and timer ids 1-3, false otherwise. */
    function IsDaySelected(id: int, day: string): (r: bool)
      reads this
      requires Valid()
      ensures r <==> kind == Weekly && 1 <= id <= 3 && day in TimerOf(planner, id).value.weekdays
    {
      if kind == Weekly then
        if id == 1 then day in planner.timer1.value.weekdays
        else if id == 2 then day in planner.timer2.value.weekdays
        else if id == 3 then day in planner.timer3.value.weekdays
        else false
      else false
    }

    /** daySelection: ON adds the day if absent, OFF removes it if present; weekly planner and ids 1-3 only. */
    method DaySelection(id: int, day: string, on: bool)
      requires Valid()
      modifies this
      ensures Valid()
      ensures planner == SelectDay(old(planner), kind == Weekly, id, day, on)
      ensures chargeProfile == Publish(old(chargeProfile), kind, planner)
    {
      var edited := SelectDay(planner, kind == Weekly, id, day, on);
      WritePlanner(edited);
    }

    /** isTimerEnabled: the flag of timer 1 or 2, of timer 3 only for WEEKLY; false for every other id. */
    function IsTimerEnabled(id: int): (r: bool)
      reads this
      requires Valid()
      requires kind == Empty ==> id != 1 && id != 2
      ensures r <==> 1 <= id <= 3 && (id < 3 || kind == Weekly) && TimerOf(planner, id).value.timerEnabled
    {
      if id == 1 then planner.timer1.value.timerEnabled
      else if id == 2 then planner.timer2.value.timerEnabled
      else if id == 3 && kind == Weekly then planner.timer3.value.timerEnabled
      else false
    }

    /** enableDisableTimer, with its fall-through from id 1 to 2 to 3. */
    method EnableDisableTimer(id: int, state: bool)
      requires Valid()
      requires kind == Empty ==> id != 1 && id != 2
      modifies this
      ensures Valid()
      ensures planner == EnableCascade(old(planner), kind == Weekly, id, state)
      ensures chargeProfile == Publish(old(chargeProfile), kind, planner)
    {
      var edited := EnableCascade(planner, kind == Weekly, id, state);
      WritePlanner(edited);
    }

    function IsClimatizationEnabled(): (r: bool)
      reads this
      requires planner.climatizationEnabled.Some?
      ensures Some(r) == planner.climatizationEnabled
    {
      planner.climatizationEnabled.value
    }

    method EnableDisableClimate(b: bool)
      requires Valid()
      modifies this
      ensures Valid()
      ensures planner == old(planner).(climatizationEnabled := Some(b)) && IsClimatizationEnabled() == b
      ensures chargeProfile == Publish(old(chargeProfile), kind, planner)
    {
      WritePlanner(planner.(climatizationEnabled := Some(b)));
    }

    function GetChargingMode(): (r: Option<string>)
      reads this
      ensures r == planner.chargingMode
    {
      planner.chargingMode
    }

    method SetChargeMode(fullString: string)
      requires Valid()
      modifies this
      ensures Valid()
      ensures planner == old(planner).(chargingMode := Some(fullString)) && GetChargingMode() == Some(fullString)
      ensures chargeProfile == Publish(old(chargeProfile), kind, planner)
    {
      WritePlanner(planner.(chargingMode := Some(fullString)));
    }

    method SetChargePreferences(fullString: string)
      requires Valid()
      modifies this
      ensures Valid()
      ensures planner == old(planner).(chargingPreferences := Some(fullString))
      ensures GetChargingPreferences() == Some(fullString)
      ensures chargeProfile == Publish(old(chargeProfile), kind, planner)
    {
      WritePlanner(planner.(chargingPreferences := Some(fullString)));
    }

    function GetChargingPreferences(): (r: Option<string>)
      reads this
      ensures r == planner.chargingPreferences
    {
      planner.chargingPreferences
    }
  }
}
