/**
 * The channel-publishing base of a vehicle thing: the drive-train flags
 * derived from the vehicle type, the table from charge-timer day channels to
 * weekday names, the three list cursors (services, check-control messages,
 * destinations) and the choice of the charging status shown.
 *
 * A call to updateState is an emitted output: the update methods return the
 * ListView they publish instead of writing to a channel. The conversions
 * applied to an entry on the way out (title casing, unit conversion,
 * rounding, date formatting) are not modelled; the view carries the entry.
 */
module ChannelHandler {
  import opened Wrappers
  import opened JavaText
  import opened Constants
  import Status

  // ---------------------------------------------------------------------
  // Vehicle type flags
  // ---------------------------------------------------------------------

  datatype DriveTrain = DriveTrain(hasFuel: bool, isElectric: bool, isHybrid: bool)

  /**
   * The flags the constructor derives from the type string: combustion
   * engine for CONV, PHEV and BEV_REX, electric for PHEV, BEV_REX and BEV,
   * hybrid when both hold.
   */
  function DriveTrainOf(vehicleType: string): (d: DriveTrain)
    ensures d.isHybrid <==> d.hasFuel && d.isElectric
    ensures d.isHybrid <==> vehicleType == PLUGIN_HYBRID || vehicleType == ELECTRIC_REX
    ensures d.hasFuel && !d.isElectric <==> vehicleType == CONVENTIONAL
    ensures d.isElectric && !d.hasFuel <==> vehicleType == ELECTRIC
    ensures !d.hasFuel && !d.isElectric <==>
      vehicleType !in {CONVENTIONAL, PLUGIN_HYBRID, ELECTRIC_REX, ELECTRIC}
  {
    var hasFuel := vehicleType == CONVENTIONAL || vehicleType == PLUGIN_HYBRID || vehicleType == ELECTRIC_REX;
    var isElectric := vehicleType == PLUGIN_HYBRID || vehicleType == ELECTRIC_REX || vehicleType == ELECTRIC;
    DriveTrain(hasFuel, isElectric, hasFuel && isElectric)
  }

  // ---------------------------------------------------------------------
  // Charge-timer day channels
  // ---------------------------------------------------------------------

  /**
   * One of the 21 day channels of the charge group, such as the Monday
   * channel of timer 1. The channel-id strings are defined in a constants
   * file that is not part of this model; here a channel is named by its
   * timer and its day.
   */
  datatype DayTimer = DayTimer1 | DayTimer2 | DayTimer3

  datatype DayChannel = DayChannel(timer: DayTimer, day: Weekday)

  /** The weekday a stored weekday name stands for, if any. */
  function WeekdayNamed(name: string): Option<Weekday>
  {
    if name == Monday.Name() then Some(Monday)
    else if name == Tuesday.Name() then Some(Tuesday)
    else if name == Wednesday.Name() then Some(Wednesday)
    else if name == Thursday.Name() then Some(Thursday)
    else if name == Friday.Name() then Some(Friday)
    else if name == Saturday.Name() then Some(Saturday)
    else if name == Sunday.Name() then Some(Sunday)
    else None
  }

  /**
   * A weekday's name gives back the weekday, so distinct weekdays have
   * distinct names and each timer's seven day channels select seven
   * different days.
   */
  lemma WeekdayNameRoundTrip(d: Weekday)
    ensures WeekdayNamed(d.Name()) == Some(d)
  {
    match d
    case Monday =>
    case Tuesday =>
    case Wednesday =>
    case Thursday =>
    case Friday =>
    case Saturday =>
    case Sunday =>
  }

  /** The channel-to-day table the constructor fills, in the order of its puts. */
  const DayTable: map<DayChannel, string> := map[
    DayChannel(DayTimer1, Monday) := Monday.Name(),
    DayChannel(DayTimer2, Monday) := Monday.Name(),
    DayChannel(DayTimer3, Monday) := Monday.Name(),
    DayChannel(DayTimer1, Tuesday) := Tuesday.Name(),
    DayChannel(DayTimer2, Tuesday) := Tuesday.Name(),
    DayChannel(DayTimer3, Tuesday) := Tuesday.Name(),
    DayChannel(DayTimer1, Wednesday) := Wednesday.Name(),
    DayChannel(DayTimer2, Wednesday) := Wednesday.Name(),
    DayChannel(DayTimer3, Wednesday) := Wednesday.Name(),
    DayChannel(DayTimer1, Thursday) := Thursday.Name(),
    DayChannel(DayTimer2, Thursday) := Thursday.Name(),
    DayChannel(DayTimer3, Thursday) := Thursday.Name(),
    DayChannel(DayTimer1, Friday) := Friday.Name(),
    DayChannel(DayTimer2, Friday) := Friday.Name(),
    DayChannel(DayTimer3, Friday) := Friday.Name(),
    DayChannel(DayTimer1, Saturday) := Saturday.Name(),
    DayChannel(DayTimer2, Saturday) := Saturday.Name(),
    DayChannel(DayTimer3, Saturday) := Saturday.Name(),
    DayChannel(DayTimer1, Sunday) := Sunday.Name(),
    DayChannel(DayTimer2, Sunday) := Sunday.Name(),
    DayChannel(DayTimer3, Sunday) := Sunday.Name()]

  /** Every day channel of every timer is in the table and maps to the name of its own weekday. */
  lemma DayTableEntry(c: DayChannel)
    ensures c in DayTable && DayTable[c] == c.day.Name()
  {
    match c
    case DayChannel(DayTimer1, Monday) =>
    case DayChannel(DayTimer2, Monday) =>
    case DayChannel(DayTimer3, Monday) =>
    case DayChannel(DayTimer1, Tuesday) =>
    case DayChannel(DayTimer2, Tuesday) =>
    case DayChannel(DayTimer3, Tuesday) =>
    case DayChannel(DayTimer1, Wednesday) =>
    case DayChannel(DayTimer2, Wednesday) =>
    case DayChannel(DayTimer3, Wednesday) =>
    case DayChannel(DayTimer1, Thursday) =>
    case DayChannel(DayTimer2, Thursday) =>
    case DayChannel(DayTimer3, Thursday) =>
    case DayChannel(DayTimer1, Friday) =>
    case DayChannel(DayTimer2, Friday) =>
    case DayChannel(DayTimer3, Friday) =>
    case DayChannel(DayTimer1, Saturday) =>
    case DayChannel(DayTimer2, Saturday) =>
    case DayChannel(DayTimer3, Saturday) =>
    case DayChannel(DayTimer1, Sunday) =>
    case DayChannel(DayTimer2, Sunday) =>
    case DayChannel(DayTimer3, Sunday) =>
  }

  // ---------------------------------------------------------------------
  // List cursors
  // ---------------------------------------------------------------------

  /** A navigation-target entry; its coordinates are passed through unchanged. */
  datatype Destination = Destination(address: string, lat: real, lon: real)

  /**
   * What an update call publishes: the entry under the cursor with the list
   * size and the cursor, or, for an empty list, the INVALID placeholders with
   * size 0 and index -1.
   */
  datatype ListView<T> = Entry(entry: T, size: nat, index: nat) | Cleared
  {
    /** The value published on the size channel. */
    function Size(): nat
    {
      if Entry? then size else 0
    }

    /** The value published on the index channel. */
    function Index(): int
    {
      if Entry? then index else -1
    }
  }

  /** The cursor selects an element, unless the list is empty. */
  predicate InRange<T>(list: seq<T>, index: int)
  {
    list != [] ==> 0 <= index < |list|
  }

  /**
   * The index an update call leaves behind: on a non-empty list an index
   * outside [0, size) is reset to 0 (the first item); on an empty list the
   * stored index is left alone.
   */
  function Cursor(size: nat, index: Int32): (r: Int32)
    ensures size > 0 ==> 0 <= r < size
    ensures size == 0 || 0 <= index < size ==> r == index
    ensures size > 0 && !(0 <= index < size) ==> r == 0
  {
    if size > 0 && (index < 0 || index >= size) then 0 else index
  }

  /** The view published for a list and an in-range cursor. */
  function View<T>(list: seq<T>, index: int): (v: ListView<T>)
    requires InRange(list, index)
    ensures v.Cleared? <==> list == []
    ensures v.Entry? ==> v.entry == list[index]
    ensures v.Size() == |list|
    ensures v.Index() == if list == [] then -1 else index
  {
    if list == [] then Cleared else Entry(list[index], |list|, index)
  }

  /** The cursor after one next call on a list of `size` elements: increment, then reset when out of range. */
  function Step(size: nat, index: Int32): Int32
  {
    Cursor(size, Inc32(index))
  }

  /** The cursor after k next calls. */
  function Advance(size: nat, index: Int32, k: nat): Int32
  {
    if k == 0 then index else Step(size, Advance(size, index, k - 1))
  }

  /** Java list sizes are ints, so a list the handler holds has at most INT_MAX elements. */
  predicate JavaSized<T>(list: seq<T>)
  {
    |list| <= INT_MAX
  }

  /** Each next call on a non-empty list moves to the following element, and from the last one back to the first. */
  lemma StepMovesOn(size: nat, index: Int32)
    requires 0 < size <= INT_MAX && 0 <= index < size
    ensures Step(size, index) == if index + 1 == size then 0 else index + 1
  {
  }

  /** Before the end of the list, k next calls move the cursor k elements on. */
  lemma {:induction false} AdvanceWithinList(size: nat, index: Int32, k: nat)
    requires size <= INT_MAX && 0 <= index && index + k < size
    ensures Advance(size, index, k) == index + k
  {
    if k > 0 {
      AdvanceWithinList(size, index, k - 1);
      StepMovesOn(size, index + k - 1);
    }
  }

  /** Running off the end of the list brings the cursor back to the first element. */
  lemma AdvanceWraps(size: nat, index: Int32)
    requires size <= INT_MAX && 0 <= index < size
    ensures Advance(size, index, size - index) == 0
  {
    AdvanceWithinList(size, index, size - index - 1);
    StepMovesOn(size, size - 1);
  }

  lemma {:induction false} AdvanceComposes(size: nat, index: Int32, a: nat, b: nat)
    ensures Advance(size, index, a + b) == Advance(size, Advance(size, index, a), b)
  {
    if b > 0 {
      AdvanceComposes(size, index, a, b - 1);
    }
  }

  /** A full round of `size` next calls returns the cursor to where it started. */
  lemma AdvanceFullCycle(size: nat, index: Int32)
    requires size <= INT_MAX && 0 <= index < size
    ensures Advance(size, index, size) == index
  {
    AdvanceComposes(size, index, size - index, index);
    AdvanceWraps(size, index);
    AdvanceWithinList(size, 0, index);
  }

  /** Starting from the first element, every element is shown by some number (less than the size) of next calls. */
  lemma AdvanceVisitsAll(size: nat, target: int)
    requires size <= INT_MAX && 0 <= target < size
    ensures exists k: nat :: k < size && Advance(size, 0, k) == target
  {
    AdvanceWithinList(size, 0, target);
  }

  /** One next call on the check-control list as written: the cursor is incremented and not reset. */
  function CheckControlStep(index: Int32): Int32
  {
    Inc32(index)
  }

  /**
   * On the last check-control message, nextCheckControl as written leaves the
   * cursor one past the end of the list, where the intended step wraps to the
   * first message.
   */
  lemma CheckControlCursorEscapes(messages: seq<Status.CCMMessage>)
    requires messages != [] && JavaSized(messages)
    ensures !InRange(messages, CheckControlStep(|messages| - 1))
    ensures InRange(messages, Step(|messages|, |messages| - 1))
  {
  }

  // ---------------------------------------------------------------------
  // Charging status
  // ---------------------------------------------------------------------

  /**
   * The charging status published by updateVehicleStatus: nothing for a
   * vehicle without electric drive or without a charging status; for the
   * value INVALID, the last charging end reason instead; otherwise the
   * status itself. Converter.toTitleCase is not part of this model and is
   * passed in; it receives null when a field is missing.
   */
  function ChargingStatusShown(isElectric: bool, vs: Status.VehicleStatus, toTitleCase: Option<string> -> string): (r: Option<string>)
    ensures r.Some? <==> isElectric && vs.chargingStatus.Some?
    ensures r.Some? && vs.chargingStatus == Some(INVALID) ==> r == Some(toTitleCase(vs.lastChargingEndReason))
    ensures r.Some? && vs.chargingStatus != Some(INVALID) ==> r == Some(toTitleCase(vs.chargingStatus))
  {
    if !isElectric || vs.chargingStatus.None? then None
    else if vs.chargingStatus.value == INVALID then Some(toTitleCase(vs.lastChargingEndReason))
    else Some(toTitleCase(vs.chargingStatus))
  }

  /** The last charging end reason matters only while the status is INVALID. */
  lemma EndReasonOnlyForInvalid(isElectric: bool, vs: Status.VehicleStatus, reason: Option<string>, toTitleCase: Option<string> -> string)
    requires vs.chargingStatus != Some(INVALID)
    ensures ChargingStatusShown(isElectric, vs.(lastChargingEndReason := reason), toTitleCase)
         == ChargingStatusShown(isElectric, vs, toTitleCase)
  {
  }

  /**
   * The door and window channels of a status update: checkClosed over the
   * door view and over the window view of the record.
   */
  method DoorsAndWindows(vs: Status.VehicleStatus) returns (doors: string, windows: string)
    ensures doors == Status.Aggregate(Status.DoorFields(vs)).Name()
    ensures windows == Status.Aggregate(Status.WindowFields(vs)).Name()
  {
    var d := Status.CheckClosed(Status.DoorFields(vs));
    var w := Status.CheckClosed(Status.WindowFields(vs));
    doors, windows := d.Name(), w.Name();
  }

  // ---------------------------------------------------------------------
  // The handler
  // ---------------------------------------------------------------------

  class VehicleChannelHandler {
    const imperial: bool
    const hasFuel: bool
    const isElectric: bool
    const isHybrid: bool
    const channelDayMapping: map<DayChannel, string>

    var serviceList: seq<Status.CBSMessage>
    var serviceListIndex: Int32
    var checkControlList: seq<Status.CCMMessage>
    var checkControlListIndex: Int32
    var destinationList: seq<Destination>
    var destinationListIndex: Int32

    /**
     * The service and destination cursors always select an element of a
     * non-empty list. The check-control cursor does not: nextCheckControl
     * moves it without resetting it.
     */
    ghost predicate Valid()
      reads this
    {
      InRange(serviceList, serviceListIndex) && InRange(destinationList, destinationListIndex)
    }

    constructor(vehicleType: string, imperial: bool)
      ensures Valid()
      ensures this.imperial == imperial
      ensures DriveTrain(hasFuel, isElectric, isHybrid) == DriveTrainOf(vehicleType)
      ensures channelDayMapping == DayTable
      ensures serviceList == [] && checkControlList == [] && destinationList == []
      ensures serviceListIndex == -1 && checkControlListIndex == -1 && destinationListIndex == -1
    {
      this.imperial := imperial;
      var fuel := vehicleType == CONVENTIONAL || vehicleType == PLUGIN_HYBRID || vehicleType == ELECTRIC_REX;
      var electric := vehicleType == PLUGIN_HYBRID || vehicleType == ELECTRIC_REX || vehicleType == ELECTRIC;
      hasFuel := fuel;
      isElectric := electric;
      isHybrid := fuel && electric;

      var m: map<DayChannel, string> := map[];
      m := m[DayChannel(DayTimer1, Monday) := Monday.Name()];
      m := m[DayChannel(DayTimer2, Monday) := Monday.Name()];
      m := m[DayChannel(DayTimer3, Monday) := Monday.Name()];
      m := m[DayChannel(DayTimer1, Tuesday) := Tuesday.Name()];
      m := m[DayChannel(DayTimer2, Tuesday) := Tuesday.Name()];
      m := m[DayChannel(DayTimer3, Tuesday) := Tuesday.Name()];
      m := m[DayChannel(DayTimer1, Wednesday) := Wednesday.Name()];
      m := m[DayChannel(DayTimer2, Wednesday) := Wednesday.Name()];
      m := m[DayChannel(DayTimer3, Wednesday) := Wednesday.Name()];
      m := m[DayChannel(DayTimer1, Thursday) := Thursday.Name()];
      m := m[DayChannel(DayTimer2, Thursday) := Thursday.Name()];
      m := m[DayChannel(DayTimer3, Thursday) := Thursday.Name()];
      m := m[DayChannel(DayTimer1, Friday) := Friday.Name()];
      m := m[DayChannel(DayTimer2, Friday) := Friday.Name()];
      m := m[DayChannel(DayTimer3, Friday) := Friday.Name()];
      m := m[DayChannel(DayTimer1, Saturday) := Saturday.Name()];
      m := m[DayChannel(DayTimer2, Saturday) := Saturday.Name()];
      m := m[DayChannel(DayTimer3, Saturday) := Saturday.Name()];
      m := m[DayChannel(DayTimer1, Sunday) := Sunday.Name()];
      m := m[DayChannel(DayTimer2, Sunday) := Sunday.Name()];
      m := m[DayChannel(DayTimer3, Sunday) := Sunday.Name()];
      channelDayMapping := m;

      serviceList, serviceListIndex := [], -1;
      checkControlList, checkControlListIndex := [], -1;
      destinationList, destinationListIndex := [], -1;
    }

    // --- services ---

    method UpdateService() returns (view: ListView<Status.CBSMessage>)
      modifies this`serviceListIndex
      ensures serviceListIndex == Cursor(|serviceList|, old(serviceListIndex))
      ensures InRange(serviceList, serviceListIndex)
      ensures view == View(serviceList, serviceListIndex)
    {
      if serviceList != [] {
        if serviceListIndex < 0 || serviceListIndex >= |serviceList| {
          serviceListIndex := 0;
        }
        view := Entry(serviceList[serviceListIndex], |serviceList|, serviceListIndex);
      } else {
        view := Cleared;
      }
    }

    method NextService() returns (view: ListView<Status.CBSMessage>)
      modifies this`serviceListIndex
      requires Valid()
      ensures Valid()
      ensures serviceListIndex == Step(|serviceList|, old(serviceListIndex))
      ensures view == View(serviceList, serviceListIndex)
    {
      serviceListIndex := Inc32(serviceListIndex);
      view := UpdateService();
    }

    method SetServiceList(l: seq<Status.CBSMessage>) returns (view: ListView<Status.CBSMessage>)
      modifies this`serviceList, this`serviceListIndex
      requires Valid()
      ensures Valid()
      ensures serviceList == l
      ensures serviceListIndex == Cursor(|l|, old(serviceListIndex))
      ensures view == View(serviceList, serviceListIndex)
    {
      serviceList := l;
      view := UpdateService();
    }

    // --- check-control messages ---

    method UpdateCheckControls() returns (view: ListView<Status.CCMMessage>)
      modifies this`checkControlListIndex
      ensures checkControlListIndex == Cursor(|checkControlList|, old(checkControlListIndex))
      ensures InRange(checkControlList, checkControlListIndex)
      ensures view == View(checkControlList, checkControlListIndex)
    {
      if checkControlList != [] {
        if checkControlListIndex < 0 || checkControlListIndex >= |checkControlList| {
          checkControlListIndex := 0;
        }
        view := Entry(checkControlList[checkControlListIndex], |checkControlList|, checkControlListIndex);
      } else {
        view := Cleared;
      }
    }

    /**
     * nextCheckControl as written: it moves the check-control cursor but
     * refreshes the service view, so the check-control channels keep their
     * old values and the cursor is not reset.
     */
    method NextCheckControl() returns (view: ListView<Status.CBSMessage>)
      modifies this`checkControlListIndex, this`serviceListIndex
      requires Valid()
      ensures Valid()
      ensures checkControlListIndex == CheckControlStep(old(checkControlListIndex))
      ensures serviceListIndex == Cursor(|serviceList|, old(serviceListIndex))
      ensures view == View(serviceList, serviceListIndex)
    {
      checkControlListIndex := Inc32(checkControlListIndex);
      view := UpdateService();
    }

    /** nextCheckControl as evidently intended: like nextService, on the check-control list. */
    method NextCheckControlIntended() returns (view: ListView<Status.CCMMessage>)
      modifies this`checkControlListIndex
      requires Valid()
      ensures Valid()
      ensures checkControlListIndex == Step(|checkControlList|, old(checkControlListIndex))
      ensures view == View(checkControlList, checkControlListIndex)
    {
      checkControlListIndex := Inc32(checkControlListIndex);
      view := UpdateCheckControls();
    }

    method SetCheckControlList(l: seq<Status.CCMMessage>) returns (view: ListView<Status.CCMMessage>)
      modifies this`checkControlList, this`checkControlListIndex
      requires Valid()
      ensures Valid()
      ensures checkControlList == l
      ensures checkControlListIndex == Cursor(|l|, old(checkControlListIndex))
      ensures view == View(checkControlList, checkControlListIndex)
    {
      checkControlList := l;
      view := UpdateCheckControls();
    }

    // --- destinations ---

    method UpdateDestination() returns (view: ListView<Destination>)
      modifies this`destinationListIndex
      ensures destinationListIndex == Cursor(|destinationList|, old(destinationListIndex))
      ensures InRange(destinationList, destinationListIndex)
      ensures view == View(destinationList, destinationListIndex)
    {
      if destinationList != [] {
        if destinationListIndex < 0 || destinationListIndex >= |destinationList| {
          destinationListIndex := 0;
        }
        view := Entry(destinationList[destinationListIndex], |destinationList|, destinationListIndex);
      } else {
        view := Cleared;
      }
    }

    method SetDestinationList(l: seq<Destination>) returns (view: ListView<Destination>)
      modifies this`destinationList, this`destinationListIndex
      requires Valid()
      ensures Valid()
      ensures destinationList == l
      ensures destinationListIndex == Cursor(|l|, old(destinationListIndex))
      ensures view == View(destinationList, destinationListIndex)
    {
      destinationList := l;
      view := UpdateDestination();
    }

    method NextDestination() returns (view: ListView<Destination>)
      modifies this`destinationListIndex
      requires Valid()
      ensures Valid()
      ensures destinationListIndex == Step(|destinationList|, old(destinationListIndex))
      ensures view == View(destinationList, destinationListIndex)
    {
      destinationListIndex := Inc32(destinationListIndex);
      view := UpdateDestination();
    }
  }
}
