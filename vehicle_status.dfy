/**
 * The vehicle-status normaliser: it turns the vendor's sparse status record
 * into the aggregate door and window state, the next service, the next
 * service date and mileage, the check-control summary and the update time.
 *
 * Due dates are points of an abstract time line (the result of parsing the
 * vendor's "YYYY-MM" string), and "now plus 100 years", the far-future start
 * value of the date scans, is a parameter `horizon`.
 */
module Status {
  import opened Wrappers
  import opened JavaText
  import opened Constants

  /** A parsed due date; `IsBefore` is LocalDateTime.isBefore. */
  datatype Date = Date(ordinal: int)

  predicate IsBefore(a: Date, b: Date) { a.ordinal < b.ordinal }

  /** A Condition Based Service entry; a remaining mileage of 0 means "no mileage condition". */
  datatype CBSMessage = CBSMessage(
    cbsType: Option<string>,
    cbsState: Option<string>,
    cbsDueDate: Option<Date>,
    cbsDescription: Option<string>,
    cbsRemainingMileage: Int32)

  /** `new CBSMessage()`: every string null, mileage 0. */
  const DefaultCBS: CBSMessage := CBSMessage(None, None, None, None, 0)

  /** A check-control message. */
  datatype CCMMessage = CCMMessage(ccmDescriptionShort: string, ccmMileage: Int32)

  /** The fields of the status record that the normaliser reads. */
  datatype VehicleStatus = VehicleStatus(
    updateTime: Option<string>,
    internalDataTimeUTC: Option<string>,
    doorDriverFront: Option<string>,
    doorDriverRear: Option<string>,
    doorPassengerFront: Option<string>,
    doorPassengerRear: Option<string>,
    trunk: Option<string>,
    hood: Option<string>,
    windowDriverFront: Option<string>,
    windowDriverRear: Option<string>,
    windowPassengerFront: Option<string>,
    windowPassengerRear: Option<string>,
    rearWindow: Option<string>,
    sunroof: Option<string>,
    chargingStatus: Option<string>,
    lastChargingEndReason: Option<string>,
    checkControlMessages: Option<seq<CCMMessage>>,
    cbsData: Option<seq<CBSMessage>>)

  /** The door view of the record, in the order the channel handler publishes it. */
  function DoorFields(vs: VehicleStatus): (fields: seq<Option<string>>)
    ensures |fields| == 6
  {
    [vs.doorDriverFront, vs.doorDriverRear, vs.doorPassengerFront, vs.doorPassengerRear, vs.trunk, vs.hood]
  }

  /** The window view of the record, in the order the channel handler publishes it. */
  function WindowFields(vs: VehicleStatus): (fields: seq<Option<string>>)
    ensures |fields| == 6
  {
    [vs.windowDriverFront, vs.windowDriverRear, vs.windowPassengerFront, vs.windowPassengerRear,
     vs.rearWindow, vs.sunroof]
  }

  // ---------------------------------------------------------------------
  // checkClosed
  // ---------------------------------------------------------------------

  datatype OverallState = Open | Intermediate | Closed | Unknown
  {
    /** The constant string checkClosed returns. */
    function Name(): string
    {
      match this
      case Open => OPEN
      case Intermediate => INTERMEDIATE
      case Closed => CLOSED
      case Unknown => UNKNOWN
    }
  }

  /** How checkClosed reads one field value. */
  datatype FieldWord = Skipped | OpenWord | IntermediateWord | ClosedWord

  /** Null, INVALID (in any case) and unrecognised values are all skipped. */
  function WordOf(v: Option<string>): FieldWord
  {
    if v.None? || EqualsIgnoreCase(v.value, INVALID) then Skipped
    else if EqualsIgnoreCase(v.value, OPEN) then OpenWord
    else if EqualsIgnoreCase(v.value, INTERMEDIATE) then IntermediateWord
    else if EqualsIgnoreCase(v.value, CLOSED) then ClosedWord
    else Skipped
  }

  predicate Occurs(fields: seq<Option<string>>, w: FieldWord)
  {
    exists i :: 0 <= i < |fields| && WordOf(fields[i]) == w
  }

  /** The aggregate state: any open field wins, then intermediate, then closed; otherwise unknown. */
  function Aggregate(fields: seq<Option<string>>): (r: OverallState)
    ensures r == Unknown <==> forall i :: 0 <= i < |fields| ==> WordOf(fields[i]) == Skipped
  {
    if Occurs(fields, OpenWord) then Open
    else if Occurs(fields, IntermediateWord) then Intermediate
    else if Occurs(fields, ClosedWord) then Closed
    else Unknown
  }

  lemma OccursSnoc(fields: seq<Option<string>>, v: Option<string>, w: FieldWord)
    ensures Occurs(fields + [v], w) <==> Occurs(fields, w) || WordOf(v) == w
  {
    var s := fields + [v];
    assert s[|fields|] == v;
    if Occurs(fields, w) {
      var i :| 0 <= i < |fields| && WordOf(fields[i]) == w;
      assert s[i] == fields[i];
    }
    if Occurs(s, w) && WordOf(v) != w {
      var i :| 0 <= i < |s| && WordOf(s[i]) == w;
      assert i < |fields| && s[i] == fields[i];
    }
  }

  /** One step of the scan, as the loop body of checkClosed takes it. */
  lemma AggregateSnoc(fields: seq<Option<string>>, v: Option<string>)
    requires Aggregate(fields) != Open
    ensures WordOf(v) == OpenWord ==> Aggregate(fields + [v]) == Open
    ensures WordOf(v) == IntermediateWord ==> Aggregate(fields + [v]) == Intermediate
    ensures WordOf(v) == ClosedWord ==>
      Aggregate(fields + [v]) == (if Aggregate(fields) == Unknown then Closed else Aggregate(fields))
    ensures WordOf(v) == Skipped ==> Aggregate(fields + [v]) == Aggregate(fields)
  {
    OccursSnoc(fields, v, OpenWord);
    OccursSnoc(fields, v, IntermediateWord);
    OccursSnoc(fields, v, ClosedWord);
  }

  /**
   * VehicleStatus.checkClosed over the fields of a door or window view,
   * given as a sequence instead of by reflection.
   */
  method CheckClosed(fields: seq<Option<string>>) returns (overallState: OverallState)
    ensures overallState == Aggregate(fields)
  {
    overallState := Unknown;
    var i := 0;
    while i < |fields|
      invariant 0 <= i <= |fields|
      invariant overallState != Open
      invariant overallState == Aggregate(fields[..i])
    {
      AggregateSnoc(fields[..i], fields[i]);
      assert fields[..i + 1] == fields[..i] + [fields[i]];
      var d := fields[i];
      if d.Some? {
        var state := d.value;
        // skip invalid entries: they do not apply to this vehicle
        if !EqualsIgnoreCase(state, INVALID) {
          if EqualsIgnoreCase(state, OPEN) {
            overallState := Open;
            assert WordOf(fields[i]) == OpenWord;
            break;
          } else if EqualsIgnoreCase(state, INTERMEDIATE) {
            if overallState != Open {
              overallState := Intermediate;
            }
          } else if EqualsIgnoreCase(state, CLOSED) {
            if overallState == Unknown {
              overallState := Closed;
            }
          }
        }
      }
      i := i + 1;
    }
    if i == |fields| {
      assert fields[..i] == fields;
    }
  }

  lemma OccursPermuted(f: seq<Option<string>>, g: seq<Option<string>>, w: FieldWord)
    requires multiset(f) == multiset(g)
    ensures Occurs(f, w) ==> Occurs(g, w)
  {
    if Occurs(f, w) {
      var i :| 0 <= i < |f| && WordOf(f[i]) == w;
      assert f[i] in multiset(f);
      assert f[i] in g;
      var j :| 0 <= j < |g| && g[j] == f[i];
    }
  }

  /** The aggregate does not depend on the order in which the fields are visited. */
  lemma AggregateOrderIndependent(f: seq<Option<string>>, g: seq<Option<string>>)
    requires multiset(f) == multiset(g)
    ensures Aggregate(f) == Aggregate(g)
  {
    OccursPermuted(f, g, OpenWord);
    OccursPermuted(g, f, OpenWord);
    OccursPermuted(f, g, IntermediateWord);
    OccursPermuted(g, f, IntermediateWord);
    OccursPermuted(f, g, ClosedWord);
    OccursPermuted(g, f, ClosedWord);
  }

  lemma OccursWithout(a: seq<Option<string>>, v: Option<string>, b: seq<Option<string>>, w: FieldWord)
    requires WordOf(v) == Skipped && w != Skipped
    ensures Occurs(a + [v] + b, w) <==> Occurs(a + b, w)
  {
    var s, t := a + [v] + b, a + b;
    if Occurs(s, w) {
      var i :| 0 <= i < |s| && WordOf(s[i]) == w;
      if i < |a| {
        assert t[i] == s[i];
      } else {
        assert i > |a| && t[i - 1] == s[i];
      }
    }
    if Occurs(t, w) {
      var i :| 0 <= i < |t| && WordOf(t[i]) == w;
      if i < |a| {
        assert s[i] == t[i];
      } else {
        assert s[i + 1] == t[i];
      }
    }
  }

  /** A null, INVALID or unrecognised field can be added anywhere without changing the aggregate. */
  lemma AggregateIgnoresSkipped(a: seq<Option<string>>, v: Option<string>, b: seq<Option<string>>)
    requires WordOf(v) == Skipped
    ensures Aggregate(a + [v] + b) == Aggregate(a + b)
  {
    OccursWithout(a, v, b, OpenWord);
    OccursWithout(a, v, b, IntermediateWord);
    OccursWithout(a, v, b, ClosedWord);
  }

  /**
   * checkClosed's promise: CLOSED exactly when every field is closed or
   * skipped and at least one is closed; OPEN exactly when some field is open.
   */
  lemma ClosedIffAllShut(fields: seq<Option<string>>)
    ensures Aggregate(fields) == Closed <==>
      (forall i :: 0 <= i < |fields| ==> WordOf(fields[i]) == Skipped || WordOf(fields[i]) == ClosedWord)
      && Occurs(fields, ClosedWord)
    ensures Aggregate(fields) == Open <==> exists i :: 0 <= i < |fields| && WordOf(fields[i]) == OpenWord
  {
    if forall i :: 0 <= i < |fields| ==> WordOf(fields[i]) == Skipped || WordOf(fields[i]) == ClosedWord {
      assert !Occurs(fields, OpenWord) && !Occurs(fields, IntermediateWord);
    }
  }

  // ---------------------------------------------------------------------
  // getNextService
  // ---------------------------------------------------------------------

  /** The scan state of getNextService: tracked mileage, tracked date, chosen entry. */
  datatype Pick = Pick(mileage: int, date: Date, cbs: CBSMessage)

  /** One iteration of the getNextService loop; both-field entries win on EITHER axis and overwrite both trackers. */
  function NextServiceStep(p: Pick, entry: CBSMessage): Pick
  {
    if entry.cbsRemainingMileage != 0 && entry.cbsDueDate.Some? then
      if entry.cbsRemainingMileage < p.mileage || IsBefore(entry.cbsDueDate.value, p.date) then
        Pick(entry.cbsRemainingMileage, entry.cbsDueDate.value, entry)
      else p
    else if entry.cbsRemainingMileage != 0 then
      if entry.cbsRemainingMileage < p.mileage then Pick(entry.cbsRemainingMileage, p.date, entry) else p
    else if entry.cbsDueDate.Some? then
      if IsBefore(entry.cbsDueDate.value, p.date) then Pick(p.mileage, entry.cbsDueDate.value, entry) else p
    else p
  }

  /** The loop of getNextService run over `entries` from `start`. */
  function NextServiceScan(start: Pick, entries: seq<CBSMessage>): Pick
  {
    if entries == [] then start
    else NextServiceStep(NextServiceScan(start, entries[..|entries| - 1]), entries[|entries| - 1])
  }

  /** The scan starts with mileage Integer.MAX_VALUE, date "now + 100 years" and the default message. */
  function NextServiceStart(horizon: Date): Pick
  {
    Pick(INT_MAX, horizon, DefaultCBS)
  }

  /** getNextService: the default message for a null or empty list, otherwise the scan's choice. */
  function NextService(cbsData: Option<seq<CBSMessage>>, horizon: Date): CBSMessage
  {
    match cbsData
    case None => DefaultCBS
    case Some(entries) => if entries == [] then DefaultCBS else NextServiceScan(NextServiceStart(horizon), entries).cbs
  }

  /** VehicleStatus.getNextService; `horizon` is LocalDateTime.now().plusYears(100). */
  method GetNextService(cbsData: Option<seq<CBSMessage>>, horizon: Date) returns (cbs: CBSMessage)
    ensures cbs == NextService(cbsData, horizon)
  {
    cbs := DefaultCBS;
    if cbsData.None? {
      return;
    }
    var entries := cbsData.value;
    if |entries| == 0 {
      return;
    }
    var serviceMileage: int := INT_MAX;
    var serviceDate := horizon;
    for i := 0 to |entries|
      invariant Pick(serviceMileage, serviceDate, cbs) == NextServiceScan(NextServiceStart(horizon), entries[..i])
    {
      assert entries[..i + 1][..i] == entries[..i];
      var entry := entries[i];
      if entry.cbsRemainingMileage != 0 && entry.cbsDueDate.Some? {
        var d := entry.cbsDueDate.value;
        if entry.cbsRemainingMileage < serviceMileage || IsBefore(d, serviceDate) {
          serviceDate := d;
          serviceMileage := entry.cbsRemainingMileage;
          cbs := entry;
        }
      } else if entry.cbsRemainingMileage != 0 {
        if entry.cbsRemainingMileage < serviceMileage {
          serviceMileage := entry.cbsRemainingMileage;
          cbs := entry;
        }
      } else if entry.cbsDueDate.Some? {
        var d := entry.cbsDueDate.value;
        if IsBefore(d, serviceDate) {
          serviceDate := d;
          cbs := entry;
        }
      }
    }
    assert entries[..|entries|] == entries;
  }

  /** An entry getNextService can choose: one with a mileage or a due date. */
  predicate Selectable(entry: CBSMessage)
  {
    entry.cbsRemainingMileage != 0 || entry.cbsDueDate.Some?
  }

  lemma {:induction false} ScanKeepsStartOrSelectable(start: Pick, entries: seq<CBSMessage>)
    ensures var c := NextServiceScan(start, entries).cbs;
      c == start.cbs || (c in entries && Selectable(c))
  {
    if entries != [] {
      var init := entries[..|entries| - 1];
      ScanKeepsStartOrSelectable(start, init);
      var c := NextServiceScan(start, init).cbs;
      if c != start.cbs {
        assert c in init;
        assert forall x :: x in init ==> x in entries;
      }
    }
  }

  /**
   * getNextService returns the default message or an entry of the list, and
   * never an entry with neither a mileage nor a due date.
   */
  lemma NextServiceIsDefaultOrEntry(cbsData: Option<seq<CBSMessage>>, horizon: Date)
    ensures var r := NextService(cbsData, horizon);
      r == DefaultCBS || (cbsData.Some? && r in cbsData.value && Selectable(r))
  {
    if cbsData.Some? && cbsData.value != [] {
      ScanKeepsStartOrSelectable(NextServiceStart(horizon), cbsData.value);
    }
  }

  /** Entry k has the smallest mileage, and no earlier entry ties with it. */
  predicate FirstMinimumMileage(entries: seq<CBSMessage>, k: int)
    requires 0 <= k < |entries|
  {
    && (forall j :: 0 <= j < |entries| ==> entries[k].cbsRemainingMileage <= entries[j].cbsRemainingMileage)
    && (forall j :: 0 <= j < k ==> entries[j].cbsRemainingMileage > entries[k].cbsRemainingMileage)
  }

  predicate MileageOnly(entries: seq<CBSMessage>)
  {
    forall i :: 0 <= i < |entries| ==>
      entries[i].cbsDueDate.None? && entries[i].cbsRemainingMileage != 0 && entries[i].cbsRemainingMileage < INT_MAX
  }

  lemma {:induction false} MileageOnlyScan(entries: seq<CBSMessage>, horizon: Date)
    requires |entries| > 0 && MileageOnly(entries)
    ensures exists k :: (0 <= k < |entries|
      && NextServiceScan(NextServiceStart(horizon), entries) == Pick(entries[k].cbsRemainingMileage, horizon, entries[k])
      && FirstMinimumMileage(entries, k))
  {
    var n := |entries|;
    var init := entries[..n - 1];
    var last := entries[n - 1];
    if n == 1 {
      assert NextServiceScan(NextServiceStart(horizon), entries) == Pick(last.cbsRemainingMileage, horizon, last);
      assert FirstMinimumMileage(entries, 0);
    } else {
      MileageOnlyScan(init, horizon);
      var k :| 0 <= k < |init|
        && NextServiceScan(NextServiceStart(horizon), init) == Pick(init[k].cbsRemainingMileage, horizon, init[k])
        && FirstMinimumMileage(init, k);
      if last.cbsRemainingMileage < init[k].cbsRemainingMileage {
        assert FirstMinimumMileage(entries, n - 1);
      } else {
        assert FirstMinimumMileage(entries, k);
      }
    }
  }

  /**
   * Among entries that carry only a mileage, getNextService picks the first
   * entry of smallest mileage: ties keep the earlier entry.
   */
  lemma MileageOnlyPicksFirstMinimum(entries: seq<CBSMessage>, horizon: Date)
    requires |entries| > 0 && MileageOnly(entries)
    ensures exists k :: (0 <= k < |entries| && NextService(Some(entries), horizon) == entries[k]
      && FirstMinimumMileage(entries, k))
  {
    MileageOnlyScan(entries, horizon);
  }

  /** Entry k has the earliest due date, and no earlier entry ties with it. */
  predicate FirstEarliestDate(entries: seq<CBSMessage>, k: int)
    requires 0 <= k < |entries|
    requires forall i :: 0 <= i < |entries| ==> entries[i].cbsDueDate.Some?
  {
    && (forall j :: 0 <= j < |entries| ==> !IsBefore(entries[j].cbsDueDate.value, entries[k].cbsDueDate.value))
    && (forall j :: 0 <= j < k ==> IsBefore(entries[k].cbsDueDate.value, entries[j].cbsDueDate.value))
  }

  predicate DateOnly(entries: seq<CBSMessage>, horizon: Date)
  {
    forall i :: 0 <= i < |entries| ==>
      entries[i].cbsRemainingMileage == 0 && entries[i].cbsDueDate.Some? && IsBefore(entries[i].cbsDueDate.value, horizon)
  }

  lemma {:induction false} DateOnlyScan(entries: seq<CBSMessage>, horizon: Date)
    requires |entries| > 0 && DateOnly(entries, horizon)
    ensures exists k :: (0 <= k < |entries|
      && NextServiceScan(NextServiceStart(horizon), entries) == Pick(INT_MAX, entries[k].cbsDueDate.value, entries[k])
      && FirstEarliestDate(entries, k))
  {
    var n := |entries|;
    var init := entries[..n - 1];
    var last := entries[n - 1];
    if n == 1 {
      assert NextServiceScan(NextServiceStart(horizon), entries) == Pick(INT_MAX, last.cbsDueDate.value, last);
      assert FirstEarliestDate(entries, 0);
    } else {
      DateOnlyScan(init, horizon);
      var k :| 0 <= k < |init|
        && NextServiceScan(NextServiceStart(horizon), init) == Pick(INT_MAX, init[k].cbsDueDate.value, init[k])
        && FirstEarliestDate(init, k);
      if IsBefore(last.cbsDueDate.value, init[k].cbsDueDate.value) {
        assert FirstEarliestDate(entries, n - 1);
      } else {
        assert FirstEarliestDate(entries, k);
      }
    }
  }

  /**
   * Among entries that carry only a due date (before the horizon),
   * getNextService picks the first entry of earliest date.
   */
  lemma DateOnlyPicksFirstEarliest(entries: seq<CBSMessage>, horizon: Date)
    requires |entries| > 0 && DateOnly(entries, horizon)
    ensures exists k :: (0 <= k < |entries| && NextService(Some(entries), horizon) == entries[k]
      && FirstEarliestDate(entries, k))
  {
    DateOnlyScan(entries, horizon);
  }

  // ---------------------------------------------------------------------
  // getNextServiceMileage
  // ---------------------------------------------------------------------

  /** The mileage loop of getNextServiceMileage from tracker `start`: the smallest non-zero mileage below it. */
  function MileageScan(start: int, entries: seq<CBSMessage>): int
  {
    if entries == [] then start
    else
      var m := MileageScan(start, entries[..|entries| - 1]);
      var e := entries[|entries| - 1];
      if e.cbsRemainingMileage != 0 && e.cbsRemainingMileage < m then e.cbsRemainingMileage else m
  }

  /** getNextServiceMileage: -1 for a null or empty list, or when the scan never left Integer.MAX_VALUE. */
  function NextServiceMileage(cbsData: Option<seq<CBSMessage>>): int
  {
    match cbsData
    case None => -1
    case Some(entries) =>
      if entries == [] then -1
      else
        var m := MileageScan(INT_MAX, entries);
        if m != INT_MAX then m else -1
  }

  /** VehicleStatus.getNextServiceMileage. */
  method GetNextServiceMileage(cbsData: Option<seq<CBSMessage>>) returns (r: int)
    ensures r == NextServiceMileage(cbsData)
  {
    if cbsData.None? {
      return -1;
    }
    var entries := cbsData.value;
    if |entries| == 0 {
      return -1;
    }
    var serviceMileage: int := INT_MAX;
    for i := 0 to |entries|
      invariant serviceMileage == MileageScan(INT_MAX, entries[..i])
    {
      assert entries[..i + 1][..i] == entries[..i];
      var entry := entries[i];
      if entry.cbsRemainingMileage != 0 {
        if entry.cbsRemainingMileage < serviceMileage {
          serviceMileage := entry.cbsRemainingMileage;
        }
      }
    }
    assert entries[..|entries|] == entries;
    if serviceMileage != INT_MAX {
      r := serviceMileage;
    } else {
      r := -1;
    }
  }

  /** An entry that takes part in the mileage minimum. */
  predicate CountsForMileage(e: CBSMessage)
  {
    e.cbsRemainingMileage != 0 && e.cbsRemainingMileage < INT_MAX
  }

  lemma {:induction false} MileageScanIsMinimum(entries: seq<CBSMessage>)
    ensures var m := MileageScan(INT_MAX, entries);
      && (m == INT_MAX <==> forall j :: 0 <= j < |entries| ==> !CountsForMileage(entries[j]))
      && (m != INT_MAX ==> exists k :: 0 <= k < |entries| && CountsForMileage(entries[k]) && entries[k].cbsRemainingMileage == m)
      && (forall j :: 0 <= j < |entries| && entries[j].cbsRemainingMileage != 0 ==> m <= entries[j].cbsRemainingMileage)
  {
    if entries != [] {
      var n := |entries|;
      var init := entries[..n - 1];
      MileageScanIsMinimum(init);
      var m0 := MileageScan(INT_MAX, init);
      if m0 != INT_MAX && MileageScan(INT_MAX, entries) == m0 {
        var k :| 0 <= k < |init| && CountsForMileage(init[k]) && init[k].cbsRemainingMileage == m0;
        assert entries[k] == init[k];
      }
      assert forall j :: 0 <= j < n - 1 ==> entries[j] == init[j];
    }
  }

  /**
   * getNextServiceMileage is the smallest non-zero remaining mileage (negative
   * ones included) and -1 when there is none; a mileage equal to
   * Integer.MAX_VALUE never leaves the start value and so also reads as -1.
   */
  lemma NextServiceMileageIsMinimum(cbsData: Option<seq<CBSMessage>>)
    ensures var r := NextServiceMileage(cbsData);
      && (r == -1 || (cbsData.Some? && exists k :: (0 <= k < |cbsData.value|
            && CountsForMileage(cbsData.value[k]) && cbsData.value[k].cbsRemainingMileage == r)))
      && (cbsData.Some? && (exists k :: 0 <= k < |cbsData.value| && CountsForMileage(cbsData.value[k])) ==>
            exists k :: 0 <= k < |cbsData.value| && CountsForMileage(cbsData.value[k])
              && cbsData.value[k].cbsRemainingMileage == r)
      && (cbsData.Some? && (exists k :: 0 <= k < |cbsData.value| && CountsForMileage(cbsData.value[k])) ==>
            forall j :: 0 <= j < |cbsData.value| && cbsData.value[j].cbsRemainingMileage != 0 ==>
              r <= cbsData.value[j].cbsRemainingMileage)
      && ((cbsData.None? || forall j :: 0 <= j < |cbsData.value| ==> !CountsForMileage(cbsData.value[j])) ==> r == -1)
  {
    if cbsData.Some? {
      MileageScanIsMinimum(cbsData.value);
    }
  }

  // ---------------------------------------------------------------------
  // getNextServiceDate
  // ---------------------------------------------------------------------

  /** The date loop of getNextServiceDate from tracker `start`: the earliest due date before it. */
  function DateScan(start: Date, entries: seq<CBSMessage>): Date
  {
    if entries == [] then start
    else
      var d := DateScan(start, entries[..|entries| - 1]);
      var e := entries[|entries| - 1];
      if e.cbsDueDate.Some? && IsBefore(e.cbsDueDate.value, d) then e.cbsDueDate.value else d
  }

  /** getNextServiceDate: None (NULL_DATE) for a null or empty list, or when no due date is before the horizon. */
  function NextServiceDate(cbsData: Option<seq<CBSMessage>>, horizon: Date): Option<Date>
  {
    match cbsData
    case None => None
    case Some(entries) =>
      if entries == [] then None
      else
        var d := DateScan(horizon, entries);
        if d == horizon then None else Some(d)
  }

  /** VehicleStatus.getNextServiceDate, before the date is formatted; None stands for NULL_DATE. */
  method GetNextServiceDate(cbsData: Option<seq<CBSMessage>>, horizon: Date) returns (r: Option<Date>)
    ensures r == NextServiceDate(cbsData, horizon)
  {
    if cbsData.None? {
      return None;
    }
    var entries := cbsData.value;
    if |entries| == 0 {
      return None;
    }
    var farFuture := horizon;
    var serviceDate := farFuture;
    for i := 0 to |entries|
      invariant serviceDate == DateScan(horizon, entries[..i])
    {
      assert entries[..i + 1][..i] == entries[..i];
      var entry := entries[i];
      if entry.cbsDueDate.Some? {
        var d := entry.cbsDueDate.value;
        if IsBefore(d, serviceDate) {
          serviceDate := d;
        }
      }
    }
    assert entries[..|entries|] == entries;
    if serviceDate == farFuture {
      r := None;
    } else {
      r := Some(serviceDate);
    }
  }

  predicate DueBefore(e: CBSMessage, horizon: Date)
  {
    e.cbsDueDate.Some? && IsBefore(e.cbsDueDate.value, horizon)
  }

  lemma {:induction false} DateScanIsEarliest(entries: seq<CBSMessage>, horizon: Date)
    ensures var d := DateScan(horizon, entries);
      && (d == horizon <==> forall j :: 0 <= j < |entries| ==> !DueBefore(entries[j], horizon))
      && (d != horizon ==> exists k :: 0 <= k < |entries| && DueBefore(entries[k], horizon) && entries[k].cbsDueDate.value == d)
      && (forall j :: 0 <= j < |entries| && entries[j].cbsDueDate.Some? ==> !IsBefore(entries[j].cbsDueDate.value, d))
      && !IsBefore(horizon, d)
  {
    if entries != [] {
      var n := |entries|;
      var init := entries[..n - 1];
      DateScanIsEarliest(init, horizon);
      var d0 := DateScan(horizon, init);
      if d0 != horizon && DateScan(horizon, entries) == d0 {
        var k :| 0 <= k < |init| && DueBefore(init[k], horizon) && init[k].cbsDueDate.value == d0;
        assert entries[k] == init[k];
      }
      assert forall j :: 0 <= j < n - 1 ==> entries[j] == init[j];
    }
  }

  /**
   * getNextServiceDate is the earliest due date of the list and NULL_DATE
   * (None) when the list is null or empty or no entry has a due date before
   * the horizon.
   */
  lemma NextServiceDateIsEarliest(cbsData: Option<seq<CBSMessage>>, horizon: Date)
    ensures var r := NextServiceDate(cbsData, horizon);
      && (r.None? <==> cbsData.None? || forall j :: 0 <= j < |cbsData.value| ==> !DueBefore(cbsData.value[j], horizon))
      && (r.Some? ==>
            && cbsData.Some?
            && (exists k :: 0 <= k < |cbsData.value| && cbsData.value[k].cbsDueDate == r)
            && (forall j :: 0 <= j < |cbsData.value| && cbsData.value[j].cbsDueDate.Some? ==>
                  !IsBefore(cbsData.value[j].cbsDueDate.value, r.value)))
  {
    if cbsData.Some? {
      DateScanIsEarliest(cbsData.value, horizon);
    }
  }

  // ---------------------------------------------------------------------
  // The inclusive-or rule of getNextService, shown on two entries
  // ---------------------------------------------------------------------

  const EarlyMileage: CBSMessage := CBSMessage(Some("OIL"), None, Some(Date(10)), None, 100)
  const EarlyDate: CBSMessage := CBSMessage(Some("BRAKE_FLUID"), None, Some(Date(5)), None, 500)

  /**
   * With two entries that each carry both a mileage and a date, the later
   * entry wins whenever it is better on either axis: the choice depends on
   * the order of the list, and the tracked mileage rises from 100 to 500.
   */
  lemma NextServiceDependsOnOrder()
    ensures NextService(Some([EarlyMileage, EarlyDate]), Date(1000)) == EarlyDate
    ensures NextService(Some([EarlyDate, EarlyMileage]), Date(1000)) == EarlyMileage
    ensures NextServiceScan(NextServiceStart(Date(1000)), [EarlyMileage, EarlyDate]).mileage == 500
  {
    var start := NextServiceStart(Date(1000));
    var ab, ba := [EarlyMileage, EarlyDate], [EarlyDate, EarlyMileage];
    assert ab[..1] == [EarlyMileage] && [EarlyMileage][..0] == [];
    assert ba[..1] == [EarlyDate] && [EarlyDate][..0] == [];
    assert NextServiceScan(start, [EarlyMileage]) == Pick(100, Date(10), EarlyMileage);
    assert NextServiceScan(start, ab) == Pick(500, Date(5), EarlyDate);
    assert NextServiceScan(start, [EarlyDate]) == Pick(500, Date(5), EarlyDate);
    assert NextServiceScan(start, ba) == Pick(100, Date(10), EarlyMileage);
  }

  /**
   * The next-service choice and the separately computed next-service mileage
   * and date need not describe the same entry.
   */
  lemma NextServiceIndependentOfMinima()
    ensures NextService(Some([EarlyMileage, EarlyDate]), Date(1000)).cbsRemainingMileage == 500
    ensures NextServiceMileage(Some([EarlyMileage, EarlyDate])) == 100
    ensures NextServiceDate(Some([EarlyDate, EarlyMileage]), Date(1000)) == Some(Date(5))
    ensures NextService(Some([EarlyDate, EarlyMileage]), Date(1000)).cbsDueDate == Some(Date(10))
  {
    NextServiceDependsOnOrder();
    var ab, ba := [EarlyMileage, EarlyDate], [EarlyDate, EarlyMileage];
    assert ab[..1] == [EarlyMileage] && [EarlyMileage][..0] == [];
    assert ba[..1] == [EarlyDate] && [EarlyDate][..0] == [];
    assert MileageScan(INT_MAX, [EarlyMileage]) == 100;
    assert MileageScan(INT_MAX, ab) == 100;
    assert DateScan(Date(1000), [EarlyDate]) == Date(5);
    assert DateScan(Date(1000), ba) == Date(5);
  }

  // ---------------------------------------------------------------------
  // getCheckControl and getUpdateTime
  // ---------------------------------------------------------------------

  /**
   * getCheckControl: title-cased UNKNOWN for a null list, OK for an empty
   * one, otherwise the title-cased short description of the FIRST message.
   * Converter.toTitleCase is not part of this model and is passed in.
   */
  function CheckControl(messages: Option<seq<CCMMessage>>, toTitleCase: string -> string): (r: string)
    ensures messages.None? ==> r == toTitleCase(UNKNOWN)
    ensures messages == Some([]) ==> r == OK
    ensures messages.Some? && messages.value != [] ==>
      r == toTitleCase(messages.value[0].ccmDescriptionShort)
  {
    match messages
    case None => toTitleCase(UNKNOWN)
    case Some(list) => if list == [] then OK else toTitleCase(list[0].ccmDescriptionShort)
  }

  /** Only the first message counts: messages after it never change the summary. */
  lemma CheckControlIgnoresLaterMessages(first: CCMMessage, rest: seq<CCMMessage>, toTitleCase: string -> string)
    ensures CheckControl(Some([first] + rest), toTitleCase) == CheckControl(Some([first]), toTitleCase)
  {
  }

  /** getUpdateTime: internalDataTimeUTC if set, else updateTime if set, else NULL_DATE (None). */
  function UpdateTime(vs: VehicleStatus): (r: Option<string>)
    ensures vs.internalDataTimeUTC.Some? ==> r == vs.internalDataTimeUTC
    ensures vs.internalDataTimeUTC.None? ==> r == vs.updateTime
    ensures r.None? <==> vs.internalDataTimeUTC.None? && vs.updateTime.None?
  {
    if vs.internalDataTimeUTC.Some? then vs.internalDataTimeUTC
    else if vs.updateTime.Some? then vs.updateTime
    else None
  }
}
