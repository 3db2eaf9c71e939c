/** The request and response shapes of the recurring-configuration endpoints:
    the four recurrence units, the `period_length >= 1` constraint with its
    default of 1, the editable fields of an update, and the ISO text of the
    three date fields. */
module RecurringSchemas {
  import opened Wrappers
  import opened Fields
  import opened Calendar
  import opened DateTimes
  import opened Uuid
  import M = RecurringConfigModel

  datatype RecurrenceType = Daily | Weekly | Monthly | Yearly

  /** The enum's string value, which is what the model's date rule branches on. */
  function UnitName(t: RecurrenceType): (s: string)
    ensures M.KnownUnit(s)
  {
    match t
    case Daily => M.Daily
    case Weekly => M.Weekly
    case Monthly => M.Monthly
    case Yearly => M.Yearly
  }

  /** Request-body validation of a `RecurrenceType` field. */
  function ParseUnit(s: string): (r: Option<RecurrenceType>)
    ensures r.Some? <==> M.KnownUnit(s)
    ensures r.Some? ==> UnitName(r.value) == s
  {
    if s == M.Daily then Some(Daily)
    else if s == M.Weekly then Some(Weekly)
    else if s == M.Monthly then Some(Monthly)
    else if s == M.Yearly then Some(Yearly)
    else None
  }

  /** The four units have four distinct names, and each name reads back to its unit. */
  lemma UnitRoundTrip(t: RecurrenceType, u: RecurrenceType)
    ensures ParseUnit(UnitName(t)) == Some(t)
    ensures UnitName(t) == UnitName(u) ==> t == u
  {
  }

  /** A request body before validation. */
  datatype CreateBody = CreateBody(
    baseTransactionId: Id,
    periodLength: Field<int>,
    reoccurrence: Field<string>,
    startDate: Date,
    endDate: Field<Date>)

  /** `RecurringConfigCreate` after validation. */
  datatype RecurringConfigCreate = RecurringConfigCreate(
    baseTransactionId: Id,
    periodLength: int,
    reoccurrence: RecurrenceType,
    startDate: Date,
    endDate: Option<Date>)

  /** Pydantic's checks of `RecurringConfigBase`: `period_length` defaults to 1 and
      must be at least 1; the unit defaults to monthly and must be one of the four;
      `end_date` may be left out or null. */
  function ValidateCreate(b: CreateBody): (r: Result<RecurringConfigCreate>)
    ensures r.Ok? <==>
      (b.periodLength.Absent? || (b.periodLength.Given? && b.periodLength.value >= 1))
      && (b.reoccurrence.Absent? || (b.reoccurrence.Given? && M.KnownUnit(b.reoccurrence.value)))
    ensures r.Ok? ==>
      r.value.periodLength >= 1
      && r.value.periodLength == (if b.periodLength.Given? then b.periodLength.value else 1)
      && r.value.reoccurrence == (if b.reoccurrence.Given? then ParseUnit(b.reoccurrence.value).value else Monthly)
      && r.value.baseTransactionId == b.baseTransactionId && r.value.startDate == b.startDate
      && r.value.endDate == (if b.endDate.Given? then Some(b.endDate.value) else None)
  {
    var period :=
      match b.periodLength
      case Absent => Ok(1)
      case Null => Err(BadRequest("period_length: Input should be a valid integer"))
      case Given(p) => if p >= 1 then Ok(p) else Err(BadRequest("period_length: Input should be greater than or equal to 1"));
    var unit :=
      match b.reoccurrence
      case Absent => Ok(Monthly)
      case Null => Err(BadRequest("reoccurrence: Input should be 'daily', 'weekly', 'monthly' or 'yearly'"))
      case Given(s) =>
        match ParseUnit(s)
        case Some(t) => Ok(t)
        case None => Err(BadRequest("reoccurrence: Input should be 'daily', 'weekly', 'monthly' or 'yearly'"));
    if period.Err? then Err(period.error)
    else if unit.Err? then Err(unit.error)
    else Ok(RecurringConfigCreate(b.baseTransactionId, period.value, unit.value, b.startDate,
      if b.endDate.Given? then Some(b.endDate.value) else None))
  }

  /** `RecurringConfigUpdate`: every field optional. `Absent` fields are left out of
      `model_dump(exclude_unset=True)`; an explicit `Null` is assigned as `None`. */
  datatype RecurringConfigUpdate = RecurringConfigUpdate(
    periodLength: Field<int>,
    reoccurrence: Field<RecurrenceType>,
    endDate: Field<Date>,
    isActive: Field<bool>)

  /** The `ge=1` check of the update schema, which applies only to a non-null value. */
  predicate ValidUpdate(u: RecurringConfigUpdate) {
    u.periodLength.Given? ==> u.periodLength.value >= 1
  }

  /** The `setattr` loop of `update_recurring_config`. Assigning `None` to one of the
      NOT NULL columns makes the commit fail. */
  function ApplyUpdate(c: M.RecurringConfig, u: RecurringConfigUpdate): (r: Result<M.RecurringConfig>)
    requires ValidUpdate(u)
    ensures r.Err? <==> u.periodLength.Null? || u.reoccurrence.Null? || u.isActive.Null?
    ensures r.Ok? ==>
      r.value.userId == c.userId && r.value.baseTransactionId == c.baseTransactionId
      && r.value.startDate == c.startDate && r.value.nextOccurrence == c.nextOccurrence
      && r.value.createdAt == c.createdAt
      && r.value.periodLength == (if u.periodLength.Given? then u.periodLength.value else c.periodLength)
      && r.value.reoccurrence == (if u.reoccurrence.Given? then UnitName(u.reoccurrence.value) else c.reoccurrence)
      && r.value.endDate == (match u.endDate case Absent => c.endDate case Null => None case Given(d) => Some(d))
      && r.value.isActive == (if u.isActive.Given? then u.isActive.value else c.isActive)
  {
    if u.periodLength.Null? || u.reoccurrence.Null? || u.isActive.Null? then
      Err(ServerError("Internal server error"))
    else
      var c1 := if u.periodLength.Given? then c.(periodLength := u.periodLength.value) else c;
      var c2 := if u.reoccurrence.Given? then c1.(reoccurrence := UnitName(u.reoccurrence.value)) else c1;
      var c3 := match u.endDate case Absent => c2 case Null => c2.(endDate := None) case Given(d) => c2.(endDate := Some(d));
      var c4 := if u.isActive.Given? then c3.(isActive := u.isActive.value) else c3;
      Ok(c4)
  }

  /** What the materialiser needs of a configuration to terminate: a valid cursor, a
      period of at least one and one of the four units. */
  predicate Schedulable(c: M.RecurringConfig) {
    Valid(c.nextOccurrence) && c.periodLength >= 1 && M.KnownUnit(c.reoccurrence)
  }

  /** An update through the schema cannot break that: the cursor is not editable, a
      new period is at least one, and a new unit is one of the four. */
  lemma UpdateKeepsSchedulable(c: M.RecurringConfig, u: RecurringConfigUpdate)
    requires Schedulable(c) && ValidUpdate(u)
    ensures ApplyUpdate(c, u).Ok? ==> Schedulable(ApplyUpdate(c, u).value)
  {
  }

  /** The `serialize_date` field serializer: `value.isoformat() if value else None`.
      Every `date` is truthy, so only `None` becomes null. */
  function SerializeDate(v: Option<Date>): (r: Option<string>)
    requires v.Some? ==> InPythonRange(v.value)
    ensures r.None? <==> v.None?
    ensures r.Some? ==> |r.value| == 10
  {
    match v
    case None => None
    case Some(d) =>
      DateIsoRoundTrip(d);
      Some(DateIso(d))
  }

  /** The serialised field reads back to the date it came from, and null to null. */
  lemma SerializeDateRoundTrip(v: Option<Date>)
    requires v.Some? ==> InPythonRange(v.value)
    ensures SerializeDate(v).Some? ==> ParseDateIso(SerializeDate(v).value) == v
  {
    if v.Some? { DateIsoRoundTrip(v.value); }
  }
}
