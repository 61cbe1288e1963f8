/** The reminder form (client/src/components/ReminderForm.tsx): the values it starts from, the
    related-case select, and the normalisation `handleSubmit` applies before sending. */
module ReminderForm {
  import opened Wrappers
  import opened Schema
  import opened Text

  // ---------------------------------------------------------------------------
  // handleSubmit
  // ---------------------------------------------------------------------------

  /** `{ ...data, caseId: data.caseId || null, completed: data.completed ?? false,
      description: data.description || null, location: data.location || null }`. */
  function Submit(data: InsertReminder): (out: InsertReminder)
    ensures out.title == data.title && out.kind == data.kind && out.priority == data.priority
    ensures out.dueDate == data.dueDate
    ensures out.caseId.None? <==> data.caseId.None? || data.caseId == Some(0)
    ensures out.caseId.Some? ==> out.caseId == data.caseId
    ensures out.completed == Some(data.completed.GetOr(false))
    ensures out.description.None? <==> data.description.None? || data.description == Some("")
    ensures out.description.Some? ==> out.description == data.description
    ensures out.location.None? <==> data.location.None? || data.location == Some("")
    ensures out.location.Some? ==> out.location == data.location
  {
    data.(caseId := IdOrNull(data.caseId),
          completed := Some(data.completed.GetOr(false)),
          description := TextOrNull(data.description),
          location := TextOrNull(data.location))
  }

  /** Normalising twice is normalising once. */
  lemma SubmitIdempotent(data: InsertReminder)
    ensures Submit(Submit(data)) == Submit(data)
  {
  }

  /** The normalisation only anticipates the server's own defaults: the in-memory store
      records the same reminder whether or not the form normalised it first. */
  lemma SubmitAgreesWithStore(id: int, data: InsertReminder, now: int)
    ensures NewReminder(id, Submit(data), now) == NewReminder(id, data, now)
  {
  }

  // ---------------------------------------------------------------------------
  // The related-case select
  // ---------------------------------------------------------------------------

  /** What the select shows for the form's `caseId`: `field.value?.toString() || "none"`. */
  function SelectValue(caseId: Option<int>): (value: string)
    ensures value == "none" <==> caseId.None?
    ensures caseId.Some? ==> ParseInt(value) == caseId
  {
    if caseId.None? then "none"
    else
      var s := IntToString(caseId.value);
      ParseIntOfIntToString(caseId.value);
      assert s[0] == '-' || IsDigit(s[0]);
      assert s[0] != "none"[0];
      s
  }

  /** What choosing an option writes to `caseId`: nothing for "none", else `parseInt(value)`,
      where `None` stands for NaN. */
  datatype Choice = NoCase | CaseChoice(id: Option<int>)

  function OnSelect(value: string): (c: Choice)
    ensures c == NoCase <==> value == "none"
    ensures c.CaseChoice? ==> c.id == ParseInt(value)
  {
    if value == "none" then NoCase else CaseChoice(ParseInt(value))
  }

  /** The value the form stores after a choice. */
  function Chosen(c: Choice): Option<int> {
    match c
    case NoCase => None
    case CaseChoice(id) => id
  }

  /** Every option of the select round-trips: choosing the option shown for a `caseId`
      gives that `caseId` back, whether it is none or a case's id. */
  lemma SelectRoundTrip(caseId: Option<int>)
    ensures Chosen(OnSelect(SelectValue(caseId))) == caseId
    ensures caseId.Some? ==> OnSelect(SelectValue(caseId)) == CaseChoice(caseId)
  {
    if caseId.Some? {
      var s := IntToString(caseId.value);
      ParseIntOfIntToString(caseId.value);
      assert s[0] == '-' || IsDigit(s[0]);
      assert s[0] != "none"[0];
    }
  }

  /** The options are "none" and the ids of the loaded cases; choosing one of them never
      gives NaN, only no case or the id of one of those cases. */
  lemma OptionsGiveCaseIds(cases: seq<CaseWithClient>, value: string)
    requires value == "none" || exists c | c in cases :: value == IntToString(c.item.id)
    ensures Chosen(OnSelect(value)).None? ==> value == "none"
    ensures Chosen(OnSelect(value)).Some? ==> exists c | c in cases :: Chosen(OnSelect(value)).value == c.item.id
  {
    if value != "none" {
      var c :| c in cases && value == IntToString(c.item.id);
      SelectRoundTrip(Some(c.item.id));
    }
  }

  // ---------------------------------------------------------------------------
  // defaultValues
  // ---------------------------------------------------------------------------

  /** `initialData`: any key may be missing; a missing key and `null` are both `None`. */
  datatype InitialData = InitialData(
    title: Option<string>,
    description: Option<string>,
    dueDate: Option<int>,
    location: Option<string>,
    kind: Option<string>,
    priority: Option<string>,
    completed: Option<bool>,
    caseId: Option<int>)

  const NoInitialData := InitialData(None, None, None, None, None, None, None, None)

  /** The values the form starts from. */
  datatype FormValues = FormValues(
    title: string,
    description: string,
    dueDate: int,
    location: string,
    kind: string,
    priority: string,
    completed: bool,
    caseId: Option<int>)

  /** The keys `initialData` gives; a missing `initialData` behaves as one with no keys. */
  function Given(initial: Option<InitialData>): (d: InitialData)
    ensures initial.None? ==> d == NoInitialData
    ensures initial.Some? ==> d == initial.value
  {
    initial.GetOr(NoInitialData)
  }

  /** `defaultValues`: each `initialData?.x || fallback`. The due date is a `Date` object, which
      is truthy whatever instant it holds, so a given due date is always kept. */
  function Defaults(initial: Option<InitialData>, now: int): (v: FormValues)
    ensures v.title == TextOr(Given(initial).title, "")
    ensures v.description == TextOr(Given(initial).description, "")
    ensures v.location == TextOr(Given(initial).location, "")
    ensures v.kind == TextOr(Given(initial).kind, "general") && v.kind != ""
    ensures v.priority == TextOr(Given(initial).priority, "medium") && v.priority != ""
    ensures v.dueDate == if Given(initial).dueDate.Some? then Given(initial).dueDate.value else now
    ensures v.completed <==> Given(initial).completed == Some(true)
    ensures v.caseId == IdOrNull(Given(initial).caseId)
  {
    var d := Given(initial);
    FormValues(
      TextOr(d.title, ""),
      TextOr(d.description, ""),
      if d.dueDate.Some? then d.dueDate.value else now,
      TextOr(d.location, ""),
      TextOr(d.kind, "general"),
      TextOr(d.priority, "medium"),
      FlagOrFalse(d.completed),
      IdOrNull(d.caseId))
  }

  /** A new reminder starts as a general, medium-priority, open reminder due now, with no case. */
  lemma DefaultsWithoutInitialData(now: int)
    ensures Defaults(None, now) == FormValues("", "", now, "", "general", "medium", false, None)
    ensures Defaults(Some(NoInitialData), now) == Defaults(None, now)
  {
  }

  /** The `initialData` of an "Edit Reminder" form opened on a stored reminder. */
  function FromReminder(m: Reminder): (d: InitialData)
    ensures d.title == Some(m.title) && d.dueDate == Some(m.dueDate) && d.completed == Some(m.completed)
    ensures d.kind == Some(m.kind) && d.priority == Some(m.priority)
    ensures d.description == m.description && d.location == m.location && d.caseId == m.caseId
  {
    InitialData(Some(m.title), m.description, Some(m.dueDate), m.location, Some(m.kind), Some(m.priority),
      Some(m.completed), m.caseId)
  }

  /** What `handleSubmit` receives when the form is submitted with the values it shows. */
  function Entered(v: FormValues): (data: InsertReminder)
    ensures data.title == v.title && data.dueDate == v.dueDate && data.caseId == v.caseId
    ensures data.description == Some(v.description) && data.location == Some(v.location)
    ensures data.kind == Some(v.kind) && data.priority == Some(v.priority) && data.completed == Some(v.completed)
  {
    InsertReminder(v.title, Some(v.description), v.dueDate, Some(v.location), Some(v.kind), Some(v.priority),
      Some(v.completed), v.caseId)
  }

  /** The form's defaults and its normalisation lose no field of a stored reminder: a form
      opened on a reminder the store created and submitted untouched sends data from which
      `NewReminder`, given that reminder's own id and creation time, rebuilds it, whatever the
      clock says when the form opens. The pages never pass `initialData` and submit only to
      `createReminder`, which would number a resubmission afresh and stamp it `now`. */
  lemma UntouchedEditRebuildsReminder(id: int, data: InsertReminder, createdAt: int, openedAt: int)
    ensures var m := NewReminder(id, data, createdAt);
      NewReminder(id, Submit(Entered(Defaults(Some(FromReminder(m)), openedAt))), createdAt) == m
  {
  }
}
