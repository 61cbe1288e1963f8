/** The reminders page (client/src/pages/Reminders.tsx): the three urgency groups it shows and
    the colour and icon of each reminder.

    The date-fns tests (`isToday`, `isTomorrow`, `isThisWeek`, `isPast`) depend on the clock;
    they are a `Calendar` given to the page, one test per due date. */
module RemindersPage {
  import opened Seqs
  import opened Schema
  import opened Text
  import opened Display

  datatype Calendar = Calendar(
    isToday: int -> bool,
    isTomorrow: int -> bool,
    isThisWeek: int -> bool,
    isPast: int -> bool)

  /** The `urgentReminders` test: open, and marked "urgent" (exactly), due today or overdue. */
  predicate IsUrgent(r: ReminderWithCase, cal: Calendar) {
    Open(r) && (r.item.priority == "urgent" || cal.isToday(r.item.dueDate) || cal.isPast(r.item.dueDate))
  }

  function Urgent(reminders: seq<ReminderWithCase>, cal: Calendar): (r: seq<ReminderWithCase>)
    ensures forall x | x in r :: x in reminders && IsUrgent(x, cal)
    ensures forall x | x in reminders && IsUrgent(x, cal) :: x in r
  {
    Filter(reminders, r => IsUrgent(r, cal))
  }

  /** `thisWeekReminders`: open, not in the urgent group, due this week. */
  function ThisWeek(reminders: seq<ReminderWithCase>, cal: Calendar): (r: seq<ReminderWithCase>)
    ensures forall x | x in r :: x in reminders && Open(x) && !IsUrgent(x, cal) && cal.isThisWeek(x.item.dueDate)
    ensures forall x | x in reminders && Open(x) && !IsUrgent(x, cal) && cal.isThisWeek(x.item.dueDate) :: x in r
  {
    var urgent := Urgent(reminders, cal);
    Filter(reminders, r => Open(r) && r !in urgent && cal.isThisWeek(r.item.dueDate))
  }

  /** `upcomingReminders`: open and in neither of the other groups. */
  function Upcoming(reminders: seq<ReminderWithCase>, cal: Calendar): (r: seq<ReminderWithCase>)
    ensures forall x | x in r :: x in reminders && Open(x) && !IsUrgent(x, cal) && !cal.isThisWeek(x.item.dueDate)
    ensures forall x | x in reminders && Open(x) && !IsUrgent(x, cal) && !cal.isThisWeek(x.item.dueDate) :: x in r
  {
    var urgent := Urgent(reminders, cal);
    var thisWeek := ThisWeek(reminders, cal);
    Filter(reminders, r => Open(r) && r !in urgent && r !in thisWeek)
  }

  /** The three groups keep the page's order, split the open reminders between them with no
      reminder in two groups, and leave out every completed one. A reminder's group is decided
      by its own fields alone: urgent first, then due this week, then the rest. */
  lemma GroupsPartitionOpenReminders(reminders: seq<ReminderWithCase>, cal: Calendar)
    ensures Sublist(Urgent(reminders, cal), reminders)
    ensures Sublist(ThisWeek(reminders, cal), reminders)
    ensures Sublist(Upcoming(reminders, cal), reminders)
    ensures forall r | r in reminders :: r in Urgent(reminders, cal) <==> IsUrgent(r, cal)
    ensures forall r | r in reminders ::
      r in ThisWeek(reminders, cal) <==> Open(r) && !IsUrgent(r, cal) && cal.isThisWeek(r.item.dueDate)
    ensures forall r | r in reminders ::
      r in Upcoming(reminders, cal) <==> Open(r) && !IsUrgent(r, cal) && !cal.isThisWeek(r.item.dueDate)
    ensures forall r | r in reminders ::
      (r in Urgent(reminders, cal) || r in ThisWeek(reminders, cal) || r in Upcoming(reminders, cal)) <==> Open(r)
    ensures forall r | r in reminders ::
      !(r in Urgent(reminders, cal) && r in ThisWeek(reminders, cal)) &&
      !(r in Urgent(reminders, cal) && r in Upcoming(reminders, cal)) &&
      !(r in ThisWeek(reminders, cal) && r in Upcoming(reminders, cal))
  {
    var urgent := Urgent(reminders, cal);
    var thisWeek := ThisWeek(reminders, cal);
    var upcoming := Upcoming(reminders, cal);
    assert forall r | r in reminders :: r in urgent <==> IsUrgent(r, cal);
    assert forall r | r in reminders ::
      r in thisWeek <==> Open(r) && r !in urgent && cal.isThisWeek(r.item.dueDate);
    assert forall r | r in reminders :: r in upcoming <==> Open(r) && r !in urgent && r !in thisWeek;
  }

  /** No group holds anything but the page's reminders, and none holds a completed one. */
  lemma GroupsHoldOnlyOpenReminders(reminders: seq<ReminderWithCase>, cal: Calendar)
    ensures forall r | r in Urgent(reminders, cal) :: r in reminders && Open(r)
    ensures forall r | r in ThisWeek(reminders, cal) :: r in reminders && Open(r)
    ensures forall r | r in Upcoming(reminders, cal) :: r in reminders && Open(r)
  {
  }

  /** `getDateColor`: red when overdue or due today, yellow when due tomorrow, green otherwise. */
  function DateColor(dueDate: int, cal: Calendar): (t: Tone)
    ensures t == Red <==> cal.isPast(dueDate) || cal.isToday(dueDate)
    ensures t == Yellow <==> !cal.isPast(dueDate) && !cal.isToday(dueDate) && cal.isTomorrow(dueDate)
    ensures t == Green <==> !cal.isPast(dueDate) && !cal.isToday(dueDate) && !cal.isTomorrow(dueDate)
  {
    if cal.isPast(dueDate) && !cal.isToday(dueDate) then Red
    else if cal.isToday(dueDate) then Red
    else if cal.isTomorrow(dueDate) then Yellow
    else Green
  }

  /** `getReminderIcon`: matches the type exactly (no lower-casing), calendar for anything else. */
  function ReminderIcon(kind: string): (i: Icon)
    ensures i == Gavel <==> kind == "hearing"
    ensures i == FileText <==> kind == "deadline" || kind == "filing"
    ensures i == Handshake <==> kind == "meeting"
    ensures i == CalendarIcon <==> kind !in {"hearing", "deadline", "meeting", "filing"}
  {
    match kind
    case "hearing" => Gavel
    case "deadline" => FileText
    case "meeting" => Handshake
    case "filing" => FileText
    case _ => CalendarIcon
  }

  /** `getPriorityColor`: matches the lower-cased priority, slate for anything unknown. */
  function PriorityColor(priority: string): (t: Tone)
    ensures t == Red <==> Lower(priority) == "urgent"
    ensures t == Orange <==> Lower(priority) == "high"
    ensures t == Yellow <==> Lower(priority) == "medium"
    ensures t == Emerald <==> Lower(priority) == "low"
    ensures t == Slate <==> Lower(priority) !in {"urgent", "high", "medium", "low"}
  {
    match Lower(priority)
    case "urgent" => Red
    case "high" => Orange
    case "medium" => Yellow
    case "low" => Emerald
    case _ => Slate
  }

  /** The priority colour does not depend on letter case. */
  lemma PriorityColorIgnoresCase(priority: string)
    ensures PriorityColor(Lower(priority)) == PriorityColor(priority)
    ensures PriorityColor(Upper(priority)) == PriorityColor(priority)
  {
    LowerIdempotent(priority);
    LowerOfUpperAgrees(priority);
  }
}
