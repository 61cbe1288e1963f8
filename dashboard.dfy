/** The dashboard (client/src/pages/Dashboard.tsx): the three open reminders due first, the
    first three cases of the server's list, and the badge colours. Its `getStatusColor` gives the
    same tone for every status as the cases page's, so the model uses `CasesPage.StatusColor`. */
module DashboardPage {
  import opened Seqs
  import opened Schema
  import opened Text
  import opened Display
  import CasesPage

  function DueDate(r: ReminderWithCase): int {
    r.item.dueDate
  }

  /** The `select` of the reminders query: the open reminders, by due date ascending, the first
      three. */
  function UpcomingReminders(reminders: seq<ReminderWithCase>): (r: seq<ReminderWithCase>)
    ensures |r| <= 3 && |r| <= Count(reminders, Open)
  {
    Take(Sort(Filter(reminders, Open), DueDate, Ascending), 3)
  }

  /** The upcoming list holds at most three open reminders of the list, as many as there are
      up to three, earliest first. */
  lemma UpcomingAreOpenAndOrdered(reminders: seq<ReminderWithCase>)
    ensures |UpcomingReminders(reminders)| == if Count(reminders, Open) < 3 then Count(reminders, Open) else 3
    ensures forall r | r in UpcomingReminders(reminders) :: r in reminders && Open(r)
    ensures SortedBy(UpcomingReminders(reminders), DueDate, Ascending)
    ensures multiset(UpcomingReminders(reminders)) <= multiset(Filter(reminders, Open))
  {
    var open := Filter(reminders, Open);
    var sorted := Sort(open, DueDate, Ascending);
    var shown := UpcomingReminders(reminders);
    SortIsSorted(open, DueDate, Ascending);
    TakePart(sorted, 3);
    forall r | r in shown
      ensures r in reminders && Open(r)
    {
      assert r in multiset(sorted);
    }
  }

  /** Every open reminder the upcoming list leaves out (counting equal copies) is due no
      earlier than the last one it shows, and then the list is full. */
  lemma UpcomingLeaveOutLaterOnes(reminders: seq<ReminderWithCase>)
    ensures forall r | r in reminders && Open(r) && multiset(UpcomingReminders(reminders))[r] < multiset(reminders)[r] ::
      |UpcomingReminders(reminders)| == 3 && UpcomingReminders(reminders)[2].item.dueDate <= r.item.dueDate
  {
    var open := Filter(reminders, Open);
    var sorted := Sort(open, DueDate, Ascending);
    SortIsSorted(open, DueDate, Ascending);
    forall r | r in reminders && Open(r) && multiset(UpcomingReminders(reminders))[r] < multiset(reminders)[r]
      ensures |UpcomingReminders(reminders)| == 3 && UpcomingReminders(reminders)[2].item.dueDate <= r.item.dueDate
    {
      assert multiset(open)[r] == multiset(reminders)[r];
      TakeOfSortedLeavesLater(sorted, DueDate, 3, r);
    }
  }

  /** `recentCases`: the first three cases of the server's list, in its order. */
  function RecentCases(cases: seq<CaseWithClient>): (r: seq<CaseWithClient>)
    ensures |r| == if |cases| < 3 then |cases| else 3
    ensures r == cases[..|r|]
  {
    Take(cases, 3)
  }

  /** `getPriorityColor`: matches the lower-cased priority, gray for anything unknown. */
  function PriorityColor(priority: string): (t: Tone)
    ensures t == Red <==> Lower(priority) == "urgent"
    ensures t == Orange <==> Lower(priority) == "high"
    ensures t == Yellow <==> Lower(priority) == "medium"
    ensures t == Green <==> Lower(priority) == "low"
    ensures t == Gray <==> Lower(priority) !in {"urgent", "high", "medium", "low"}
  {
    match Lower(priority)
    case "urgent" => Red
    case "high" => Orange
    case "medium" => Yellow
    case "low" => Green
    case _ => Gray
  }

  /** The priority colour does not depend on letter case. */
  lemma PriorityColorIgnoresCase(priority: string)
    ensures PriorityColor(Upper(priority)) == PriorityColor(priority)
    ensures PriorityColor(Lower(priority)) == PriorityColor(priority)
  {
    LowerIdempotent(priority);
    LowerOfUpperAgrees(priority);
  }
}
