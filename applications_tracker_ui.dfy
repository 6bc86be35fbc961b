/**
 * The stand-alone applications table: its seven statuses, the search-and-status filter,
 * the grouped status counts and the badge variant of each status.
 */
module ApplicationsTrackerUi {
  import opened Wrappers
  import opened Text
  import opened Seqs

  datatype Status =
    | Applied | Viewed | InterviewScheduled | InterviewCompleted | OfferReceived | Rejected | Withdrawn
  {
    function Name(): string {
      match this
      case Applied => "Applied"
      case Viewed => "Viewed"
      case InterviewScheduled => "Interview Scheduled"
      case InterviewCompleted => "Interview Completed"
      case OfferReceived => "Offer Received"
      case Rejected => "Rejected"
      case Withdrawn => "Withdrawn"
    }
  }

  datatype Application = Application(
    id: int, company: string, position: string, appliedDate: string, status: Status,
    resumeUsed: string, notes: string)

  /** The table's fixed data. */
  const Applications: seq<Application> := [
    Application(1, "TechCorp", "Software Engineer", "2024-01-15", InterviewScheduled,
                "Technical Template", "Follow up scheduled for next Tuesday"),
    Application(2, "Analytics Inc", "Data Analyst", "2024-01-12", Viewed,
                "Professional Template", "Application viewed 3 times"),
    Application(3, "Design Studio", "UX Designer", "2024-01-10", Rejected,
                "Creative Template", "Feedback: Looking for more senior candidate"),
    Application(4, "StartupXYZ", "Full Stack Developer", "2024-01-08", InterviewCompleted,
                "Technical Template", "Waiting for final decision"),
    Application(5, "Marketing Pro", "Digital Marketing Manager", "2024-01-05", Applied,
                "Professional Template", "Initial application submitted")]

  datatype Variant = Default | Secondary | Outline | Destructive

  /** `getStatusColor`. */
  function StatusVariant(status: Status): (v: Variant)
    ensures v == Destructive <==> status == Rejected
    ensures v == Default <==> status in {InterviewScheduled, InterviewCompleted, OfferReceived}
    ensures v == Outline <==> status in {Viewed, Withdrawn}
    ensures v == Secondary <==> status == Applied
  {
    match status
    case Applied => Secondary
    case Viewed => Outline
    case InterviewScheduled => Default
    case InterviewCompleted => Default
    case OfferReceived => Default
    case Rejected => Destructive
    case Withdrawn => Outline
  }

  predicate MatchesSearch(a: Application, searchTerm: string) {
    ContainsIgnoringCase(a.company, searchTerm) || ContainsIgnoringCase(a.position, searchTerm)
  }

  predicate MatchesStatus(a: Application, statusFilter: string) {
    statusFilter == "all" || a.status.Name() == statusFilter
  }

  function Kept(searchTerm: string, statusFilter: string): Application -> bool {
    (a: Application) => MatchesSearch(a, searchTerm) && MatchesStatus(a, statusFilter)
  }

  /** `filteredApplications`. */
  function FilteredApplications(apps: seq<Application>, searchTerm: string, statusFilter: string): (r: seq<Application>)
    ensures IsSubsequence(r, apps)
    ensures forall a :: a in r <==> a in apps && MatchesSearch(a, searchTerm) && MatchesStatus(a, statusFilter)
  {
    var p := Kept(searchTerm, statusFilter);
    FilterIsSubsequence(apps, p);
    forall a ensures a in Filter(apps, p) <==> a in apps && p(a) {
      FilterMembership(apps, p, a);
    }
    Filter(apps, p)
  }

  /** Filtering on a status name shows exactly the matching applications with that status. */
  lemma FilterByStatus(apps: seq<Application>, searchTerm: string, st: Status)
    ensures forall a :: a in FilteredApplications(apps, searchTerm, st.Name()) <==>
      a in apps && a.status == st && MatchesSearch(a, searchTerm)
  {
    forall a: Application ensures a.status.Name() == st.Name() <==> a.status == st {
      StatusNamesDistinct(a.status, st);
    }
  }

  /** The status a name stands for, as the status filter's options read. */
  function StatusNamed(name: string): Option<Status> {
    if name == "Applied" then Some(Applied)
    else if name == "Viewed" then Some(Viewed)
    else if name == "Interview Scheduled" then Some(InterviewScheduled)
    else if name == "Interview Completed" then Some(InterviewCompleted)
    else if name == "Offer Received" then Some(OfferReceived)
    else if name == "Rejected" then Some(Rejected)
    else if name == "Withdrawn" then Some(Withdrawn)
    else None
  }

  /** Every status is found again from its name, so distinct statuses have distinct names. */
  lemma StatusNamesDistinct(s: Status, t: Status)
    ensures StatusNamed(s.Name()) == Some(s)
    ensures s.Name() == t.Name() <==> s == t
  {
    assert StatusNamed(t.Name()) == Some(t);
  }

  predicate IsPending(s: Status) { s == Applied || s == Viewed }
  predicate IsInterview(s: Status) { s == InterviewScheduled || s == InterviewCompleted }
  predicate IsClosed(s: Status) { s == OfferReceived || s == Rejected || s == Withdrawn }

  function PendingApp(): Application -> bool { (a: Application) => IsPending(a.status) }
  function InterviewApp(): Application -> bool { (a: Application) => IsInterview(a.status) }
  function ClosedApp(): Application -> bool { (a: Application) => IsClosed(a.status) }

  datatype StatusCounts = StatusCounts(total: nat, pending: nat, interviews: nat, closed: nat)

  /** `statusCounts`. */
  function Counts(apps: seq<Application>): StatusCounts {
    StatusCounts(|apps|, |Filter(apps, PendingApp())|, |Filter(apps, InterviewApp())|,
                 |Filter(apps, ClosedApp())|)
  }

  /** The three groups split the seven statuses, so their counts add up to the total. */
  lemma CountsPartition(apps: seq<Application>)
    ensures var c := Counts(apps); c.pending + c.interviews + c.closed == c.total
  {
    FilterPartition3(apps, PendingApp(), InterviewApp(), ClosedApp());
  }

  /** The pending count is the number of applied plus the number of viewed applications. */
  lemma PendingSplits(apps: seq<Application>)
    ensures |Filter(apps, (a: Application) => a.status == Applied)| +
            |Filter(apps, (a: Application) => a.status == Viewed)| == Counts(apps).pending
  {
    FilterDisjoint(apps, (a: Application) => a.status == Applied, (a: Application) => a.status == Viewed, PendingApp());
  }

  /** The table's counts: five applications, two pending, two interviews, one closed. */
  lemma TableCounts()
    ensures Counts(Applications) == StatusCounts(5, 2, 2, 1)
  {
    TablePending();
    TableInterviews();
    TableClosed();
  }

  lemma TablePending()
    ensures |Filter(Applications, PendingApp())| == 2
  {
    var a := Applications;
    GroupCounts(a, PendingApp());
    assert !PendingApp()(a[0]) && PendingApp()(a[1]) && !PendingApp()(a[2]);
    assert !PendingApp()(a[3]) && PendingApp()(a[4]);
  }

  lemma TableInterviews()
    ensures |Filter(Applications, InterviewApp())| == 2
  {
    var a := Applications;
    GroupCounts(a, InterviewApp());
    assert InterviewApp()(a[0]) && !InterviewApp()(a[1]) && !InterviewApp()(a[2]);
    assert InterviewApp()(a[3]) && !InterviewApp()(a[4]);
  }

  lemma TableClosed()
    ensures |Filter(Applications, ClosedApp())| == 1
  {
    var a := Applications;
    GroupCounts(a, ClosedApp());
    assert !ClosedApp()(a[0]) && !ClosedApp()(a[1]) && ClosedApp()(a[2]);
    assert !ClosedApp()(a[3]) && !ClosedApp()(a[4]);
  }

  /** The size of a filter over a five-element list, element by element. */
  lemma GroupCounts(a: seq<Application>, p: Application -> bool)
    requires |a| == 5
    ensures |Filter(a, p)| ==
      (if p(a[0]) then 1 else 0) + (if p(a[1]) then 1 else 0) + (if p(a[2]) then 1 else 0) +
      (if p(a[3]) then 1 else 0) + (if p(a[4]) then 1 else 0)
  {
    assert a[..0] == [];
    FilterSizeStep(a, 0, p);
    FilterSizeStep(a, 1, p);
    FilterSizeStep(a, 2, p);
    FilterSizeStep(a, 3, p);
    FilterSizeStep(a, 4, p);
    assert a[..5] == a;
  }
}
