/**
 * The application-tracker page: the search-and-status filter over the user's
 * applications, the status statistics, and the status badge colours and icons.
 */
module ApplicationTracker {
  import opened Wrappers
  import opened Text
  import opened Seqs

  datatype Status = Applied | Interviewing | Offer | Rejected | Pending {
    /** The status as the page stores it. */
    function Name(): string {
      match this
      case Applied => "applied"
      case Interviewing => "interviewing"
      case Offer => "offer"
      case Rejected => "rejected"
      case Pending => "pending"
    }
  }

  datatype Application = Application(
    id: string, company: string, position: string, location: string, status: Status,
    appliedDate: string, deadline: Option<string>, notes: Option<string>)

  /** The two applications the page starts with. */
  const InitialApplications: seq<Application> := [
    Application("1", "TechCorp", "Software Engineer", "San Francisco, CA", Applied, "2024-08-01",
                Some("2024-08-15"), Some("Applied through company website")),
    Application("2", "InnovateLab", "Frontend Developer", "Remote", Interviewing, "2024-07-25",
                None, Some("First interview scheduled for next week"))]

  const Gray: string := "bg-gray-100 text-gray-800"

  /** `getStatusColor`: one colour per status, gray for anything else. */
  function StatusColor(status: string): (c: string)
    ensures c == "bg-blue-100 text-blue-800" <==> status == "applied"
    ensures c == "bg-yellow-100 text-yellow-800" <==> status == "interviewing"
    ensures c == "bg-green-100 text-green-800" <==> status == "offer"
    ensures c == "bg-red-100 text-red-800" <==> status == "rejected"
    ensures c == Gray <==> status !in {"applied", "interviewing", "offer", "rejected"}
  {
    if status == "applied" then "bg-blue-100 text-blue-800"
    else if status == "interviewing" then "bg-yellow-100 text-yellow-800"
    else if status == "offer" then "bg-green-100 text-green-800"
    else if status == "rejected" then "bg-red-100 text-red-800"
    else Gray
  }

  datatype Icon = ClockIcon | CheckCircle | XCircle

  /** `getStatusIcon`: a check for an offer, a cross for a rejection, a clock otherwise. */
  function StatusIcon(status: string): (i: Icon)
    ensures i == CheckCircle <==> status == "offer"
    ensures i == XCircle <==> status == "rejected"
    ensures i == ClockIcon <==> status != "offer" && status != "rejected"
  {
    if status == "offer" then CheckCircle
    else if status == "rejected" then XCircle
    else ClockIcon
  }

  /** The lower-cased search term occurs in the lower-cased company or position. */
  predicate MatchesSearch(a: Application, searchTerm: string) {
    ContainsIgnoringCase(a.company, searchTerm) || ContainsIgnoringCase(a.position, searchTerm)
  }

  predicate MatchesStatus(a: Application, filterStatus: string) {
    filterStatus == "all" || a.status.Name() == filterStatus
  }

  function Kept(filterStatus: string, searchTerm: string): Application -> bool {
    (a: Application) => MatchesStatus(a, filterStatus) && MatchesSearch(a, searchTerm)
  }

  /** `filteredApplications`: the applications that match both the status filter and the
      search, in their original order. */
  function FilteredApplications(apps: seq<Application>, filterStatus: string, searchTerm: string): (r: seq<Application>)
    ensures IsSubsequence(r, apps)
    ensures forall a :: a in r <==> a in apps && MatchesStatus(a, filterStatus) && MatchesSearch(a, searchTerm)
  {
    var p := Kept(filterStatus, searchTerm);
    FilterIsSubsequence(apps, p);
    forall a ensures a in Filter(apps, p) <==> a in apps && p(a) {
      FilterMembership(apps, p, a);
    }
    Filter(apps, p)
  }

  /** With no search term and the filter at "all", every application is shown. */
  lemma ShowAll(apps: seq<Application>)
    ensures FilteredApplications(apps, "all", "") == apps
  {
    var p := Kept("all", "");
    forall i | 0 <= i < |apps|
      ensures p(apps[i])
    {
      ContainsEmpty(Lower(apps[i].company));
    }
    FilterAll(apps, p);
  }

  function HasStatus(st: Status): Application -> bool {
    (a: Application) => a.status == st
  }

  /** The number of applications with the given status. */
  function StatusCount(apps: seq<Application>, st: Status): (n: nat)
    ensures n <= |apps|
  {
    |Filter(apps, HasStatus(st))|
  }

  /** The five status counts add up to the total, so the page's three counts ("In
      Progress", "Offers", "Rejected") never exceed it. */
  lemma {:induction false} StatusCountsSum(apps: seq<Application>)
    ensures StatusCount(apps, Applied) + StatusCount(apps, Interviewing) + StatusCount(apps, Offer) +
            StatusCount(apps, Rejected) + StatusCount(apps, Pending) == |apps|
    ensures StatusCount(apps, Interviewing) + StatusCount(apps, Offer) + StatusCount(apps, Rejected) <= |apps|
  {
    if apps != [] {
      StatusCountsSum(apps[..|apps| - 1]);
    }
  }

  /** The starting page shows two applications, one of them interviewing, no offers and
      no rejections. */
  lemma InitialStats()
    ensures |InitialApplications| == 2
    ensures StatusCount(InitialApplications, Interviewing) == 1
    ensures StatusCount(InitialApplications, Offer) == 0
    ensures StatusCount(InitialApplications, Rejected) == 0
  {
    var apps := InitialApplications;
    assert apps[..1][..0] == [];
    assert apps[..1] == [apps[0]];
  }
}
