/**
 * The applications list: a case-insensitive search over three fields, ANDed
 * with a status filter, with citizens further restricted to their own
 * applications; the status badge vocabulary; and the approve/reject buttons,
 * whose handler only shows a toast.
 */
module Applications {
  import opened Wrappers
  import opened Auth
  import Strings
  import Seqs
  import App
  import Ui

  /** A list entry (the display-only dates, reviewer, documents and rejection reason are omitted). */
  datatype Application = Application(
    id: string, schemeName: string, applicantName: string, applicantEmail: string, status: string)

  const MockApplications: seq<Application> := [
    Application("APP001", "PM Kisan Samman Nidhi", "Rajesh Kumar", "rajesh@email.com", "Pending"),
    Application("APP002", "Ayushman Bharat", "Priya Sharma", "priya@email.com", "Approved"),
    Application("APP003", "Digital India Initiative", "Amit Patel", "amit@email.com", "Under Review"),
    Application("APP004", "Mudra Yojana", "Sunita Verma", "sunita@email.com", "Rejected")
  ]

  /** The lower-cased term occurs in the lower-cased scheme name, applicant name or id. */
  predicate MatchesSearch(a: Application, term: string) {
    var t := Strings.Lower(term);
    Strings.Includes(Strings.Lower(a.schemeName), t)
    || Strings.Includes(Strings.Lower(a.applicantName), t)
    || Strings.Includes(Strings.Lower(a.id), t)
  }

  predicate MatchesStatus(a: Application, statusFilter: string) {
    statusFilter == "All" || a.status == statusFilter
  }

  /** The `filter` callback: search and status, plus own-email for a Citizen. */
  predicate Visible(a: Application, term: string, statusFilter: string, user: Option<User>) {
    if HasRole(user, CitizenRole) then
      MatchesSearch(a, term) && MatchesStatus(a, statusFilter) && a.applicantEmail == user.value.email
    else
      MatchesSearch(a, term) && MatchesStatus(a, statusFilter)
  }

  /**
   * `filteredApplications`: the order-preserving subsequence of `apps` that
   * match the search and status filter; for a Citizen, only those whose
   * applicant email is the Citizen's. A visible entry listed twice is shown twice.
   */
  function FilterApplications(apps: seq<Application>, term: string, statusFilter: string, user: Option<User>)
    : (r: seq<Application>)
    ensures Seqs.IsSubsequence(r, apps)
    ensures forall i :: 0 <= i < |r| ==> r[i] in apps
    ensures forall i :: 0 <= i < |r| ==> MatchesSearch(r[i], term) && MatchesStatus(r[i], statusFilter)
    ensures HasRole(user, CitizenRole) ==> forall i :: 0 <= i < |r| ==> r[i].applicantEmail == user.value.email
    ensures forall i :: 0 <= i < |apps| && MatchesSearch(apps[i], term) && MatchesStatus(apps[i], statusFilter)
                        && (HasRole(user, CitizenRole) ==> apps[i].applicantEmail == user.value.email)
                        ==> apps[i] in r
    ensures forall i :: 0 <= i < |apps| ==>
              multiset(r)[apps[i]] == (if Visible(apps[i], term, statusFilter, user) then multiset(apps)[apps[i]] else 0)
  {
    Seqs.Filter(apps, a => Visible(a, term, statusFilter, user))
  }

  /** The empty search term matches every application. */
  lemma EmptySearchMatchesAll(a: Application)
    ensures MatchesSearch(a, "")
  {
    Strings.IncludesEmpty(Strings.Lower(a.schemeName));
  }

  /** Searching is case-insensitive in the term: a term and its lower case match the same applications. */
  lemma SearchIsCaseInsensitive(a: Application, term: string)
    ensures MatchesSearch(a, Strings.Lower(term)) == MatchesSearch(a, term)
  {
    Strings.LowerIdempotent(term);
  }

  /** With no search term and the "All" filter, a non-Citizen sees the whole list, in order. */
  lemma UnfilteredStaffViewIsWholeList(apps: seq<Application>, user: Option<User>)
    requires !HasRole(user, CitizenRole)
    ensures FilterApplications(apps, "", "All", user) == apps
  {
    forall i | 0 <= i < |apps|
      ensures Visible(apps[i], "", "All", user)
    {
      EmptySearchMatchesAll(apps[i]);
    }
    Seqs.FilterKeepsAll(apps, a => Visible(a, "", "All", user));
  }

  /** Any role other than Citizen, or nobody signed in, gets the same unrestricted list. */
  lemma NonCitizensSeeSameList(apps: seq<Application>, term: string, statusFilter: string, user: Option<User>)
    requires !HasRole(user, CitizenRole)
    ensures FilterApplications(apps, term, statusFilter, user) == FilterApplications(apps, term, statusFilter, None)
  {
    Seqs.FilterCongruent(apps, a => Visible(a, term, statusFilter, user), a => Visible(a, term, statusFilter, None));
  }

  /**
   * A Citizen's list is the unrestricted list for the same search and filter,
   * further filtered to the Citizen's own email; so it is a subsequence of what
   * an Officer sees.
   */
  lemma CitizenViewRefinesStaffView(apps: seq<Application>, term: string, statusFilter: string,
                                    citizen: Option<User>, officer: Option<User>)
    requires HasRole(citizen, CitizenRole) && !HasRole(officer, CitizenRole)
    ensures FilterApplications(apps, term, statusFilter, citizen)
            == Seqs.Filter(FilterApplications(apps, term, statusFilter, officer),
                           (a: Application) => a.applicantEmail == citizen.value.email)
    ensures Seqs.IsSubsequence(FilterApplications(apps, term, statusFilter, citizen),
                               FilterApplications(apps, term, statusFilter, officer))
  {
    NonCitizensSeeSameList(apps, term, statusFilter, officer);
    Seqs.FilterConjunction(apps, a => Visible(a, term, statusFilter, None),
                           (a: Application) => a.applicantEmail == citizen.value.email,
                           a => Visible(a, term, statusFilter, citizen));
  }

  /** A Citizen none of whose applications is in the list sees an empty list. */
  lemma CitizenWithoutApplicationsSeesNone(apps: seq<Application>, term: string, statusFilter: string, user: Option<User>)
    requires HasRole(user, CitizenRole)
    requires forall i :: 0 <= i < |apps| ==> apps[i].applicantEmail != user.value.email
    ensures FilterApplications(apps, term, statusFilter, user) == []
  {
  }

  /** None of the demo applications belongs to the demo Citizen account, whose list is therefore empty. */
  lemma DemoCitizenSeesNoApplications(term: string, statusFilter: string)
    ensures FilterApplications(MockApplications, term, statusFilter, Some(MockUsers[2])) == []
  {
    assert forall i :: 0 <= i < |MockApplications| ==> MockApplications[i].applicantEmail != MockUsers[2].email;
    CitizenWithoutApplicationsSeesNone(MockApplications, term, statusFilter, Some(MockUsers[2]));
  }

  datatype StatusIcon = CheckCircle | XCircle | Eye | Clock

  /** `getStatusIcon`. */
  function StatusIconOf(status: string): StatusIcon {
    match status
    case "Approved" => CheckCircle
    case "Rejected" => XCircle
    case "Under Review" => Eye
    case _ => Clock
  }

  /** `getStatusColor`. */
  function StatusTone(status: string): Ui.Tone {
    match status
    case "Approved" => Ui.Success
    case "Rejected" => Ui.Destructive
    case "Under Review" => Ui.Warning
    case _ => Ui.Muted
  }

  /**
   * The badge of each status: "Approved" is a check in the success colour,
   * "Rejected" a cross in the destructive colour, "Under Review" an eye in the
   * warning colour, and any other status, "Pending" included, a clock in the
   * muted colour. Icon and colour therefore always tell the same story.
   */
  lemma IconAndToneAgree(status: string)
    ensures status == "Approved" <==> StatusIconOf(status) == CheckCircle && StatusTone(status) == Ui.Success
    ensures status == "Rejected" <==> StatusIconOf(status) == XCircle && StatusTone(status) == Ui.Destructive
    ensures status == "Under Review" <==> StatusIconOf(status) == Eye && StatusTone(status) == Ui.Warning
    ensures status !in {"Approved", "Rejected", "Under Review"} <==> StatusIconOf(status) == Clock && StatusTone(status) == Ui.Muted
    ensures StatusIconOf(status) == CheckCircle <==> StatusTone(status) == Ui.Success
    ensures StatusIconOf(status) == XCircle <==> StatusTone(status) == Ui.Destructive
    ensures StatusIconOf(status) == Eye <==> StatusTone(status) == Ui.Warning
    ensures StatusIconOf(status) == Clock <==> StatusTone(status) == Ui.Muted
  {
  }

  /** The approve/reject buttons: an Officer or Admin, on a "Pending" application. */
  predicate ReviewButtonsVisible(user: Option<User>, a: Application) {
    (HasRole(user, OfficerRole) || HasRole(user, AdminRole)) && a.status == "Pending"
  }

  /**
   * The buttons appear exactly for the users `OfficerAdminRoute` admits, and
   * only on pending applications; a Citizen or a signed-out visitor never sees them.
   */
  lemma ReviewButtonsFollowReviewGuard(user: Option<User>, a: Application)
    ensures ReviewButtonsVisible(user, a) <==> App.Admits(App.OfficerAdmin, user) && a.status == "Pending"
    ensures HasRole(user, CitizenRole) || user.None? ==> !ReviewButtonsVisible(user, a)
  {
  }

  /**
   * `handleReviewAction`: shows "Application Approved" or "Application
   * Rejected" and nothing else; the list itself is left exactly as it was.
   */
  function HandleReviewAction(apps: seq<Application>, id: string, approve: bool): (r: (seq<Application>, Ui.Event))
    ensures r.0 == apps
    ensures r.1.Toast? && !r.1.destructive
    ensures r.1.title == (if approve then "Application Approved" else "Application Rejected")
  {
    (apps, Ui.Toast(if approve then "Application Approved" else "Application Rejected", false))
  }
}
