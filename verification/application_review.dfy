/**
 * The officer's review page: three action handlers that only show toasts,
 * the shared `actionInProgress` flag that disables the buttons, the comment
 * requirement of reject and clarification, the document badge colours and
 * labels, and the eligibility checklist labels.
 *
 * The handlers await a fixed delay between setting and clearing the flag; a
 * handler that proceeds is modelled by the sequence of values the flag takes.
 */
module ApplicationReview {
  import Strings
  import Ui

  datatype Document = Document(name: string, status: string)

  /** The application under review; no handler writes to it. */
  datatype Reviewed = Reviewed(id: string, schemeName: string, status: string, documents: seq<Document>)

  const MockReviewed: Reviewed := Reviewed("APP001", "PM Kisan Samman Nidhi", "Pending", [
    Document("Aadhaar Card", "verified"),
    Document("Land Records (Khatauni)", "under_review"),
    Document("Bank Account Details", "verified"),
    Document("Passport Size Photo", "verified"),
    Document("Income Certificate", "requires_clarification")
  ])

  datatype ReviewAction = Approve | Reject | Clarify

  /** The value `actionInProgress` holds while the action runs. */
  function ActionName(a: ReviewAction): (r: string)
    ensures r != ""
  {
    match a
    case Approve => "approve"
    case Reject => "reject"
    case Clarify => "clarification"
  }

  /** The title of the toast an action that goes ahead shows; the three differ. */
  function SuccessTitle(a: ReviewAction): (r: string)
    ensures r != "Comments Required"
  {
    match a
    case Approve => "Application Approved"
    case Reject => "Application Rejected"
    case Clarify => "Clarification Requested"
  }

  /** Each action announces itself with its own title, so the toast tells which one ran. */
  lemma SuccessTitlesDiffer(a: ReviewAction, b: ReviewAction)
    requires a != b
    ensures SuccessTitle(a) != SuccessTitle(b)
  {
  }

  /** The page state the handlers read and write. */
  datatype ReviewForm = ReviewForm(comments: string, actionInProgress: string)

  /** What one click produces: the values the flag is set to, in order, the toasts, and the final state. */
  datatype Handled = Handled(progress: seq<string>, events: seq<Ui.Event>, form: ReviewForm, app: Reviewed)

  /** `!reviewComments.trim()` guards reject and clarification; approve has no guard. */
  predicate Blocked(form: ReviewForm, a: ReviewAction) {
    a != Approve && Strings.Trim(form.comments) == ""
  }

  /**
   * `handleApprove`, `handleReject`, `handleRequestClarification`. A blocked
   * handler shows "Comments Required" and returns before touching the flag; one
   * that proceeds sets the flag to its action name, shows its success toast and
   * clears the flag. The application is never written.
   */
  function Handle(form: ReviewForm, app: Reviewed, a: ReviewAction): (r: Handled)
    ensures r.app == app && r.form.comments == form.comments
    ensures |r.events| == 1 && r.events[0].Toast?
    ensures r.events[0].destructive <==> Blocked(form, a)
    ensures Blocked(form, a) ==> r.form == form && r.progress == [] && r.events[0].title == "Comments Required"
    ensures !Blocked(form, a) ==> |r.progress| == 2 && r.progress[0] == ActionName(a) && r.progress[1] == ""
                                   && r.form.actionInProgress == ""
    ensures !Blocked(form, a) ==> r.events[0].title == SuccessTitle(a)
  {
    if Blocked(form, a) then
      Handled([], [Ui.Toast("Comments Required", true)], form, app)
    else
      Handled([ActionName(a), ""], [Ui.Toast(SuccessTitle(a), false)], form.(actionInProgress := ""), app)
  }

  /**
   * The comment requirement in full: a handler is refused exactly when it is
   * reject or clarification and the comments are all whitespace (the empty
   * comment included).
   */
  lemma CommentRequirement(form: ReviewForm, app: Reviewed, a: ReviewAction)
    ensures Handle(form, app, a).events == [Ui.Toast("Comments Required", true)]
            <==> a != Approve && Strings.IsBlank(form.comments)
    ensures a == Approve ==> Handle(form, app, a).progress == ["approve", ""]
  {
    Strings.TrimEmptyIffBlank(form.comments);
  }

  /** All three buttons carry `disabled={!!actionInProgress}`. */
  predicate ButtonsDisabled(form: ReviewForm) {
    form.actionInProgress != ""
  }

  /** A button shows its spinner while the flag holds its own action name. */
  predicate ShowsSpinner(form: ReviewForm, button: ReviewAction) {
    form.actionInProgress == ActionName(button)
  }

  /**
   * While a handler runs, every button is disabled and only the clicked one
   * spins; when it finishes, the buttons are enabled again and none spins.
   */
  lemma ButtonsLockedWhileRunning(form: ReviewForm, app: Reviewed, a: ReviewAction, b: ReviewAction)
    requires !Blocked(form, a)
    ensures ButtonsDisabled(form.(actionInProgress := Handle(form, app, a).progress[0]))
    ensures ShowsSpinner(form.(actionInProgress := Handle(form, app, a).progress[0]), b) <==> b == a
    ensures !ButtonsDisabled(Handle(form, app, a).form) && !ShowsSpinner(Handle(form, app, a).form, b)
  {
  }

  /** No sequence of clicks changes the application: it stays "Pending" with the same documents. */
  lemma {:induction false} ReviewLeavesApplicationAlone(form: ReviewForm, app: Reviewed, clicks: seq<ReviewAction>)
    ensures RunClicks(form, app, clicks).app == app
    ensures app == MockReviewed ==> RunClicks(form, app, clicks).app.status == "Pending"
    decreases |clicks|
  {
    if |clicks| > 0 {
      ReviewLeavesApplicationAlone(Handle(form, app, clicks[0]).form, app, clicks[1..]);
    }
  }

  /** The handlers run one after another (each to completion), starting from `form`. */
  function RunClicks(form: ReviewForm, app: Reviewed, clicks: seq<ReviewAction>): Handled
    decreases |clicks|
  {
    if |clicks| == 0 then Handled([], [], form, app)
    else
      var h := Handle(form, app, clicks[0]);
      var rest := RunClicks(h.form, h.app, clicks[1..]);
      Handled(h.progress + rest.progress, h.events + rest.events, rest.form, rest.app)
  }

  /** `getDocumentStatusColor`. */
  function DocumentTone(status: string): (r: Ui.Tone)
    ensures r == Ui.Success <==> status == "verified"
    ensures r == Ui.Warning <==> status == "under_review"
    ensures r == Ui.Destructive <==> status == "requires_clarification"
  {
    match status
    case "verified" => Ui.Success
    case "under_review" => Ui.Warning
    case "requires_clarification" => Ui.Destructive
    case _ => Ui.Muted
  }

  /**
   * `doc.status.replace('_', ' ')`: the badge text of a document, here and on
   * the status page. The first underscore becomes a space and every other
   * character, later underscores included, stays where it was.
   */
  function DocumentBadge(status: string): (r: string)
    ensures |r| == |status|
    ensures '_' !in status ==> r == status
    ensures 0 <= Strings.IndexOf(status, '_') ==> r[Strings.IndexOf(status, '_')] == ' '
    ensures forall k :: 0 <= k < |status| && k != Strings.IndexOf(status, '_') ==> r[k] == status[k]
  {
    Strings.ReplaceFirst(status, '_', ' ')
  }

  /**
   * Every status of the page's documents has at most one underscore, so each
   * badge reads without underscores.
   */
  lemma DemoDocumentBadgesHaveNoUnderscore()
    ensures forall i :: 0 <= i < |MockReviewed.documents| ==> '_' !in DocumentBadge(MockReviewed.documents[i].status)
  {
    forall i | 0 <= i < |MockReviewed.documents|
      ensures '_' !in DocumentBadge(MockReviewed.documents[i].status)
    {
      Strings.ReplaceFirstSingle(MockReviewed.documents[i].status, '_', ' ');
    }
  }

  /** The keys of the eligibility checklist, in declaration order. */
  const EligibilityKeys: seq<string> := [
    "landHoldingEligible", "incomeEligible", "categoryEligible",
    "documentsComplete", "aadhaarVerified", "bankLinked"
  ]

  /** `key.replace(/([A-Z])/g, ' $1').trim()`. */
  function EligibilityLabel(key: string): (r: string)
    ensures |r| > 0 ==> !Strings.IsSpace(r[0]) && !Strings.IsSpace(r[|r| - 1])
  {
    Strings.Trim(Strings.SpaceBeforeCapitals(key))
  }

  /**
   * The label of a key without whitespace is the key split into words in front
   * of its capitals: with whitespace removed it spells the key again, its only
   * whitespace is single spaces each directly before a capital, and every
   * capital but a leading one has such a space in front of it.
   */
  lemma LabelSpellsKey(key: string)
    requires forall i :: 0 <= i < |key| ==> !Strings.IsSpace(key[i])
    ensures Strings.RemoveWhitespace(EligibilityLabel(key)) == key
    ensures Strings.SpacesPrecedeCapitals(EligibilityLabel(key))
    ensures Strings.CapitalsAfterSpace(EligibilityLabel(key))
  {
    var spaced := Strings.SpaceBeforeCapitals(key);
    Strings.TrimKeepsNonWhitespace(spaced);
    Strings.RemoveWhitespaceOfSolid(key);
    Strings.SpacesOnlyBeforeCapitals(key);
    Strings.TrimKeepsWordSplit(spaced);
  }

  /** `words` is `key` split into words in front of its capitals. */
  predicate SplitsIntoWords(key: string, words: string) {
    Strings.RemoveWhitespace(words) == key && Strings.SpacesPrecedeCapitals(words) && Strings.CapitalsAfterSpace(words)
  }

  /** So every label of the checklist is its key split into words at the capitals. */
  lemma ChecklistLabelsSpellKeys()
    ensures forall i :: 0 <= i < |EligibilityKeys| ==> SplitsIntoWords(EligibilityKeys[i], EligibilityLabel(EligibilityKeys[i]))
  {
    KeysHaveNoWhitespace();
    forall i | 0 <= i < |EligibilityKeys|
      ensures SplitsIntoWords(EligibilityKeys[i], EligibilityLabel(EligibilityKeys[i]))
    {
      LabelSpellsKey(EligibilityKeys[i]);
    }
  }

  /** The checklist keys are camelCase identifiers: ASCII letters only, so no whitespace. */
  lemma KeysHaveNoWhitespace()
    ensures forall i, j :: 0 <= i < |EligibilityKeys| && 0 <= j < |EligibilityKeys[i]| ==> !Strings.IsSpace(EligibilityKeys[i][j])
  {
    forall i | 0 <= i < |EligibilityKeys|
      ensures forall j :: 0 <= j < |EligibilityKeys[i]| ==> !Strings.IsSpace(EligibilityKeys[i][j])
    {
      var key := EligibilityKeys[i];
      assert forall j :: 0 <= j < |key| ==> Strings.IsUpper(key[j]) || Strings.IsLowerLetter(key[j]);
    }
  }
}
