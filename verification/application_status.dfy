/**
 * The citizen's status page: one colour table shared by the header badge, the
 * document badges and (in effect) the timeline, the document icons, the
 * timeline markers, the badge labels and the comments card.
 */
module ApplicationStatus {
  import Strings
  import Ui
  import Applications
  import ApplicationReview

  /** `getStatusColor`: timeline and document statuses share one table. */
  function StatusTone(status: string): (r: Ui.Tone)
    ensures r == Ui.Success <==> status == "completed" || status == "verified"
    ensures r == Ui.Warning <==> status == "current" || status == "under_review"
    ensures r == Ui.Destructive <==> status == "pending_clarification"
  {
    match status
    case "completed" => Ui.Success
    case "current" => Ui.Warning
    case "verified" => Ui.Success
    case "under_review" => Ui.Warning
    case "pending_clarification" => Ui.Destructive
    case _ => Ui.Muted
  }

  datatype Glyph = CheckCircle | Clock | Eye | Dot

  /** An icon together with the colour it is drawn in. */
  datatype Marker = Marker(glyph: Glyph, tone: Ui.Tone)

  /** `getDocumentStatusIcon`. */
  function DocumentStatusIcon(status: string): Marker {
    match status
    case "verified" => Marker(CheckCircle, Ui.Success)
    case "under_review" => Marker(Clock, Ui.Warning)
    case "pending_clarification" => Marker(Eye, Ui.Destructive)
    case _ => Marker(Clock, Ui.Muted)
  }

  /**
   * A document's icon is drawn in the colour of its badge, except for the two
   * timeline words, which the icon table does not know and draws as a muted clock.
   */
  lemma DocumentIconMatchesBadge(status: string)
    ensures status != "completed" && status != "current" ==> DocumentStatusIcon(status).tone == StatusTone(status)
    ensures DocumentStatusIcon(status).glyph == Clock <==> status != "verified" && status != "pending_clarification"
    ensures DocumentStatusIcon(status).glyph == CheckCircle <==> status == "verified"
    ensures DocumentStatusIcon(status).glyph == Eye <==> status == "pending_clarification"
  {
  }

  /** The timeline marker: a check when completed, a clock when current, a dot otherwise. */
  function TimelineMarker(status: string): Marker {
    if status == "completed" then Marker(CheckCircle, Ui.Success)
    else if status == "current" then Marker(Clock, Ui.Warning)
    else Marker(Dot, Ui.Muted)
  }

  /**
   * The marker's colour is the one `getStatusColor` gives a timeline status:
   * it agrees on every status outside the document vocabulary.
   */
  lemma TimelineMarkerMatchesStatusTone(status: string)
    requires status !in {"verified", "under_review", "pending_clarification"}
    ensures TimelineMarker(status).tone == StatusTone(status)
    ensures TimelineMarker(status).glyph == Dot <==> StatusTone(status) == Ui.Muted
    ensures TimelineMarker(status).glyph == CheckCircle <==> status == "completed"
    ensures TimelineMarker(status).glyph == Clock <==> status == "current"
  {
  }

  /**
   * The document badge text is the review page's `replace('_', ' ')`: only the
   * first underscore becomes a space, and any later one stays in the badge.
   */
  lemma BadgeKeepsSecondUnderscore(status: string, j: int)
    requires Strings.IndexOf(status, '_') < j < |status| && status[j] == '_'
    ensures ApplicationReview.DocumentBadge(status)[Strings.IndexOf(status, '_')] == ' '
    ensures ApplicationReview.DocumentBadge(status)[j] == '_'
  {
    Strings.ReplaceFirstKeepsLaterOccurrences(status, '_', ' ', j);
  }

  datatype Comment = Comment(author: string, date: string, message: string)

  /** The comments card is rendered iff there is at least one comment. */
  predicate CommentsCardShown(comments: seq<Comment>) {
    |comments| > 0
  }

  /** The page's own comment list: the one remark of the reviewing officer. */
  const PageComments: seq<Comment> := [
    Comment("Officer Kumar", "2024-01-18",
            "Land records are being verified. Income certificate needs to be resubmitted with proper authority signature.")
  ]

  /**
   * The card appears as soon as there is one comment, whatever came before,
   * and only then; on the page it is shown.
   */
  lemma CommentsCardOnPage(comments: seq<Comment>, c: Comment)
    ensures CommentsCardShown(comments + [c])
    ensures !CommentsCardShown(comments) <==> comments == []
    ensures CommentsCardShown(PageComments)
  {
  }

  /** The status of the application the page shows. */
  const PageStatus: string := "Under Review"

  /** The header badge as written: `getStatusColor(status.toLowerCase())`. */
  function HeaderToneAsWritten(status: string): Ui.Tone {
    StatusTone(Strings.Lower(status))
  }

  /**
   * Lower-casing keeps spaces, and no key of the colour table has one: the
   * header badge of any status of two or more words is muted.
   */
  lemma SpacedStatusIsMuted(status: string)
    requires ' ' in status
    ensures HeaderToneAsWritten(status) == Ui.Muted
  {
    var lowered := Strings.Lower(status);
    var i :| 0 <= i < |status| && status[i] == ' ';
    assert lowered[i] == ' ';
    var keys := ["completed", "current", "verified", "under_review", "pending_clarification"];
    assert forall j :: 0 <= j < |keys| ==> ' ' !in keys[j];
    assert lowered !in keys;
  }

  /**
   * So "Under Review", which lower-cases to "under review" rather than the
   * table's "under_review", gets a muted header badge, while the applications
   * list colours the same status as a warning.
   */
  lemma HeaderBadgeMissesUnderReview()
    ensures HeaderToneAsWritten(PageStatus) == Ui.Muted
    ensures Applications.StatusTone(PageStatus) == Ui.Warning
  {
    PageStatusHasSpace();
    SpacedStatusIsMuted(PageStatus);
  }

  lemma PageStatusHasSpace()
    ensures ' ' in PageStatus
  {
    assert PageStatus[5] == ' ';
  }

  /** The header badge with the key normalised: lower-cased, then spaces turned into underscores. */
  function HeaderTone(status: string): Ui.Tone {
    StatusTone(Strings.ReplaceAll(Strings.Lower(status), ' ', '_'))
  }

  /**
   * With the key normalised, the header badge gives "Under Review" and
   * "Pending" the colours the applications list gives them.
   */
  lemma HeaderToneMatchesList(status: string)
    requires status == "Under Review" || status == "Pending"
    ensures HeaderTone(status) == Applications.StatusTone(status)
  {
    if status == "Under Review" {
      NormalisedUnderReview(status);
    } else {
      NormalisedPending(status);
    }
  }

  lemma NormalisedUnderReview(status: string)
    requires status == "Under Review"
    ensures HeaderTone(status) == Ui.Warning
  {
    var lowered := Strings.Lower(status);
    Strings.LowerSpelled(status, "under review");
    Strings.ReplaceAllSpelled(lowered, ' ', '_', "under_review");
  }

  lemma NormalisedPending(status: string)
    requires status == "Pending"
    ensures HeaderTone(status) == Ui.Muted
  {
    var lowered := Strings.Lower(status);
    Strings.LowerSpelled(status, "pending");
    Strings.ReplaceAllAbsent(lowered, ' ', '_');
  }

  /**
   * The review page and this page spell the clarification status differently:
   * each page's table colours its own spelling destructive and the other's muted.
   */
  lemma ClarificationSpellingsDiffer()
    ensures ApplicationReview.DocumentTone("requires_clarification") == Ui.Destructive
    ensures StatusTone("requires_clarification") == Ui.Muted
    ensures StatusTone("pending_clarification") == Ui.Destructive
    ensures ApplicationReview.DocumentTone("pending_clarification") == Ui.Muted
  {
  }
}
