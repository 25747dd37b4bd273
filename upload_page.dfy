/**
 * The upload page (src/pages/Upload.tsx): the sign-in redirect, the two
 * state fields `isUploaded` and `scoreResult`, the success and reset
 * handlers, and the choice between the form and the score view.
 */
module UploadPage {
  import opened Js
  import ScoreDisplay
  import Header

  datatype ScoreResult = ScoreResult(score: int, message: string)

  datatype UploadView =
    | Redirect(to: string)
    | ScoreView(score: int, badge: ScoreDisplay.BadgeInfo, message: string)
    | FormView

  class UploadPageState {
    var isUploaded: bool
    var scoreResult: Option<ScoreResult>

    constructor ()
      ensures !isUploaded && scoreResult.None?
    {
      isUploaded := false;
      scoreResult := None;
    }

    /** `handleUploadSuccess`: keeps the result and switches to the score view. */
    method HandleUploadSuccess(result: ScoreResult)
      modifies this
      ensures isUploaded && scoreResult == Some(result)
    {
      scoreResult := Some(result);
      isUploaded := true;
    }

    /** `handleReset` (the "Submit Another Report" button): back to the state the page starts in. */
    method HandleReset()
      modifies this
      ensures !isUploaded && scoreResult.None?
    {
      isUploaded := false;
      scoreResult := None;
    }

    /** The card body: the score view when a result is held and flagged, the form otherwise. */
    function Render(isSignedIn: bool): (v: UploadView)
      reads this
      ensures !isSignedIn ==> v == Redirect("/")
      ensures isSignedIn ==> (v.ScoreView? <==> isUploaded && scoreResult.Some?)
      ensures isSignedIn ==> !v.Redirect?
      ensures v.ScoreView? ==>
        && v.score == scoreResult.value.score
        && v.badge == ScoreDisplay.GetBadgeInfo(scoreResult.value.score)
        && v.message == ScoreDisplay.DisplayedMessage(Some(scoreResult.value.message))
    {
      if !isSignedIn then Redirect("/")
      else if isUploaded && scoreResult.Some? then
        var r := scoreResult.value;
        ScoreView(r.score, ScoreDisplay.GetBadgeInfo(r.score), ScoreDisplay.DisplayedMessage(Some(r.message)))
      else FormView
    }
  }

  /** The page renders `<Header />` with no `isLoggedIn` prop: no links, logo to "/", even when signed in. */
  lemma HeaderIgnoresSession()
    ensures Header.NavItems(Header.LoggedIn(None)) == []
    ensures Header.HomeRoute(Header.LoggedIn(None)) == "/"
  {
  }

  /** A success followed by a reset shows the form again, as on first render. */
  method SuccessThenReset(result: ScoreResult) returns (before: UploadView, after: UploadView)
    ensures before.ScoreView? && before.score == result.score
    ensures after == FormView
  {
    var page := new UploadPageState();
    page.HandleUploadSuccess(result);
    before := page.Render(true);
    page.HandleReset();
    after := page.Render(true);
  }
}
