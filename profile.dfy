/**
 * The profile page (src/pages/Profile.tsx): the sign-in redirect, the
 * summary built by copying the placeholder user and overwriting its name
 * and city, and the colour and description shown for each badge.
 */
module Profile {
  import opened Js
  import Auth
  import ScoreDisplay

  datatype BadgeCount = BadgeCount(name: string, count: nat)

  /** One row of the badges tab. */
  datatype BadgeRow = BadgeRow(name: string, count: nat, color: string, description: string)

  datatype ProfileView =
    | Redirect(to: string)
    | Summary(name: string, city: string, totalScore: int, reports: int, rank: int, badges: seq<BadgeRow>)

  const GoldDescription := "Reports with score 80+"
  const SilverDescription := "Reports with score 60-79"
  const OtherDescription := "Reports with score 40-59"

  /** A user record such as `dummyUser`, as a mutable object. */
  class UserRecord {
    var name: string
    var city: string
    var totalScore: int
    var reports: int
    var rank: int
    var badges: seq<BadgeCount>

    /** `dummyUser`, the placeholder whose figures the page shows. */
    constructor Dummy()
      ensures name == "Alex Johnson" && city == "New York"
      ensures totalScore == 765 && reports == 24 && rank == 17
      ensures badges == [BadgeCount("Gold", 3), BadgeCount("Silver", 7), BadgeCount("Bronze", 14)]
    {
      name, city := "Alex Johnson", "New York";
      totalScore, reports, rank := 765, 24, 17;
      badges := [BadgeCount("Gold", 3), BadgeCount("Silver", 7), BadgeCount("Bronze", 14)];
    }

    /** `{ ...other }`: a new object with the same field values. */
    constructor Copy(other: UserRecord)
      ensures name == other.name && city == other.city
      ensures totalScore == other.totalScore && reports == other.reports && rank == other.rank
      ensures badges == other.badges
    {
      name, city := other.name, other.city;
      totalScore, reports, rank := other.totalScore, other.reports, other.rank;
      badges := other.badges;
    }
  }

  /** The badge's class: Gold is yellow, Silver is slate, any other name is amber. */
  function BadgeColor(name: string): (c: string)
    ensures name == "Gold" ==> c == "bg-yellow-400"
    ensures name == "Silver" ==> c == "bg-slate-300"
    ensures name != "Gold" && name != "Silver" ==> c == "bg-amber-700"
  {
    if name == "Gold" then "bg-yellow-400"
    else if name == "Silver" then "bg-slate-300"
    else "bg-amber-700"
  }

  /** The badge's caption, which states score ranges of its own (80+, 60-79, 40-59). */
  function BadgeDescription(name: string): (d: string)
    ensures name == "Gold" ==> d == GoldDescription
    ensures name == "Silver" ==> d == SilverDescription
    ensures name != "Gold" && name != "Silver" ==> d == OtherDescription
  {
    if name == "Gold" then GoldDescription
    else if name == "Silver" then SilverDescription
    else OtherDescription
  }

  /** The rows of the badges tab, one per badge count, in order. */
  function BadgeRows(badges: seq<BadgeCount>): (rows: seq<BadgeRow>)
    ensures |rows| == |badges|
    ensures forall i :: 0 <= i < |badges| ==>
      rows[i] == BadgeRow(badges[i].name, badges[i].count, BadgeColor(badges[i].name), BadgeDescription(badges[i].name))
  {
    seq(|badges|, i requires 0 <= i < |badges| =>
      BadgeRow(badges[i].name, badges[i].count, BadgeColor(badges[i].name), BadgeDescription(badges[i].name)))
  }

  /**
   * The page: signed out, a redirect to "/"; signed in, a copy of `dummy`
   * whose name and city are replaced by the signed-in user's. The method
   * may modify nothing that existed before the call, so `dummy` is unchanged.
   */
  method RenderProfile(auth: Auth.AuthState, dummy: UserRecord) returns (v: ProfileView)
    requires Auth.SessionConsistent(auth)
    ensures !auth.isSignedIn ==> v == Redirect("/")
    ensures auth.isSignedIn ==> v.Summary?
    ensures v.Summary? ==>
      && v.name == auth.user.user.name
      && v.city == auth.user.user.city
      && v.totalScore == dummy.totalScore
      && v.reports == dummy.reports
      && v.rank == dummy.rank
      && v.badges == BadgeRows(dummy.badges)
  {
    if !auth.isSignedIn {
      return Redirect("/");
    }
    var mockUser := new UserRecord.Copy(dummy);
    var user := auth.user;
    if user.Account? {
      mockUser.name := user.user.name;
      mockUser.city := user.user.city;
    }
    v := Summary(mockUser.name, mockUser.city, mockUser.totalScore, mockUser.reports, mockUser.rank,
                 BadgeRows(mockUser.badges));
  }

  /** The logout button: the provider's storage and record become those of `logout`. */
  method HandleLogout(provider: Auth.AuthProvider)
    requires provider.Valid()
    modifies provider
    ensures provider.Valid()
    ensures provider.storage == Auth.LogoutStorage(old(provider.storage))
    ensures provider.auth == Auth.LogoutState(old(provider.auth))
  {
    provider.Logout();
  }

  /**
   * The profile colours agree with the score view's colours exactly for the
   * badges a score of 50 or more earns; the score view's "Standard" badge is
   * shown amber on the profile, not in its own colour.
   */
  lemma ColorsAgreeAboveFifty(score: int)
    ensures BadgeColor(ScoreDisplay.GetBadgeInfo(score).name) == ScoreDisplay.GetBadgeInfo(score).color
      <==> score >= 50
  {
  }

  /** The score range a caption names, with `hi` absent for "80+". */
  datatype Range = Range(lo: int, hi: Option<int>)

  function CaptionRange(d: string): Option<Range> {
    if d == GoldDescription then Some(Range(80, None))
    else if d == SilverDescription then Some(Range(60, Some(79)))
    else if d == OtherDescription then Some(Range(40, Some(59)))
    else None
  }

  predicate InRange(score: int, r: Range) {
    r.lo <= score && (r.hi.Some? ==> score <= r.hi.value)
  }

  /**
   * The two threshold tables are different: the profile caption of the badge
   * the score view awards covers the score only at 90 and above, from 70 to
   * 79, from 50 to 59 and from 40 to 49.
   */
  lemma CaptionsCoverAwardedScore(score: int)
    ensures CaptionRange(BadgeDescription(ScoreDisplay.GetBadgeInfo(score).name)).Some?
    ensures InRange(score, CaptionRange(BadgeDescription(ScoreDisplay.GetBadgeInfo(score).name)).value)
      <==> score >= 90 || 70 <= score <= 79 || 50 <= score <= 59 || 40 <= score <= 49
  {
  }
}
