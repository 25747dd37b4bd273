/**
 * The score view shown after a report is submitted
 * (src/components/ScoreDisplay.tsx): the badge earned by a score and the
 * message line with its thank-you fallback.
 */
module ScoreDisplay {
  import opened Js

  /** The record `getBadgeInfo` returns: a badge name and its colour class. */
  datatype BadgeInfo = BadgeInfo(name: string, color: string)

  const Gold := BadgeInfo("Gold", "bg-yellow-400")
  const Silver := BadgeInfo("Silver", "bg-slate-300")
  const Bronze := BadgeInfo("Bronze", "bg-amber-700")
  const Standard := BadgeInfo("Standard", "bg-slate-200")

  const DefaultMessage := "Thank you for helping keep our city clean!"

  /** Position of a badge in the order Standard < Bronze < Silver < Gold. */
  function Level(b: BadgeInfo): int {
    if b == Gold then 3
    else if b == Silver then 2
    else if b == Bronze then 1
    else 0
  }

  /** `getBadgeInfo`: the first threshold (90, 70, 50) the score reaches decides the badge. */
  function GetBadgeInfo(score: int): (b: BadgeInfo)
    ensures b == Gold <==> score >= 90
    ensures b == Silver <==> 70 <= score < 90
    ensures b == Bronze <==> 50 <= score < 70
    ensures b == Standard <==> score < 50
  {
    if score >= 90 then Gold
    else if score >= 70 then Silver
    else if score >= 50 then Bronze
    else Standard
  }

  /** Raising the score never yields a lower badge. */
  lemma BadgeMonotone(low: int, high: int)
    requires low <= high
    ensures Level(GetBadgeInfo(low)) <= Level(GetBadgeInfo(high))
  {
  }

  /** The four badges have distinct names, so the name shown identifies the badge. */
  lemma BadgeNameIdentifiesBadge(s1: int, s2: int)
    ensures GetBadgeInfo(s1).name == GetBadgeInfo(s2).name <==> GetBadgeInfo(s1) == GetBadgeInfo(s2)
  {
  }

  /** `message || "Thank you ..."`: a missing or empty message falls back to the thank-you text. */
  function DisplayedMessage(message: Option<string>): (shown: string)
    ensures Truthy(message) ==> shown == message.value
    ensures !Truthy(message) ==> shown == DefaultMessage
    ensures shown != ""
  {
    if Truthy(message) then message.value else DefaultMessage
  }
}
