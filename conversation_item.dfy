/**
 * An entry of the conversation list: the time since the last update and the badge of the
 * conversation's phase.  The time since the update is an input in milliseconds, and the short
 * date shown from a week on is an input string.
 */
module ConversationItem {
  import opened Text
  import opened Wrappers
  import AutomationCard

  datatype ChatPhase = Goal | Researching | Tools | Credentials | Chat

  /** `PHASE_LABELS`. */
  function PhaseLabel(phase: ChatPhase): string {
    match phase
    case Goal => "Draft"
    case Researching => "Analyzing"
    case Tools => "Selecting"
    case Credentials => "Setup"
    case Chat => "Active"
  }

  /** The table has a non-empty label for every phase, and no two phases share one. */
  lemma PhaseLabelsTotal(a: ChatPhase, b: ChatPhase)
    ensures |PhaseLabel(a)| > 0
    ensures PhaseLabel(a) == PhaseLabel(b) <==> a == b
  {
  }

  /** The phase badge next to the time: none for a conversation in the chat phase. */
  function PhaseBadge(phase: ChatPhase): (r: Option<string>)
    ensures r.Some? <==> phase != Chat
    ensures r.Some? ==> r.value == PhaseLabel(phase)
  {
    if phase != Chat then Some(PhaseLabel(phase)) else None
  }

  /** The buckets of `getRelativeTime`; minutes, hours and days are each floored from `diffMs`. */
  datatype Ago = JustNow | MinutesAgo(minutes: int) | HoursAgo(hours: int) | DaysAgo(days: int) | OnDate

  function RelativeBucket(diffMs: int): Ago {
    var minutes := diffMs / 60000;
    var hours := diffMs / 3600000;
    var days := diffMs / 86400000;
    if minutes < 1 then JustNow
    else if minutes < 60 then MinutesAgo(minutes)
    else if hours < 24 then HoursAgo(hours)
    else if days < 7 then DaysAgo(days)
    else OnDate
  }

  /** `getRelativeTime`; `shortDate` is the 'month day' string of the update time. */
  function RelativeTime(diffMs: int, shortDate: string): string {
    match RelativeBucket(diffMs)
    case JustNow => "Just now"
    case MinutesAgo(m) => IntToString(m) + "m ago"
    case HoursAgo(h) => IntToString(h) + "h ago"
    case DaysAgo(d) => IntToString(d) + "d ago"
    case OnDate => shortDate
  }

  /** Each bucket holds exactly its range of milliseconds. */
  lemma RelativeBuckets(diffMs: int)
    ensures RelativeBucket(diffMs) == JustNow <==> diffMs < 60000
    ensures RelativeBucket(diffMs).MinutesAgo? <==> 60000 <= diffMs < 3600000
    ensures RelativeBucket(diffMs).HoursAgo? <==> 3600000 <= diffMs < 86400000
    ensures RelativeBucket(diffMs).DaysAgo? <==> 86400000 <= diffMs < 604800000
    ensures RelativeBucket(diffMs) == OnDate <==> 604800000 <= diffMs
  {
  }

  /**
   * The conversation list and the automation card floor differently, minutes to hours to days
   * on the card and each straight from the milliseconds here, yet they always pick the same
   * bucket with the same count.
   */
  lemma SameBucketsAsAutomationCard(diffMs: int, lastRunAt: string)
    requires |lastRunAt| > 0
    ensures match RelativeBucket(diffMs)
            case JustNow => AutomationCard.LastRunBucket(Some(lastRunAt), diffMs) == AutomationCard.JustNow
            case MinutesAgo(m) => AutomationCard.LastRunBucket(Some(lastRunAt), diffMs) == AutomationCard.MinutesAgo(m)
            case HoursAgo(h) => AutomationCard.LastRunBucket(Some(lastRunAt), diffMs) == AutomationCard.HoursAgo(h)
            case DaysAgo(d) => AutomationCard.LastRunBucket(Some(lastRunAt), diffMs) == AutomationCard.DaysAgo(d)
            case OnDate => AutomationCard.LastRunBucket(Some(lastRunAt), diffMs) == AutomationCard.OnDate
  {
    AutomationCard.FloorOfFloor(diffMs);
  }
}
