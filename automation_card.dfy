/**
 * The card of one automation: the time of its last run, its health badge, its weekly run
 * count and the pause/resume toggle.  The time since the last run is an input in milliseconds,
 * and the locale date shown for runs a week old or more is an input string.
 */
module AutomationCard {
  import opened Text
  import opened Wrappers
  import opened AutomationsRoute

  // ---------------------------------------------------------------- the last run

  /** The time bucket a relative time falls into, with its count. */
  datatype Ago = Never | JustNow | MinutesAgo(minutes: int) | HoursAgo(hours: int) | DaysAgo(days: int) | OnDate

  /**
   * The buckets of `formatRelativeTime`: minutes floored from the milliseconds, hours floored
   * from the minutes and days from the hours.  No date, or an empty one, is 'Never'.
   */
  function LastRunBucket(lastRunAt: Option<string>, diffMs: int): Ago {
    if lastRunAt.None? || |lastRunAt.value| == 0 then Never
    else
      var minutes := diffMs / 60000;
      var hours := minutes / 60;
      var days := hours / 24;
      if minutes < 1 then JustNow
      else if minutes < 60 then MinutesAgo(minutes)
      else if hours < 24 then HoursAgo(hours)
      else if days < 7 then DaysAgo(days)
      else OnDate
  }

  /** "s" when the count is more than one. */
  function Plural(n: int): string {
    if n > 1 then "s" else ""
  }

  /** The text for a bucket; `localDate` is what `toLocaleDateString` gives. */
  function LastRunText(ago: Ago, localDate: string): string {
    match ago
    case Never => "Never"
    case JustNow => "Just now"
    case MinutesAgo(m) => IntToString(m) + " min ago"
    case HoursAgo(h) => IntToString(h) + " hour" + Plural(h) + " ago"
    case DaysAgo(d) => IntToString(d) + " day" + Plural(d) + " ago"
    case OnDate => localDate
  }

  /** `formatRelativeTime`. */
  function FormatRelativeTime(lastRunAt: Option<string>, diffMs: int, localDate: string): string {
    LastRunText(LastRunBucket(lastRunAt, diffMs), localDate)
  }

  /**
   * With a date, the bucket is chosen by the whole minutes, whole hours and whole days elapsed:
   * under a minute (a date in the future included) is 'Just now', then minutes below an hour,
   * hours below a day and days below a week; a week or more shows the date.
   */
  lemma LastRunBuckets(lastRunAt: string, diffMs: int)
    requires |lastRunAt| > 0
    ensures diffMs < 60000 <==> LastRunBucket(Some(lastRunAt), diffMs) == JustNow
    ensures 60000 <= diffMs < 3600000 <==> LastRunBucket(Some(lastRunAt), diffMs) == MinutesAgo(diffMs / 60000)
    ensures 3600000 <= diffMs < 86400000 <==> LastRunBucket(Some(lastRunAt), diffMs) == HoursAgo(diffMs / 3600000)
    ensures 86400000 <= diffMs < 604800000 <==> LastRunBucket(Some(lastRunAt), diffMs) == DaysAgo(diffMs / 86400000)
    ensures 604800000 <= diffMs <==> LastRunBucket(Some(lastRunAt), diffMs) == OnDate
  {
    FloorOfFloor(diffMs);
  }

  /** A run that never happened, or has no start time, reads 'Never'; any real date gets a bucket. */
  lemma NeverRun(lastRunAt: Option<string>, diffMs: int, localDate: string)
    ensures LastRunBucket(lastRunAt, diffMs) == Never <==> lastRunAt.None? || lastRunAt.value == ""
    ensures lastRunAt.None? ==> FormatRelativeTime(lastRunAt, diffMs, localDate) == "Never"
  {
  }

  /** Flooring minutes to hours and hours to days is flooring the milliseconds directly. */
  lemma FloorOfFloor(ms: int)
    ensures ms / 60000 / 60 == ms / 3600000
    ensures ms / 60000 / 60 / 24 == ms / 86400000
  {
    var m, h := ms / 60000, ms / 3600000;
    assert ms == 60000 * m + ms % 60000;
    assert ms == 3600000 * h + ms % 3600000;
    assert 60 * h <= m < 60 * h + 60;
    assert m / 60 == h;
    var d := ms / 86400000;
    assert ms == 86400000 * d + ms % 86400000;
    assert 24 * d <= h < 24 * d + 24;
  }

  /** The plural ending is there exactly when the count is more than one; 1 hour has none. */
  lemma PluralRule(n: int)
    ensures Plural(n) == "s" <==> n > 1
    ensures Plural(n) == "" <==> n <= 1
  {
  }

  // ---------------------------------------------------------------- the badge and the counts

  datatype Badge = Badge(text: string, className: string)

  function HealthBadge(health: Health): Badge {
    match health
    case Healthy => Badge("Healthy", "bg-green-100 text-green-800 border-green-200")
    case Failing => Badge("Needs attention", "bg-red-100 text-red-800 border-red-200")
    case Paused => Badge("Paused", "bg-gray-100 text-gray-600 border-gray-200")
    case Unknown => Badge("Unknown", "bg-gray-100 text-gray-600 border-gray-200")
  }

  /** The badge shown: the health of the automation while it is active locally, paused otherwise. */
  function ShownBadge(health: Health, localActive: bool): Badge {
    HealthBadge(if localActive then health else Paused)
  }

  /** A locally paused card always shows 'Paused'; an active one shows its own health's label. */
  lemma ShownBadgeRule(health: Health, localActive: bool)
    ensures !localActive ==> ShownBadge(health, localActive).text == "Paused"
    ensures localActive ==> ShownBadge(health, localActive) == HealthBadge(health)
    ensures ShownBadge(health, localActive).text == "Paused" <==> !localActive || health == Paused
  {
  }

  /** Each health value has its own label. */
  lemma HealthLabelsDistinct(a: Health, b: Health)
    ensures HealthBadge(a).text == HealthBadge(b).text <==> a == b
  {
  }

  /** `{weeklyRuns} run{weeklyRuns !== 1 ? 's' : ''} this week`. */
  function WeeklyRunsText(weeklyRuns: nat): string {
    NatToString(weeklyRuns) + " run" + (if weeklyRuns != 1 then "s" else "") + " this week"
  }

  /** Unlike the hours and days, zero runs take the plural too. */
  lemma WeeklyRunsPlural(weeklyRuns: nat)
    ensures (WeeklyRunsText(weeklyRuns) == NatToString(weeklyRuns) + " runs this week") <==> weeklyRuns != 1
  {
    if weeklyRuns == 1 {
      assert |NatToString(1) + " run" + "" + " this week"| != |NatToString(1) + " runs this week"|;
    }
  }

  // ---------------------------------------------------------------- the toggle

  /** The card's own state: whether a toggle is under way and the active flag it shows. */
  class Card {
    const automationId: string
    var isToggling: bool
    var localActive: bool

    /** The card starts idle, with the active flag the list gave it. */
    constructor(automation: AutomationItem)
      ensures automationId == automation.id && !isToggling && localActive == automation.active
    {
      automationId := automation.id;
      isToggling := false;
      localActive := automation.active;
    }

    /** The toggle button is disabled while a toggle is under way. */
    predicate ToggleEnabled()
      reads this
    {
      !isToggling
    }

    /**
     * The first half of `handleToggle`: when the button is enabled, mark the card busy and return
     * the flag `onToggle` is called with, the opposite of the one shown; a click on the disabled
     * button changes nothing and calls nothing.
     */
    method StartToggle() returns (requested: Option<bool>)
      modifies this
      ensures old(ToggleEnabled()) ==> requested == Some(!old(localActive)) && isToggling
      ensures !old(ToggleEnabled()) ==> requested.None? && isToggling == old(isToggling)
      ensures localActive == old(localActive)
    {
      if !ToggleEnabled() {
        return None;
      }
      isToggling := true;
      requested := Some(!localActive);
    }

    /**
     * The second half: once `onToggle` has resolved the shown flag becomes the requested one;
     * when it rejected nothing but the busy mark changes.  The card is idle again either way.
     */
    method FinishToggle(requested: bool, resolved: bool)
      modifies this
      ensures !isToggling
      ensures localActive == if resolved then requested else old(localActive)
    {
      if resolved {
        localActive := requested;
      }
      isToggling := false;
    }
  }

  /**
   * A whole toggle: on an idle card the flag flips exactly when `onToggle` resolved and the card
   * ends idle; on a busy card nothing is requested and nothing changes.
   */
  method HandleToggle(card: Card, resolved: bool) returns (requested: Option<bool>)
    modifies card
    ensures requested.Some? <==> !old(card.isToggling)
    ensures requested.Some? ==> requested.value == !old(card.localActive) && !card.isToggling
    ensures card.localActive == (if requested.Some? && resolved then !old(card.localActive) else old(card.localActive))
    ensures requested.None? ==> card.isToggling == old(card.isToggling)
  {
    requested := card.StartToggle();
    if requested.Some? {
      card.FinishToggle(requested.value, resolved);
    }
  }
}
