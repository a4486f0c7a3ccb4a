/**
 * One opportunity's card: the deadline label and "Urgent" badge, the bookmark button,
 * the badge colour lookups, and the truncated tag and eligibility lines.
 */
module OpportunityCard {
  import opened Wrappers
  import opened Text
  import opened Time
  import opened OpportunityTypes

  /** `Math.ceil((deadline - now) / (1000 * 60 * 60 * 24))`, instants in milliseconds. */
  function DiffDays(deadline: int, now: int): int {
    CeilDiv(deadline - now, MillisPerDay)
  }

  /** The five exclusive deadline labels; `OnDate` carries the locale rendering of the date. */
  datatype DeadlineLabel = Expired | Today | Tomorrow | DaysLeft(days: nat) | OnDate(date: string) {
    function Text(): string {
      match this
      case Expired => "Expired"
      case Today => "Today"
      case Tomorrow => "Tomorrow"
      case DaysLeft(n) => NatText(n) + " days left"
      case OnDate(d) => d
    }
  }

  /** `formatDeadline`; `localeDate` stands for `toLocaleDateString` of the deadline. */
  function FormatDeadline(deadline: int, now: int, localeDate: int -> string): (l: DeadlineLabel)
    ensures l.DaysLeft? ==> 2 <= l.days <= 7
    ensures l.OnDate? ==> l.date == localeDate(deadline)
  {
    var d := DiffDays(deadline, now);
    if d < 0 then Expired
    else if d == 0 then Today
    else if d == 1 then Tomorrow
    else if d <= 7 then DaysLeft(d)
    else OnDate(localeDate(deadline))
  }

  /**
   * The label in terms of the time left, `x = deadline - now`: a day or more past is
   * "Expired", up to the deadline itself "Today", up to one day ahead "Tomorrow", up to
   * n days ahead "n days left" (n from 2 to 7), and beyond a week the date.
   */
  lemma FormatDeadlineByTimeLeft(deadline: int, now: int, localeDate: int -> string)
    ensures var l, x := FormatDeadline(deadline, now, localeDate), deadline - now;
      (l.Expired? <==> x <= -MillisPerDay) &&
      (l.Today? <==> -MillisPerDay < x <= 0) &&
      (l.Tomorrow? <==> 0 < x <= MillisPerDay) &&
      (l.DaysLeft? <==> MillisPerDay < x <= 7 * MillisPerDay) &&
      (l.DaysLeft? ==> MillisPerDay * (l.days - 1) < x <= MillisPerDay * l.days) &&
      (l.OnDate? <==> 7 * MillisPerDay < x)
  {
    var d := DiffDays(deadline, now);
    assert MillisPerDay * (d - 1) < deadline - now <= MillisPerDay * d;
    if d < 0 {
      assert MillisPerDay * d <= -MillisPerDay;
    } else if d >= 2 {
      assert MillisPerDay * (d - 1) >= MillisPerDay;
    }
    if d > 7 {
      assert MillisPerDay * (d - 1) >= 7 * MillisPerDay;
    } else if d >= 1 {
      assert MillisPerDay * d <= 7 * MillisPerDay;
    }
  }

  /** Four and a half days ahead reads "5 days left". */
  lemma FiveDaysLeftExample(now: int, localeDate: int -> string)
    ensures FormatDeadline(now + 4 * MillisPerDay + MillisPerDay / 2, now, localeDate).Text() == "5 days left"
  {
    CeilDivUnique(4 * MillisPerDay + MillisPerDay / 2, MillisPerDay, 5);
  }

  /**
   * `isDeadlineSoon`: the "Urgent" badge and the highlighted deadline, shown when the
   * deadline is less than a day past or at most a week ahead.
   */
  function IsDeadlineSoon(deadline: int, now: int): (r: bool)
    ensures r <==> -MillisPerDay < deadline - now <= 7 * MillisPerDay
  {
    var d := DiffDays(deadline, now);
    d <= 7 && d >= 0
  }

  /** A card is urgent exactly when its label is neither "Expired" nor a plain date, i.e. when less than a week is left. */
  lemma UrgentIffCountdownLabel(deadline: int, now: int, localeDate: int -> string)
    ensures var l := FormatDeadline(deadline, now, localeDate);
      IsDeadlineSoon(deadline, now) <==> !(l.Expired? || l.OnDate?)
    ensures IsDeadlineSoon(deadline, now) <==> -MillisPerDay < deadline - now <= 7 * MillisPerDay
  {
    FormatDeadlineByTimeLeft(deadline, now, localeDate);
  }

  const GreyBadge := "bg-gray-100 text-gray-800 dark:bg-gray-900 dark:text-gray-300"

  /** `getSourceColor`: a colour per known platform, grey for anything else. */
  function SourceColor(source: string): (c: string)
    ensures c == GreyBadge <==> source !in {"unstop", "devfolio", "hackerearth"}
  {
    match source
    case "unstop" => "bg-blue-100 text-blue-800 dark:bg-blue-900 dark:text-blue-300"
    case "devfolio" => "bg-purple-100 text-purple-800 dark:bg-purple-900 dark:text-purple-300"
    case "hackerearth" => "bg-green-100 text-green-800 dark:bg-green-900 dark:text-green-300"
    case _ => GreyBadge
  }

  /** `getCategoryColor`: every category has its own colour; anything else is grey. */
  function CategoryColor(category: string): (c: string)
    ensures c == GreyBadge <==> ParseCategory(category).None?
  {
    match category
    case "internship" => "bg-indigo-100 text-indigo-800 dark:bg-indigo-900 dark:text-indigo-300"
    case "hackathon" => "bg-orange-100 text-orange-800 dark:bg-orange-900 dark:text-orange-300"
    case "contest" => "bg-red-100 text-red-800 dark:bg-red-900 dark:text-red-300"
    case "scholarship" => "bg-emerald-100 text-emerald-800 dark:bg-emerald-900 dark:text-emerald-300"
    case _ => GreyBadge
  }

  /** `getDifficultyColor`: every difficulty has its own colour; anything else is grey. */
  function DifficultyColor(difficulty: string): (c: string)
    ensures c == GreyBadge <==> ParseDifficulty(difficulty).None?
  {
    match difficulty
    case "beginner" => "bg-green-100 text-green-800 dark:bg-green-900 dark:text-green-300"
    case "intermediate" => "bg-yellow-100 text-yellow-800 dark:bg-yellow-900 dark:text-yellow-300"
    case "advanced" => "bg-red-100 text-red-800 dark:bg-red-900 dark:text-red-300"
    case _ => GreyBadge
  }

  /** Of the typed sources only `other` falls back to grey. */
  lemma OnlyOtherSourceIsGrey(s: Source)
    ensures SourceColor(s.Name()) == GreyBadge <==> s == OtherSource
  {
  }

  /** `tags.slice(0, 2)`: at most the first two tags. */
  function ShownTags(tags: seq<string>): (r: seq<string>)
    ensures |r| <= 2 && |r| <= |tags| && r == tags[..|r|]
    ensures |tags| <= 2 ==> r == tags
    ensures |tags| > 2 ==> |r| == 2
  {
    if |tags| <= 2 then tags else tags[..2]
  }

  /** The "+n more" badge, present exactly when some tags are hidden, counting those tags. */
  function MoreTagsBadge(tags: seq<string>): (r: Option<string>)
    ensures r.Some? <==> |tags| > |ShownTags(tags)|
    ensures r.Some? ==> r.value == "+" + NatText(|tags| - |ShownTags(tags)|) + " more"
    ensures r.Some? ==> |r.value| > 6 && DecimalValue(r.value[1..|r.value| - 5]) == |tags| - |ShownTags(tags)|
  {
    if |tags| > 2 then
      var digits := NatText(|tags| - 2);
      var text := "+" + digits + " more";
      NatTextValue(|tags| - 2);
      assert text[1..|text| - 5] == digits;
      Some(text)
    else None
  }

  /** The eligibility line: present iff the list is non-empty, listing every item joined by ", ". */
  function EligibilityLine(eligibility: seq<string>): (r: Option<string>)
    ensures r.Some? <==> |eligibility| > 0
    ensures r.Some? ==> r.value == Join(eligibility, ", ")
    ensures r.Some? ==> forall i :: 0 <= i < |eligibility| ==> Contains(r.value, eligibility[i])
  {
    if |eligibility| > 0 then
      var line := Join(eligibility, ", ");
      assert forall i :: 0 <= i < |eligibility| ==> Contains(line, eligibility[i]) by {
        forall i | 0 <= i < |eligibility| ensures Contains(line, eligibility[i]) {
          JoinContainsEach(eligibility, ", ", i);
        }
      }
      Some(line)
    else None
  }

  /** The card's local bookmark flag and the `onBookmark` calls it has made. */
  class Card {
    const opportunity: Opportunity
    var isBookmarked: bool
    /** The ids passed to `onBookmark`, oldest first. */
    var onBookmarkCalls: seq<string>

    constructor (opportunity: Opportunity)
      ensures this.opportunity == opportunity
      ensures isBookmarked == opportunity.isBookmarked && onBookmarkCalls == []
    {
      this.opportunity := opportunity;
      isBookmarked := opportunity.isBookmarked;
      onBookmarkCalls := [];
    }

    /** `handleBookmark`: flips the flag and reports the opportunity's id once. */
    method HandleBookmark()
      modifies this
      ensures isBookmarked == !old(isBookmarked)
      ensures onBookmarkCalls == old(onBookmarkCalls) + [opportunity.id]
    {
      isBookmarked := !isBookmarked;
      onBookmarkCalls := onBookmarkCalls + [opportunity.id];
    }
  }

  /** Pressing the bookmark button twice restores the flag and reports the id twice. */
  method HandleBookmarkTwice(card: Card)
    modifies card
    ensures card.isBookmarked == old(card.isBookmarked)
    ensures card.onBookmarkCalls == old(card.onBookmarkCalls) + [card.opportunity.id, card.opportunity.id]
  {
    card.HandleBookmark();
    card.HandleBookmark();
  }
}
