/** The listing card: the "time ago" caption and the picture it shows. */
module ProductCard {
  import Text

  const MsPerDay: int := 1000 * 60 * 60 * 24

  /** `Math.floor(diffMs / 86400000)`; Dafny's division by a positive divisor rounds down. */
  function DiffDays(diffMs: int): int {
    diffMs / MsPerDay
  }

  /** `DiffDays` is the number of whole days elapsed, rounded towards minus infinity. */
  lemma DiffDaysIsFloor(diffMs: int)
    ensures DiffDays(diffMs) * MsPerDay <= diffMs < (DiffDays(diffMs) + 1) * MsPerDay
  {
  }

  /** The caption `getTimeAgo` chooses. */
  datatype Age = Today | Yesterday | DaysAgo(days: int) | WeeksAgo(weeks: int) | MonthsAgo(months: int)

  function AgeOf(diffDays: int): (a: Age)
    ensures a == Today <==> diffDays == 0
    ensures a == Yesterday <==> diffDays == 1
    ensures a.DaysAgo? <==> diffDays < 7 && diffDays != 0 && diffDays != 1
    ensures a.DaysAgo? ==> a.days == diffDays
    ensures a.WeeksAgo? <==> 7 <= diffDays < 30
    ensures a.WeeksAgo? ==> 1 <= a.weeks <= 4 && a.weeks * 7 <= diffDays < (a.weeks + 1) * 7
    ensures a.MonthsAgo? <==> diffDays >= 30
    ensures a.MonthsAgo? ==> a.months >= 1 && a.months * 30 <= diffDays < (a.months + 1) * 30
  {
    if diffDays == 0 then Today
    else if diffDays == 1 then Yesterday
    else if diffDays < 7 then DaysAgo(diffDays)
    else if diffDays < 30 then WeeksAgo(diffDays / 7)
    else MonthsAgo(diffDays / 30)
  }

  function AgeText(a: Age): string {
    match a
    case Today => "Today"
    case Yesterday => "Yesterday"
    case DaysAgo(d) => Text.IntToString(d) + " days ago"
    case WeeksAgo(w) => Text.IntToString(w) + " weeks ago"
    case MonthsAgo(m) => Text.IntToString(m) + " months ago"
  }

  /** `getTimeAgo`, given the milliseconds between the listing's date and now: "Today"
      exactly for less than one whole day, "Yesterday" exactly for one. */
  function TimeAgo(diffMs: int): (r: string)
    ensures r == "Today" <==> 0 <= diffMs < MsPerDay
    ensures r == "Yesterday" <==> MsPerDay <= diffMs < 2 * MsPerDay
  {
    var a := AgeOf(DiffDays(diffMs));
    assert !a.Today? && !a.Yesterday? ==> |AgeText(a)| >= 10;
    AgeText(a)
  }

  /** The order of the captions from newest to oldest. */
  function Rank(a: Age): nat {
    match a
    case Today => 0
    case Yesterday => 1
    case DaysAgo(_) => 2
    case WeeksAgo(_) => 3
    case MonthsAgo(_) => 4
  }

  /** For listings not dated in the future, an older listing never gets a newer-sounding
      caption, and within one kind of caption the count does not go down. */
  lemma AgeMonotone(d1: int, d2: int)
    requires 0 <= d1 <= d2
    ensures Rank(AgeOf(d1)) <= Rank(AgeOf(d2))
    ensures Rank(AgeOf(d1)) == Rank(AgeOf(d2)) ==> match (AgeOf(d1), AgeOf(d2))
      case (DaysAgo(x), DaysAgo(y)) => x <= y
      case (WeeksAgo(x), WeeksAgo(y)) => x <= y
      case (MonthsAgo(x), MonthsAgo(y)) => x <= y
      case _ => true
  {
  }

  /** A listing dated in the future shows a negative day count rather than "Today". */
  lemma FutureShowsNegativeDays(diffMs: int)
    requires diffMs < 0
    ensures AgeOf(DiffDays(diffMs)) == DaysAgo(DiffDays(diffMs)) && DiffDays(diffMs) < 0
    ensures TimeAgo(diffMs)[0] == '-'
  {
  }

  const Placeholder: string := "/placeholder.svg"

  /** `images[0] || '/placeholder.svg'`: the first picture unless there is none or it is empty. */
  function DisplayImage(images: seq<string>): (src: string)
    ensures src != ""
    ensures |images| > 0 && images[0] != "" ==> src == images[0]
    ensures (|images| == 0 || images[0] == "") ==> src == Placeholder
  {
    if |images| > 0 && images[0] != "" then images[0] else Placeholder
  }
}
