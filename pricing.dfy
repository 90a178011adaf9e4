/** Bid pricing, time-remaining formatting, urgency levels and class-name
    joining (the pure helpers of src/lib/utils.ts). Prices are whole cents,
    durations whole milliseconds. */
module Pricing {
  import opened Decimal

  // ---------------------------------------------------------------------
  // Minimum bid increment and minimum next bid
  // ---------------------------------------------------------------------

  /** One currency unit, in cents. */
  const OneUnit: nat := 100

  /** The larger of one unit and 5% of the current price rounded up to the
      cent. In cents, 5% of p is p/20, and rounding up gives (p + 19) / 20. */
  function MinBidIncrement(price: nat): (inc: nat)
    ensures inc >= OneUnit
    ensures 20 * inc >= price
    ensures inc > OneUnit ==> 20 * (inc - 1) < price
  {
    var fivePercentUp := (price + 19) / 20;
    if fivePercentUp > OneUnit then fivePercentUp else OneUnit
  }

  /** The smallest acceptable next bid. */
  function MinBidAmount(price: nat): (amount: nat)
    ensures amount == price + MinBidIncrement(price)
    ensures amount > price
  {
    price + MinBidIncrement(price)
  }

  /** The increment is the least whole-cent amount that is both at least one
      unit and at least 5% of the price: any other such amount is larger. */
  lemma MinBidIncrementIsLeast(price: nat, c: nat)
    requires c >= OneUnit && 20 * c >= price
    ensures MinBidIncrement(price) <= c
  {
  }

  /** Worked figures: at $100.00 the next bid is $105.00; at $10.00 the one
      unit floor gives $11.00; at $105.00 the next bid is $110.25. */
  lemma MinBidExamples()
    ensures MinBidAmount(10000) == 10500
    ensures MinBidAmount(1000) == 1100
    ensures MinBidAmount(10500) == 11025
  {
  }

  // ---------------------------------------------------------------------
  // Time remaining
  // ---------------------------------------------------------------------

  const SecondMs: nat := 1000
  const MinuteMs: nat := 60 * 1000
  const HourMs: nat := 60 * 60 * 1000
  const DayMs: nat := 24 * 60 * 60 * 1000

  /** What `formatTimeRemaining` shows: "Ended", or the two largest units
      starting at the first non-zero one of days, hours and minutes, or the
      seconds alone. */
  datatype TimeText =
    | Ended
    | DaysHours(days: nat, hours: nat)
    | HoursMinutes(hours: nat, minutes: nat)
    | MinutesSeconds(minutes: nat, seconds: nat)
    | SecondsOnly(seconds: nat)

  /** `formatTimeRemaining(diff)` for a number of milliseconds. */
  function FormatTimeRemaining(diff: int): TimeText
  {
    if diff <= 0 then Ended
    else
      var days := diff / DayMs;
      var hours := (diff % DayMs) / HourMs;
      var minutes := (diff % HourMs) / MinuteMs;
      var seconds := (diff % MinuteMs) / SecondMs;
      if days > 0 then DaysHours(days, hours)
      else if hours > 0 then HoursMinutes(hours, minutes)
      else if minutes > 0 then MinutesSeconds(minutes, seconds)
      else SecondsOnly(seconds)
  }

  /** The text is "Ended" exactly when no time remains; otherwise the larger
      unit shown is the largest non-zero one, each shown pair is the
      remaining time truncated to its smaller unit, and hours, minutes and
      seconds stay below 24, 60 and 60. */
  lemma FormatTimeRemainingMeaning(diff: int)
    ensures var t := FormatTimeRemaining(diff);
      && (t == Ended <==> diff <= 0)
      && (t.DaysHours? <==> diff >= DayMs)
      && (t.HoursMinutes? <==> HourMs <= diff < DayMs)
      && (t.MinutesSeconds? <==> MinuteMs <= diff < HourMs)
      && (t.SecondsOnly? <==> 0 < diff < MinuteMs)
      && (t.DaysHours? ==>
            && t.days >= 1 && t.hours < 24
            && t.days * DayMs + t.hours * HourMs <= diff < t.days * DayMs + (t.hours + 1) * HourMs)
      && (t.HoursMinutes? ==>
            && 1 <= t.hours < 24 && t.minutes < 60
            && t.hours * HourMs + t.minutes * MinuteMs <= diff < t.hours * HourMs + (t.minutes + 1) * MinuteMs)
      && (t.MinutesSeconds? ==>
            && 1 <= t.minutes < 60 && t.seconds < 60
            && t.minutes * MinuteMs + t.seconds * SecondMs <= diff < t.minutes * MinuteMs + (t.seconds + 1) * SecondMs)
      && (t.SecondsOnly? ==>
            && t.seconds < 60
            && t.seconds * SecondMs <= diff < (t.seconds + 1) * SecondMs)
  {
    if diff <= 0 {
    } else if diff >= DayMs {
      DaysCase(diff);
    } else if diff >= HourMs {
      HoursCase(diff);
    } else if diff >= MinuteMs {
      MinutesCase(diff);
    } else {
      SecondsCase(diff);
    }
  }

  lemma DaysCase(diff: int)
    requires diff >= DayMs
    ensures var t := FormatTimeRemaining(diff);
      && t.DaysHours? && t.days >= 1 && t.hours < 24
      && t.days * DayMs + t.hours * HourMs <= diff < t.days * DayMs + (t.hours + 1) * HourMs
  {
    var days, r1 := diff / DayMs, diff % DayMs;
    var hours, r2 := r1 / HourMs, r1 % HourMs;
    NestedMod(diff, DayMs, HourMs, 24);
    assert diff == days * DayMs + hours * HourMs + r2;
  }

  lemma HoursCase(diff: int)
    requires HourMs <= diff < DayMs
    ensures var t := FormatTimeRemaining(diff);
      && t.HoursMinutes? && 1 <= t.hours < 24 && t.minutes < 60
      && t.hours * HourMs + t.minutes * MinuteMs <= diff < t.hours * HourMs + (t.minutes + 1) * MinuteMs
  {
    assert diff / DayMs == 0 && diff % DayMs == diff;
    var hours, r2 := diff / HourMs, diff % HourMs;
    var minutes, r3 := r2 / MinuteMs, r2 % MinuteMs;
    NestedMod(diff, HourMs, MinuteMs, 60);
    assert diff == hours * HourMs + minutes * MinuteMs + r3;
  }

  lemma MinutesCase(diff: int)
    requires MinuteMs <= diff < HourMs
    ensures var t := FormatTimeRemaining(diff);
      && t.MinutesSeconds? && 1 <= t.minutes < 60 && t.seconds < 60
      && t.minutes * MinuteMs + t.seconds * SecondMs <= diff < t.minutes * MinuteMs + (t.seconds + 1) * SecondMs
  {
    assert diff / DayMs == 0 && diff % DayMs == diff;
    assert diff / HourMs == 0 && diff % HourMs == diff;
    var minutes, r3 := diff / MinuteMs, diff % MinuteMs;
    var seconds, r4 := r3 / SecondMs, r3 % SecondMs;
    NestedMod(diff, MinuteMs, SecondMs, 60);
    assert diff == minutes * MinuteMs + seconds * SecondMs + r4;
  }

  lemma SecondsCase(diff: int)
    requires 0 < diff < MinuteMs
    ensures var t := FormatTimeRemaining(diff);
      && t.SecondsOnly? && t.seconds < 60
      && t.seconds * SecondMs <= diff < (t.seconds + 1) * SecondMs
  {
    assert diff / DayMs == 0 && diff % DayMs == diff;
    assert diff / HourMs == 0 && diff % HourMs == diff;
    assert diff / MinuteMs == 0 && diff % MinuteMs == diff;
  }

  /** a*d is at least d for a positive multiple. */
  lemma MulAtLeast(a: int, d: int)
    requires a >= 1 && d > 0
    ensures a * d >= d
  {
    assert a * d == (a - 1) * d + d;
    assert (a - 1) * d >= 0;
  }

  /** Quotient and remainder are the only such pair. */
  lemma DivModUnique(x: int, d: int, q: int, r: int)
    requires d > 0 && 0 <= r < d && x == q * d + r
    ensures x / d == q && x % d == r
  {
    var q', r' := x / d, x % d;
    assert x == q' * d + r' && 0 <= r' < d;
    assert q' * d - q * d == (q' - q) * d;
    if q' > q {
      MulAtLeast(q' - q, d);
    } else if q' < q {
      assert q * d - q' * d == (q - q') * d;
      MulAtLeast(q - q', d);
    }
  }

  /** Inside a unit made of k smaller ones, the remainder by the small unit
      is unchanged and the count of small units is below k. */
  lemma NestedMod(x: int, big: int, small: int, k: int)
    requires small > 0 && k > 0 && big == k * small
    ensures (x % big) % small == x % small
    ensures (x % big) / small < k
  {
    assert big > 0 by { MulAtLeast(k, small); }
    var q, r := x / big, x % big;
    var q2, r2 := r / small, r % small;
    assert x == q * big + r;
    assert q * big == (q * k) * small;
    assert r == q2 * small + r2;
    assert x == (q * k + q2) * small + r2;
    DivModUnique(x, small, q * k + q2, r2);
  }

  /** The text the browser shows for a TimeText value. */
  function Render(t: TimeText): string
  {
    match t
    case Ended => "Ended"
    case DaysHours(d, h) => NatToString(d) + "d " + NatToString(h) + "h"
    case HoursMinutes(h, m) => NatToString(h) + "h " + NatToString(m) + "m"
    case MinutesSeconds(m, s) => NatToString(m) + "m " + NatToString(s) + "s"
    case SecondsOnly(s) => NatToString(s) + "s"
  }

  /** The rendered text reads "Ended" exactly when no time remains: every
      other text starts with a digit. */
  lemma RenderEndedIff(diff: int)
    ensures Render(FormatTimeRemaining(diff)) == "Ended" <==> diff <= 0
  {
    var t := FormatTimeRemaining(diff);
    if t != Ended {
      var lead := match t
        case DaysHours(d, _) => d
        case HoursMinutes(h, _) => h
        case MinutesSeconds(m, _) => m
        case SecondsOnly(s) => s
        case Ended => 0;
      NatToStringRoundTrip(lead);
      assert IsDigit(Render(t)[0]);
    }
  }

  // ---------------------------------------------------------------------
  // Urgency
  // ---------------------------------------------------------------------

  datatype Urgency = Normal | Warning | Critical | UrgencyEnded

  const CriticalBelowMs: nat := 5 * 60 * 1000
  const WarningBelowMs: nat := 60 * 60 * 1000

  function UrgencyLevel(diff: int): Urgency
  {
    if diff <= 0 then UrgencyEnded
    else if diff < CriticalBelowMs then Critical
    else if diff < WarningBelowMs then Warning
    else Normal
  }

  /** How pressing a level is, from normal (0) to ended (3). */
  function Pressure(u: Urgency): nat
  {
    match u
    case Normal => 0
    case Warning => 1
    case Critical => 2
    case UrgencyEnded => 3
  }

  /** As the remaining time shrinks the urgency never relaxes. */
  lemma UrgencyMonotone(d1: int, d2: int)
    requires d1 <= d2
    ensures Pressure(UrgencyLevel(d1)) >= Pressure(UrgencyLevel(d2))
  {
  }

  /** Urgency and the formatted text agree: "ended" goes with "Ended",
      "critical" is always shown in minutes and seconds, and "normal" always
      shows at least hours. */
  lemma UrgencyAgreesWithText(diff: int)
    ensures UrgencyLevel(diff) == UrgencyEnded <==> FormatTimeRemaining(diff) == Ended
    ensures UrgencyLevel(diff) == Critical ==>
      FormatTimeRemaining(diff).MinutesSeconds? || FormatTimeRemaining(diff).SecondsOnly?
    ensures UrgencyLevel(diff) == Normal ==>
      FormatTimeRemaining(diff).DaysHours? || FormatTimeRemaining(diff).HoursMinutes?
  {
  }

  // ---------------------------------------------------------------------
  // Class-name joining
  // ---------------------------------------------------------------------

  /** An argument of `cn`: a string, or `undefined`, `null` or `false`. */
  datatype ClassArg = Str(s: string) | Falsy

  predicate Truthy(a: ClassArg)
  {
    a.Str? && a.s != ""
  }

  /** The arguments `filter(Boolean)` keeps, in their order. */
  function Kept(args: seq<ClassArg>): (r: seq<string>)
    ensures |r| <= |args|
    ensures forall x :: x in r ==> x != "" && Str(x) in args
    ensures forall a :: a in args && Truthy(a) ==> a.s in r
  {
    if args == [] then []
    else if Truthy(args[0]) then [args[0].s] + Kept(args[1..])
    else Kept(args[1..])
  }

  /** A single argument is kept exactly when it is truthy. */
  lemma KeptOne(a: ClassArg)
    ensures Kept([a]) == if Truthy(a) then [a.s] else []
  {
    assert [a][1..] == [];
  }

  /** Filtering keeps the order of the arguments: the kept names of a
      concatenation are those of the first part, then those of the second. */
  lemma {:induction false} KeptAppend(a: seq<ClassArg>, b: seq<ClassArg>)
    ensures Kept(a + b) == Kept(a) + Kept(b)
  {
    if a == [] {
      assert a + b == b;
    } else {
      assert (a + b)[0] == a[0];
      assert (a + b)[1..] == a[1..] + b;
      KeptAppend(a[1..], b);
    }
  }

  function Join(parts: seq<string>, sep: char): string
  {
    if parts == [] then ""
    else if |parts| == 1 then parts[0]
    else parts[0] + [sep] + Join(parts[1..], sep)
  }

  /** `cn(...classes)`. */
  function Cn(args: seq<ClassArg>): string
  {
    Join(Kept(args), ' ')
  }

  /** Splitting a string at every occurrence of sep. */
  function Split(s: string, sep: char): seq<string>
  {
    if sep !in s then [s]
    else
      var i := IndexOf(s, sep);
      [s[..i]] + Split(s[i + 1..], sep)
  }

  function IndexOf(s: string, c: char): (i: nat)
    requires c in s
    ensures i < |s| && s[i] == c && c !in s[..i]
  {
    if s[0] == c then 0 else 1 + IndexOf(s[1..], c)
  }

  /** Joining with sep is undone by splitting at sep, provided no part
      contains sep and there is at least one part. */
  lemma {:induction false} SplitJoin(parts: seq<string>, sep: char)
    requires |parts| >= 1
    requires forall i :: 0 <= i < |parts| ==> sep !in parts[i]
    ensures Split(Join(parts, sep), sep) == parts
  {
    if |parts| > 1 {
      var rest := Join(parts[1..], sep);
      var s := parts[0] + [sep] + rest;
      assert sep in s by { assert s[|parts[0]|] == sep; }
      IndexOfPrefix(parts[0], sep, rest);
      assert s[..|parts[0]|] == parts[0];
      assert s[|parts[0]| + 1..] == rest;
      SplitJoin(parts[1..], sep);
    }
  }

  lemma IndexOfPrefix(p: string, sep: char, rest: string)
    requires sep !in p
    ensures sep in p + [sep] + rest
    ensures IndexOf(p + [sep] + rest, sep) == |p|
  {
    var s := p + [sep] + rest;
    assert s[|p|] == sep;
    assert s[..|p|] == p;
  }

  /** `cn` keeps exactly the truthy class names, in order, separated by
      single spaces: splitting its result at spaces gives them back when
      none of them contains a space. */
  lemma CnRoundTrip(args: seq<ClassArg>)
    requires |Kept(args)| >= 1
    requires forall a :: a in args && a.Str? ==> ' ' !in a.s
    ensures Split(Cn(args), ' ') == Kept(args)
  {
    var k := Kept(args);
    forall i | 0 <= i < |k| ensures ' ' !in k[i] {
      assert k[i] in k;
    }
    SplitJoin(k, ' ');
  }
}
