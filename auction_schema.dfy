/** The create-auction rules of src/lib/validations/auction-schema.ts. A
    form is checked field by field and every failing rule is reported, in
    field order; the form is accepted when nothing is reported. The start
    price is in cents, the deadline and `now` in milliseconds, and whether
    a string is a URL is a parameter. */
module AuctionSchema {
  import opened Wire

  datatype CreateAuctionInput = CreateAuctionInput(
    title: string,
    description: string,
    imageUrl: Option<string>,
    startPrice: int,
    endsAt: int)

  datatype Issue =
    | TitleTooShort
    | TitleTooLong
    | DescriptionTooShort
    | DescriptionTooLong
    | InvalidUrl
    | StartPriceBelowOne
    | StartPriceNotPositive
    | EndsAtNotInFuture

  /** The message the form shows for each issue. */
  function Message(i: Issue): string
  {
    match i
    case TitleTooShort => "Title must be at least 5 characters"
    case TitleTooLong => "Title must be less than 100 characters"
    case DescriptionTooShort => "Description must be at least 10 characters"
    case DescriptionTooLong => "Description must be less than 500 characters"
    case InvalidUrl => "Must be a valid URL"
    case StartPriceBelowOne => "Starting price must be at least $1"
    case StartPriceNotPositive => "Price must be positive"
    case EndsAtNotInFuture => "End date must be in the future"
  }

  /** The rules in the order they are checked: field by field, and
      within a field in the order of its checks. */
  const Rules: seq<Issue> := [
    TitleTooShort, TitleTooLong, DescriptionTooShort, DescriptionTooLong,
    InvalidUrl, StartPriceBelowOne, StartPriceNotPositive, EndsAtNotInFuture]

  /** The position of each rule in `Rules`. */
  function Rank(i: Issue): nat
  {
    match i
    case TitleTooShort => 0
    case TitleTooLong => 1
    case DescriptionTooShort => 2
    case DescriptionTooLong => 3
    case InvalidUrl => 4
    case StartPriceBelowOne => 5
    case StartPriceNotPositive => 6
    case EndsAtNotInFuture => 7
  }

  /** The length JavaScript reports for a string: its UTF-16 code units,
      so a character beyond U+FFFF counts twice. */
  function Utf16Length(s: string): (n: nat)
    ensures |s| <= n <= 2 * |s|
  {
    if s == [] then 0
    else (if s[0] as int > 0xFFFF then 2 else 1) + Utf16Length(s[1..])
  }

  /** Two emoji and two letters are four characters but six code units,
      enough for a title. */
  lemma Utf16Example()
    ensures |"\U{1F600}\U{1F600}ab"| == 4
    ensures Utf16Length("\U{1F600}\U{1F600}ab") == 6
  {
    assert "\U{1F600}\U{1F600}ab"[1..] == "\U{1F600}ab";
    assert "\U{1F600}ab"[1..] == "ab";
    assert "ab"[1..] == "b";
  }

  /** Whether the rule behind an issue is broken, stated rule by rule. */
  predicate Broken(i: Issue, input: CreateAuctionInput, now: int, isUrl: string -> bool)
  {
    match i
    case TitleTooShort => Utf16Length(input.title) < 5
    case TitleTooLong => Utf16Length(input.title) > 100
    case DescriptionTooShort => Utf16Length(input.description) < 10
    case DescriptionTooLong => Utf16Length(input.description) > 500
    case InvalidUrl => input.imageUrl.Some? && input.imageUrl.value != "" && !isUrl(input.imageUrl.value)
    case StartPriceBelowOne => input.startPrice < 100
    case StartPriceNotPositive => input.startPrice <= 0
    case EndsAtNotInFuture => input.endsAt <= now
  }

  /** Runs the rules in order and collects those that are broken; every
      check runs, whatever the earlier ones found. */
  function Check(rules: seq<Issue>, input: CreateAuctionInput, now: int, isUrl: string -> bool): (r: seq<Issue>)
    ensures forall i :: i in r <==> i in rules && Broken(i, input, now, isUrl)
    ensures (forall j, k :: 0 <= j < k < |rules| ==> Rank(rules[j]) < Rank(rules[k])) ==>
      forall j, k :: 0 <= j < k < |r| ==> Rank(r[j]) < Rank(r[k])
  {
    if rules == [] then []
    else
      var rest := Check(rules[1..], input, now, isUrl);
      if Broken(rules[0], input, now, isUrl) then
        assert forall k :: 0 <= k < |rest| ==> rest[k] in rules[1..];
        [rules[0]] + rest
      else rest
  }

  /** Every rule the input breaks, in the order they are checked. */
  function Issues(input: CreateAuctionInput, now: int, isUrl: string -> bool): seq<Issue>
  {
    Check(Rules, input, now, isUrl)
  }

  predicate Accepted(input: CreateAuctionInput, now: int, isUrl: string -> bool)
  {
    Issues(input, now, isUrl) == []
  }

  /** An issue is reported exactly when its rule is broken, and the issues
      come in the order of the rules, so none is reported twice. */
  lemma IssuesAreBrokenRules(input: CreateAuctionInput, now: int, isUrl: string -> bool)
    ensures forall i :: i in Issues(input, now, isUrl) <==> Broken(i, input, now, isUrl)
    ensures var r := Issues(input, now, isUrl);
      forall j, k :: 0 <= j < k < |r| ==> Rank(r[j]) < Rank(r[k])
  {
    forall i ensures i in Rules {
      assert Rules[Rank(i)] == i;
    }
    forall j, k | 0 <= j < k < |Rules| ensures Rank(Rules[j]) < Rank(Rules[k]) {
      assert Rank(Rules[j]) == j && Rank(Rules[k]) == k;
    }
  }

  /** The form is accepted exactly when the title has 5 to 100 UTF-16 code
      units, the description 10 to 500, the image URL is absent, empty or a URL,
      the start price is at least one unit, and the deadline lies after
      `now`. */
  lemma AcceptedIff(input: CreateAuctionInput, now: int, isUrl: string -> bool)
    ensures Accepted(input, now, isUrl) <==>
      && 5 <= Utf16Length(input.title) <= 100
      && 10 <= Utf16Length(input.description) <= 500
      && (input.imageUrl.None? || input.imageUrl.value == "" || isUrl(input.imageUrl.value))
      && input.startPrice >= 100
      && input.endsAt > now
  {
    IssuesAreBrokenRules(input, now, isUrl);
    if Accepted(input, now, isUrl) {
      forall i ensures !Broken(i, input, now, isUrl) {
        assert i !in Issues(input, now, isUrl);
      }
      assert !Broken(TitleTooShort, input, now, isUrl) && !Broken(TitleTooLong, input, now, isUrl);
      assert !Broken(DescriptionTooShort, input, now, isUrl) && !Broken(DescriptionTooLong, input, now, isUrl);
      assert !Broken(InvalidUrl, input, now, isUrl) && !Broken(StartPriceBelowOne, input, now, isUrl);
      assert !Broken(EndsAtNotInFuture, input, now, isUrl);
    } else {
      var i := Issues(input, now, isUrl)[0];
      assert Broken(i, input, now, isUrl);
    }
  }

  /** A price of zero or less breaks both price rules; a positive price
      below one unit breaks only the first. */
  lemma PriceRules(input: CreateAuctionInput, now: int, isUrl: string -> bool)
    ensures input.startPrice <= 0 ==>
      StartPriceBelowOne in Issues(input, now, isUrl) && StartPriceNotPositive in Issues(input, now, isUrl)
    ensures 0 < input.startPrice < 100 ==>
      StartPriceBelowOne in Issues(input, now, isUrl) && StartPriceNotPositive !in Issues(input, now, isUrl)
  {
    IssuesAreBrokenRules(input, now, isUrl);
  }
}
