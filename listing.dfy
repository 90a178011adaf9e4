/** The listing pipeline of src/routes/auctions.tsx: the search and price
    filters, the "active first" sort under the three orderings, the page
    count and the slice of the current page. `now` is a parameter and
    prices are in cents. */
module Listing {
  import opened Wire

  // ---------------------------------------------------------------------
  // Filters
  // ---------------------------------------------------------------------

  /** The elements of `s` that satisfy `p`, in order (`Array.filter`). */
  function FilterBy(s: seq<Auction>, p: Auction -> bool): (r: seq<Auction>)
    ensures |r| <= |s|
    ensures forall x :: x in r <==> x in s && p(x)
    ensures multiset(r) <= multiset(s)
  {
    if s == [] then []
    else
      assert s == [s[0]] + s[1..];
      if p(s[0]) then [s[0]] + FilterBy(s[1..], p) else FilterBy(s[1..], p)
  }

  /** `toLowerCase` on the ASCII letters; other characters are kept. */
  function LowerChar(c: char): char
  {
    if 'A' <= c <= 'Z' then (c as int - 'A' as int + 'a' as int) as char else c
  }

  function ToLower(s: string): (r: string)
    ensures |r| == |s| && forall i :: 0 <= i < |s| ==> r[i] == LowerChar(s[i])
  {
    if s == [] then [] else [LowerChar(s[0])] + ToLower(s[1..])
  }

  /** `String.prototype.includes`. */
  predicate Contains(hay: string, needle: string)
  {
    needle <= hay || (hay != [] && Contains(hay[1..], needle))
  }

  /** The search predicate of one auction. */
  predicate SearchHit(a: Auction, query: string)
  {
    Contains(ToLower(a.title), ToLower(query)) || Contains(ToLower(a.description), ToLower(query))
  }

  /** Lower-casing twice changes nothing more. */
  lemma ToLowerIdempotent(s: string)
    ensures ToLower(ToLower(s)) == ToLower(s)
  {
  }

  /** The search is case-insensitive: a query and its lower-cased form keep
      the same auctions. */
  lemma SearchIgnoresCase(a: Auction, query: string)
    ensures SearchHit(a, query) == SearchHit(a, ToLower(query))
  {
    ToLowerIdempotent(query);
  }

  /** The contents of a price field: empty (falsy, no filter), a number in
      cents, or text `parseFloat` turns into NaN. */
  datatype PriceInput = Blank | Amount(cents: int) | NotANumber

  /** A comparison with NaN is false, so such a bound keeps nothing. */
  predicate AtLeast(a: Auction, min: PriceInput)
    requires !min.Blank?
  {
    min.Amount? && a.currentPrice >= min.cents
  }

  predicate AtMost(a: Auction, max: PriceInput)
    requires !max.Blank?
  {
    max.Amount? && a.currentPrice <= max.cents
  }

  /** The three filters, applied one after the other as the page does. */
  function ApplyFilters(s: seq<Auction>, query: string, min: PriceInput, max: PriceInput): seq<Auction>
  {
    var s1 := if query != "" then FilterBy(s, a => SearchHit(a, query)) else s;
    var s2 := if !min.Blank? then FilterBy(s1, a => AtLeast(a, min)) else s1;
    if !max.Blank? then FilterBy(s2, a => AtMost(a, max)) else s2
  }

  /** An auction survives the filters iff it is in the input, the search
      (when non-empty) hits its title or description, and its price lies
      within each bound that is set; the bounds are inclusive. What
      survives is a sub-multiset of the input. */
  lemma ApplyFiltersMeaning(s: seq<Auction>, query: string, min: PriceInput, max: PriceInput)
    ensures forall a :: a in ApplyFilters(s, query, min, max) <==>
      && a in s
      && (query != "" ==> SearchHit(a, query))
      && (min.Amount? ==> a.currentPrice >= min.cents)
      && (max.Amount? ==> a.currentPrice <= max.cents)
      && !min.NotANumber? && !max.NotANumber?
    ensures multiset(ApplyFilters(s, query, min, max)) <= multiset(s)
  {
  }

  // ---------------------------------------------------------------------
  // Sort
  // ---------------------------------------------------------------------

  datatype SortMode = EndingSoon | PriceLow | PriceHigh

  /** `isActiveAuction`. */
  predicate IsActive(a: Auction, now: int)
  {
    a.endsAt > now
  }

  /** The comparator the page hands to `Array.sort`, per mode. */
  function Cmp(mode: SortMode, now: int, a: Auction, b: Auction): int
  {
    var aActive := IsActive(a, now);
    var bActive := IsActive(b, now);
    match mode
    case EndingSoon =>
      if aActive && !bActive then -1
      else if !aActive && bActive then 1
      else if aActive && bActive then a.endsAt - b.endsAt
      else b.endsAt - a.endsAt
    case PriceLow =>
      if aActive != bActive then (if aActive then -1 else 1)
      else if aActive then a.currentPrice - b.currentPrice
      else b.endsAt - a.endsAt
    case PriceHigh =>
      if aActive != bActive then (if aActive then -1 else 1)
      else if aActive then b.currentPrice - a.currentPrice
      else b.endsAt - a.endsAt
  }

  /** The order the comparator describes, as a key: active auctions rank
      before ended ones, then the mode's own measure. */
  function Rank(a: Auction, now: int): int
  {
    if IsActive(a, now) then 0 else 1
  }

  function Measure(mode: SortMode, now: int, a: Auction): int
  {
    if !IsActive(a, now) then -a.endsAt
    else match mode
      case EndingSoon => a.endsAt
      case PriceLow => a.currentPrice
      case PriceHigh => -a.currentPrice
  }

  predicate Le(mode: SortMode, now: int, a: Auction, b: Auction)
  {
    Rank(a, now) < Rank(b, now) ||
    (Rank(a, now) == Rank(b, now) && Measure(mode, now, a) <= Measure(mode, now, b))
  }

  /** The comparator is consistent: it is antisymmetric, and it says
      "not after" exactly when the key order does, so it is a total
      preorder that `Array.sort` can honour. */
  lemma CmpIsKeyOrder(mode: SortMode, now: int, a: Auction, b: Auction)
    ensures Cmp(mode, now, a, b) == -Cmp(mode, now, b, a)
    ensures Cmp(mode, now, a, b) <= 0 <==> Le(mode, now, a, b)
    ensures Le(mode, now, a, b) || Le(mode, now, b, a)
  {
  }

  predicate Sorted(mode: SortMode, now: int, s: seq<Auction>)
  {
    forall i, j :: 0 <= i < j < |s| ==> Le(mode, now, s[i], s[j])
  }

  /** `filtered.sort(comparator)`: an insertion sort that swaps while the
      comparator says the left element comes after the right one. */
  method SortAuctions(a: array<Auction>, mode: SortMode, now: int)
    modifies a
    ensures Sorted(mode, now, a[..])
    ensures multiset(a[..]) == multiset(old(a[..]))
  {
    var i := 0;
    while i < a.Length
      invariant 0 <= i <= a.Length
      invariant Sorted(mode, now, a[..i])
      invariant multiset(a[..]) == multiset(old(a[..]))
    {
      InsertLast(a, i, mode, now);
      i := i + 1;
    }
    assert a[..] == a[..a.Length];
  }

  /** One insertion step: `a[..i]` is sorted and `a[i]` is moved left into
      place, so that `a[..i+1]` is sorted. */
  method InsertLast(a: array<Auction>, i: int, mode: SortMode, now: int)
    requires 0 <= i < a.Length
    requires Sorted(mode, now, a[..i])
    modifies a
    ensures Sorted(mode, now, a[..i + 1])
    ensures multiset(a[..]) == multiset(old(a[..]))
  {
    var j := i;
    while j > 0 && Cmp(mode, now, a[j - 1], a[j]) > 0
      invariant 0 <= j <= i
      invariant Inserting(mode, now, a[..], i, j)
      invariant multiset(a[..]) == multiset(old(a[..]))
    {
      ghost var before := a[..];
      CmpIsKeyOrder(mode, now, a[j - 1], a[j]);
      a[j - 1], a[j] := a[j], a[j - 1];
      assert a[..] == before[j - 1 := before[j]][j := before[j - 1]];
      SwapKeepsInserting(mode, now, before, a[..], i, j);
      SwapKeepsMultiset(before, j);
      j := j - 1;
    }
    if j > 0 {
      CmpIsKeyOrder(mode, now, a[j - 1], a[j]);
    }
    InsertingDone(mode, now, a[..], i, j);
  }

  /** The state of an insertion step: apart from the element being moved,
      at `j`, the prefix `s[..i+1]` is sorted, and everything to the right
      of the moving element is strictly after it. */
  ghost predicate Inserting(mode: SortMode, now: int, s: seq<Auction>, i: int, j: int)
    requires 0 <= j <= i < |s|
  {
    && (forall k, l :: 0 <= k < l <= i && k != j && l != j ==> Le(mode, now, s[k], s[l]))
    && (forall l :: j < l <= i ==> !Le(mode, now, s[l], s[j]))
  }

  lemma SwapKeepsInserting(mode: SortMode, now: int, s: seq<Auction>, t: seq<Auction>, i: int, j: int)
    requires 0 < j <= i < |s| == |t|
    requires Inserting(mode, now, s, i, j)
    requires !Le(mode, now, s[j - 1], s[j])
    requires t == s[j - 1 := s[j]][j := s[j - 1]]
    ensures Inserting(mode, now, t, i, j - 1)
  {
  }

  lemma SwapKeepsMultiset(s: seq<Auction>, j: int)
    requires 0 < j < |s|
    ensures multiset(s[j - 1 := s[j]][j := s[j - 1]]) == multiset(s)
  {
  }

  lemma InsertingDone(mode: SortMode, now: int, s: seq<Auction>, i: int, j: int)
    requires 0 <= j <= i < |s|
    requires Inserting(mode, now, s, i, j)
    requires j > 0 ==> Le(mode, now, s[j - 1], s[j])
    ensures Sorted(mode, now, s[..i + 1])
  {
    forall k, l | 0 <= k < l <= i
      ensures Le(mode, now, s[k], s[l])
    {
      if l == j {
        if k < j - 1 {
          LeTransitive(mode, now, s[k], s[j - 1], s[j]);
        }
      } else if k == j {
        CmpIsKeyOrder(mode, now, s[l], s[j]);
      }
    }
  }

  lemma LeTransitive(mode: SortMode, now: int, a: Auction, b: Auction, c: Auction)
    requires Le(mode, now, a, b) && Le(mode, now, b, c)
    ensures Le(mode, now, a, c)
  {
  }

  /** `filteredAuctions`: filter, then sort. */
  method FilteredAuctions(auctions: seq<Auction>, query: string, min: PriceInput, max: PriceInput,
                          mode: SortMode, now: int)
    returns (r: seq<Auction>)
    ensures multiset(r) == multiset(ApplyFilters(auctions, query, min, max))
    ensures Sorted(mode, now, r)
  {
    var filtered := ApplyFilters(auctions, query, min, max);
    var a := CopyToArray(filtered);
    SortAuctions(a, mode, now);
    r := a[..];
  }

  /** `[...realTimeAuctions]`: a fresh array holding the list. */
  method CopyToArray(s: seq<Auction>) returns (a: array<Auction>)
    ensures fresh(a) && a[..] == s
  {
    a := new Auction[|s|](i requires 0 <= i < |s| => s[i]);
  }

  /** What a sorted listing looks like: active auctions come before ended
      ones; among the active ones the mode's order holds (soonest deadline
      first, cheapest first, or dearest first); among the ended ones the
      most recently ended comes first. */
  lemma SortedListingOrder(mode: SortMode, now: int, s: seq<Auction>, i: int, j: int)
    requires Sorted(mode, now, s) && 0 <= i < j < |s|
    ensures IsActive(s[j], now) ==> IsActive(s[i], now)
    ensures IsActive(s[i], now) && IsActive(s[j], now) ==>
      match mode
      case EndingSoon => s[i].endsAt <= s[j].endsAt
      case PriceLow => s[i].currentPrice <= s[j].currentPrice
      case PriceHigh => s[i].currentPrice >= s[j].currentPrice
    ensures !IsActive(s[i], now) && !IsActive(s[j], now) ==> s[i].endsAt >= s[j].endsAt
  {
    assert Le(mode, now, s[i], s[j]);
  }

  // ---------------------------------------------------------------------
  // Pages
  // ---------------------------------------------------------------------

  /** `Math.ceil(n / itemsPerPage)`. */
  function TotalPages(n: nat, itemsPerPage: nat): (t: nat)
    requires itemsPerPage > 0
    ensures n <= t * itemsPerPage
    ensures t > 0 ==> (t - 1) * itemsPerPage < n
  {
    var q := (n + itemsPerPage - 1) / itemsPerPage;
    var r := (n + itemsPerPage - 1) % itemsPerPage;
    assert q * itemsPerPage + r == n + itemsPerPage - 1;
    assert q * itemsPerPage - itemsPerPage == (q - 1) * itemsPerPage;
    q
  }

  /** `Array.prototype.slice(start, end)`, including its clamping and its
      counting of negative positions from the end. */
  function SliceIndex(len: nat, x: int): (k: nat)
    ensures k <= len
  {
    if x < 0 then (if len + x < 0 then 0 else len + x) else if x > len then len else x
  }

  function JsSlice(s: seq<Auction>, start: int, end: int): (r: seq<Auction>)
    ensures |r| <= |s|
  {
    var from := SliceIndex(|s|, start);
    var to := SliceIndex(|s|, end);
    if from < to then s[from..to] else []
  }

  /** `paginatedAuctions`. */
  function Page(s: seq<Auction>, page: int, itemsPerPage: nat): seq<Auction>
  {
    var start := (page - 1) * itemsPerPage;
    JsSlice(s, start, start + itemsPerPage)
  }

  /** Page p (from 1) holds the items from (p-1)*ipp up to p*ipp, clipped
      to the list, so never more than ipp of them. */
  lemma PageContents(s: seq<Auction>, page: nat, itemsPerPage: nat)
    requires page >= 1
    ensures var lo := (page - 1) * itemsPerPage;
      var hi := page * itemsPerPage;
      Page(s, page, itemsPerPage) == if lo < |s| then s[lo..if hi < |s| then hi else |s|] else []
    ensures |Page(s, page, itemsPerPage)| <= itemsPerPage
  {
    PageBounds(page, itemsPerPage);
    var lo := (page - 1) * itemsPerPage;
    var hi := page * itemsPerPage;
    assert SliceIndex(|s|, lo) == if lo < |s| then lo else |s|;
    assert SliceIndex(|s|, hi) == if hi < |s| then hi else |s|;
  }

  /** Page p starts one page after page p-1 does. */
  lemma PageBounds(page: nat, itemsPerPage: nat)
    requires page >= 1
    ensures 0 <= (page - 1) * itemsPerPage
    ensures (page - 1) * itemsPerPage + itemsPerPage == page * itemsPerPage
  {
  }

  /** The first k pages, one after the other. */
  function Pages(s: seq<Auction>, k: nat, itemsPerPage: nat): seq<Auction>
  {
    if k == 0 then [] else Pages(s, k - 1, itemsPerPage) + Page(s, k, itemsPerPage)
  }

  /** The first k pages are exactly the first k*ipp items. */
  lemma {:induction false} PagesArePrefix(s: seq<Auction>, k: nat, itemsPerPage: nat)
    ensures Pages(s, k, itemsPerPage) == s[..if k * itemsPerPage < |s| then k * itemsPerPage else |s|]
  {
    if k > 0 {
      PagesArePrefix(s, k - 1, itemsPerPage);
      PageContents(s, k, itemsPerPage);
      PageBounds(k, itemsPerPage);
    }
  }

  /** The pages 1..totalPages together are the whole list, each item once
      and in order. */
  lemma PagesPartitionListing(s: seq<Auction>, itemsPerPage: nat)
    requires itemsPerPage > 0
    ensures Pages(s, TotalPages(|s|, itemsPerPage), itemsPerPage) == s
  {
    PagesArePrefix(s, TotalPages(|s|, itemsPerPage), itemsPerPage);
  }
}
