/** The bid dialog of src/components/BidModal.tsx: the amount field and its
    input filter, quick bids, validation against the minimum bid, and the
    input -> confirm -> success steps. The amount is kept as the text the
    field shows; it is read in cents. */
module BidModal {
  import opened Wire
  import opened Decimal
  import Pricing

  // ---------------------------------------------------------------------
  // The amount field
  // ---------------------------------------------------------------------

  /** `^\d*\.?\d{0,2}$`: digits, then at most one point, and at most two
      digits after it. */
  predicate Accepts(s: string)
  {
    if '.' in s then
      var p := Pricing.IndexOf(s, '.');
      AllDigits(s[..p]) && AllDigits(s[p + 1..]) && |s| - p - 1 <= 2
    else AllDigits(s)
  }

  /** `Accepts` is the regular expression: every string it accepts is some
      digits, an optional point and up to two digits, and every such
      string is accepted. */
  lemma AcceptsIsPattern(whole: string, point: string, frac: string)
    requires AllDigits(whole) && AllDigits(frac) && |frac| <= 2
    requires point == "" || point == "."
    ensures Accepts(whole + point + frac)
  {
    var s := whole + point + frac;
    if point == "." {
      assert '.' !in whole;
      Pricing.IndexOfPrefix(whole, '.', frac);
      assert s[..|whole|] == whole && s[|whole| + 1..] == frac;
    } else {
      assert '.' !in s;
      assert s == whole + frac;
    }
  }

  lemma AcceptedHasPattern(s: string)
    requires Accepts(s)
    ensures exists whole, point, frac ::
      && AllDigits(whole) && AllDigits(frac) && |frac| <= 2
      && (point == "" || point == ".")
      && s == whole + point + frac
  {
    if '.' in s {
      var p := Pricing.IndexOf(s, '.');
      assert s == s[..p] + "." + s[p + 1..];
    } else {
      assert s == s + "" + "";
    }
  }

  /** The cents two fraction digits stand for ("5" is 50, "05" is 5). */
  function FracCents(f: string): nat
    requires AllDigits(f) && |f| <= 2
  {
    if |f| == 0 then 0
    else if |f| == 1 then DigitValue(f[0]) * 10
    else DigitValue(f[0]) * 10 + DigitValue(f[1])
  }

  /** `parseFloat(bidAmount) || 0` in cents, on the text the field can
      hold; "" and "." are NaN and so count as 0. */
  function ParseCents(s: string): nat
    requires Accepts(s)
  {
    if '.' in s then
      var p := Pricing.IndexOf(s, '.');
      DigitsValue(s[..p]) * 100 + FracCents(s[p + 1..])
    else DigitsValue(s) * 100
  }

  /** What `toFixed(2)` writes is accepted by the field and reads back as
      the same number of cents. */
  lemma Fixed2RoundTrip(c: nat)
    ensures Accepts(Fixed2(c))
    ensures ParseCents(Fixed2(c)) == c
  {
    var whole := NatToString(c / 100);
    var frac := [DigitChar((c % 100) / 10), DigitChar(c % 10)];
    NatToStringRoundTrip(c / 100);
    AcceptsIsPattern(whole, ".", frac);
    assert Fixed2(c) == whole + "." + frac;
    Pricing.IndexOfPrefix(whole, '.', frac);
    var s := Fixed2(c);
    assert s[..|whole|] == whole && s[|whole| + 1..] == frac;
    DigitCharValue((c % 100) / 10);
    DigitCharValue(c % 10);
  }

  /** The empty field and a lone point are worth nothing. */
  lemma EmptyAmountIsZero()
    ensures Accepts("") && ParseCents("") == 0
    ensures Accepts(".") && ParseCents(".") == 0
  {
    assert "."[..0] == "" && "."[1..] == "";
  }

  // ---------------------------------------------------------------------
  // The dialog
  // ---------------------------------------------------------------------

  datatype Step = Input | Confirm | Success

  /** The error line: the minimum-bid message (minimum bid and minimum
      increment, in cents) or a message from placing the bid. */
  datatype BidError = BelowMinimum(minBid: nat, minIncrement: nat) | Failed(message: string)

  /** How the call that places the bid ended. */
  datatype PlaceOutcome = Placed | Refused(error: string) | Threw(message: string)

  /** The quick-bid increments, in cents. */
  const QuickBidIncrements: seq<nat> := [500, 1000, 2500, 5000, 10000]

  class Dialog {
    var price: nat
    var step: Step
    var amount: string
    var submitting: bool
    var error: Option<BidError>

    /** The field only ever holds text the input filter accepts. */
    ghost predicate Valid()
      reads this
    {
      Accepts(amount)
    }

    constructor ()
      ensures Valid()
      ensures step == Input && amount == "" && !submitting && error == None
    {
      price := 0;
      step := Input;
      amount := "";
      submitting := false;
      error := None;
    }

    /** The amount as the dialog reads it. */
    function Parsed(): nat
      reads this
      requires Valid()
    {
      ParseCents(amount)
    }

    /** The effect run when the dialog opens for an auction. */
    method Open(currentPrice: nat)
      modifies this`price, this`amount, this`step, this`error
      ensures Valid()
      ensures price == currentPrice
      ensures amount == Fixed2(Pricing.MinBidAmount(currentPrice))
      ensures step == Input && error == None
    {
      var proposed := Fixed2(Pricing.MinBidAmount(currentPrice));
      Fixed2RoundTrip(Pricing.MinBidAmount(currentPrice));
      price := currentPrice;
      amount := proposed;
      step := Input;
      error := None;
    }

    /** `handleQuickBid`. */
    method QuickBid(increment: nat)
      modifies this`amount, this`error
      ensures Valid()
      ensures amount == Fixed2(price + increment) && error == None
    {
      var proposed := Fixed2(price + increment);
      Fixed2RoundTrip(price + increment);
      amount := proposed;
      error := None;
    }

    /** `handleInputChange`: accepted text replaces the amount and clears
        the error; anything else is ignored. */
    method InputChange(value: string)
      requires Valid()
      modifies this`amount, this`error
      ensures Valid()
      ensures Accepts(value) ==> amount == value && error == None
      ensures !Accepts(value) ==> amount == old(amount) && error == old(error)
    {
      if value == "" || Accepts(value) {
        assert Accepts(value) by {
          if value == "" {
            assert AllDigits(value);
          }
        }
        amount := value;
        error := None;
      }
    }

    /** `validateBid`. */
    method Validate() returns (ok: bool)
      requires Valid()
      modifies this`error
      ensures ok <==> Parsed() >= Pricing.MinBidAmount(price)
      ensures !ok ==> error == Some(BelowMinimum(Pricing.MinBidAmount(price), Pricing.MinBidIncrement(price)))
      ensures ok ==> error == old(error)
    {
      var minBid := Pricing.MinBidAmount(price);
      if ParseCents(amount) < minBid {
        error := Some(BelowMinimum(minBid, Pricing.MinBidIncrement(price)));
        return false;
      }
      return true;
    }

    /** `handleContinue`; the button is disabled while the field is empty. */
    method Continue()
      requires Valid()
      modifies this`error, this`step
      ensures Valid()
      ensures amount != "" && Parsed() >= Pricing.MinBidAmount(price) ==> step == Confirm && error == old(error)
      ensures amount != "" && Parsed() < Pricing.MinBidAmount(price) ==>
        step == old(step) && error == Some(BelowMinimum(Pricing.MinBidAmount(price), Pricing.MinBidIncrement(price)))
      ensures amount == "" ==> step == old(step) && error == old(error)
    {
      if amount != "" {
        var ok := Validate();
        if ok {
          step := Confirm;
        }
      }
    }

    /** `handleSubmitBid`, with the outcome of placing the bid as a
        parameter. Returns the amount handed to `onBidPlaced`, if any. */
    method SubmitBid(outcome: PlaceOutcome) returns (placed: Option<nat>)
      requires Valid()
      modifies this`error, this`step, this`submitting
      ensures Valid()
      ensures Parsed() >= Pricing.MinBidAmount(price) ==> !submitting
      ensures Parsed() < Pricing.MinBidAmount(price) ==>
        placed == None && step == old(step) &&
        error == Some(BelowMinimum(Pricing.MinBidAmount(price), Pricing.MinBidIncrement(price)))
      ensures Parsed() >= Pricing.MinBidAmount(price) ==>
        match outcome
        case Placed => step == Success && error == None && placed == Some(Parsed())
        case Refused(e) =>
          step == Input && placed == None &&
          error == Some(Failed(if e != "" then e else "Failed to place bid"))
        case Threw(m) =>
          step == Input && placed == None &&
          error == Some(Failed(if m != "" then m else "An error occurred"))
      ensures Parsed() < Pricing.MinBidAmount(price) ==> submitting == old(submitting)
    {
      var ok := Validate();
      if !ok {
        return None;
      }
      submitting := true;
      error := None;
      match outcome {
        case Placed =>
          step := Success;
          placed := Some(ParseCents(amount));
        case Refused(e) =>
          error := Some(Failed(if e != "" then e else "Failed to place bid"));
          step := Input;
          placed := None;
        case Threw(m) =>
          error := Some(Failed(if m != "" then m else "An error occurred"));
          step := Input;
          placed := None;
      }
      submitting := false;
    }

    /** `handleBack`. */
    method Back()
      modifies this`step, this`error
      ensures step == Input && error == None
    {
      step := Input;
      error := None;
    }
  }

  /** A quick bid passes validation exactly when its increment is at least
      the minimum increment; so for prices above 100 units the smallest
      quick bids are refused. */
  lemma QuickBidPassesIff(price: nat, increment: nat)
    ensures Accepts(Fixed2(price + increment))
    ensures ParseCents(Fixed2(price + increment)) >= Pricing.MinBidAmount(price)
      <==> increment >= Pricing.MinBidIncrement(price)
  {
    Fixed2RoundTrip(price + increment);
  }

  /** The quick-bid button with the `k`-th increment proposes a bid that
      passes validation exactly when the price is at most twenty times that
      increment; so every button works up to 100.00 and none above 2000.00. */
  lemma QuickBidButtonPassesIff(price: nat, k: nat)
    requires k < |QuickBidIncrements|
    ensures Accepts(Fixed2(price + QuickBidIncrements[k]))
    ensures ParseCents(Fixed2(price + QuickBidIncrements[k])) >= Pricing.MinBidAmount(price)
      <==> price <= 20 * QuickBidIncrements[k]
  {
    var increment := QuickBidIncrements[k];
    QuickBidPassesIff(price, increment);
    var inc := Pricing.MinBidIncrement(price);
    if price <= 20 * increment && inc > Pricing.OneUnit {
      assert 20 * (inc - 1) < 20 * increment;
    }
  }

  /** All five quick bids pass exactly when the price is at most 100.00. */
  lemma AllQuickBidsPassIff(price: nat)
    ensures (forall k :: 0 <= k < |QuickBidIncrements| ==>
      Accepts(Fixed2(price + QuickBidIncrements[k])) &&
      ParseCents(Fixed2(price + QuickBidIncrements[k])) >= Pricing.MinBidAmount(price))
      <==> price <= 10000
  {
    forall k | 0 <= k < |QuickBidIncrements|
      ensures Accepts(Fixed2(price + QuickBidIncrements[k]))
      ensures ParseCents(Fixed2(price + QuickBidIncrements[k])) >= Pricing.MinBidAmount(price)
        <==> price <= 20 * QuickBidIncrements[k]
    {
      QuickBidButtonPassesIff(price, k);
    }
    assert QuickBidIncrements[0] == 500;
  }

  /** The whole flow for an auction at 100.00: the dialog proposes 105.00,
      continues to the confirmation step, and a successful placement ends
      on the success step having placed 105.00. */
  method HappyPathScenario() returns (proposed: string, placed: Option<nat>, finalStep: Step)
    ensures proposed == Fixed2(10500)
    ensures placed == Some(10500)
    ensures finalStep == Success
  {
    var d := new Dialog();
    d.Open(10000);
    assert Pricing.MinBidAmount(10000) == 10500 by {
      Pricing.MinBidExamples();
    }
    proposed := d.amount;
    Fixed2RoundTrip(10500);
    d.Continue();
    placed := d.SubmitBid(Placed);
    finalStep := d.step;
  }
}
