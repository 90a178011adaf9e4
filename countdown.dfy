/** The countdown of src/components/ui/CountdownTimer.tsx. Each time the
    deadline changes the component resets its "expired" flag, updates
    once, and, unless the deadline has already passed, ticks every second
    until it has; `onExpire` is called the first time an update finds the
    deadline passed. `CompactCountdown` in the same file runs the same
    logic and is modelled by the same class. The clock reading is a
    parameter of each update. */
module Countdown {
  import opened Wire
  import Pricing

  class Timer {
    var endsAt: int
    /** `hasExpiredRef`. */
    var expired: bool
    /** The text shown: None before the first update. */
    var text: Option<Pricing.TimeText>
    var urgency: Pricing.Urgency
    /** Whether the one-second interval is running. */
    var ticking: bool
    /** How many times `onExpire` has been called, over all deadlines. */
    var expireCalls: nat
    /** How many times it has been called for the current deadline. */
    ghost var callsThisDeadline: nat

    /** `onExpire` fires at most once per deadline, exactly when the flag
        is set, and the interval only runs before expiry. */
    ghost predicate Valid()
      reads this
    {
      && callsThisDeadline == (if expired then 1 else 0)
      && (ticking ==> !expired)
    }

    constructor ()
      ensures Valid()
      ensures text == None && urgency == Pricing.Normal && !ticking && expireCalls == 0
    {
      endsAt := 0;
      expired := false;
      text := None;
      urgency := Pricing.Normal;
      ticking := false;
      expireCalls := 0;
      callsThisDeadline := 0;
    }

    /** `updateTimer`: shows the remaining time and its urgency, and
        signals expiry once. Returns whether the deadline has passed. */
    method Update(now: int) returns (ended: bool)
      requires Valid()
      modifies this`text, this`urgency, this`expired, this`expireCalls, this`callsThisDeadline
      ensures ended <==> endsAt - now <= 0
      ensures text == Some(Pricing.FormatTimeRemaining(endsAt - now))
      ensures urgency == Pricing.UrgencyLevel(endsAt - now)
      ensures expired == (old(expired) || ended)
      ensures expireCalls == old(expireCalls) + (if ended && !old(expired) then 1 else 0)
      ensures callsThisDeadline == (if expired then 1 else 0)
    {
      var diff := endsAt - now;
      Pricing.FormatTimeRemainingMeaning(diff);
      if diff <= 0 {
        text := Some(Pricing.Ended);
        urgency := Pricing.UrgencyEnded;
        if !expired {
          expired := true;
          expireCalls := expireCalls + 1;
          callsThisDeadline := callsThisDeadline + 1;
        }
        return true;
      }
      text := Some(Pricing.FormatTimeRemaining(diff));
      urgency := Pricing.UrgencyLevel(diff);
      return false;
    }

    /** The effect that runs when `endsAt` changes: stop the previous
        interval, reset the flag, update once, and start ticking only if
        the new deadline is still ahead. */
    method SetDeadline(newEndsAt: int, now: int)
      requires Valid()
      modifies this
      ensures Valid()
      ensures endsAt == newEndsAt
      ensures ticking <==> newEndsAt - now > 0
      ensures expired <==> newEndsAt - now <= 0
      ensures text == Some(Pricing.FormatTimeRemaining(newEndsAt - now))
      ensures urgency == Pricing.UrgencyLevel(newEndsAt - now)
      ensures expireCalls == old(expireCalls) + (if newEndsAt - now <= 0 then 1 else 0)
    {
      ticking := false;
      endsAt := newEndsAt;
      expired := false;
      callsThisDeadline := 0;
      var ended := Update(now);
      ticking := !ended;
    }

    /** One tick of the interval; the interval stops once the deadline has
        passed. */
    method Tick(now: int)
      requires Valid() && ticking
      modifies this`text, this`urgency, this`expired, this`expireCalls, this`callsThisDeadline, this`ticking
      ensures Valid()
      ensures endsAt == old(endsAt)
      ensures ticking <==> endsAt - now > 0
      ensures text == Some(Pricing.FormatTimeRemaining(endsAt - now))
      ensures urgency == Pricing.UrgencyLevel(endsAt - now)
      ensures expireCalls == old(expireCalls) + (if endsAt - now <= 0 then 1 else 0)
    {
      var ended := Update(now);
      if ended {
        ticking := false;
      }
    }
  }

  /** A deadline 2 s ahead, ticked at 1 s and 2 s: the callback fires at
      the second tick and the interval stops. A later deadline that has
      already passed when it is set fires once more at once; a deadline
      still ahead does not fire. */
  method ExpireOnceScenario() returns (calls: seq<nat>, tickingAfter: seq<bool>)
    ensures calls == [0, 0, 1, 2, 2]
    ensures tickingAfter == [true, true, false, false, true]
  {
    var t := new Timer();
    t.SetDeadline(2000, 0);
    calls, tickingAfter := [t.expireCalls], [t.ticking];
    t.Tick(1000);
    calls, tickingAfter := calls + [t.expireCalls], tickingAfter + [t.ticking];
    t.Tick(2000);
    calls, tickingAfter := calls + [t.expireCalls], tickingAfter + [t.ticking];
    t.SetDeadline(2500, 3000);
    calls, tickingAfter := calls + [t.expireCalls], tickingAfter + [t.ticking];
    t.SetDeadline(9000, 3000);
    calls, tickingAfter := calls + [t.expireCalls], tickingAfter + [t.ticking];
  }
}
