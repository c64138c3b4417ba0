/** The subscription screen: the plan cards, the checkout form with its
    card-number, expiry and CVC formatting, and the figures of the current
    plan. */
module SubscriptionPage {
  import opened Base
  import opened Text
  import opened Catalog
  import M = MongoBackend

  // ----- card number -----

  /** The digits with a space put before every digit whose index is a
      positive multiple of four. */
  function Grouped(v: string): string {
    if v == [] then []
    else
      var k := |v| - 1;
      Grouped(v[..k]) + (if k > 0 && k % 4 == 0 then " " else "") + [v[k]]
  }

  /** The arithmetic of one more digit: after `k` digits the grouped text
      is `k + (k - 1) / 4` long; the next digit comes after a space exactly
      when `k` is a multiple of four, and lands where the position formula
      of `GroupedAt` puts digit `k`. */
  lemma NextDigitPlace(k: nat)
    requires k > 0
    ensures var p := k + (k - 1) / 4;
      && (k % 4 == 0 ==> p % 5 == 4 && (p + 1) % 5 != 4 && (p + 1) - (p + 1) / 5 == k
                         && p + 2 == (k + 1) + k / 4)
      && (k % 4 != 0 ==> p % 5 != 4 && p - p / 5 == k && p + 1 == (k + 1) + k / 4)
  {
    var m := k / 4;
    var j := k % 4;
    assert k == 4 * m + j;
    if j == 0 {
      assert (k - 1) / 4 == m - 1;
      assert k + (k - 1) / 4 + 1 == 5 * m;
    } else {
      assert (k - 1) / 4 == m;
      assert k + (k - 1) / 4 == 5 * m + j;
    }
  }

  /** Where everything sits in a grouped number: every fifth character is
      the space, the others are the digits in order, so the number neither
      starts nor ends with a space. */
  lemma {:induction false} GroupedAt(v: string)
    ensures |v| == 0 ==> Grouped(v) == []
    ensures |v| > 0 ==> |Grouped(v)| == |v| + (|v| - 1) / 4
    ensures forall p | 0 <= p < |Grouped(v)| ::
      Grouped(v)[p] == if p % 5 == 4 then ' ' else v[p - p / 5]
    ensures |v| > 0 ==> (|Grouped(v)| - 1) % 5 != 4
  {
    if v != [] {
      var k := |v| - 1;
      var init := v[..k];
      GroupedAt(init);
      var g := Grouped(init);
      var sp := if k > 0 && k % 4 == 0 then " " else "";
      var r := g + sp + [v[k]];
      assert Grouped(v) == r;
      if k > 0 {
        NextDigitPlace(k);
      }
      forall p | 0 <= p < |r| ensures r[p] == if p % 5 == 4 then ' ' else v[p - p / 5] {
        if p < |g| {
          assert r[p] == g[p];
          assert p % 5 != 4 ==> init[p - p / 5] == v[p - p / 5];
        } else if p < |g| + |sp| {
          assert r[p] == ' ';
        } else {
          assert r[p] == v[k];
        }
      }
    }
  }

  /** One more character through the digit filter. */
  lemma DigitsSnoc(a: string, c: char)
    ensures Digits(a + [c]) == if IsDigit(c) then Digits(a) + [c] else Digits(a)
  {
    DigitsAppend(a, [c]);
    DigitsOfChar(c);
  }

  /** Taking the spaces out of a grouped number gives back its digits. */
  lemma {:induction false} DigitsOfGrouped(v: string)
    requires AllDigits(v)
    ensures Digits(Grouped(v)) == v
  {
    if v != [] {
      var k := |v| - 1;
      var init := v[..k];
      assert AllDigits(init) by {
        forall i | 0 <= i < |init| ensures IsDigit(init[i]) { assert init[i] == v[i]; }
      }
      DigitsOfGrouped(init);
      var g := Grouped(init);
      assert IsDigit(v[k]);
      if k > 0 && k % 4 == 0 {
        assert Grouped(v) == (g + [' ']) + [v[k]];
        DigitsSnoc(g + [' '], v[k]);
        DigitsSnoc(g, ' ');
      } else {
        assert Grouped(v) == g + [v[k]];
        DigitsSnoc(g, v[k]);
      }
      assert init + [v[k]] == v;
    }
  }

  /** The loop of `handleCardNumberChange` over the filtered digits: a
      space before every fourth digit after the first. */
  method GroupDigits(value: string) returns (formatted: string)
    ensures formatted == Grouped(value)
    ensures AllDigits(value) ==> Digits(formatted) == value
  {
    formatted := "";
    for i := 0 to |value|
      invariant formatted == Grouped(value[..i])
    {
      assert value[..i + 1][..i] == value[..i];
      if i > 0 && i % 4 == 0 {
        formatted := formatted + " ";
      }
      formatted := formatted + [value[i]];
    }
    assert value[..|value|] == value;
    if AllDigits(value) {
      DigitsOfGrouped(value);
    }
  }

  /** What `handleCardNumberChange` puts in the field for a typed value. */
  function FormatCardNumber(input: string): string {
    Grouped(Digits(input))
  }

  /** Formatting an already formatted number leaves it as it is, so the
      handler can run on every keystroke over the field's own text. */
  lemma FormatCardNumberIdempotent(input: string)
    ensures FormatCardNumber(FormatCardNumber(input)) == FormatCardNumber(input)
  {
    DigitsOfGrouped(Digits(input));
  }

  // ----- expiry and CVC -----

  /** What `handleExpiryChange` puts in the field: up to two digits as they
      are, otherwise `MM/YY` from the first four digits. */
  function FormatExpiry(input: string): (r: string)
    ensures |r| <= 5
    ensures |Digits(input)| <= 2 ==> r == Digits(input)
    ensures |Digits(input)| > 2 ==> |r| > 3 && r[2] == '/' && '/' !in r[..2] && '/' !in r[3..]
  {
    var v := Digits(input);
    if |v| <= 2 then v
    else v[..2] + "/" + v[2..if |v| < 4 then |v| else 4]
  }

  /** An expiry keeps the first four digits typed, and formatting it again
      changes nothing. */
  lemma FormatExpiryDigits(input: string)
    ensures var v := Digits(input);
      Digits(FormatExpiry(input)) == v[..if |v| < 4 then |v| else 4]
  {
    var v := Digits(input);
    if |v| > 2 {
      var m := if |v| < 4 then |v| else 4;
      var a, b := v[..2], v[2..m];
      assert FormatExpiry(input) == a + "/" + b;
      DigitsSeparated(a, '/', b);
      assert a + b == v[..m];
    }
  }

  /** A non-digit between two digit strings is dropped by the filter. */
  lemma DigitsSeparated(a: string, sep: char, b: string)
    requires AllDigits(a) && AllDigits(b) && !IsDigit(sep)
    ensures Digits(a + [sep] + b) == a + b
  {
    DigitsAppend(a + [sep], b);
    DigitsAppend(a, [sep]);
    DigitsOfChar(sep);
  }

  /** Formatting an expiry again changes nothing. */
  lemma FormatExpiryIdempotent(input: string)
    ensures FormatExpiry(FormatExpiry(input)) == FormatExpiry(input)
  {
    FormatExpiryDigits(input);
    var v := Digits(input);
    var e := FormatExpiry(input);
    if |v| <= 2 {
      assert Digits(e) == v;
    } else {
      var m := if |v| < 4 then |v| else 4;
      assert Digits(e) == v[..m];
      assert e == v[..2] + "/" + v[2..m];
      assert v[..m][..2] == v[..2] && v[..m][2..] == v[2..m];
    }
  }

  /** `handleCvcChange` accepts the digits of the typed value when there are
      at most four of them. */
  predicate CvcAccepted(input: string) {
    |Digits(input)| <= 4
  }

  // ----- prices and figures -----

  /** `formatCurrency`: `FREE` for zero, otherwise what the browser's
      currency formatter (`intl`) writes. */
  function FormatCurrency(amount: int, intl: int -> string): (r: string)
    ensures amount == 0 ==> r == "FREE"
    ensures amount != 0 ==> r == intl(amount)
  {
    if amount == 0 then "FREE" else intl(amount)
  }

  /** Only the free plan's price shows as `FREE`. */
  lemma FreeLabelOnlyOnFreePlan(intl: int -> string)
    requires forall a :: intl(a) != "FREE"
    ensures forall tier | tier in SubscriptionTiers ::
      FormatCurrency(SubscriptionTiers[tier].price, intl) == "FREE" <==> tier == "free"
  {
    PlanShape();
  }

  /** "Images remaining" under the current plan: the plan's monthly
      pictures less those generated, unclamped, or 0 when the plan is not in
      the list fetched from the server. */
  function RemainingShown(plans: map<string, Plan>, subscription: M.SubscriptionView): (r: int)
    ensures subscription.tier !in plans ==> r == 0
    ensures subscription.tier in plans ==>
      r + subscription.usage.imagesGenerated == plans[subscription.tier].imagesPerMonth
  {
    if subscription.tier in plans then
      plans[subscription.tier].imagesPerMonth - subscription.usage.imagesGenerated
    else 0
  }

  // ----- the page's state -----

  /** How a `POST /subscribe` ended: accepted, refused with a response whose
      body may carry an `error` text, or with no response at all. */
  datatype Answer = Accepted | Refused(error: Option<string>) | NoResponse

  /** The error shown after a failed request. */
  function FailureMessage(a: Answer): (m: string)
    requires !a.Accepted?
    ensures m != ""
    ensures a.Refused? && Truthy(a.error) ==> m == a.error.value
    ensures a.Refused? && !Truthy(a.error) ==> m == "Subscription failed. Please try again."
    ensures a.NoResponse? ==> m == "Network error. Please check your connection."
  {
    if a.NoResponse? then "Network error. Please check your connection."
    else if Truthy(a.error) then a.error.value
    else "Subscription failed. Please try again."
  }

  /** The confirmation shown after a paid plan was taken. */
  function PaidSuccess(plan: string): (m: string)
    ensures StartsWith(m, "Successfully subscribed to ")
  {
    "Successfully subscribed to " + plan + " plan!"
  }

  class Checkout {
    var selectedPlan: Option<string>
    var checkoutOpen: bool
    var paymentLoading: bool
    var error: Option<string>
    var success: Option<string>
    var cardNumber: string
    var cardName: string
    var expiry: string
    var cvc: string

    /** The formatted fields only ever hold what their handlers wrote: a
        grouped card number, an expiry of at most five characters and a CVC
        of at most four digits. */
    ghost predicate Valid()
      reads this
    {
      && cardNumber == FormatCardNumber(cardNumber)
      && |expiry| <= 5
      && AllDigits(cvc) && |cvc| <= 4
    }

    constructor()
      ensures Valid()
      ensures selectedPlan.None? && !checkoutOpen && !paymentLoading && error.None? && success.None?
      ensures cardNumber == "" && cardName == "" && expiry == "" && cvc == ""
    {
      selectedPlan := None;
      checkoutOpen := false;
      paymentLoading := false;
      error := None;
      success := None;
      cardNumber, cardName, expiry, cvc := "", "", "", "";
    }

    /** `handlePlanSelect`: the free plan is requested at once (the answer
        `true`: `POST /subscribe` with tier `free` goes out); any other plan
        opens the checkout dialog. */
    method PlanSelect(planKey: string) returns (freeRequested: bool)
      requires Valid()
      modifies this
      ensures Valid() && selectedPlan == Some(planKey)
      ensures freeRequested <==> planKey == "free"
      ensures freeRequested ==> paymentLoading && error.None? && checkoutOpen == old(checkoutOpen)
      ensures !freeRequested ==> checkoutOpen && paymentLoading == old(paymentLoading) && error == old(error)
      ensures cardNumber == old(cardNumber) && cardName == old(cardName) && expiry == old(expiry) && cvc == old(cvc)
    {
      selectedPlan := Some(planKey);
      if planKey == "free" {
        paymentLoading := true;
        error := None;
        freeRequested := true;
      } else {
        checkoutOpen := true;
        freeRequested := false;
      }
    }

    /** `handleCheckoutClose`. */
    method CheckoutClose()
      requires Valid()
      modifies this
      ensures Valid() && !checkoutOpen && error.None?
      ensures selectedPlan == old(selectedPlan) && paymentLoading == old(paymentLoading)
      ensures cardNumber == old(cardNumber) && cardName == old(cardName) && expiry == old(expiry) && cvc == old(cvc)
    {
      checkoutOpen := false;
      error := None;
    }

    /** `handleCardNumberChange`: the loop that rebuilds the number from the
        typed digits. */
    method CardNumberChange(input: string)
      requires Valid()
      modifies this
      ensures Valid() && cardNumber == FormatCardNumber(input)
      ensures Digits(cardNumber) == Digits(input)
      ensures cardName == old(cardName) && expiry == old(expiry) && cvc == old(cvc)
      ensures selectedPlan == old(selectedPlan) && checkoutOpen == old(checkoutOpen) && error == old(error)
      ensures paymentLoading == old(paymentLoading)
    {
      var value := Digits(input);
      var formatted := GroupDigits(value);
      FormatCardNumberIdempotent(input);
      DigitsOfGrouped(value);
      cardNumber := formatted;
    }

    /** The card-holder field takes what is typed. */
    method CardNameChange(input: string)
      requires Valid()
      modifies this
      ensures Valid() && cardName == input
      ensures cardNumber == old(cardNumber) && expiry == old(expiry) && cvc == old(cvc)
      ensures selectedPlan == old(selectedPlan) && checkoutOpen == old(checkoutOpen) && error == old(error)
      ensures paymentLoading == old(paymentLoading)
    {
      cardName := input;
    }

    /** `handleExpiryChange`. */
    method ExpiryChange(input: string)
      requires Valid()
      modifies this
      ensures Valid() && expiry == FormatExpiry(input)
      ensures cardNumber == old(cardNumber) && cardName == old(cardName) && cvc == old(cvc)
      ensures selectedPlan == old(selectedPlan) && checkoutOpen == old(checkoutOpen) && error == old(error)
      ensures paymentLoading == old(paymentLoading)
    {
      var value := Digits(input);
      if |value| <= 2 {
        expiry := value;
      } else {
        expiry := value[..2] + "/" + value[2..if |value| < 4 then |value| else 4];
      }
    }

    /** `handleCvcChange`: more than four digits leave the field as it was. */
    method CvcChange(input: string)
      requires Valid()
      modifies this
      ensures Valid()
      ensures CvcAccepted(input) ==> cvc == Digits(input)
      ensures !CvcAccepted(input) ==> cvc == old(cvc)
      ensures cardNumber == old(cardNumber) && cardName == old(cardName) && expiry == old(expiry)
      ensures selectedPlan == old(selectedPlan) && checkoutOpen == old(checkoutOpen) && error == old(error)
      ensures paymentLoading == old(paymentLoading)
    {
      var value := Digits(input);
      if |value| <= 4 {
        cvc := value;
      }
    }

    /** `handleSubscribe`: with any of the four payment fields empty the
        error is set and nothing is sent; otherwise `POST /subscribe` goes
        out with the selected plan (`sent`). */
    method Subscribe() returns (sent: bool)
      requires Valid()
      modifies this
      ensures Valid()
      ensures sent <==> cardNumber != "" && cardName != "" && expiry != "" && cvc != ""
      ensures !sent ==> error == Some("Please fill in all payment details") && paymentLoading == old(paymentLoading)
      ensures sent ==> error.None? && paymentLoading
      ensures cardNumber == old(cardNumber) && cardName == old(cardName) && expiry == old(expiry) && cvc == old(cvc)
      ensures selectedPlan == old(selectedPlan) && checkoutOpen == old(checkoutOpen)
    {
      if cardNumber == "" || cardName == "" || expiry == "" || cvc == "" {
        error := Some("Please fill in all payment details");
        return false;
      }
      paymentLoading := true;
      error := None;
      sent := true;
    }

    /** The end of `handleFreeSubscribe`: the spinner stops and either the
        free plan's confirmation or the failure is shown. */
    method FreeAnswered(a: Answer)
      requires Valid()
      modifies this
      ensures Valid() && !paymentLoading
      ensures a.Accepted? ==> success == Some("Successfully subscribed to free plan with 10 images!") && error == old(error)
      ensures !a.Accepted? ==> error == Some(FailureMessage(a)) && success == old(success)
      ensures checkoutOpen == old(checkoutOpen) && selectedPlan == old(selectedPlan)
      ensures cardNumber == old(cardNumber) && cardName == old(cardName) && expiry == old(expiry) && cvc == old(cvc)
    {
      paymentLoading := false;
      if a.Accepted? {
        success := Some("Successfully subscribed to free plan with 10 images!");
      } else {
        error := Some(FailureMessage(a));
      }
    }

    /** The end of `handleSubscribe`: on success the dialog closes and the
        confirmation names the plan; on failure the dialog stays open with
        the error. */
    method PaidAnswered(a: Answer)
      requires Valid() && selectedPlan.Some?
      modifies this
      ensures Valid() && !paymentLoading && selectedPlan == old(selectedPlan)
      ensures a.Accepted? ==> !checkoutOpen && success == Some(PaidSuccess(selectedPlan.value)) && error == old(error)
      ensures !a.Accepted? ==> checkoutOpen == old(checkoutOpen) && error == Some(FailureMessage(a)) && success == old(success)
      ensures cardNumber == old(cardNumber) && cardName == old(cardName) && expiry == old(expiry) && cvc == old(cvc)
    {
      paymentLoading := false;
      if a.Accepted? {
        checkoutOpen := false;
        success := Some(PaidSuccess(selectedPlan.value));
      } else {
        error := Some(FailureMessage(a));
      }
    }
  }
}
