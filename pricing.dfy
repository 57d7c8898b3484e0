/**
 * The plan dialog: which plan is shown, how its monthly and yearly prices
 * are derived from the plan's price text, which action its main button
 * takes, and the processing flag of a subscription.
 */
module Pricing {
  import opened Wrappers

  datatype Plan = Plan(
    id: string,
    name: string,
    price: string,
    period: string,
    description: string,
    features: seq<string>,
    popular: bool)

  datatype BillingCycle = Monthly | Yearly

  /** What the plan's main button does. */
  datatype Action = Subscribe | ContactSales

  /** The toasts the dialog raises. */
  datatype Notice =
    | SubscriptionSuccessful(planName: string)
    | PaymentFailed
    | SalesWillContact

  /** The four plans the dialog knows; index 1 is the default. */
  function Plans(): seq<Plan> {
    [FreePlan(), DeveloperPlan(), TeamPlan(), EnterprisePlan()]
  }

  function FreePlan(): Plan {
    Plan("free", "Free", "0", "/month",
      "Perfect for individual developers getting started",
      ["Up to 3 repository scans per month", "Basic vulnerability detection",
       "Community support", "Basic CI/CD integration", "Standard reporting"], false)
  }

  function DeveloperPlan(): Plan {
    Plan("developer", "Developer", "29", "/month",
      "Ideal for small teams and growing projects",
      ["Unlimited repository scans", "Advanced SAST & DAST scanning",
       "Dependency vulnerability analysis", "AI-powered fix suggestions",
       "Email & Slack notifications", "Priority support", "Custom integrations"], false)
  }

  function TeamPlan(): Plan {
    Plan("team", "Team", "99", "/month",
      "Advanced security for collaborative teams",
      ["Everything in Developer", "Live application monitoring", "Attack chain simulation",
       "Team collaboration features", "Custom security policies",
       "Advanced reporting & analytics", "SOC 2 compliance reports", "24/7 priority support"], true)
  }

  function EnterprisePlan(): Plan {
    Plan("enterprise", "Enterprise", "299", "/month",
      "Complete security solution for large organizations",
      ["Everything in Team", "Multi-tenant architecture", "Custom security frameworks",
       "Advanced threat intelligence", "Dedicated security engineer", "Custom SLA agreements",
       "On-premise deployment options", "White-label solutions", "Advanced audit logs",
       "Custom integrations & APIs"], false)
  }

  /** The pricing page's custom plan, which can be handed to the dialog as its selection. */
  function CustomPlan(): Plan {
    Plan("custom", "Custom", "Contact us", "",
      "Tailored security solutions for unique requirements",
      ["All Enterprise features", "Custom security consulting", "Dedicated infrastructure",
       "Custom compliance frameworks", "Advanced threat modeling", "Security training programs",
       "Incident response support", "Custom development"], false)
  }

  /** The plan shown: the selected one if any, otherwise Developer. */
  function CurrentPlan(selected: Option<Plan>): (p: Plan)
    ensures selected.Some? ==> p == selected.value
    ensures selected.None? ==> p == DeveloperPlan()
    ensures selected.None? ==> p.id == "developer" && p.name == "Developer" && p.price == "29" && p.period == "/month"
  {
    if selected.Some? then selected.value else Plans()[1]
  }

  // ---------------------------------------------------------------------
  // parseInt on decimal text
  // ---------------------------------------------------------------------

  predicate IsDigit(c: char) {
    '0' <= c <= '9'
  }

  /** ECMAScript white space and line terminators, which parseInt skips. */
  predicate IsSpace(c: char) {
    || c == '\t' || c == '\n' || c == '\U{0B}' || c == '\U{0C}' || c == '\r' || c == ' '
    || c == '\U{A0}' || c == '\U{1680}' || '\U{2000}' <= c <= '\U{200A}'
    || c == '\U{2028}' || c == '\U{2029}' || c == '\U{202F}' || c == '\U{205F}'
    || c == '\U{3000}' || c == '\U{FEFF}'
  }

  predicate AllDigits(s: string) {
    forall i :: 0 <= i < |s| ==> IsDigit(s[i])
  }

  function DigitChar(d: nat): (c: char)
    requires d < 10
    ensures IsDigit(c)
  {
    ['0', '1', '2', '3', '4', '5', '6', '7', '8', '9'][d]
  }

  function DigitValue(c: char): (d: nat)
    requires IsDigit(c)
    ensures d < 10 && DigitChar(d) == c
  {
    (c as int) - ('0' as int)
  }

  /** The value of a string of decimal digits, most significant first. */
  function DigitsValue(s: string): nat
    requires AllDigits(s)
  {
    if s == [] then 0 else 10 * DigitsValue(s[..|s| - 1]) + DigitValue(s[|s| - 1])
  }

  /** The number of decimal digits at the start of `s`. */
  function DigitRun(s: string): (k: nat)
    ensures k <= |s| && AllDigits(s[..k])
    ensures k < |s| ==> !IsDigit(s[k])
  {
    if s == [] || !IsDigit(s[0]) then 0
    else
      assert s[..1 + DigitRun(s[1..])] == [s[0]] + s[1..][..DigitRun(s[1..])];
      1 + DigitRun(s[1..])
  }

  function TrimStart(s: string): (t: string)
    ensures |t| <= |s| && t == s[|s| - |t|..]
    ensures t == [] || !IsSpace(t[0])
  {
    if s != [] && IsSpace(s[0]) then TrimStart(s[1..]) else s
  }

  /** `parseInt(s)` in base ten: leading white space, an optional sign, then the longest
      run of digits; `None` stands for `NaN`, when there is no digit. */
  function ParseInt(s: string): (r: Option<int>)
    ensures r.Some? ==> |TrimStart(s)| > 0
    ensures var t := TrimStart(s);
              t == [] || (!IsDigit(t[0]) && t[0] != '-' && t[0] != '+') ==> r == None
    ensures var t := TrimStart(s); |t| > 0 && IsDigit(t[0]) ==> r.Some? && r.value >= 0
    ensures r.Some? && r.value < 0 ==> TrimStart(s)[0] == '-'
  {
    ParseSigned(TrimStart(s))
  }

  function ParseSigned(t: string): (r: Option<int>)
    ensures r.Some? ==> |t| > 0
    ensures t == [] || (!IsDigit(t[0]) && t[0] != '-' && t[0] != '+') ==> r == None
    ensures |t| > 0 && IsDigit(t[0]) ==> r.Some? && r.value >= 0
    ensures r.Some? && r.value < 0 ==> t[0] == '-'
  {
    if |t| > 0 && t[0] == '-' then
      match ParseDigits(t[1..])
      case Some(v) => Some(0 - v)
      case None => None
    else if |t| > 0 && t[0] == '+' then ParseDigits(t[1..])
    else ParseDigits(t)
  }

  /** The value of the leading run of digits, if there is one. */
  function ParseDigits(body: string): (r: Option<int>)
    ensures r.Some? <==> |body| > 0 && IsDigit(body[0])
    ensures r.Some? ==> r.value >= 0
  {
    var k := DigitRun(body);
    if k == 0 then None else Some(DigitsValue(body[..k]))
  }

  /** The shortest decimal text of `n`. */
  function DecimalString(n: nat): (s: string)
    ensures |s| > 0 && AllDigits(s)
  {
    if n < 10 then [DigitChar(n)] else DecimalString(n / 10) + [DigitChar(n % 10)]
  }

  lemma {:induction false} DecimalValue(n: nat)
    ensures DigitsValue(DecimalString(n)) == n
  {
    var s := DecimalString(n);
    if n >= 10 {
      DecimalValue(n / 10);
      assert s[..|s| - 1] == DecimalString(n / 10);
    }
  }

  lemma {:induction false} DigitRunOfDigits(d: string, rest: string)
    requires AllDigits(d)
    requires rest == [] || !IsDigit(rest[0])
    ensures DigitRun(d + rest) == |d|
  {
    if d != [] {
      assert (d + rest)[1..] == d[1..] + rest;
      DigitRunOfDigits(d[1..], rest);
    }
  }

  /** parseInt reads back the decimal text of n, whatever non-digit text follows it. */
  lemma ParseIntDecimal(n: nat, rest: string)
    requires rest == [] || !IsDigit(rest[0])
    ensures ParseInt(DecimalString(n) + rest) == Some(n)
  {
    var d := DecimalString(n);
    var t := d + rest;
    assert t[0] == d[0] && IsDigit(t[0]);
    assert !IsSpace(t[0]);
    assert TrimStart(t) == t;
    assert ParseSigned(t) == ParseDigits(t);
    DigitRunOfDigits(d, rest);
    assert t[..|d|] == d;
    DecimalValue(n);
  }

  /** Text whose first character is neither white space, a sign nor a digit is NaN. */
  lemma ParseIntNaN(s: string)
    requires s != [] && !IsSpace(s[0]) && !IsDigit(s[0]) && s[0] != '-' && s[0] != '+'
    ensures ParseInt(s) == None
  {
  }

  // ---------------------------------------------------------------------
  // Prices
  // ---------------------------------------------------------------------

  /** `Math.round(monthly * 12 * (1 - 0.2))` on exact numbers: the integer nearest to
      9.6 * monthly, halves rounded up. */
  function YearlyPrice(monthly: int): (y: int)
    ensures (y as real) - 0.5 <= (monthly * 12) as real * 0.8 < (y as real) + 0.5
  {
    (96 * monthly + 5) / 10
  }

  /** The yearly saving shown: the integer nearest to a fifth of twelve monthly payments,
      halves rounded down. */
  function Saving(monthly: int): (saving: int)
    ensures (saving as real) - 0.5 < (monthly * 12) as real * 0.2 <= (saving as real) + 0.5
  {
    monthly * 12 - YearlyPrice(monthly)
  }

  /** A non-negative price never costs more per year than twelve months, and the saving
      is never negative. */
  lemma SavingNonNegative(monthly: int)
    requires monthly >= 0
    ensures 0 <= YearlyPrice(monthly) <= 12 * monthly
    ensures 0 <= Saving(monthly)
  {
  }

  lemma YearlyPriceExamples()
    ensures YearlyPrice(29) == 278 && YearlyPrice(99) == 950
    ensures YearlyPrice(299) == 2870 && YearlyPrice(0) == 0
  {
  }

  /** What the dialog displays for a plan and billing cycle; `None` stands for `NaN`. */
  datatype Quote = Quote(
    monthlyPrice: Option<int>,
    yearlyPrice: Option<int>,
    displayPrice: Option<int>,
    displayPeriod: string)

  function PriceQuote(selected: Option<Plan>, cycle: BillingCycle): (q: Quote)
    ensures q.monthlyPrice == ParseInt(CurrentPlan(selected).price)
    ensures q.yearlyPrice.Some? <==> q.monthlyPrice.Some?
    ensures q.monthlyPrice.Some? ==> q.yearlyPrice == Some(YearlyPrice(q.monthlyPrice.value))
    ensures cycle == Yearly ==> q.displayPrice == q.yearlyPrice && q.displayPeriod == "/year"
    ensures cycle == Monthly ==>
              q.displayPrice == q.monthlyPrice && q.displayPeriod == CurrentPlan(selected).period
  {
    var plan := CurrentPlan(selected);
    var monthly := ParseInt(plan.price);
    var yearly := if monthly.Some? then Some(YearlyPrice(monthly.value)) else None;
    Quote(monthly, yearly,
          if cycle == Yearly then yearly else monthly,
          if cycle == Yearly then "/year" else plan.period)
  }

  /** Text that is exactly the decimal form of n parses to n. */
  /** Whatever plan is shown, the monthly display is its parsed price, and the yearly display is
      twelve monthly payments less the saving the dialog shows, which is at most twelve payments. */
  lemma QuoteCycles(selected: Option<Plan>, m: int)
    requires ParseInt(CurrentPlan(selected).price) == Some(m) && m >= 0
    ensures PriceQuote(selected, Monthly).displayPrice == Some(m)
    ensures PriceQuote(selected, Yearly).displayPrice == Some(12 * m - Saving(m))
    ensures 0 <= 12 * m - Saving(m) <= 12 * m
  {
    var y := PriceQuote(selected, Yearly);
    assert y.displayPrice == Some(YearlyPrice(m));
    assert 12 * m - Saving(m) == YearlyPrice(m);
    SavingNonNegative(m);
  }

  lemma ParseDecimalText(text: string, n: nat)
    requires text == DecimalString(n)
    ensures ParseInt(text) == Some(n)
  {
    assert text + [] == text;
    ParseIntDecimal(n, []);
  }

  /** The default plan's price text "29" parses to 29. */
  lemma DeveloperPriceParses()
    ensures ParseInt("29") == Some(29)
  {
    assert DecimalString(29) == DecimalString(2) + ['9'];
    ParseDecimalText("29", 29);
  }

  /** With no selection the dialog shows Developer at $29/month, or at $278/year. */
  lemma DefaultQuote()
    ensures var q := PriceQuote(None, Monthly); q.displayPrice == Some(29) && q.displayPeriod == "/month"
    ensures var q := PriceQuote(None, Yearly); q.displayPrice == Some(278) && q.displayPeriod == "/year"
  {
    DefaultPriceParses();
    YearlyOfDefault();
  }

  lemma DefaultPriceParses()
    ensures ParseInt(CurrentPlan(None).price) == Some(29)
  {
    DeveloperPriceParses();
  }

  lemma YearlyOfDefault()
    ensures YearlyPrice(29) == 278
  {
  }

  /** The custom plan's "Contact us" price is NaN on either billing cycle. */
  lemma CustomPlanIsNaN(cycle: BillingCycle)
    ensures PriceQuote(Some(CustomPlan()), cycle).displayPrice == None
  {
    ParseIntNaN(CustomPlan().price);
  }

  /** The enterprise plan contacts sales; every other plan subscribes. */
  function PrimaryAction(plan: Plan): (a: Action)
    ensures a == ContactSales <==> plan.id == "enterprise"
  {
    if plan.id == "enterprise" then ContactSales else Subscribe
  }

  /** The note under the button: the free plan needs no credit card. */
  function Footnote(plan: Plan): (note: string)
    ensures plan.id == "free" ==> note == "No credit card required"
    ensures plan.id != "free" ==> note == "Cancel anytime. 30-day money-back guarantee."
  {
    if plan.id == "free" then "No credit card required"
    else "Cancel anytime. 30-day money-back guarantee."
  }

  /** Among the listed plans, only Enterprise contacts sales and only Free needs no card. */
  lemma PlanBranches(k: nat)
    requires k < |Plans()|
    ensures PrimaryAction(Plans()[k]) == ContactSales <==> k == 3
    ensures Footnote(Plans()[k]) == "No credit card required" <==> k == 0
  {
    var id := Plans()[k].id;
    if k == 0 {
      assert id == "free";
    } else if k == 1 {
      assert id == "developer";
    } else if k == 2 {
      assert id == "team" && id[0] != "free"[0];
    } else {
      assert id == "enterprise";
    }
  }

  // ---------------------------------------------------------------------
  // The dialog
  // ---------------------------------------------------------------------

  class PricingModal {
    const selectedPlan: Option<Plan>
    var billingCycle: BillingCycle
    var isProcessing: bool
    /** Every value `isProcessing` has been set to, in order. */
    var processingHistory: seq<bool>
    /** Set once the dialog has asked its owner to close it. */
    var closeRequested: bool
    var notices: seq<Notice>

    constructor (selectedPlan: Option<Plan>)
      ensures this.selectedPlan == selectedPlan
      ensures billingCycle == Monthly && !isProcessing && processingHistory == []
      ensures !closeRequested && notices == []
    {
      this.selectedPlan := selectedPlan;
      billingCycle := Monthly;
      isProcessing := false;
      processingHistory := [];
      closeRequested := false;
      notices := [];
    }

    /** What the dialog currently displays. */
    function Shown(): Quote
      reads this
    {
      PriceQuote(selectedPlan, billingCycle)
    }

    method SetBillingCycle(cycle: BillingCycle)
      modifies this`billingCycle
      ensures billingCycle == cycle
      ensures Shown() == PriceQuote(selectedPlan, cycle)
    {
      billingCycle := cycle;
    }

    /** A simulated payment; `paymentFails` stands for a collaborator that throws. */
    method HandleSubscribe(paymentFails: bool)
      modifies this`isProcessing, this`processingHistory, this`closeRequested, this`notices
      ensures !isProcessing
      ensures processingHistory == old(processingHistory) + [true, false]
      ensures !paymentFails ==>
                notices == old(notices) + [SubscriptionSuccessful(CurrentPlan(selectedPlan).name)]
                && closeRequested
      ensures paymentFails ==>
                notices == old(notices) + [PaymentFailed] && closeRequested == old(closeRequested)
    {
      isProcessing := true;
      processingHistory := processingHistory + [true];
      // await 2000
      if !paymentFails {
        notices := notices + [SubscriptionSuccessful(CurrentPlan(selectedPlan).name)];
        closeRequested := true;
      } else {
        notices := notices + [PaymentFailed];
      }
      isProcessing := false;
      processingHistory := processingHistory + [false];
    }

    method HandleContactSales()
      modifies this`closeRequested, this`notices
      ensures notices == old(notices) + [SalesWillContact] && closeRequested
    {
      notices := notices + [SalesWillContact];
      closeRequested := true;
    }

    /** The main button: contact sales for Enterprise, otherwise subscribe. */
    method PressPrimary(paymentFails: bool)
      modifies this`isProcessing, this`processingHistory, this`closeRequested, this`notices
      ensures PrimaryAction(CurrentPlan(selectedPlan)) == ContactSales ==>
                notices == old(notices) + [SalesWillContact] && closeRequested
                && processingHistory == old(processingHistory) && isProcessing == old(isProcessing)
      ensures PrimaryAction(CurrentPlan(selectedPlan)) == Subscribe ==>
                processingHistory == old(processingHistory) + [true, false] && !isProcessing
      ensures PrimaryAction(CurrentPlan(selectedPlan)) == Subscribe && !paymentFails ==>
                notices == old(notices) + [SubscriptionSuccessful(CurrentPlan(selectedPlan).name)]
                && closeRequested
      ensures PrimaryAction(CurrentPlan(selectedPlan)) == Subscribe && paymentFails ==>
                notices == old(notices) + [PaymentFailed] && closeRequested == old(closeRequested)
    {
      if PrimaryAction(CurrentPlan(selectedPlan)) == ContactSales {
        HandleContactSales();
      } else {
        HandleSubscribe(paymentFails);
      }
    }
  }
}
