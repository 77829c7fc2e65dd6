/** The checkout dialog (`PaywallModal`): the payment form's field rules, the two input
    formatters, the plan summary it shows, and the submission state machine its three
    payment buttons drive. Delays and the simulated random outcome are explicit events:
    every awaited delay or timer is a pending task, and firing a task carries the outcome. */
module Paywall {
  import opened Wrappers
  import opened Text

  function Min(a: int, b: int): int {
    if a <= b then a else b
  }

  // ---------------------------------------------------------------------------
  // Field rules (`paymentSchema`)
  // ---------------------------------------------------------------------------

  datatype Field = CardNumber | Expiry | Cvv | UpiId

  /** The values the four registered inputs hold; `None` is a value never entered. */
  datatype PaymentForm = PaymentForm(cardNumber: Option<string>, expiry: Option<string>,
                                     cvv: Option<string>, upiId: Option<string>)

  /** The form after `reset()`: nothing entered. */
  const EmptyForm := PaymentForm(None, None, None, None)

  const AllFields: set<Field> := {CardNumber, Expiry, Cvv, UpiId}

  /** `!val`: an absent or empty value, which every rule accepts. */
  predicate Absent(v: Option<string>) {
    v.None? || v.value == ""
  }

  /** Card number: 13 to 19 characters once white space is deleted; the characters
      themselves are not checked. */
  predicate CardNumberRule(v: Option<string>) {
    Absent(v) || 13 <= |RemoveWhitespace(v.value)| <= 19
  }

  /** `0[1-9]|1[0-2]`. */
  predicate ValidMonth(a: char, b: char) {
    (a == '0' && '1' <= b <= '9') || (a == '1' && '0' <= b <= '2')
  }

  /** `^(0[1-9]|1[0-2])\/([0-9]{2})$`. */
  predicate MatchesExpiryPattern(s: string) {
    |s| == 5 && ValidMonth(s[0], s[1]) && s[2] == '/' && IsDigit(s[3]) && IsDigit(s[4])
  }

  predicate ExpiryRule(v: Option<string>) {
    Absent(v) || MatchesExpiryPattern(v.value)
  }

  /** CVV: 3 or 4 characters of any kind. */
  predicate CvvRule(v: Option<string>) {
    Absent(v) || 3 <= |v.value| <= 4
  }

  /** UPI id: `val.includes('@')`. */
  predicate UpiIdRule(v: Option<string>) {
    Absent(v) || Contains(v.value, "@")
  }

  function FieldValue(form: PaymentForm, f: Field): Option<string> {
    match f
    case CardNumber => form.cardNumber
    case Expiry => form.expiry
    case Cvv => form.cvv
    case UpiId => form.upiId
  }

  predicate FieldOk(form: PaymentForm, f: Field) {
    var v := FieldValue(form, f);
    match f
    case CardNumber => CardNumberRule(v)
    case Expiry => ExpiryRule(v)
    case Cvv => CvvRule(v)
    case UpiId => UpiIdRule(v)
  }

  /** The message each refinement attaches to its failure. */
  function Message(f: Field): string {
    match f
    case CardNumber => "Card number must be 13-19 digits"
    case Expiry => "Format: MM/YY"
    case Cvv => "CVV must be 3-4 digits"
    case UpiId => "Please enter a valid UPI ID"
  }

  /** The schema's verdict on a whole form: one entry per failing field, holding that
      field's message, and no entry for a field that passes. */
  function PaymentErrors(form: PaymentForm): (errors: map<Field, string>)
    ensures forall f :: f in errors <==> !FieldOk(form, f)
    ensures forall f :: f in errors ==> errors[f] == Message(f)
  {
    map f | f in AllFields && !FieldOk(form, f) :: Message(f)
  }

  /** An absent or empty value passes every rule, so a form with nothing entered
      validates. */
  lemma EmptyFormValidates(form: PaymentForm)
    requires forall f :: Absent(FieldValue(form, f))
    ensures PaymentErrors(form) == map[]
  {
    forall f ensures FieldOk(form, f) {
      assert Absent(FieldValue(form, f));
    }
  }

  /** The card-number rule does not look at the characters: any 13 to 19 characters
      without white space pass, letters included. */
  lemma CardNumberRuleIgnoresCharacters(s: string)
    requires 13 <= |s| <= 19
    requires forall i :: 0 <= i < |s| ==> !IsWhitespace(s[i])
    ensures CardNumberRule(Some(s))
  {
    FilterKeepsAll(s, NotWhitespace);
  }

  /** A three-digit card number (`"123"`) is refused with the card-number message. */
  lemma ShortCardNumberRefused(form: PaymentForm)
    requires form.cardNumber == Some("123")
    ensures CardNumber in PaymentErrors(form)
    ensures PaymentErrors(form)[CardNumber] == "Card number must be 13-19 digits"
  {
    FilterKeepsAll("123", NotWhitespace);
  }

  /** A UPI id passes exactly when it is empty or has an `@` somewhere; nothing is
      required on either side of it, and more than one is allowed. */
  lemma UpiIdRuleIff(s: string)
    ensures UpiIdRule(Some(s)) <==> s == "" || '@' in s
  {
    ContainsChar(s, '@');
  }

  // ---------------------------------------------------------------------------
  // Formatters (`formatCardNumber`, `formatExpiry`)
  // ---------------------------------------------------------------------------

  /** The consecutive four-character groups of `m`; only the last may be shorter. */
  function Groups(m: string): (r: seq<string>)
    decreases |m|
    ensures |r| == (|m| + 3) / 4
  {
    if m == [] then []
    else if |m| <= 4 then [m]
    else [m[..4]] + Groups(m[4..])
  }

  /** Group `k` is the slice of `m` from position `4k`, four characters long or up to the
      end. */
  lemma {:induction false} GroupAt(m: string, k: nat)
    requires k < |Groups(m)|
    ensures 4 * k < |m| && Groups(m)[k] == m[4 * k..Min(4 * k + 4, |m|)]
    decreases |m|
  {
    if k > 0 {
      GroupAt(m[4..], k - 1);
      assert m[4..][4 * (k - 1)..Min(4 * (k - 1) + 4, |m| - 4)] == m[4 * k..Min(4 * k + 4, |m|)];
    }
  }

  /** `parts.join(sep)`. */
  function Join(parts: seq<string>, sep: string): string {
    if |parts| == 0 then ""
    else if |parts| == 1 then parts[0]
    else parts[0] + sep + Join(parts[1..], sep)
  }

  /** `parts.join('')`. */
  function Concat(parts: seq<string>): string {
    if parts == [] then "" else parts[0] + Concat(parts[1..])
  }

  /** What `formatCardNumber` returns: the digits alone while there are fewer than four,
      otherwise the first sixteen digits (or all, if fewer) in space-separated groups of
      four. */
  function CardNumberText(value: string): string {
    var v := Digits(value);
    if |v| < 4 then v else Join(Groups(v[..Min(16, |v|)]), " ")
  }

  /** `formatCardNumber`, with its `for` loop that pushes one group per four digits. */
  method FormatCardNumber(value: string) returns (r: string)
    ensures r == CardNumberText(value)
  {
    var v := Digits(value);
    // `v.match(/\d{4,16}/g)`: on a string of digits the first match is its first
    // sixteen digits, and there is none when it has fewer than four.
    var found := if |v| >= 4 then v[..Min(16, |v|)] else "";
    var parts: seq<string> := [];
    var i := 0;
    ghost var k := 0;
    while i < |found|
      invariant i == 4 * k && 0 <= k <= |Groups(found)|
      invariant parts == Groups(found)[..k]
    {
      GroupAt(found, k);
      parts := parts + [found[i..Min(i + 4, |found|)]];
      i := i + 4;
      k := k + 1;
    }
    assert parts == Groups(found);
    if |parts| > 0 {
      r := Join(parts, " ");
    } else {
      r := v;
    }
  }

  /** Joining groups with single spaces and then filtering out the space keeps exactly
      the groups' characters. */
  lemma {:induction false} FilterJoin(parts: seq<string>, p: char -> bool)
    requires !p(' ')
    requires forall k, i :: 0 <= k < |parts| && 0 <= i < |parts[k]| ==> p(parts[k][i])
    ensures Filter(Join(parts, " "), p) == Concat(parts)
  {
    if |parts| == 1 {
      FilterKeepsAll(parts[0], p);
      assert Concat(parts) == parts[0] + Concat([]);
    } else if |parts| > 1 {
      FilterKeepsAll(parts[0], p);
      FilterAppend(parts[0], " ", p);
      FilterAppend(parts[0] + " ", Join(parts[1..], " "), p);
      assert Filter(" ", p) == [] by {
        assert " "[1..] == [];
      }
      FilterJoin(parts[1..], p);
    }
  }

  lemma {:induction false} ConcatGroups(m: string)
    ensures Concat(Groups(m)) == m
    decreases |m|
  {
    if m != [] && |m| <= 4 {
      assert Concat(Groups(m)) == m + Concat([]);
    } else if |m| > 4 {
      ConcatGroups(m[4..]);
      assert Groups(m) == [m[..4]] + Groups(m[4..]);
      assert m == m[..4] + m[4..];
    }
  }

  /** The characters of the groups of a string are characters of that string. */
  lemma GroupChars(m: string, p: char -> bool)
    requires forall i :: 0 <= i < |m| ==> p(m[i])
    ensures forall k, i :: 0 <= k < |Groups(m)| && 0 <= i < |Groups(m)[k]| ==> p(Groups(m)[k][i])
  {
    var g := Groups(m);
    forall k, i | 0 <= k < |g| && 0 <= i < |g[k]| ensures p(g[k][i]) {
      GroupAt(m, k);
      assert g[k][i] == m[4 * k + i];
    }
  }

  /** The shape of a formatted card number: at most four groups, all of four digits but
      the last, which has one to four; no group is empty. */
  lemma CardNumberGroupsShape(value: string)
    requires |Digits(value)| >= 4
    ensures var v := Digits(value);
      var g := Groups(v[..Min(16, |v|)]);
      CardNumberText(value) == Join(g, " ")
      && 1 <= |g| <= 4
      && (forall k :: 0 <= k < |g| - 1 ==> |g[k]| == 4)
      && 1 <= |g[|g| - 1]| <= 4
  {
    var v := Digits(value);
    var m := v[..Min(16, |v|)];
    var g := Groups(m);
    forall k | 0 <= k < |g| - 1 ensures |g[k]| == 4 {
      GroupAt(m, k);
    }
    GroupAt(m, |g| - 1);
  }

  /** Formatting keeps only digits, and keeps the first sixteen of them in order: they
      are what is left once the spaces are deleted again. */
  lemma CardNumberTextDigits(value: string)
    ensures var v := Digits(value);
      Digits(CardNumberText(value)) == v[..Min(16, |v|)]
      && RemoveWhitespace(CardNumberText(value)) == v[..Min(16, |v|)]
  {
    var v := Digits(value);
    var m := v[..Min(16, |v|)];
    forall i | 0 <= i < |m| ensures IsDigit(m[i]) && NotWhitespace(m[i]) {
      assert m[i] == v[i];
    }
    if |v| < 4 {
      assert m == v;
      DigitsOfDigits(v);
      FilterKeepsAll(v, NotWhitespace);
    } else {
      GroupChars(m, IsDigit);
      GroupChars(m, NotWhitespace);
      FilterJoin(Groups(m), IsDigit);
      FilterJoin(Groups(m), NotWhitespace);
      ConcatGroups(m);
    }
  }

  /** Formatting an already formatted card number changes nothing. */
  lemma FormatCardNumberIdempotent(value: string)
    ensures CardNumberText(CardNumberText(value)) == CardNumberText(value)
  {
    var v := Digits(value);
    CardNumberTextDigits(value);
    var v' := Digits(CardNumberText(value));
    assert v' == v[..Min(16, |v|)];
    assert v'[..Min(16, |v'|)] == v';
  }

  /** A formatted card number passes the card-number rule exactly when no digit was typed
      or at least thirteen were; one to twelve digits are refused. */
  lemma FormattedCardNumberAccepted(value: string)
    ensures CardNumberRule(Some(CardNumberText(value)))
        <==> |Digits(value)| == 0 || |Digits(value)| >= 13
  {
    var v := Digits(value);
    CardNumberTextDigits(value);
    if |v| >= 4 {
      var g := Groups(v[..Min(16, |v|)]);
      assert CardNumberText(value) == Join(g, " ");
      assert g[0] != [];
      JoinNonEmpty(g);
    }
  }

  lemma {:induction false} JoinNonEmpty(parts: seq<string>)
    requires |parts| >= 1 && parts[0] != []
    ensures Join(parts, " ") != []
  {
    if |parts| > 1 {
      assert |Join(parts, " ")| >= |parts[0]|;
    }
  }

  /** `formatExpiry`: the digits alone while there are fewer than two, otherwise the first
      two, a slash, and at most the next two. */
  function FormatExpiry(value: string): (r: string)
    ensures |r| <= 5
    ensures |Digits(value)| < 2 ==> r == Digits(value)
    ensures |Digits(value)| >= 2 ==> |r| == Min(4, |Digits(value)|) + 1 && r[2] == '/'
  {
    var v := Digits(value);
    if |v| >= 2 then v[..2] + "/" + v[2..Min(4, |v|)] else v
  }

  /** The digits of a formatted expiry are the first four typed digits. */
  lemma ExpiryDigits(value: string)
    ensures var v := Digits(value); Digits(FormatExpiry(value)) == v[..Min(4, |v|)]
  {
    var v := Digits(value);
    if |v| >= 2 {
      var a, b := v[..2], v[2..Min(4, |v|)];
      forall i | 0 <= i < |a| ensures IsDigit(a[i]) { assert a[i] == v[i]; }
      forall i | 0 <= i < |b| ensures IsDigit(b[i]) { assert b[i] == v[2 + i]; }
      FilterAppend(a, "/", IsDigit);
      FilterAppend(a + "/", b, IsDigit);
      DigitsOfDigits(a);
      DigitsOfDigits(b);
      assert Filter("/", IsDigit) == [] by { assert "/"[1..] == []; }
      assert a + b == v[..Min(4, |v|)];
    } else {
      DigitsOfDigits(v);
    }
  }

  /** Formatting an already formatted expiry changes nothing. */
  lemma FormatExpiryIdempotent(value: string)
    ensures FormatExpiry(FormatExpiry(value)) == FormatExpiry(value)
  {
    var v := Digits(value);
    ExpiryDigits(value);
    var v' := Digits(FormatExpiry(value));
    assert v' == v[..Min(4, |v|)];
  }

  /** A formatted expiry passes the expiry rule exactly when no digit was typed, or at
      least four were and the first two name a month. */
  lemma FormattedExpiryAccepted(value: string)
    ensures var v := Digits(value);
      ExpiryRule(Some(FormatExpiry(value))) <==> |v| == 0 || (|v| >= 4 && ValidMonth(v[0], v[1]))
  {
    var v := Digits(value);
    var r := FormatExpiry(value);
    if |v| >= 4 {
      assert r == v[..2] + "/" + v[2..4];
      assert r[0] == v[0] && r[1] == v[1] && r[3] == v[2] && r[4] == v[3];
    }
  }

  /** The CVV input holds at most four characters (`maxLength={4}`); what it holds passes
      exactly when it is not one or two characters long. */
  lemma TypedCvvAccepted(typed: string)
    ensures CvvRule(Some(typed[..Min(4, |typed|)])) <==> |typed| != 1 && |typed| != 2
  {
  }

  // ---------------------------------------------------------------------------
  // Plan summary
  // ---------------------------------------------------------------------------

  /** The plan the dialog is opened with: `{name, price, period?}`. */
  datatype SelectedPlan = SelectedPlan(name: string, price: int, period: Option<string>)

  /** The right-hand price block: "FREE" over "7 days", or `$price` over `/period`. */
  datatype PriceBlock = Free | Priced(price: int, per: string)

  predicate IsTrial(plan: SelectedPlan) {
    plan.period == Some("trial")
  }

  /** `selectedPlan.period || 'month'`. */
  function PeriodOrMonth(period: Option<string>): (r: string)
    ensures r != ""
    ensures period.Some? && period.value != "" ==> r == period.value
    ensures period.None? || period.value == "" ==> r == "month"
  {
    if period.None? || period.value == "" then "month" else period.value
  }

  const TrialSubtitle := "Free for 7 days, then billed monthly"
  const AnnualSubtitle := "Annual subscription"
  const MonthlySubtitle := "Monthly subscription"

  /** The summary's subtitle and price block. */
  function Summary(plan: SelectedPlan): (r: (string, PriceBlock))
    ensures r.1 == Free <==> IsTrial(plan)
    ensures IsTrial(plan) ==> r.0 == TrialSubtitle
    ensures !IsTrial(plan) ==> r.1 == Priced(plan.price, PeriodOrMonth(plan.period))
    ensures r.0 == AnnualSubtitle <==> plan.period == Some("year")
    ensures r.0 == MonthlySubtitle <==> !IsTrial(plan) && plan.period != Some("year")
  {
    var subtitle := if IsTrial(plan) then TrialSubtitle
                    else if plan.period == Some("year") then AnnualSubtitle
                    else MonthlySubtitle;
    var block := if IsTrial(plan) then Free else Priced(plan.price, PeriodOrMonth(plan.period));
    (subtitle, block)
  }

  datatype Tab = CardTab | UpiTab | PayPalTab

  /** The label of the active tab's submit button. A paid plan never offers a free trial,
      a submission in flight always shows a progress label (the PayPal one exactly on the
      PayPal tab), and an idle paid button names its payment method. */
  function SubmitLabel(tab: Tab, plan: SelectedPlan, isSubmitting: bool): (r: string)
    ensures r == "Start Free Trial" <==> !isSubmitting && IsTrial(plan)
    ensures r == "Redirecting..." <==> isSubmitting && tab == PayPalTab
    ensures isSubmitting <==> r in {"Processing...", "Redirecting..."}
    ensures (r == "Complete Purchase" <==> !isSubmitting && !IsTrial(plan) && tab == CardTab)
            && (r == "Pay with UPI" <==> !isSubmitting && !IsTrial(plan) && tab == UpiTab)
            && (r == "Continue with PayPal" <==> !isSubmitting && !IsTrial(plan) && tab == PayPalTab)
  {
    if isSubmitting then (if tab == PayPalTab then "Redirecting..." else "Processing...")
    else if IsTrial(plan) then "Start Free Trial"
    else match tab
      case CardTab => "Complete Purchase"
      case UpiTab => "Pay with UPI"
      case PayPalTab => "Continue with PayPal"
  }

  // ---------------------------------------------------------------------------
  // Submission state machine
  // ---------------------------------------------------------------------------

  /** react-hook-form's re-validation of one registered field on change once a submit has
      been attempted: the resolver runs again and only that field's entry is updated. */
  function Revalidated(errors: map<Field, string>, form: PaymentForm, f: Field)
    : (r: map<Field, string>)
    ensures f in r <==> !FieldOk(form, f)
    ensures f in r ==> r[f] == Message(f)
    ensures forall g :: g != f ==> (g in r <==> g in errors) && (g in r ==> r[g] == errors[g])
  {
    if FieldOk(form, f) then errors - {f} else errors[f := Message(f)]
  }

  /** Re-validating the changed field after a submit keeps the errors equal to the schema's
      verdict on the whole new form, as long as they were before the change. */
  lemma RevalidatedAgreesWithSchema(form: PaymentForm, form': PaymentForm, f: Field)
    requires forall g :: g != f ==> FieldValue(form', g) == FieldValue(form, g)
    ensures Revalidated(PaymentErrors(form), form', f) == PaymentErrors(form')
  {
    var a, b := Revalidated(PaymentErrors(form), form', f), PaymentErrors(form');
    forall g ensures (g in a <==> g in b) && (g in a ==> a[g] == b[g]) {
      if g != f {
        assert FieldValue(form', g) == FieldValue(form, g);
        assert FieldOk(form', g) == FieldOk(form, g);
      }
    }
  }

  datatype Status = Idle | Success | Error

  /** A continuation waiting on a delay: the end of a simulated payment of one of the three
      kinds, or the two-second timer that closes the dialog after a success (and, after a
      card payment, resets the form). */
  datatype Task = CardOutcome | UpiOutcome | PayPalOutcome | AutoClose(resetForm: bool)

  const CardFailure := "Payment failed. Please check your details and try again."
  const UpiFailure := "UPI payment failed. Please check your UPI ID and try again."

  /** The dialog's own state. What it is opened with (`isOpen`, `selectedPlan`) belongs to
      its owner; `onClose` is reported to the owner by the methods that call it. */
  class CheckoutDialog {
    var activeTab: Tab
    var isSubmitting: bool
    var paymentStatus: Status
    var errorMessage: string
    var form: PaymentForm
    var errors: map<Field, string>
    var pending: seq<Task>
    /** react-hook-form's `isSubmitted`: a submit was attempted since the last `reset()`. */
    var formSubmitted: bool

    /** A submission in flight keeps the status idle until an outcome arrives; a success
        always has its closing timer scheduled; an error always shows a failure reason. */
    ghost predicate Valid()
      reads this
    {
      && (isSubmitting ==>
            paymentStatus == Idle
            && (CardOutcome in pending || UpiOutcome in pending || PayPalOutcome in pending))
      && (paymentStatus == Success ==> AutoClose(true) in pending || AutoClose(false) in pending)
      && (paymentStatus == Error ==> errorMessage == CardFailure || errorMessage == UpiFailure)
    }

    constructor ()
      ensures Valid()
      ensures activeTab == CardTab && !isSubmitting && paymentStatus == Idle
      ensures errorMessage == "" && form == EmptyForm && errors == map[] && pending == []
      ensures !formSubmitted
    {
      activeTab := CardTab;
      isSubmitting := false;
      paymentStatus := Idle;
      errorMessage := "";
      form := EmptyForm;
      errors := map[];
      pending := [];
      formSubmitted := false;
    }

    /** A tab click switches the visible form and nothing else. */
    method SelectTab(tab: Tab)
      requires Valid()
      modifies this
      ensures Valid()
      ensures activeTab == tab
      ensures isSubmitting == old(isSubmitting) && paymentStatus == old(paymentStatus)
      ensures errorMessage == old(errorMessage) && form == old(form)
      ensures errors == old(errors) && pending == old(pending) && formSubmitted == old(formSubmitted)
    {
      activeTab := tab;
    }

    /** Typing in the card-number field stores the formatted text. */
    method EditCardNumber(typed: string)
      requires Valid()
      modifies this
      ensures Valid()
      ensures form == old(form).(cardNumber := Some(CardNumberText(typed)))
      ensures activeTab == old(activeTab) && isSubmitting == old(isSubmitting)
      ensures paymentStatus == old(paymentStatus) && errorMessage == old(errorMessage)
      ensures errors == old(errors) && pending == old(pending) && formSubmitted == old(formSubmitted)
    {
      var formatted := FormatCardNumber(typed);
      form := form.(cardNumber := Some(formatted));
    }

    /** Typing in the expiry field stores the formatted text. */
    method EditExpiry(typed: string)
      requires Valid()
      modifies this
      ensures Valid()
      ensures form == old(form).(expiry := Some(FormatExpiry(typed)))
      ensures activeTab == old(activeTab) && isSubmitting == old(isSubmitting)
      ensures paymentStatus == old(paymentStatus) && errorMessage == old(errorMessage)
      ensures errors == old(errors) && pending == old(pending) && formSubmitted == old(formSubmitted)
    {
      form := form.(expiry := Some(FormatExpiry(typed)));
    }

    /** Typing in the CVV field keeps at most four characters. The field uses its registered
        `onChange`, so once a submit was attempted its error is re-validated. */
    method EditCvv(typed: string)
      requires Valid()
      modifies this
      ensures Valid()
      ensures form == old(form).(cvv := Some(typed[..Min(4, |typed|)]))
      ensures activeTab == old(activeTab) && isSubmitting == old(isSubmitting)
      ensures paymentStatus == old(paymentStatus) && errorMessage == old(errorMessage)
      ensures errors == if old(formSubmitted) then Revalidated(old(errors), form, Cvv) else old(errors)
      ensures pending == old(pending) && formSubmitted == old(formSubmitted)
    {
      form := form.(cvv := Some(typed[..Min(4, |typed|)]));
      if formSubmitted {
        errors := Revalidated(errors, form, Cvv);
      }
    }

    /** Typing in the UPI field stores the text as typed; like the CVV field, its error is
        re-validated once a submit was attempted. */
    method EditUpiId(typed: string)
      requires Valid()
      modifies this
      ensures Valid()
      ensures form == old(form).(upiId := Some(typed))
      ensures activeTab == old(activeTab) && isSubmitting == old(isSubmitting)
      ensures paymentStatus == old(paymentStatus) && errorMessage == old(errorMessage)
      ensures errors == if old(formSubmitted) then Revalidated(old(errors), form, UpiId) else old(errors)
      ensures pending == old(pending) && formSubmitted == old(formSubmitted)
    {
      form := form.(upiId := Some(typed));
      if formSubmitted {
        errors := Revalidated(errors, form, UpiId);
      }
    }

    /** Submitting the card form. The button is disabled while the status is success and
        only exists on the card tab. The whole schema, the UPI id included, is checked
        first: a failing form only records its errors; a passing one starts
        `handlePayment`, which marks the submission in flight, clears the status and the
        message, and waits for its outcome. react-hook-form publishes `isSubmitted` once
        the submit handler has settled: at once for a refused form, and only when the
        payment outcome arrives for an accepted one. */
    method SubmitCard() returns (started: bool)
      requires Valid()
      modifies this
      ensures Valid()
      ensures started <==> old(activeTab) == CardTab && old(paymentStatus) != Success
                           && PaymentErrors(old(form)) == map[]
      ensures activeTab == old(activeTab) && form == old(form)
      ensures old(activeTab) != CardTab || old(paymentStatus) == Success ==>
        isSubmitting == old(isSubmitting) && paymentStatus == old(paymentStatus)
        && errorMessage == old(errorMessage) && errors == old(errors) && pending == old(pending)
      ensures old(activeTab) == CardTab && old(paymentStatus) != Success && !started ==>
        errors == PaymentErrors(old(form))
        && isSubmitting == old(isSubmitting) && paymentStatus == old(paymentStatus)
        && errorMessage == old(errorMessage) && pending == old(pending)
      ensures started ==>
        errors == map[] && isSubmitting && paymentStatus == Idle && errorMessage == ""
        && pending == old(pending) + [CardOutcome]
      ensures formSubmitted == (old(formSubmitted)
        || (old(activeTab) == CardTab && old(paymentStatus) != Success && !started))
    {
      started := false;
      if activeTab == CardTab && paymentStatus != Success {
        var problems := PaymentErrors(form);
        errors := problems;
        if problems == map[] {
          isSubmitting := true;
          paymentStatus := Idle;
          errorMessage := "";
          pending := pending + [CardOutcome];
          started := true;
        } else {
          formSubmitted := true;
        }
      }
    }

    /** Pressing "Pay with UPI": no validation; the submission is marked in flight and the
        status cleared, but the previous failure message is kept. */
    method PressUpi() returns (started: bool)
      requires Valid()
      modifies this
      ensures Valid()
      ensures started <==> old(activeTab) == UpiTab && old(paymentStatus) != Success
      ensures activeTab == old(activeTab) && form == old(form) && errors == old(errors)
      ensures errorMessage == old(errorMessage) && formSubmitted == old(formSubmitted)
      ensures !started ==> isSubmitting == old(isSubmitting) && paymentStatus == old(paymentStatus)
                           && pending == old(pending)
      ensures started ==> isSubmitting && paymentStatus == Idle && pending == old(pending) + [UpiOutcome]
    {
      started := activeTab == UpiTab && paymentStatus != Success;
      if started {
        isSubmitting := true;
        paymentStatus := Idle;
        pending := pending + [UpiOutcome];
      }
    }

    /** Pressing "Continue with PayPal" (opening the PayPal page is not modelled): like the
        UPI button. */
    method PressPayPal() returns (started: bool)
      requires Valid()
      modifies this
      ensures Valid()
      ensures started <==> old(activeTab) == PayPalTab && old(paymentStatus) != Success
      ensures activeTab == old(activeTab) && form == old(form) && errors == old(errors)
      ensures errorMessage == old(errorMessage) && formSubmitted == old(formSubmitted)
      ensures !started ==> isSubmitting == old(isSubmitting) && paymentStatus == old(paymentStatus)
                           && pending == old(pending)
      ensures started ==> isSubmitting && paymentStatus == Idle && pending == old(pending) + [PayPalOutcome]
    {
      started := activeTab == PayPalTab && paymentStatus != Success;
      if started {
        isSubmitting := true;
        paymentStatus := Idle;
        pending := pending + [PayPalOutcome];
      }
    }

    /** The close button and the backdrop call `onClose` and change nothing here. */
    method PressClose() returns (closeCalled: bool)
      ensures closeCalled
    {
      closeCalled := true;
    }

    /** The pending task at position `i` runs; `success` is the simulated outcome, which
        PayPal ignores. A payment outcome sets the status (and, on failure, the fixed
        reason), schedules the closing timer on success, and ends the submission whatever
        the outcome. The closing timer calls `onClose`, resets the form after a card
        payment, and returns the status to idle. Nothing checks whether the dialog was
        closed or reopened in between. Once `handlePayment` returns, `handleSubmit` records
        the card form's submit attempt. */
    method Fire(i: nat, success: bool) returns (closeCalled: bool)
      requires Valid()
      requires i < |pending|
      modifies this
      ensures Valid()
      ensures activeTab == old(activeTab)
      ensures closeCalled <==> old(pending[i]).AutoClose?
      ensures old(pending[i]).CardOutcome? ==> formSubmitted
      ensures old(pending[i]).UpiOutcome? || old(pending[i]).PayPalOutcome? ==>
        formSubmitted == old(formSubmitted)
      ensures var rest := old(pending[..i] + pending[i + 1..]);
        match old(pending[i])
        case CardOutcome =>
          !isSubmitting && form == old(form) && errors == old(errors)
          && (success ==> paymentStatus == Success && errorMessage == old(errorMessage)
                          && pending == rest + [AutoClose(true)])
          && (!success ==> paymentStatus == Error && errorMessage == CardFailure && pending == rest)
        case UpiOutcome =>
          !isSubmitting && form == old(form) && errors == old(errors)
          && (success ==> paymentStatus == Success && errorMessage == old(errorMessage)
                          && pending == rest + [AutoClose(false)])
          && (!success ==> paymentStatus == Error && errorMessage == UpiFailure && pending == rest)
        case PayPalOutcome =>
          !isSubmitting && form == old(form) && errors == old(errors)
          && paymentStatus == Success && errorMessage == old(errorMessage)
          && pending == rest + [AutoClose(false)]
        case AutoClose(reset) =>
          isSubmitting == old(isSubmitting) && paymentStatus == Idle
          && errorMessage == old(errorMessage) && pending == rest
          && (reset ==> form == EmptyForm && errors == map[] && !formSubmitted)
          && (!reset ==> form == old(form) && errors == old(errors)
                         && formSubmitted == old(formSubmitted))
    {
      var task := pending[i];
      pending := pending[..i] + pending[i + 1..];
      closeCalled := false;
      match task
      case CardOutcome =>
        if success {
          paymentStatus := Success;
          pending := pending + [AutoClose(true)];
        } else {
          paymentStatus := Error;
          errorMessage := CardFailure;
        }
        isSubmitting := false;
        formSubmitted := true;
      case UpiOutcome =>
        if success {
          paymentStatus := Success;
          pending := pending + [AutoClose(false)];
        } else {
          paymentStatus := Error;
          errorMessage := UpiFailure;
        }
        isSubmitting := false;
      case PayPalOutcome =>
        paymentStatus := Success;
        pending := pending + [AutoClose(false)];
        isSubmitting := false;
      case AutoClose(reset) =>
        closeCalled := true;
        if reset {
          form := EmptyForm;
          errors := map[];
          formSubmitted := false;
        }
        paymentStatus := Idle;
    }
  }
}
