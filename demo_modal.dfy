/** The demo-scheduling dialog (`DemoModal`): the ten bookable dates, the nine time slots,
    the form's rules, and the submitted/closed state. Days are integer ordinals whose day
    of the week is the ordinal modulo 7, 0 being Sunday and 6 Saturday. */
module DemoModal {

  /** `getDay()` of a day ordinal. */
  function DayOfWeek(d: int): (r: int)
    ensures 0 <= r < 7
  {
    d % 7
  }

  /** Neither a Sunday nor a Saturday. */
  predicate IsWeekday(d: int) {
    DayOfWeek(d) != 0 && DayOfWeek(d) != 6
  }

  /** How many days from `d` until the next weekday (0 when `d` is one). */
  function DaysToWeekday(d: int): nat {
    if DayOfWeek(d) == 6 then 2 else if DayOfWeek(d) == 0 then 1 else 0
  }

  /** The first `n` weekdays on or after `from`, in calendar order. */
  function FirstWeekdays(from: int, n: nat): (r: seq<int>)
    ensures |r| == n
    ensures forall i :: 0 <= i < |r| ==> IsWeekday(r[i]) && from <= r[i]
    decreases n, DaysToWeekday(from)
  {
    if n == 0 then []
    else if IsWeekday(from) then [from] + FirstWeekdays(from + 1, n - 1)
    else FirstWeekdays(from + 1, n)
  }

  /** The result is strictly increasing. */
  lemma {:induction false} FirstWeekdaysIncreasing(from: int, n: nat)
    ensures forall i, j :: 0 <= i < j < n ==> FirstWeekdays(from, n)[i] < FirstWeekdays(from, n)[j]
    decreases n, DaysToWeekday(from)
  {
    if n > 0 {
      if IsWeekday(from) {
        FirstWeekdaysIncreasing(from + 1, n - 1);
      } else {
        FirstWeekdaysIncreasing(from + 1, n);
      }
    }
  }

  /** No weekday is skipped: every weekday from `from` up to the last one returned is
      among the results. */
  lemma {:induction false} FirstWeekdaysComplete(from: int, n: nat, d: int)
    requires n > 0 && from <= d <= FirstWeekdays(from, n)[n - 1] && IsWeekday(d)
    ensures d in FirstWeekdays(from, n)
    decreases n, DaysToWeekday(from)
  {
    var r := FirstWeekdays(from, n);
    if IsWeekday(from) {
      if d != from {
        var rest := FirstWeekdays(from + 1, n - 1);
        assert r == [from] + rest;
        if n == 1 {
          assert false;
        } else {
          assert rest[n - 2] == r[n - 1];
          FirstWeekdaysComplete(from + 1, n - 1, d);
        }
      }
    } else {
      FirstWeekdaysComplete(from + 1, n, d);
    }
  }

  /** The number of weekdays among the `len` days starting at `from`. */
  function WeekdayCount(from: int, len: nat): (r: nat)
    ensures r <= len
    decreases len
  {
    if len == 0 then 0 else (if IsWeekday(from) then 1 else 0) + WeekdayCount(from + 1, len - 1)
  }

  lemma {:induction false} WeekdayCountSplit(from: int, a: nat, b: nat)
    ensures WeekdayCount(from, a + b) == WeekdayCount(from, a) + WeekdayCount(from + a, b)
    decreases a
  {
    if a > 0 {
      WeekdayCountSplit(from + 1, a - 1, b);
    }
  }

  lemma DayOfWeekAfter(d: int, k: int)
    requires 0 <= k < 7
    ensures DayOfWeek(d + k) == (DayOfWeek(d) + k) % 7
  {
  }

  /** Every stretch of seven consecutive days holds exactly five weekdays. */
  lemma WeekdaysInAWeek(from: int)
    ensures WeekdayCount(from, 7) == 5
  {
    var c6 := WeekdayCount(from + 6, 1);
    assert WeekdayCount(from + 5, 2) == (if IsWeekday(from + 5) then 1 else 0) + c6;
    assert WeekdayCount(from + 4, 3) == (if IsWeekday(from + 4) then 1 else 0) + WeekdayCount(from + 5, 2);
    assert WeekdayCount(from + 3, 4) == (if IsWeekday(from + 3) then 1 else 0) + WeekdayCount(from + 4, 3);
    assert WeekdayCount(from + 2, 5) == (if IsWeekday(from + 2) then 1 else 0) + WeekdayCount(from + 3, 4);
    assert WeekdayCount(from + 1, 6) == (if IsWeekday(from + 1) then 1 else 0) + WeekdayCount(from + 2, 5);
    assert WeekdayCount(from, 7) == (if IsWeekday(from) then 1 else 0) + WeekdayCount(from + 1, 6);
    DayOfWeekAfter(from, 1);
    DayOfWeekAfter(from, 2);
    DayOfWeekAfter(from, 3);
    DayOfWeekAfter(from, 4);
    DayOfWeekAfter(from, 5);
    DayOfWeekAfter(from, 6);
  }

  /** When the `len` days from `from` hold at least `n` weekdays, so do the first `n`
      weekdays from `from` all fall among them. */
  lemma {:induction false} FirstWeekdaysWithin(from: int, n: nat, len: nat)
    requires WeekdayCount(from, len) >= n
    ensures forall i :: 0 <= i < n ==> FirstWeekdays(from, n)[i] < from + len
    decreases n, DaysToWeekday(from)
  {
    if n > 0 {
      assert len > 0;
      if IsWeekday(from) {
        FirstWeekdaysWithin(from + 1, n - 1, len - 1);
      } else {
        FirstWeekdaysWithin(from + 1, n, len - 1);
      }
    }
  }

  /** The ten weekdays from `from` all fall within the fourteen days from `from`. */
  lemma TenWeekdaysWithinTwoWeeks(from: int)
    ensures forall i :: 0 <= i < 10 ==> FirstWeekdays(from, 10)[i] < from + 14
  {
    WeekdayCountSplit(from, 7, 7);
    WeekdaysInAWeek(from);
    WeekdaysInAWeek(from + 7);
    FirstWeekdaysWithin(from, 10, 14);
  }

  /** `getAvailableDates`: starting from tomorrow, collect each day that is not a weekend
      day until ten are collected. `iterations` counts the loop's rounds. */
  method GetAvailableDates(today: int) returns (dates: seq<int>, ghost iterations: nat)
    ensures dates == FirstWeekdays(today + 1, 10)
    ensures iterations <= 14
  {
    dates := [];
    var current := today + 1;
    iterations := 0;
    while |dates| < 10
      invariant |dates| <= 10
      invariant dates + FirstWeekdays(current, 10 - |dates|) == FirstWeekdays(today + 1, 10)
      invariant current == today + 1 + iterations
      invariant |dates| == 10 ==> current == dates[9] + 1
      decreases 10 - |dates|, DaysToWeekday(current)
    {
      if IsWeekday(current) {
        assert FirstWeekdays(current, 10 - |dates|)
            == [current] + FirstWeekdays(current + 1, 10 - |dates| - 1);
        dates := dates + [current];
      }
      current := current + 1;
      iterations := iterations + 1;
    }
    assert dates == FirstWeekdays(today + 1, 10);
    TenWeekdaysWithinTwoWeeks(today + 1);
    assert dates[9] < today + 15;
  }

  /** The dates offered are ten distinct weekdays after today in increasing order, and they
      are exactly the first ten: no weekday before the last one offered is missing. */
  lemma AvailableDatesProperties(today: int)
    ensures var ds := FirstWeekdays(today + 1, 10);
      |ds| == 10
      && (forall i :: 0 <= i < 10 ==> IsWeekday(ds[i]) && today < ds[i] <= today + 14)
      && (forall i, j :: 0 <= i < j < 10 ==> ds[i] < ds[j])
      && (forall d :: today < d <= ds[9] && IsWeekday(d) ==> d in ds)
  {
    FirstWeekdaysIncreasing(today + 1, 10);
    TenWeekdaysWithinTwoWeeks(today + 1);
    forall d | today < d <= FirstWeekdays(today + 1, 10)[9] && IsWeekday(d)
      ensures d in FirstWeekdays(today + 1, 10)
    {
      FirstWeekdaysComplete(today + 1, 10, d);
    }
  }

  /** Tomorrow is the first offered date when it is a weekday. */
  lemma TomorrowFirstWhenWeekday(today: int)
    requires IsWeekday(today + 1)
    ensures FirstWeekdays(today + 1, 10)[0] == today + 1
  {
  }

  // ---------------------------------------------------------------------------
  // Time slots
  // ---------------------------------------------------------------------------

  /** `availableTimes`. */
  const AvailableTimes: seq<string> := [
    "09:00 AM", "10:00 AM", "11:00 AM", "12:00 PM",
    "01:00 PM", "02:00 PM", "03:00 PM", "04:00 PM", "05:00 PM"]

  function TwoDigits(n: int): string
    requires 0 <= n < 100
  {
    [('0' as int + n / 10) as char, ('0' as int + n % 10) as char]
  }

  /** The label of the slot starting at hour `h` of a 24-hour day, on a 12-hour clock. */
  function SlotLabel(h: int): (r: string)
    requires 1 <= h < 24
    ensures |r| == 8
  {
    var twelve := if h > 12 then h - 12 else h;
    TwoDigits(twelve) + ":00 " + (if h < 12 then "AM" else "PM")
  }

  /** The slots are the nine whole hours from 9 in the morning to 5 in the afternoon, in
      order. */
  lemma AvailableTimesAreHourly()
    ensures |AvailableTimes| == 9
    ensures forall i :: 0 <= i < 9 ==> AvailableTimes[i] == SlotLabel(9 + i)
  {
    assert SlotLabel(9) == "09:00 AM";
    assert SlotLabel(10) == "10:00 AM";
    assert SlotLabel(11) == "11:00 AM";
    assert SlotLabel(12) == "12:00 PM";
    assert SlotLabel(13) == "01:00 PM";
    assert SlotLabel(14) == "02:00 PM";
    assert SlotLabel(15) == "03:00 PM";
    assert SlotLabel(16) == "04:00 PM";
    assert SlotLabel(17) == "05:00 PM";
  }

  // ---------------------------------------------------------------------------
  // Form rules
  // ---------------------------------------------------------------------------

  datatype DemoField = Name | Email | Company | Date | Time

  /** The form's five values; an untouched input submits the empty string. */
  datatype DemoForm = DemoForm(name: string, email: string, company: string, date: string,
                               time: string)

  const EmptyDemoForm := DemoForm("", "", "", "", "")

  function DemoMessage(f: DemoField): string {
    match f
    case Name => "Name must be at least 2 characters"
    case Email => "Please enter a valid work email address"
    case Company => "Company name must be at least 2 characters"
    case Date => "Please select a date"
    case Time => "Please select a time"
  }

  /** `demoSchema`'s rule for one field; `isEmail` stands for the e-mail check. */
  predicate DemoFieldOk(form: DemoForm, f: DemoField, isEmail: string -> bool) {
    match f
    case Name => |form.name| >= 2
    case Email => isEmail(form.email)
    case Company => |form.company| >= 2
    case Date => |form.date| >= 1
    case Time => |form.time| >= 1
  }

  /** The errors the resolver reports: each failing field with its message. */
  function DemoErrors(form: DemoForm, isEmail: string -> bool): (r: map<DemoField, string>)
    ensures forall f :: f in r <==> !DemoFieldOk(form, f, isEmail)
    ensures forall f :: f in r ==> r[f] == DemoMessage(f)
  {
    map f: DemoField | !DemoFieldOk(form, f, isEmail) :: DemoMessage(f)
  }

  /** The form passes exactly when its name and company have at least two characters, the
      e-mail is accepted, and a date and a time are chosen. */
  lemma DemoErrorsEmptyIff(form: DemoForm, isEmail: string -> bool)
    ensures DemoErrors(form, isEmail) == map[] <==>
      |form.name| >= 2 && isEmail(form.email) && |form.company| >= 2
      && form.date != "" && form.time != ""
  {
    var errs := DemoErrors(form, isEmail);
    if errs == map[] {
      assert Name !in errs && Email !in errs && Company !in errs && Date !in errs && Time !in errs;
    } else {
      var f :| f in errs;
      assert !DemoFieldOk(form, f, isEmail);
    }
  }

  /** The browser's own constraint check, which runs before the resolver because the form
      does not set `noValidate`: name, e-mail and company are `required`, and the e-mail
      input is `type="email"`. `browserEmail` stands for the browser's e-mail syntax check;
      the date and time selects are not `required`. */
  predicate DemoBrowserAccepts(form: DemoForm, browserEmail: string -> bool) {
    form.name != "" && form.company != "" && form.email != "" && browserEmail(form.email)
  }

  function DemoFieldValue(form: DemoForm, f: DemoField): string {
    match f
    case Name => form.name
    case Email => form.email
    case Company => form.company
    case Date => form.date
    case Time => form.time
  }

  /** The form with one field's value replaced. */
  function WithField(form: DemoForm, f: DemoField, value: string): (r: DemoForm)
    ensures DemoFieldValue(r, f) == value
    ensures forall g :: g != f ==> DemoFieldValue(r, g) == DemoFieldValue(form, g)
  {
    match f
    case Name => form.(name := value)
    case Email => form.(email := value)
    case Company => form.(company := value)
    case Date => form.(date := value)
    case Time => form.(time := value)
  }

  /** A field's rule looks at that field's value only. */
  lemma DemoFieldOkReadsOwnValue(form: DemoForm, form': DemoForm, f: DemoField,
                                 isEmail: string -> bool)
    requires DemoFieldValue(form', f) == DemoFieldValue(form, f)
    ensures DemoFieldOk(form', f, isEmail) == DemoFieldOk(form, f, isEmail)
  {
  }

  /** react-hook-form's re-validation of one field on change once a submit has been
      attempted: the resolver runs again and only that field's entry is updated. */
  function DemoRevalidated(errors: map<DemoField, string>, form: DemoForm, f: DemoField,
                           isEmail: string -> bool): (r: map<DemoField, string>)
    ensures f in r <==> !DemoFieldOk(form, f, isEmail)
    ensures f in r ==> r[f] == DemoMessage(f)
    ensures forall g :: g != f ==> (g in r <==> g in errors) && (g in r ==> r[g] == errors[g])
  {
    if DemoFieldOk(form, f, isEmail) then errors - {f} else errors[f := DemoMessage(f)]
  }

  /** Re-validating the edited field keeps the errors equal to the resolver's verdict on
      the whole new form, as long as they were before the edit. */
  lemma DemoRevalidatedAgreesWithSchema(form: DemoForm, f: DemoField, value: string,
                                        isEmail: string -> bool)
    ensures DemoRevalidated(DemoErrors(form, isEmail), WithField(form, f, value), f, isEmail)
         == DemoErrors(WithField(form, f, value), isEmail)
  {
    var form' := WithField(form, f, value);
    var a := DemoRevalidated(DemoErrors(form, isEmail), form', f, isEmail);
    var b := DemoErrors(form', isEmail);
    forall g ensures (g in a <==> g in b) && (g in a ==> a[g] == b[g]) {
      if g != f {
        DemoFieldOkReadsOwnValue(form, form', g, isEmail);
      }
    }
  }

  // ---------------------------------------------------------------------------
  // Dialog state
  // ---------------------------------------------------------------------------

  /** A continuation waiting on a delay: the end of the simulated two-second booking call,
      or the three-second timer that closes the dialog after it. */
  datatype DemoTask = BookingDone | AutoClose

  class DemoDialog {
    var isSubmitted: bool
    var isSubmitting: bool
    var form: DemoForm
    var errors: map<DemoField, string>
    var pending: seq<DemoTask>
    /** react-hook-form's `isSubmitted`: a submit was attempted since the last `reset()`. */
    var formSubmitted: bool

    /** A booking in progress has its continuation queued. */
    ghost predicate Valid()
      reads this
    {
      isSubmitting ==> BookingDone in pending
    }

    constructor ()
      ensures Valid()
      ensures !isSubmitted && !isSubmitting && form == EmptyDemoForm && errors == map[]
      ensures pending == [] && !formSubmitted
    {
      isSubmitted := false;
      isSubmitting := false;
      form := EmptyDemoForm;
      errors := map[];
      pending := [];
      formSubmitted := false;
    }

    /** Typing into or choosing a value of one field. The form is shown only until the
        booking is confirmed, so the confirmation screen takes no edit. Every field uses its
        registered `onChange`, so once a submit was attempted its error is re-validated. */
    method Edit(f: DemoField, value: string, isEmail: string -> bool)
      modifies this
      ensures old(isSubmitted) ==> form == old(form) && errors == old(errors)
      ensures !old(isSubmitted) ==> form == WithField(old(form), f, value)
      ensures !old(isSubmitted) ==>
        errors == if old(formSubmitted) then DemoRevalidated(old(errors), form, f, isEmail)
                  else old(errors)
      ensures isSubmitted == old(isSubmitted) && isSubmitting == old(isSubmitting)
      ensures pending == old(pending) && formSubmitted == old(formSubmitted)
    {
      if !isSubmitted {
        form := WithField(form, f, value);
        if formSubmitted {
          errors := DemoRevalidated(errors, form, f, isEmail);
        }
      }
    }

    /** "Book Demo": the browser's constraint check comes first and stops the submit
        without any resolver error; then the resolver validates the form, and when it passes
        `onSubmit` marks the dialog as submitting and starts the booking call. The button
        belongs to the form, which the confirmation screen replaces, so nothing happens
        there. react-hook-form publishes `isSubmitted` once the submit handler has settled:
        at once for a refused form, and only when the booking call ends for an accepted
        one. */
    method Submit(browserEmail: string -> bool, isEmail: string -> bool) returns (started: bool)
      requires Valid()
      modifies this
      ensures Valid()
      ensures old(isSubmitted) || !DemoBrowserAccepts(old(form), browserEmail) ==>
        !started && errors == old(errors) && formSubmitted == old(formSubmitted)
      ensures !old(isSubmitted) && DemoBrowserAccepts(old(form), browserEmail) ==>
        errors == DemoErrors(old(form), isEmail)
      ensures started <==>
        !old(isSubmitted) && DemoBrowserAccepts(old(form), browserEmail)
        && DemoErrors(old(form), isEmail) == map[]
      ensures formSubmitted == (old(formSubmitted) || (!old(isSubmitted)
        && DemoBrowserAccepts(old(form), browserEmail) && !started))
      ensures started ==> isSubmitting && pending == old(pending) + [BookingDone]
      ensures !started ==> isSubmitting == old(isSubmitting) && pending == old(pending)
      ensures form == old(form) && isSubmitted == old(isSubmitted)
    {
      started := false;
      if !isSubmitted && DemoBrowserAccepts(form, browserEmail) {
        errors := DemoErrors(form, isEmail);
        started := errors == map[];
        if started {
          isSubmitting := true;
          pending := pending + [BookingDone];
        } else {
          formSubmitted := true;
        }
      }
    }

    /** `handleClose`: leaves the confirmation, resets the form, and calls `onClose`. */
    method HandleClose() returns (closeCalled: bool)
      requires Valid()
      modifies this
      ensures Valid()
      ensures closeCalled
      ensures !isSubmitted && form == EmptyDemoForm && errors == map[] && !formSubmitted
      ensures isSubmitting == old(isSubmitting) && pending == old(pending)
    {
      isSubmitted := false;
      form := EmptyDemoForm;
      errors := map[];
      formSubmitted := false;
      closeCalled := true;
    }

    /** Runs the `i`-th waiting continuation. The booking call's end shows the
        confirmation, queues the auto-close timer and clears `isSubmitting`, and
        `handleSubmit` then records the submit attempt; the timer closes the dialog. */
    method Fire(i: int) returns (closeCalled: bool)
      requires Valid()
      requires 0 <= i < |pending|
      modifies this
      ensures Valid()
      ensures var rest := old(pending[..i] + pending[i + 1..]);
        match old(pending[i])
        case BookingDone =>
          isSubmitted && !isSubmitting && !closeCalled && pending == rest + [AutoClose]
          && form == old(form) && errors == old(errors) && formSubmitted
        case AutoClose =>
          !isSubmitted && isSubmitting == old(isSubmitting) && closeCalled && pending == rest
          && form == EmptyDemoForm && errors == map[] && !formSubmitted
    {
      var task := pending[i];
      ghost var before := pending;
      pending := pending[..i] + pending[i + 1..];
      assert forall t :: t in before && t != task ==> t in pending by {
        assert before == before[..i] + [task] + before[i + 1..];
      }
      match task
      case BookingDone =>
        isSubmitted := true;
        pending := pending + [AutoClose];
        isSubmitting := false;
        formSubmitted := true;
        closeCalled := false;
      case AutoClose =>
        closeCalled := HandleClose();
    }
  }
}
