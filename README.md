# Pricing, checkout and page-state model of the ADmyBRAND landing page

This project models the logic of the ADmyBRAND AI Suite landing page in Dafny and
proves properties of it. The page is a React application with no backend. Its logic
lives in a handful of components, and the model follows them file by file:

- **Checkout dialog** (`PaywallModal`), module `Paywall`:
  - the payment schema's four field rules;
  - the card-number and expiry formatters;
  - the plan summary and the submit-button labels;
  - the submission state machine driven by the card, UPI and PayPal buttons and by the
    timers that follow them.
- **Price calculator** (`PricingCalculator`), module `PricingCalculator`: the total
  accumulated in the effect, the feature toggle, the displayed breakdown, and the
  component state.
- **Pricing section** (`Pricing`), module `Pricing`: the three-plan catalog, the ×10
  yearly display transform, `handlePlanSelect`, and the billing toggle and dialog flags.
- **Click routing**, module `Routing`. The pricing card (`PricingCard`) and the
  call-to-action banner (`CTASection`) share it: the callback, else the free-trial event
  for a button mentioning "trial", else the demo event. The module also holds the
  components' prop defaults.
- **Hero section** (`Hero`), module `Hero`, with the two event names in module `Events`.
  It has three dialog flags, opened by buttons and by window events. It registers and
  removes its listeners, and it fixes the plan of its free-trial dialog.
- **Demo scheduler** (`DemoModal`), module `DemoModal`: the loop that picks the next ten
  weekdays, the time slots, the form rules, and the submitted/closed state.
- **Contact form** (`ContactForm`), module `ContactForm`: the browser's `required` and
  e-mail check, the schema's length and e-mail rules, and send-then-reset.
- **Navigation bar** (`Navigation`), module `Navigation`: the search over the searchable
  entries, the section links with their scroll fallback, and the toggles.
- **Accordion** (`Accordion`), module `Accordion`: the open-id list in single and
  multiple mode.
- **Testimonial carousel** (`Testimonials`), module `Testimonials`: the modular index and
  the dots.

`Text` holds the string helpers: JavaScript's `\s` class, order-preserving filter, ASCII
lower-casing, trimming and `includes`. `Wrappers` holds `Option`.

The form rules and transforms are functions. The parts of the code that change state
step by step are classes whose methods state their whole new state: the checkout dialog,
the calculator, the pricing section, the hero flags, the demo dialog and the navigation
bar. Each awaited delay or `setTimeout` callback becomes an entry in a `pending` list, and
a `Fire` method runs it. The simulated random payment outcome is a parameter of `Fire`.
A call of a parent's callback (`onClose`) is reported through a boolean result.

Behaviour of the code that a reader may not expect. The model follows the code in each:

- **Dialog state survives closing.** The checkout dialog stays mounted, so its tab, form,
  status and message are kept when it closes and are there when it reopens. An outcome or
  timer that is still pending after a close still applies (`Paywall.CheckoutDialog.Fire`).
- **Tab switches clear nothing.** Switching tabs does not clear field errors.
- **The card submit checks every field.** It validates the whole schema, the UPI id
  included, and it is the only validated submit. The UPI and PayPal buttons take no input
  checks, and PayPal always succeeds.
- **Repeated submissions are not prevented.** The dialog's own code has no
  at-most-one-submission guard.
- **The field rules check lengths, not characters.** The card-number rule accepts any 13
  to 19 non-white-space characters, the CVV rule any 3 or 4 characters, and the UPI rule
  any text containing an `@`.
- **The calculator has no yearly mode.** The ×10 multiplier exists only in the pricing
  section.
- **Yearly checkout prices are applied twice.** A card passes its already-multiplied
  price to `handlePlanSelect`, which multiplies by ten again, so a yearly checkout asks
  for a hundred times the monthly price (`Pricing.CardSelectionPrice`).
- **Errors are re-checked on typing only after a submit.** Neither form sets a validation
  mode, so a field that uses its registered `onChange` (the CVV and UPI fields, every demo
  field) gets its error re-checked when it changes once a submit was attempted
  (`Paywall.Revalidated`). The card-number and expiry inputs replace that `onChange`, so
  their errors change only on the next submit. react-hook-form records the submit attempt
  only once the submit handler has settled: at once for a refused form, but only when the
  payment outcome or the booking call arrives for an accepted one, so edits made while
  that call is in flight are not re-checked.
- **The browser checks first.** The contact and demo forms do not set `noValidate`, and
  their name, e-mail and company inputs are `required`, the e-mail input `type="email"`.
  A form that fails this check is never submitted, so no resolver error appears and no
  submit attempt is recorded (`ContactForm.EmptyContactBlocked`,
  `DemoModal.DemoDialog.Submit`). The contact message and the demo's date and time are not
  `required`, so only the schema refuses them. The checkout card form has no such
  attributes, and its UPI e-mail input is outside any form.

## Model

| member | source | states |
|---|---|---|
| Paywall.PaymentErrors | src/components/ui/PaywallModal.tsx:22-40 | a field is reported exactly when its rule fails, with that rule's message |
| Paywall.EmptyFormValidates | src/components/ui/PaywallModal.tsx:23-39 | absent or empty values pass every rule, so an untouched form has no errors |
| Paywall.CardNumberRuleIgnoresCharacters | src/components/ui/PaywallModal.tsx:23-27 | any 13 to 19 non-white-space characters, letters included, pass the card-number rule |
| Paywall.ShortCardNumberRefused | src/components/ui/PaywallModal.tsx:23-27 | "123" is refused with "Card number must be 13-19 digits" |
| Paywall.UpiIdRuleIff | src/components/ui/PaywallModal.tsx:36-39 | a UPI id passes iff it is empty or contains an `@` anywhere |
| Paywall.FormatCardNumber | src/components/ui/PaywallModal.tsx:142-155 | the loop building `parts` yields the digits alone below four digits, else the first sixteen digits grouped by four |
| Paywall.CardNumberGroupsShape | src/components/ui/PaywallModal.tsx:144-151 | from four digits on, the output is one to four space-joined groups, all of four digits except a last of one to four |
| Paywall.CardNumberTextDigits | src/components/ui/PaywallModal.tsx:143-151 | the output's digits, and the output with spaces deleted, are exactly the first min(16, n) typed digits in order |
| Paywall.FormatCardNumberIdempotent | src/components/ui/PaywallModal.tsx:142-155 | formatting a formatted card number changes nothing |
| Paywall.FormattedCardNumberAccepted | src/components/ui/PaywallModal.tsx:301-304 | a formatted card number passes the rule iff no digit or at least thirteen digits were typed |
| Paywall.FormatExpiry | src/components/ui/PaywallModal.tsx:157-163 | at most five characters; the digits alone below two digits, else two digits, a slash and up to two more |
| Paywall.ExpiryDigits | src/components/ui/PaywallModal.tsx:158-160 | the formatted expiry's digits are the first four typed digits |
| Paywall.FormatExpiryIdempotent | src/components/ui/PaywallModal.tsx:157-163 | formatting a formatted expiry changes nothing |
| Paywall.FormattedExpiryAccepted | src/components/ui/PaywallModal.tsx:28-31 | a formatted expiry passes iff no digit was typed, or at least four were and the first two name a month |
| Paywall.TypedCvvAccepted | src/components/ui/PaywallModal.tsx:317-323 | with the four-character cap, a typed CVV passes iff it is not one or two characters long |
| Paywall.PeriodOrMonth | src/components/ui/PaywallModal.tsx:214 | the displayed period is the plan's own when it has a non-empty one, and `month` when it is absent or empty |
| Paywall.Summary | src/components/ui/PaywallModal.tsx:197-216 | FREE iff the period is `trial`; otherwise `$price` over the period or `month`; subtitle Annual iff `year`, Monthly iff neither |
| Paywall.SubmitLabel | src/components/ui/PaywallModal.tsx:330-407 | "Start Free Trial" iff idle on a trial plan, so a paid plan never offers a trial; a progress label iff submitting, "Redirecting..." exactly on the PayPal tab; an idle paid button's label names its tab and no other |
| Paywall.Revalidated | src/components/ui/PaywallModal.tsx:52-59 | re-validating a changed field sets exactly that field's entry by its rule and keeps every other entry |
| Paywall.RevalidatedAgreesWithSchema | src/components/ui/PaywallModal.tsx:52-59 | errors that matched the schema before one field changed match it on the new form after that field is re-validated |
| Paywall.CheckoutDialog.constructor | src/components/ui/PaywallModal.tsx:47-59 | card tab, not submitting, idle, no message, empty form, nothing pending, no submit attempted |
| Paywall.CheckoutDialog.SelectTab | src/components/ui/PaywallModal.tsx:272 | only the active tab changes; errors and status are kept |
| Paywall.CheckoutDialog.EditCardNumber | src/components/ui/PaywallModal.tsx:300-304 | the card-number field holds the formatted text; nothing else changes |
| Paywall.CheckoutDialog.EditExpiry | src/components/ui/PaywallModal.tsx:311-315 | the expiry field holds the formatted text; nothing else changes |
| Paywall.CheckoutDialog.EditCvv | src/components/ui/PaywallModal.tsx:317-323 | the CVV field holds at most the first four characters typed; after a submit attempt its error is re-validated, before one the errors are kept |
| Paywall.CheckoutDialog.EditUpiId | src/components/ui/PaywallModal.tsx:350-356 | the UPI field holds the text as typed; after a submit attempt its error is re-validated, before one the errors are kept |
| Paywall.CheckoutDialog.SubmitCard | src/components/ui/PaywallModal.tsx:61-65 | starts iff on the card tab, not in success, with no schema error; then submitting, idle, message cleared, outcome pending; otherwise only the errors are updated; a submit the schema refuses marks a submit attempted at once, an accepted one does not yet |
| Paywall.CheckoutDialog.PressUpi | src/components/ui/PaywallModal.tsx:116-121 | starts without validation unless in success; sets submitting and idle but keeps the old message |
| Paywall.CheckoutDialog.PressPayPal | src/components/ui/PaywallModal.tsx:92-102 | starts without validation unless in success; sets submitting and idle but keeps the old message |
| Paywall.CheckoutDialog.PressClose | src/components/ui/PaywallModal.tsx:174-186 | the close button and the backdrop call `onClose` |
| Paywall.CheckoutDialog.Fire | src/components/ui/PaywallModal.tsx:66-139 | an outcome ends the submission in every branch: success schedules the closing timer, failure sets error with the fixed reason, PayPal always succeeds; a card outcome marks the card form's submit attempted; the timer calls `onClose`, returns to idle, and after a card payment resets the form and the submit attempt |
| PricingCalculator.ComputeTotal | src/components/ui/PricingCalculator.tsx:28-35 | the accumulating loop yields 29 + users × 5 + the surcharges of the enabled features |
| PricingCalculator.BreakdownMatchesTotal | src/components/ui/PricingCalculator.tsx:174 | the displayed breakdown (base, users × 5, the reduce over the features) adds up to the total |
| PricingCalculator.ToggleFeature | src/components/ui/PricingCalculator.tsx:41-46 | the named flag flips and the other three are unchanged |
| PricingCalculator.ToggleTwice | src/components/ui/PricingCalculator.tsx:41-46 | toggling a feature twice restores the record |
| PricingCalculator.ToggleChangesTotalBySurcharge | src/components/ui/PricingCalculator.tsx:21-33 | toggling a feature moves the total by exactly its surcharge (19, 39, 29, 49), up when enabling and down when disabling |
| PricingCalculator.TotalMonotone | src/components/ui/PricingCalculator.tsx:29-35 | more users or a superset of features never lowers the total |
| PricingCalculator.TotalBounds | src/components/ui/PricingCalculator.tsx:63-68 | on the slider's range 1..100 the total lies in 34..665 |
| PricingCalculator.InitialTotal | src/components/ui/PricingCalculator.tsx:10-16 | the initial inputs (10 users, no features) cost 79 |
| PricingCalculator.Calculator.constructor | src/components/ui/PricingCalculator.tsx:10-17 | 10 users, no features, total 0 before the effect, nothing reported |
| PricingCalculator.Calculator.SetUsers | src/components/ui/PricingCalculator.tsx:68 | only the user count changes |
| PricingCalculator.Calculator.HandleFeatureChange | src/components/ui/PricingCalculator.tsx:41-46 | only the features change, by the toggle |
| PricingCalculator.Calculator.RunEffect | src/components/ui/PricingCalculator.tsx:28-39 | the displayed total becomes the inputs' total, and `onPriceChange`, when present, receives that same value |
| Pricing.Period | src/components/sections/Pricing.tsx:20 | `year` iff yearly, `month` iff not |
| Pricing.CardOf | src/components/sections/Pricing.tsx:70-74 | a card keeps its plan's title, features and popularity, with price ×10 iff yearly and the toggle's period |
| Pricing.CurrentPlans | src/components/sections/Pricing.tsx:70-74 | one card per catalog plan, in catalog order |
| Pricing.CatalogShape | src/components/sections/Pricing.tsx:26-68 | Starter 29, Professional 79, Enterprise 199, in that order; only Professional is popular |
| Pricing.MonthlyCardsShowCatalog | src/components/sections/Pricing.tsx:70-74 | monthly cards show the catalog price per `month` |
| Pricing.Selection | src/components/sections/Pricing.tsx:19-24 | the stored plan has the given title, price ×10 iff yearly, and the toggle's period |
| Pricing.CardSelectionPrice | src/components/sections/Pricing.tsx:130-133 | a card click stores its plan's title and a price of 100 × base when yearly, base when monthly |
| Pricing.CardSelection | src/components/sections/Pricing.tsx:130-133 | a card click stores that card's title with the period of the current billing mode |
| Pricing.YearlyStarterCheckout | src/components/sections/Pricing.tsx:72 | the yearly Starter card shows 290 but its checkout asks for 2900 |
| Pricing.CardSelectionSummary | src/components/sections/Pricing.tsx:266-270 | the dialog opened by a card shows the annual subtitle iff yearly and never the free block |
| Pricing.PricingSection.constructor | src/components/sections/Pricing.tsx:10-12 | dialog closed, monthly, plan `{'', 0, 'month'}` |
| Pricing.PricingSection.ToggleBilling | src/components/sections/Pricing.tsx:100 | only the billing period flips |
| Pricing.PricingSection.HandlePlanSelect | src/components/sections/Pricing.tsx:19-24 | stores the selection for the current period and opens the dialog |
| Pricing.PricingSection.SelectCard | src/components/sections/Pricing.tsx:130-133 | a card click stores the doubly converted selection and opens the dialog |
| Pricing.PricingSection.ClosePaywall | src/components/sections/Pricing.tsx:268 | only the dialog flag is cleared |
| Pricing.ToggleTwice | src/components/sections/Pricing.tsx:100 | two toggles restore the period and change nothing else |
| Routing.Route | src/components/ui/PricingCard.tsx:20-32 | the callback iff supplied; else the free-trial event iff the lower-cased text contains "trial"; else the demo event |
| Routing.RouteIgnoresCase | src/components/ui/PricingCard.tsx:23 | a text routes as its lower-cased form does |
| Routing.StartFreeTrialMentionsTrial | src/App.tsx:29 | "Start Free Trial" counts as mentioning "trial" |
| Routing.GetStartedDoesNotMentionTrial | src/components/ui/PricingCard.tsx:16 | the default text "Get Started" does not |
| Routing.OrDefault | src/components/ui/PricingCard.tsx:13-16 | an omitted prop takes its default, a supplied one its own value |
| Routing.CardClick | src/components/ui/PricingCard.tsx:20-32 | exactly one of callback, free-trial event or demo event, by the rule above on the card's text |
| Routing.CardButtonVariant | src/components/ui/PricingCard.tsx:70 | primary iff popular, else outline |
| Routing.DefaultCardRoutesToDemo | src/components/ui/PricingCard.tsx:13-31 | a card with only its required props is monthly, has no badge, an outline button, and opens the demo dialog |
| Routing.BannerBackground | src/components/ui/CTASection.tsx:13-41 | the variant's background, the primary one when omitted |
| Routing.BannerClick | src/components/ui/CTASection.tsx:16-28 | exactly one of callback, free-trial event or demo event, by the same rule |
| Routing.PageBannerOpensFreeTrial | src/App.tsx:26-31 | the page's closing banner opens the free-trial dialog on the primary background |
| Hero.FreeTrialSummary | src/components/sections/Hero.tsx:165-169 | the free-trial dialog shows the trial subtitle, FREE, price 0 and "Start Free Trial" |
| Hero.HeroSection.constructor | src/components/sections/Hero.tsx:12-14 | all three dialogs closed, no listener yet |
| Hero.HeroSection.Subscribe | src/components/sections/Hero.tsx:34-35 | both events are listened to; no flag changes |
| Hero.HeroSection.Unsubscribe | src/components/sections/Hero.tsx:37-40 | exactly the two listeners are removed, leaving none |
| Hero.HeroSection.Dispatch | src/components/sections/Hero.tsx:26-32 | the demo event opens only the demo dialog and the free-trial event only the free-trial dialog, when listened to; otherwise nothing changes |
| Hero.HeroSection.HandleGetStarted | src/components/sections/Hero.tsx:16-18 | only the free-trial flag is set |
| Hero.HeroSection.HandleScheduleDemo | src/components/sections/Hero.tsx:20-22 | only the demo flag is set |
| Hero.HeroSection.CloseVideo | src/components/sections/Hero.tsx:152 | only the video flag is cleared |
| Hero.HeroSection.CloseFreeTrial | src/components/sections/Hero.tsx:167 | only the free-trial flag is cleared |
| Hero.HeroSection.CloseDemo | src/components/sections/Hero.tsx:174 | only the demo flag is cleared |
| Hero.EventsIgnoredAfterTeardown | src/components/sections/Hero.tsx:25-41 | after mount and cleanup, an event changes no flag |
| DemoModal.DayOfWeek | src/components/ui/DemoModal.tsx:74 | a day of the week is in 0..6 |
| DemoModal.FirstWeekdays | src/components/ui/DemoModal.tsx:73-79 | n dates, each a weekday on or after the start |
| DemoModal.FirstWeekdaysIncreasing | src/components/ui/DemoModal.tsx:76-78 | the dates strictly increase |
| DemoModal.FirstWeekdaysComplete | src/components/ui/DemoModal.tsx:73-79 | no weekday between the start and the last date is skipped |
| DemoModal.WeekdaysInAWeek | src/components/ui/DemoModal.tsx:75 | any seven consecutive days hold exactly five weekdays |
| DemoModal.TenWeekdaysWithinTwoWeeks | src/components/ui/DemoModal.tsx:73-79 | the ten dates fall within the fourteen days from the start |
| DemoModal.GetAvailableDates | src/components/ui/DemoModal.tsx:67-81 | the loop returns the first ten weekdays after today, in at most fourteen rounds |
| DemoModal.AvailableDatesProperties | src/components/ui/DemoModal.tsx:67-81 | ten weekdays in (today, today + 14], strictly increasing, with none skipped |
| DemoModal.TomorrowFirstWhenWeekday | src/components/ui/DemoModal.tsx:71 | tomorrow is the first date when it is a weekday |
| DemoModal.AvailableTimesAreHourly | src/components/ui/DemoModal.tsx:84-87 | the nine slots are the hours 9 to 17 on a 12-hour clock, in order |
| DemoModal.DemoErrors | src/components/ui/DemoModal.tsx:13-19 | a field is reported exactly when its rule fails, with its message |
| DemoModal.DemoErrorsEmptyIff | src/components/ui/DemoModal.tsx:13-19 | no error iff name and company have two or more characters, the e-mail is accepted, and date and time are chosen |
| DemoModal.WithField | src/components/ui/DemoModal.tsx:128-188 | the edited field reads back the new value and every other field its old one |
| DemoModal.DemoRevalidated | src/components/ui/DemoModal.tsx:32-39 | re-validating an edited field sets exactly that field's entry by its rule and keeps every other entry |
| DemoModal.DemoRevalidatedAgreesWithSchema | src/components/ui/DemoModal.tsx:32-39 | errors that matched the resolver before an edit match it on the edited form after re-validation |
| DemoModal.DemoDialog.constructor | src/components/ui/DemoModal.tsx:29-39 | not submitted, not submitting, empty form, no submit attempted |
| DemoModal.DemoDialog.Edit | src/components/ui/DemoModal.tsx:118-202 | nothing changes on the confirmation screen; otherwise only the edited field changes, and after a submit attempt its error is re-validated |
| DemoModal.DemoDialog.Submit | src/components/ui/DemoModal.tsx:119-142 | nothing happens on the confirmation screen or when the browser's `required`/e-mail check fails; otherwise the errors become the resolver's verdict and the booking starts iff there is no error; a refused form is marked submitted at once, an accepted one not yet |
| DemoModal.DemoDialog.HandleClose | src/components/ui/DemoModal.tsx:60-64 | leaves the confirmation, resets the form and the submit attempt, and calls `onClose` |
| DemoModal.DemoDialog.Fire | src/components/ui/DemoModal.tsx:41-58 | the booking's end sets submitted, clears submitting, schedules the auto-close and marks the submit attempted; the timer runs `handleClose` |
| ContactForm.ContactErrors | src/components/ContactForm.tsx:13-18 | a field is reported exactly when its rule fails, with its message |
| ContactForm.Submit | src/components/ContactForm.tsx:32-95 | blocked iff the browser's `required`/e-mail check fails; past it, sent iff every schema rule passes, with the form's values, and the form is then empty; otherwise the non-empty schema errors |
| ContactForm.SubmitSentIff | src/components/ContactForm.tsx:13-18 | sent iff the browser lets the form through, name and company have two or more characters, the message ten or more, and the e-mail is accepted; when every address the schema accepts passes the browser too, iff the schema's rules alone |
| ContactForm.NineCharacterMessageRefused | src/components/ContactForm.tsx:17 | once past the browser's check, a nine-character message is refused with the message rule's text |
| ContactForm.EmptyContactBlocked | src/components/ContactForm.tsx:72-78 | the empty form is stopped by the browser's `required` check, so no resolver error appears |
| ContactForm.OneLetterNameRejected | src/components/ContactForm.tsx:14 | a one-letter name passes the browser's `required` check and is refused by the schema with the name rule's text |
| Navigation.SearchIn | src/components/Navigation.tsx:51-61 | nothing for a blank query; otherwise exactly the matching entries |
| Navigation.Search | src/components/Navigation.tsx:24-61 | over the searchable entries: nothing for a blank query, otherwise exactly the matching entries |
| Navigation.SearchKeepsOrder | src/components/Navigation.tsx:53-56 | results keep the order of the searchable list |
| Navigation.SearchIgnoresCase | src/components/Navigation.tsx:54-55 | a query and its lower-cased form find the same entries |
| Navigation.FallbackOffset | src/components/Navigation.tsx:69-78 | a known section's offset, 0 for an unknown one |
| Navigation.SectionOffsetsInPageOrder | src/components/Navigation.tsx:69-77 | the offsets are 800 to 5600 in steps of 800, and the fallback is non-zero exactly for known sections |
| Navigation.NavigationBar.constructor | src/components/Navigation.tsx:9-13 | everything closed, empty query and results, not scrolled |
| Navigation.NavigationBar.ToggleSearch | src/components/Navigation.tsx:138 | only the search flag flips |
| Navigation.NavigationBar.ToggleMobileMenu | src/components/Navigation.tsx:156 | only the menu flag flips |
| Navigation.NavigationBar.SetQuery | src/components/Navigation.tsx:182 | only the query changes |
| Navigation.NavigationBar.RunSearchEffect | src/components/Navigation.tsx:51-61 | the results become the search of the current query |
| Navigation.NavigationBar.HandleNavClick | src/components/Navigation.tsx:63-83 | scrolls to the element if present, else to the fallback offset; either way closes the menu and search and clears the query |
| Navigation.NavigationBar.HandleScroll | src/components/Navigation.tsx:42-48 | scrolled iff past 20 pixels |
| Navigation.NavClickThenEffect | src/components/Navigation.tsx:80-82 | after a link click and the effect, the results are empty and "No results found" is hidden |
| Accordion.AllowMultiple | src/components/ui/Accordion.tsx:8 | multiple mode only when the prop is true |
| Accordion.Toggle | src/components/ui/Accordion.tsx:11-21 | the id's membership flips; single mode leaves `[]` or `[id]`; multiple mode keeps every other id's membership |
| Accordion.ToggleNoDuplicates | src/components/ui/Accordion.tsx:13-16 | a toggle never introduces a duplicate |
| Accordion.ToggleTwiceRestores | src/components/ui/Accordion.tsx:14-16 | in multiple mode, opening and closing an absent id restores the list exactly |
| Accordion.SingleModeAtMostOneOpen | src/components/ui/Accordion.tsx:17-18 | in single mode any sequence of clicks leaves at most one open item |
| Accordion.MultipleModeNoDuplicates | src/components/ui/Accordion.tsx:13-16 | in multiple mode any sequence of clicks keeps the list duplicate-free |
| Testimonials.JsRem | src/components/sections/Testimonials.tsx:56 | JavaScript's remainder: in [0, n) for a non-negative dividend |
| Testimonials.Next | src/components/sections/Testimonials.tsx:55-57 | from an index in [0, 5), the next index in range, 4 wrapping to 0 |
| Testimonials.Prev | src/components/sections/Testimonials.tsx:59-61 | from an index in [0, 5), the previous index in range, 0 wrapping to 4 |
| Testimonials.ArrowsStayInRange | src/components/sections/Testimonials.tsx:55-61 | both arrows keep the index in [0, 5); the next of 4 is 0 and the previous of 0 is 4 |
| Testimonials.ArrowsAreInverse | src/components/sections/Testimonials.tsx:55-61 | previous undoes next and next undoes previous |
| Testimonials.NextTimesIsShift | src/components/sections/Testimonials.tsx:55-57 | n steps forward move the index to (i + n) mod 5 |
| Testimonials.FullCircle | src/components/sections/Testimonials.tsx:12-57 | five steps forward return to the start |
| Testimonials.Dots | src/components/sections/Testimonials.tsx:127-135 | five dots, exactly the current one highlighted |
| Text.Filter | src/components/Navigation.tsx:53 | the kept elements are exactly those satisfying the predicate |
| Text.FilterKeepsOrder | src/components/Navigation.tsx:53 | two kept elements stay in their relative order |
| Text.TrimEmptyIffBlank | src/components/Navigation.tsx:52 | trimming leaves nothing iff every character is white space |
| Text.ContainsChar | src/components/ui/PaywallModal.tsx:38 | a string includes a one-character string iff the character occurs in it |

## Left out

- Rendering, CSS classes and framer-motion animation: presentation only.
- Delay lengths (3000, 2500, 1000, 2000 and 3000 ms) and `Math.random()`. A delay is a
  pending task that may fire at any point. The random outcome is a parameter.
- The `catch` branches around the awaited timeouts in the checkout dialog, the demo
  dialog and the contact form: an awaited timer does not reject, so they cannot run.
- `window.open` to PayPal, `scrollIntoView`/`scrollTo`, `CustomEvent` dispatch,
  `console.log` and `alert`: the model records only what is opened or dispatched, the
  scroll target, and which flags change.
- react-hook-form and zod internals. The field values are what the inputs hold.
  `handleSubmit` validates, runs the handler, and marks the submit attempted once the
  handler has settled. `reset()` empties the form and its errors and clears the submit
  mark. Re-validation on change
  after a submit attempt is modelled for the two dialogs. The contact form is modelled only
  by its submit verdict, so its re-validation while typing is not.
- The e-mail rule (`.email()`) is the parameter `isEmail`, and the browser's
  `type="email"` syntax check is the parameter `browserEmail`. The model does not fix how
  the two relate, except in the second half of `ContactForm.SubmitSentIff`.
- The browser's validation bubble and the focus it moves to the first invalid input:
  presentation only.
- Whether the formatted card number and expiry written back into the input are what
  react-hook-form records. The component overrides the registered `onChange`, so this
  depends on library behaviour. The model stores the formatted text.
- Whether the `Button` component's `loading` state blocks clicks: it is not part of this
  model. So no claim is made that at most one submission is in flight in the checkout or
  demo dialog, and a second submission can be started while one is pending.
- The calendar. Dates are integer day ordinals whose day of the week is the ordinal
  modulo 7. `Date` month rollover, `toISOString` and `toLocaleDateString` are left out.
- Unicode rules. `toLowerCase` is ASCII only. Trimming uses JavaScript's full white-space
  set. String lengths count characters, where zod counts UTF-16 code units.
- Navigation.FallbackOffset: for a section named after an inherited object property
  (such as `constructor`) JavaScript's lookup finds a function rather than `undefined`.
  The model gives 0 there.
- The testimonial carousel's five-second auto-rotation (`setInterval`) is not a separate
  event: each tick is one `Next`, and `NextTimes` covers repeated ticks.
- Clicking a testimonial dot sets the index to that dot's position directly. It is not a
  separate function.
- `handleStartTrial` in `Pricing` is never called, so it is not modelled.
- The navigation bar's own "Start Free Trial" and "Schedule Demo" buttons are not
  modelled separately. Each dispatches a fixed event: the free-trial event and the demo
  event respectively.
- Nothing in the hero section opens its video dialog, so only that dialog's close is
  modelled.
- The contents of the testimonials, the FAQ items and the navigation item list are
  display data.
- JavaScript numbers are doubles. All the prices and indices here are small integers, so
  they are modelled as unbounded integers.
