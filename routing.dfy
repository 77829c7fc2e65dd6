/** The click routing shared by the pricing card (`PricingCard.handleSelect`) and the
    call-to-action banner (`CTASection.handleButtonClick`), and the props they default. */
module Routing {
  import opened Wrappers
  import opened Text
  import opened Events

  /** What one click does: run the supplied callback, or dispatch a window event. */
  datatype Action = RunCallback | Dispatch(event: EventName)

  /** `buttonText.toLowerCase().includes('trial')`. */
  predicate MentionsTrial(buttonText: string) {
    Contains(ToLower(buttonText), "trial")
  }

  /** The routing both components share: the callback when there is one, otherwise the
      free-trial dialog for a button mentioning "trial", otherwise the demo dialog. */
  function Route(hasCallback: bool, buttonText: string): (r: Action)
    ensures r == RunCallback <==> hasCallback
    ensures r == Dispatch(OpenFreeTrialModal) <==> !hasCallback && MentionsTrial(buttonText)
    ensures r == Dispatch(OpenDemoModal) <==> !hasCallback && !MentionsTrial(buttonText)
  {
    if hasCallback then RunCallback
    else if MentionsTrial(buttonText) then Dispatch(OpenFreeTrialModal)
    else Dispatch(OpenDemoModal)
  }

  /** The test ignores letter case: a text routes as its lower-cased form does. */
  lemma RouteIgnoresCase(hasCallback: bool, buttonText: string)
    ensures Route(hasCallback, ToLower(buttonText)) == Route(hasCallback, buttonText)
  {
    ToLowerIdempotent(buttonText);
  }

  /** A text with "Trial" at position `i` mentions "trial". */
  lemma CapitalTrialMentionsTrial(text: string, i: nat)
    requires i + 5 <= |text| && text[i..i + 5] == "Trial"
    ensures MentionsTrial(text)
  {
    var low := ToLower(text);
    assert low[i..i + 5] == "trial" by {
      assert text[i] == 'T' && text[i + 1] == 'r' && text[i + 2] == 'i';
      assert text[i + 3] == 'a' && text[i + 4] == 'l';
    }
    ContainsAt(low, "trial", i);
  }

  /** "Start Free Trial" mentions "trial". */
  lemma StartFreeTrialMentionsTrial()
    ensures MentionsTrial("Start Free Trial")
  {
    var text := "Start Free Trial";
    assert text[11..16] == "Trial";
    CapitalTrialMentionsTrial(text, 11);
  }

  /** "Get Started" does not: it has no letter `i`. */
  lemma GetStartedDoesNotMentionTrial()
    ensures !MentionsTrial("Get Started")
  {
    var low := ToLower("Get Started");
    assert 'i' !in low;
    if Contains(low, "trial") {
      ContainedCharsOccur(low, "trial", 'i');
    }
  }

  /** A pricing card's props; `None` is an omitted prop. */
  datatype CardProps = CardProps(title: string, price: int, period: Option<string>,
                                 features: seq<string>, popular: Option<bool>,
                                 buttonText: Option<string>, hasOnSelect: bool)

  function OrDefault<T>(o: Option<T>, default: T): (r: T)
    ensures o.Some? ==> r == o.value
    ensures o.None? ==> r == default
  {
    match o
    case Some(v) => v
    case None => default
  }

  /** The card's defaults: a monthly period, not popular, and "Get Started". */
  function CardPeriod(p: CardProps): string { OrDefault(p.period, "month") }
  function CardPopular(p: CardProps): bool { OrDefault(p.popular, false) }
  function CardButtonText(p: CardProps): string { OrDefault(p.buttonText, "Get Started") }

  /** `handleSelect`. */
  function CardClick(p: CardProps): (r: Action)
    ensures r == RunCallback <==> p.hasOnSelect
    ensures r == Dispatch(OpenFreeTrialModal) <==> !p.hasOnSelect && MentionsTrial(CardButtonText(p))
    ensures r == Dispatch(OpenDemoModal) <==> !p.hasOnSelect && !MentionsTrial(CardButtonText(p))
  {
    Route(p.hasOnSelect, CardButtonText(p))
  }

  datatype ButtonVariant = PrimaryButton | OutlineButton

  /** The card's button is the primary one exactly when the card is popular, and the
      "Most Popular" badge shows under the same condition. */
  function CardButtonVariant(p: CardProps): (r: ButtonVariant)
    ensures r == PrimaryButton <==> CardPopular(p)
    ensures r == OutlineButton <==> !CardPopular(p)
  {
    if CardPopular(p) then PrimaryButton else OutlineButton
  }

  predicate ShowsBadge(p: CardProps) {
    CardPopular(p)
  }

  /** A card given only its required props (no period, popularity, text or callback)
      shows a monthly, plain card whose click opens the demo dialog. */
  lemma DefaultCardRoutesToDemo(title: string, price: int, features: seq<string>)
    ensures var p := CardProps(title, price, None, features, None, None, false);
      CardPeriod(p) == "month" && !ShowsBadge(p) && CardButtonVariant(p) == OutlineButton
      && CardClick(p) == Dispatch(OpenDemoModal)
  {
    GetStartedDoesNotMentionTrial();
  }

  datatype BannerVariant = Primary | Secondary

  /** The banner's props; `variant` defaults to primary. */
  datatype BannerProps = BannerProps(title: string, description: string, buttonText: string,
                                     hasOnButtonClick: bool, variant: Option<BannerVariant>)

  function BannerVariantOf(p: BannerProps): BannerVariant { OrDefault(p.variant, Primary) }

  /** `bgVariants`: the background of each banner variant. */
  function Background(v: BannerVariant): string {
    match v
    case Primary => "bg-gradient-to-br from-indigo-600 via-purple-600 to-pink-600"
    case Secondary => "bg-gradient-to-br from-gray-900 to-gray-700"
  }

  /** The banner's background is its variant's entry, the primary one by default. */
  function BannerBackground(p: BannerProps): (r: string)
    ensures p.variant.None? ==> r == Background(Primary)
    ensures p.variant.Some? ==> r == Background(p.variant.value)
  {
    Background(BannerVariantOf(p))
  }

  /** `handleButtonClick`. */
  function BannerClick(p: BannerProps): (r: Action)
    ensures r == RunCallback <==> p.hasOnButtonClick
    ensures r == Dispatch(OpenFreeTrialModal) <==> !p.hasOnButtonClick && MentionsTrial(p.buttonText)
    ensures r == Dispatch(OpenDemoModal) <==> !p.hasOnButtonClick && !MentionsTrial(p.buttonText)
  {
    Route(p.hasOnButtonClick, p.buttonText)
  }

  /** The page's closing banner (text "Start Free Trial", no callback, default variant)
      opens the free-trial dialog on the primary background. */
  lemma PageBannerOpensFreeTrial(title: string, description: string)
    ensures var p := BannerProps(title, description, "Start Free Trial", false, None);
      BannerClick(p) == Dispatch(OpenFreeTrialModal) && BannerBackground(p) == Background(Primary)
  {
    StartFreeTrialMentionsTrial();
  }
}
