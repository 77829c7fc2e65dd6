/** The pricing calculator (`PricingCalculator`): a base price, a per-user price for the
    slider's user count, and a fixed monthly surcharge for each enabled add-on feature. */
module PricingCalculator {

  const BasePrice := 29
  const PricePerUser := 5

  datatype Feature = Analytics | Automation | Priority | Integration

  /** Which add-on features are switched on. */
  datatype Features = Features(analytics: bool, automation: bool, priority: bool, integration: bool)

  const NoFeatures := Features(false, false, false, false)

  /** The surcharge table `featurePrices`. */
  function Surcharge(f: Feature): nat {
    match f
    case Analytics => 19
    case Automation => 39
    case Priority => 29
    case Integration => 49
  }

  function Enabled(fs: Features, f: Feature): bool {
    match f
    case Analytics => fs.analytics
    case Automation => fs.automation
    case Priority => fs.priority
    case Integration => fs.integration
  }

  /** `Object.entries(features)`: the four flags in declaration order. */
  function Entries(fs: Features): seq<(Feature, bool)> {
    [(Analytics, fs.analytics), (Automation, fs.automation),
     (Priority, fs.priority), (Integration, fs.integration)]
  }

  /** The sum of the surcharges of the enabled entries, accumulated left to right as the
      displayed breakdown's `reduce` does. */
  function FeatureSum(entries: seq<(Feature, bool)>): nat {
    if entries == [] then 0
    else
      var last := entries[|entries| - 1];
      FeatureSum(entries[..|entries| - 1]) + (if last.1 then Surcharge(last.0) else 0)
  }

  /** The sum of the surcharges of the enabled features. */
  function AddOnTotal(fs: Features): nat {
    (if fs.analytics then Surcharge(Analytics) else 0)
    + (if fs.automation then Surcharge(Automation) else 0)
    + (if fs.priority then Surcharge(Priority) else 0)
    + (if fs.integration then Surcharge(Integration) else 0)
  }

  /** The monthly total: base price, users times the per-user price, and the surcharges
      of the enabled features. */
  function Total(users: int, fs: Features): int {
    BasePrice + users * PricePerUser + AddOnTotal(fs)
  }

  /** The price computation in the effect: `let price = base + users * perUser`, then one
      `price +=` per enabled entry. */
  method ComputeTotal(users: int, fs: Features) returns (price: int)
    ensures price == Total(users, fs)
  {
    price := BasePrice + users * PricePerUser;
    var entries := Entries(fs);
    for i := 0 to |entries|
      invariant price == BasePrice + users * PricePerUser + FeatureSum(entries[..i])
    {
      assert entries[..i + 1][..i] == entries[..i];
      if entries[i].1 {
        price := price + Surcharge(entries[i].0);
      }
    }
    assert entries[..|entries|] == entries;
    BreakdownMatchesTotal(users, fs);
  }

  /** The breakdown under the price (base, users times the per-user price, and the
      `reduce` over the entries) adds up to the total. */
  lemma BreakdownMatchesTotal(users: int, fs: Features)
    ensures BasePrice + users * PricePerUser + FeatureSum(Entries(fs)) == Total(users, fs)
  {
    var e := Entries(fs);
    assert FeatureSum(e[..1]) == (if fs.analytics then 19 else 0) by {
      assert e[..1][..0] == [];
    }
    assert FeatureSum(e[..2]) == FeatureSum(e[..1]) + (if fs.automation then 39 else 0) by {
      assert e[..2][..1] == e[..1];
    }
    assert FeatureSum(e[..3]) == FeatureSum(e[..2]) + (if fs.priority then 29 else 0) by {
      assert e[..3][..2] == e[..2];
    }
    assert FeatureSum(e) == FeatureSum(e[..3]) + (if fs.integration then 49 else 0) by {
      assert e[..3] == e[..|e| - 1];
    }
  }

  /** `handleFeatureChange`: flips the named flag. */
  function ToggleFeature(fs: Features, f: Feature): (r: Features)
    ensures Enabled(r, f) == !Enabled(fs, f)
    ensures forall g :: g != f ==> Enabled(r, g) == Enabled(fs, g)
  {
    match f
    case Analytics => fs.(analytics := !fs.analytics)
    case Automation => fs.(automation := !fs.automation)
    case Priority => fs.(priority := !fs.priority)
    case Integration => fs.(integration := !fs.integration)
  }

  /** Toggling the same feature twice restores the record. */
  lemma ToggleTwice(fs: Features, f: Feature)
    ensures ToggleFeature(ToggleFeature(fs, f), f) == fs
  {
  }

  /** Enabling a feature raises the total by exactly its surcharge; disabling it lowers the
      total by the same amount. */
  lemma ToggleChangesTotalBySurcharge(users: int, fs: Features, f: Feature)
    ensures Total(users, ToggleFeature(fs, f))
         == Total(users, fs) + (if Enabled(fs, f) then -(Surcharge(f) as int) else Surcharge(f))
  {
  }

  /** More users, or more features, never lower the total. */
  lemma TotalMonotone(users: int, users': int, fs: Features, fs': Features)
    requires users <= users'
    requires forall f :: Enabled(fs, f) ==> Enabled(fs', f)
    ensures Total(users, fs) <= Total(users', fs')
  {
    assert Enabled(fs, Analytics) ==> Enabled(fs', Analytics);
    assert Enabled(fs, Automation) ==> Enabled(fs', Automation);
    assert Enabled(fs, Priority) ==> Enabled(fs', Priority);
    assert Enabled(fs, Integration) ==> Enabled(fs', Integration);
  }

  /** On the slider's range of 1 to 100 users the total lies between 34 and 665. */
  lemma TotalBounds(users: int, fs: Features)
    requires 1 <= users <= 100
    ensures 34 <= Total(users, fs) <= 665
  {
  }

  /** The initial inputs (10 users, no features) cost 79 a month. */
  lemma InitialTotal()
    ensures Total(10, NoFeatures) == 79
  {
  }

  /** The calculator's component state. `onPriceChange` is optional; when present, every
      value it receives is recorded in `reported`. */
  class Calculator {
    var users: int
    var features: Features
    var totalPrice: int
    var reported: seq<int>
    const hasPriceListener: bool

    /** The slider keeps the user count in range. */
    ghost predicate Valid()
      reads this
    {
      1 <= users <= 100
    }

    /** The displayed total is the one the inputs determine (true once the effect has run
        after the last change of an input). */
    ghost predicate Settled()
      reads this
    {
      totalPrice == Total(users, features)
    }

    /** At mount: 10 users, nothing enabled, and a total of 0 until the effect runs. */
    constructor (hasPriceListener: bool)
      ensures Valid()
      ensures users == 10 && features == NoFeatures && totalPrice == 0 && reported == []
      ensures this.hasPriceListener == hasPriceListener
    {
      users := 10;
      features := NoFeatures;
      totalPrice := 0;
      reported := [];
      this.hasPriceListener := hasPriceListener;
    }

    /** Moving the slider (`setUsers(parseInt(value))`) to a value in its range. */
    method SetUsers(n: int)
      requires Valid()
      requires 1 <= n <= 100
      modifies this
      ensures Valid()
      ensures users == n && features == old(features)
      ensures totalPrice == old(totalPrice) && reported == old(reported)
    {
      users := n;
    }

    /** Clicking a feature's checkbox. */
    method HandleFeatureChange(f: Feature)
      requires Valid()
      modifies this
      ensures Valid()
      ensures features == ToggleFeature(old(features), f) && users == old(users)
      ensures totalPrice == old(totalPrice) && reported == old(reported)
    {
      features := ToggleFeature(features, f);
    }

    /** The effect that runs after a change of `users` or `features`: it recomputes the
        total and passes the same value to `onPriceChange` when there is one. */
    method RunEffect()
      requires Valid()
      modifies this
      ensures Valid() && Settled()
      ensures users == old(users) && features == old(features)
      ensures reported == if hasPriceListener then old(reported) + [totalPrice] else old(reported)
    {
      var price := ComputeTotal(users, features);
      totalPrice := price;
      if hasPriceListener {
        reported := reported + [price];
      }
    }
  }
}
