/**
 * Buyer-facing pricing of MeProductCommand. A product whose price schedule
 * is its own default schedule (same ID as the product) is marked up by the
 * buyer's percentage, rounded to cents with banker's rounding and converted
 * into the user's currency; a seller's custom schedule is only converted,
 * from USD. Spec option surcharges are converted but never marked up.
 *
 * Prices are exact rationals (`real`), standing for C# `decimal`. The
 * source's catch-log-and-return-a-default handlers are explicit branches:
 * each function below names the default it falls back to.
 */
module Pricing {
  import opened Wrappers
  import opened ExchangeRates
  import BuyerRules

  datatype PriceBreak = PriceBreak(quantity: int, price: real)
  datatype PriceSchedule = PriceSchedule(id: string, priceBreaks: Option<seq<PriceBreak>>)
  datatype ProductXp = ProductXp(currency: Option<CurrencySymbol>)
  datatype MeProduct = MeProduct(id: string, xp: Option<ProductXp>, priceSchedule: Option<PriceSchedule>)
  datatype SpecOption = SpecOption(id: string, priceMarkup: Option<real>)
  datatype Spec = Spec(id: string, options: Option<seq<SpecOption>>)
  /** SuperHSMeProduct: a product with its specs and the IDs of its variants. */
  datatype SuperMeProduct = SuperMeProduct(product: MeProduct, specs: seq<Spec>, variants: seq<string>)

  function Abs(x: real): real
  {
    if x < 0.0 then -x else x
  }

  // ---------------------------------------------------------------------
  // Rounding to cents: Math.Round(value, 2), whose default is half to even
  // ---------------------------------------------------------------------

  /** The whole number of cents nearest to `x`, ties going to the even one. */
  function Cents(x: real): int
  {
    var scaled := x * 100.0;
    var f := scaled.Floor;
    var frac := scaled - f as real;
    if frac < 0.5 then f
    else if frac > 0.5 then f + 1
    else if f % 2 == 0 then f
    else f + 1
  }

  function Round2(x: real): real
  {
    Cents(x) as real / 100.0
  }

  /** The whole number of cents is within half a cent of `x`. */
  lemma CentsNearby(x: real)
    ensures Abs(Cents(x) as real - x * 100.0) <= 0.5
  {
    var scaled := x * 100.0;
    assert scaled.Floor as real <= scaled < scaled.Floor as real + 1.0;
  }

  /** The rounded value is a whole number of cents, within half a cent of `x`. */
  lemma Round2Bounds(x: real)
    ensures Round2(x) * 100.0 == Cents(x) as real
    ensures Abs(Round2(x) - x) <= 0.005
  {
    CentsNearby(x);
  }

  /** No whole number of cents lies closer to `x` than the rounded value. */
  lemma Round2Nearest(x: real, m: int)
    ensures Abs(Round2(x) - x) <= Abs(m as real / 100.0 - x)
  {
    var s := x * 100.0;
    var f := s.Floor;
    var n := Cents(x);
    assert f as real <= s < f as real + 1.0;
    if m <= f {
      assert Abs(n as real - s) <= s - m as real;
    } else {
      assert Abs(n as real - s) <= m as real - s;
    }
    assert Abs(Round2(x) - x) == Abs(n as real - s) / 100.0;
    assert Abs(m as real / 100.0 - x) == Abs(m as real - s) / 100.0;
  }

  /** A value exactly halfway between two cents goes to the even one. */
  lemma Round2TiesToEven(x: real)
    requires x * 100.0 - (x * 100.0).Floor as real == 0.5
    ensures Cents(x) % 2 == 0
    ensures Abs(Round2(x) - x) == 0.005
  {
  }

  /** An amount already in whole cents is left as it is. */
  lemma Round2KeepsCents(x: real)
    requires (x * 100.0).Floor as real == x * 100.0
    ensures Round2(x) == x
  {
  }

  // ---------------------------------------------------------------------
  // The markup multiplier
  // ---------------------------------------------------------------------

  /** `(decimal)percent / 100 + 1`: the percentage is recovered from the multiplier. */
  function MarkupMultiplier(percent: int): (m: real)
    ensures (m - 1.0) * 100.0 == percent as real
  {
    percent as real / 100.0 + 1.0
  }

  /**
   * GetDefaultMarkupMultiplier: the signed-in user's buyer (`buyerID`, None
   * when Me.Get fails) is read through the buyer command's Get; a missing
   * markup makes the handler return the initial 0.
   */
  function GetDefaultMarkupMultiplier(p: BuyerRules.Platform, buyerID: Option<string>): (m: real)
    ensures buyerID.Some? && buyerID.value in p.buyers ==>
              m == MarkupMultiplier(p.buyers[buyerID.value].markupPercent.GetOr(0))
    ensures !(buyerID.Some? && buyerID.value in p.buyers) ==> m == 0.0
  {
    match buyerID
    case None => 0.0
    case Some(id) =>
      match BuyerRules.Get(p, id).markup
      case None => 0.0
      case Some(markup) => MarkupMultiplier(markup.percent)
  }

  lemma TenPercentMarkup()
    ensures MarkupMultiplier(10) == 1.1
    ensures MarkupMultiplier(0) == 1.0
  {
  }

  // ---------------------------------------------------------------------
  // Currency conversion
  // ---------------------------------------------------------------------

  /** `exchangeRates.Find(e => e.Currency == productCurrency)`: the first entry for the currency. */
  function FindRate(rates: seq<ConversionRate>, currency: Option<CurrencySymbol>): (r: Option<ConversionRate>)
    ensures r.None? <==> forall i :: 0 <= i < |rates| ==> rates[i].currency != currency
    ensures r.Some? ==> r.value.currency == currency && r.value in rates
  {
    if rates == [] then None
    else if rates[0].currency == currency then Some(rates[0])
    else FindRate(rates[1..], currency)
  }

  /**
   * The divisor ConvertPrice ends up using. There is none when no entry
   * matches (reading `.Rate` of null throws), when the entry has no rate
   * (the cast of null throws) or when the rate is 0 (division by zero).
   */
  function RateFor(rates: seq<ConversionRate>, currency: Option<CurrencySymbol>): (q: Option<real>)
    ensures q.Some? ==> q.value != 0.0
    ensures q.Some? <==> FindRate(rates, currency).Some? && FindRate(rates, currency).value.rate.Some?
                         && FindRate(rates, currency).value.rate.value != 0.0
  {
    match FindRate(rates, currency)
    case None => None
    case Some(e) => if e.rate.Some? && e.rate.value != 0.0 then e.rate else None
  }

  /** ConvertPrice: the price divided by the rate; when that throws, the price unchanged. */
  function ConvertPrice(price: real, currency: Option<CurrencySymbol>, rates: seq<ConversionRate>): (r: real)
    ensures RateFor(rates, currency).None? ==> r == price
  {
    match RateFor(rates, currency)
    case None => price
    case Some(q) => price / q
  }

  /** Converting and multiplying back by the rate gives the price; without a usable rate nothing changes. */
  lemma ConvertsBack(x: real, currency: Option<CurrencySymbol>, rates: seq<ConversionRate>)
    ensures var q := RateFor(rates, currency);
            (q.Some? ==> ConvertPrice(x, currency, rates) * q.value == x) && (q.None? ==> ConvertPrice(x, currency, rates) == x)
  {
  }

  lemma {:induction false} FindRateAppend(rates: seq<ConversionRate>, more: seq<ConversionRate>, currency: Option<CurrencySymbol>)
    requires FindRate(rates, currency).Some?
    ensures FindRate(rates + more, currency) == FindRate(rates, currency)
  {
    assert (rates + more)[0] == rates[0];
    if rates[0].currency != currency {
      assert (rates + more)[1..] == rates[1..] + more;
      FindRateAppend(rates[1..], more, currency);
    }
  }

  /** Only the first entry for a currency counts: later entries for it are never used. */
  lemma ConvertPriceUsesFirstEntry(price: real, currency: Option<CurrencySymbol>, rates: seq<ConversionRate>,
                                   more: seq<ConversionRate>)
    requires FindRate(rates, currency).Some?
    ensures ConvertPrice(price, currency, rates + more) == ConvertPrice(price, currency, rates)
  {
    FindRateAppend(rates, more, currency);
  }

  /** A zero rate, a missing rate and a missing entry all leave the price as it was. */
  lemma ConvertPriceFallsBack(price: real, c: CurrencySymbol, rest: seq<ConversionRate>)
    ensures ConvertPrice(price, Some(c), [ConversionRate(Some(c), Some(0.0))] + rest) == price
    ensures ConvertPrice(price, Some(c), [ConversionRate(Some(c), None)] + rest) == price
    ensures ConvertPrice(price, Some(c), []) == price
  {
    assert FindRate([ConversionRate(Some(c), Some(0.0))] + rest, Some(c)) == Some(ConversionRate(Some(c), Some(0.0)));
    assert FindRate([ConversionRate(Some(c), None)] + rest, Some(c)) == Some(ConversionRate(Some(c), None));
  }

  // ---------------------------------------------------------------------
  // Product pricing
  // ---------------------------------------------------------------------

  /** `product?.xp?.Currency ?? CurrencySymbol.USD` */
  function ProductCurrency(product: MeProduct): CurrencySymbol
  {
    if product.xp.Some? && product.xp.value.currency.Some? then product.xp.value.currency.value else USD
  }

  /** A default-schedule price: marked up, rounded to cents, then converted. */
  function MarkedUpPrice(price: real, multiplier: real, currency: CurrencySymbol, rates: seq<ConversionRate>): real
  {
    ConvertPrice(Round2(price * multiplier), Some(currency), rates)
  }

  /** The default schedule's breaks, each repriced by MarkedUpPrice. */
  function MarkUpBreaks(breaks: seq<PriceBreak>, multiplier: real, currency: CurrencySymbol,
                        rates: seq<ConversionRate>): (r: seq<PriceBreak>)
    ensures |r| == |breaks|
    ensures forall i :: 0 <= i < |breaks| ==>
              r[i] == breaks[i].(price := MarkedUpPrice(breaks[i].price, multiplier, currency, rates))
  {
    if breaks == [] then []
    else
      [breaks[0].(price := MarkedUpPrice(breaks[0].price, multiplier, currency, rates))]
      + MarkUpBreaks(breaks[1..], multiplier, currency, rates)
  }

  /** A custom schedule's breaks: each price, set by the seller in USD, converted. */
  function ConvertBreaks(breaks: seq<PriceBreak>, rates: seq<ConversionRate>): (r: seq<PriceBreak>)
    ensures |r| == |breaks|
    ensures forall i :: 0 <= i < |breaks| ==> r[i] == breaks[i].(price := ConvertPrice(breaks[i].price, Some(USD), rates))
  {
    if breaks == [] then []
    else [breaks[0].(price := ConvertPrice(breaks[0].price, Some(USD), rates))] + ConvertBreaks(breaks[1..], rates)
  }

  /**
   * ApplyBuyerProductPricing: only the price breaks change. A product with
   * no price schedule, or a schedule with no break list (the select throws
   * and the handler returns the product), is returned as it is.
   */
  function ApplyBuyerProductPricing(product: MeProduct, multiplier: real, rates: seq<ConversionRate>): (r: MeProduct)
    ensures r.id == product.id && r.xp == product.xp
    ensures r.priceSchedule.None? <==> product.priceSchedule.None?
    ensures r.priceSchedule.Some? ==>
              r.priceSchedule.value.id == product.priceSchedule.value.id
              && (r.priceSchedule.value.priceBreaks.None? <==> product.priceSchedule.value.priceBreaks.None?)
  {
    match product.priceSchedule
    case None => product
    case Some(schedule) =>
      match schedule.priceBreaks
      case None => product
      case Some(breaks) =>
        var repriced :=
          if schedule.id == product.id then MarkUpBreaks(breaks, multiplier, ProductCurrency(product), rates)
          else ConvertBreaks(breaks, rates);
        product.(priceSchedule := Some(schedule.(priceBreaks := Some(repriced))))
  }

  /** The breaks of a product's schedule, when it has both. */
  function BreaksOf(product: MeProduct): seq<PriceBreak>
    requires product.priceSchedule.Some? && product.priceSchedule.value.priceBreaks.Some?
  {
    product.priceSchedule.value.priceBreaks.value
  }

  /**
   * Break `after` is break `before` marked up by `multiplier` and rounded to
   * cents, then converted at rate `q`: its price times the rate is that
   * rounded price, or, without a usable rate, the rounded price itself.
   */
  predicate MarkedUpFrom(before: PriceBreak, after: PriceBreak, multiplier: real, q: Option<real>)
  {
    && after.quantity == before.quantity
    && (q.Some? ==> after.price * q.value == Round2(before.price * multiplier))
    && (q.None? ==> after.price == Round2(before.price * multiplier))
  }

  /**
   * On the product's own schedule, every break keeps its place and is
   * MarkedUpFrom the old one at the rate for the product's currency (USD
   * when the product names none).
   */
  lemma DefaultSchedulePricing(product: MeProduct, multiplier: real, rates: seq<ConversionRate>)
    requires product.priceSchedule.Some? && product.priceSchedule.value.priceBreaks.Some?
    requires product.priceSchedule.value.id == product.id
    ensures var r := ApplyBuyerProductPricing(product, multiplier, rates);
            var before, after := BreaksOf(product), BreaksOf(r);
            var q := RateFor(rates, Some(ProductCurrency(product)));
            |after| == |before|
            && forall i :: 0 <= i < |before| ==> MarkedUpFrom(before[i], after[i], multiplier, q)
  {
    var r := ApplyBuyerProductPricing(product, multiplier, rates);
    var before, after := BreaksOf(product), BreaksOf(r);
    var currency := ProductCurrency(product);
    assert after == MarkUpBreaks(before, multiplier, currency, rates);
    forall i | 0 <= i < |before|
      ensures MarkedUpFrom(before[i], after[i], multiplier, RateFor(rates, Some(currency)))
    {
      MarkedUpPriceRate(before[i], multiplier, currency, rates);
    }
  }

  /** One break repriced by MarkedUpPrice is MarkedUpFrom the original. */
  lemma MarkedUpPriceRate(b: PriceBreak, multiplier: real, currency: CurrencySymbol, rates: seq<ConversionRate>)
    ensures MarkedUpFrom(b, b.(price := MarkedUpPrice(b.price, multiplier, currency, rates)), multiplier,
                         RateFor(rates, Some(currency)))
  {
    var m := MarkedUpPrice(b.price, multiplier, currency, rates);
    MarkedUpPriceTimesRate(b.price, multiplier, currency, rates);
    var after := b.(price := m);
    assert after.price == m && after.quantity == b.quantity;
  }

  lemma MarkedUpPriceTimesRate(price: real, multiplier: real, currency: CurrencySymbol, rates: seq<ConversionRate>)
    ensures var q := RateFor(rates, Some(currency));
            var m := MarkedUpPrice(price, multiplier, currency, rates);
            (q.Some? ==> m * q.value == Round2(price * multiplier)) && (q.None? ==> m == Round2(price * multiplier))
  {
    var r := Round2(price * multiplier);
    ConvertsBack(r, Some(currency), rates);
    assert MarkedUpPrice(price, multiplier, currency, rates) == ConvertPrice(r, Some(currency), rates);
  }

  /** A break of 100.00 at a 10% markup, with 2 units of the currency to the dollar, costs 55.00. */
  lemma DefaultPriceExample()
    ensures MarkedUpPrice(100.0, MarkupMultiplier(10), "EUR", [ConversionRate(Some("EUR"), Some(2.0))]) == 55.0
  {
    assert MarkupMultiplier(10) == 1.1;
    assert Cents(110.0) == 11000;
    assert RateFor([ConversionRate(Some("EUR"), Some(2.0))], Some("EUR")) == Some(2.0);
  }

  /**
   * On a custom schedule, every break keeps its quantity and place, and its
   * new price times the USD rate is the old price: no markup, no rounding.
   */
  lemma CustomSchedulePricing(product: MeProduct, multiplier: real, rates: seq<ConversionRate>)
    requires product.priceSchedule.Some? && product.priceSchedule.value.priceBreaks.Some?
    requires product.priceSchedule.value.id != product.id
    ensures var r := ApplyBuyerProductPricing(product, multiplier, rates);
            var before, after := BreaksOf(product), BreaksOf(r);
            var q := RateFor(rates, Some(USD));
            |after| == |before|
            && (forall i :: 0 <= i < |before| ==> after[i].quantity == before[i].quantity)
            && (q.Some? ==> forall i :: 0 <= i < |before| ==> after[i].price * q.value == before[i].price)
            && (q.None? ==> after == before)
  {
    var r := ApplyBuyerProductPricing(product, multiplier, rates);
    var before, after := BreaksOf(product), BreaksOf(r);
    var q := RateFor(rates, Some(USD));
    assert after == ConvertBreaks(before, rates);
    forall i | 0 <= i < |before|
      ensures after[i].quantity == before[i].quantity
      ensures q.Some? ==> after[i].price * q.value == before[i].price
      ensures q.None? ==> after[i] == before[i]
    {
      ConvertsBack(before[i].price, Some(USD), rates);
      assert after[i].price == ConvertPrice(before[i].price, Some(USD), rates);
    }
  }

  /** The markup never reaches a custom schedule. */
  lemma CustomScheduleIgnoresMarkup(product: MeProduct, m1: real, m2: real, rates: seq<ConversionRate>)
    requires product.priceSchedule.Some? && product.priceSchedule.value.id != product.id
    ensures ApplyBuyerProductPricing(product, m1, rates) == ApplyBuyerProductPricing(product, m2, rates)
  {
  }

  /** A product without a schedule, or whose schedule has no break list, is returned unchanged. */
  lemma UnpricedProductUnchanged(product: MeProduct, multiplier: real, rates: seq<ConversionRate>)
    requires product.priceSchedule.None? || product.priceSchedule.value.priceBreaks.None?
    ensures ApplyBuyerProductPricing(product, multiplier, rates) == product
  {
  }

  /**
   * A failed buyer lookup leaves the multiplier at 0, and then every break of
   * a default schedule is priced at 0.
   */
  lemma ZeroMultiplierZeroesDefaultPrices(product: MeProduct, rates: seq<ConversionRate>)
    requires product.priceSchedule.Some? && product.priceSchedule.value.priceBreaks.Some?
    requires product.priceSchedule.value.id == product.id
    ensures forall b :: b in BreaksOf(ApplyBuyerProductPricing(product, 0.0, rates)) ==> b.price == 0.0
  {
    var after := BreaksOf(ApplyBuyerProductPricing(product, 0.0, rates));
    forall b | b in after
      ensures b.price == 0.0
    {
      var i :| 0 <= i < |after| && after[i] == b;
      assert Round2(BreaksOf(product)[i].price * 0.0) == 0.0;
    }
  }

  // ---------------------------------------------------------------------
  // Spec option surcharges
  // ---------------------------------------------------------------------

  /** Each option with a surcharge has it converted; options without one are kept as they are. */
  function ConvertOptions(options: seq<SpecOption>, currency: Option<CurrencySymbol>, rates: seq<ConversionRate>)
    : (r: seq<SpecOption>)
    ensures |r| == |options|
    ensures forall j :: 0 <= j < |options| ==>
              r[j] == (match options[j].priceMarkup
                       case None => options[j]
                       case Some(m) => options[j].(priceMarkup := Some(ConvertPrice(m, currency, rates))))
  {
    if options == [] then []
    else
      var o := options[0];
      var converted := match o.priceMarkup
                       case None => o
                       case Some(m) => o.(priceMarkup := Some(ConvertPrice(m, currency, rates)));
      [converted] + ConvertOptions(options[1..], currency, rates)
  }

  predicate AllHaveOptions(specs: seq<Spec>)
  {
    forall i :: 0 <= i < |specs| ==> specs[i].options.Some?
  }

  function ConvertSpecs(specs: seq<Spec>, currency: Option<CurrencySymbol>, rates: seq<ConversionRate>): (r: seq<Spec>)
    requires AllHaveOptions(specs)
    ensures |r| == |specs|
    ensures forall i :: 0 <= i < |specs| ==>
              r[i] == specs[i].(options := Some(ConvertOptions(specs[i].options.value, currency, rates)))
  {
    if specs == [] then []
    else [specs[0].(options := Some(ConvertOptions(specs[0].options.value, currency, rates)))]
         + ConvertSpecs(specs[1..], currency, rates)
  }

  /**
   * ApplySpecMarkups: when some spec has no option list the select throws
   * and the handler returns its initial empty list.
   */
  function ApplySpecMarkups(specs: seq<Spec>, currency: Option<CurrencySymbol>, rates: seq<ConversionRate>)
    : (r: seq<Spec>)
    ensures AllHaveOptions(specs) ==> |r| == |specs| && AllHaveOptions(r)
    ensures !AllHaveOptions(specs) ==> r == []
  {
    if AllHaveOptions(specs) then ConvertSpecs(specs, currency, rates) else []
  }

  /**
   * Every spec and option keeps its place and ID; an option without a
   * surcharge is untouched, and a surcharge's new value times the rate is
   * the old surcharge: converted, never multiplied by the buyer's markup.
   */
  lemma SpecSurchargesConverted(specs: seq<Spec>, currency: Option<CurrencySymbol>, rates: seq<ConversionRate>,
                                i: int, j: int)
    requires AllHaveOptions(specs) && 0 <= i < |specs| && 0 <= j < |specs[i].options.value|
    ensures var r := ApplySpecMarkups(specs, currency, rates);
            var before := specs[i].options.value[j];
            var q := RateFor(rates, currency);
            r[i].id == specs[i].id
            && |r[i].options.value| == |specs[i].options.value|
            && r[i].options.value[j].id == before.id
            && (before.priceMarkup.None? ==> r[i].options.value[j] == before)
            && (before.priceMarkup.Some? ==> r[i].options.value[j].priceMarkup.Some?)
            && (before.priceMarkup.Some? && q.Some? ==>
                  r[i].options.value[j].priceMarkup.value * q.value == before.priceMarkup.value)
            && (q.None? ==> r[i].options.value[j] == before)
  {
  }

  /** Without a usable rate the specs come back exactly as they were. */
  lemma {:induction false} SpecsUnchangedWithoutRate(specs: seq<Spec>, currency: Option<CurrencySymbol>,
                                                     rates: seq<ConversionRate>)
    requires AllHaveOptions(specs) && RateFor(rates, currency).None?
    ensures ApplySpecMarkups(specs, currency, rates) == specs
  {
    var r := ApplySpecMarkups(specs, currency, rates);
    forall i | 0 <= i < |specs|
      ensures r[i] == specs[i]
    {
      OptionsUnchangedWithoutRate(specs[i].options.value, currency, rates);
    }
  }

  lemma OptionsUnchangedWithoutRate(options: seq<SpecOption>, currency: Option<CurrencySymbol>,
                                    rates: seq<ConversionRate>)
    requires RateFor(rates, currency).None?
    ensures ConvertOptions(options, currency, rates) == options
  {
    var r := ConvertOptions(options, currency, rates);
    forall j | 0 <= j < |options|
      ensures r[j] == options[j]
    {
    }
  }

  // ---------------------------------------------------------------------
  // ApplyBuyerPricing
  // ---------------------------------------------------------------------

  /**
   * ApplyBuyerPricing, given what the two fetches return: the multiplier and
   * the user's rate table (None when that fetch throws, which happens before
   * anything is changed). A product without xp throws on reading its
   * currency after its breaks were already repriced in place, so the specs
   * stay as they were. The variants are never touched.
   */
  function ApplyBuyerPricing(sp: SuperMeProduct, multiplier: real, rates: Option<seq<ConversionRate>>)
    : (r: SuperMeProduct)
    ensures r.variants == sp.variants
    ensures rates.None? ==> r == sp
    ensures rates.Some? ==> r.product == ApplyBuyerProductPricing(sp.product, multiplier, rates.value)
    ensures sp.product.xp.None? ==> r.specs == sp.specs
  {
    match rates
    case None => sp
    case Some(table) =>
      var product := ApplyBuyerProductPricing(sp.product, multiplier, table);
      if sp.product.xp.None? then sp.(product := product)
      else
        var currency := sp.product.xp.value.currency.GetOr(USD);
        sp.(product := product, specs := ApplySpecMarkups(sp.specs, Some(currency), table))
  }

  /** Surcharges are converted with the same currency the product's own schedule is converted with. */
  lemma SpecsShareProductCurrency(sp: SuperMeProduct, multiplier: real, table: seq<ConversionRate>)
    requires sp.product.xp.Some?
    ensures ApplyBuyerPricing(sp, multiplier, Some(table)).specs
            == ApplySpecMarkups(sp.specs, Some(ProductCurrency(sp.product)), table)
  {
  }

  // ---------------------------------------------------------------------
  // The currency lookup as MeProductCommand copies it
  // ---------------------------------------------------------------------

  function LowerAscii(c: char): char
  {
    if 'A' <= c <= 'Z' then (c as int + 32) as char else c
  }

  /** `string.Equals(a, b, StringComparison.OrdinalIgnoreCase)` on ASCII letters. */
  predicate EqualsIgnoreCase(a: string, b: string)
  {
    |a| == |b| && forall i :: 0 <= i < |a| ==> LowerAscii(a[i]) == LowerAscii(b[i])
  }

  predicate IsBuyerLocationIgnoreCase(g: UserGroup)
  {
    g.xp.groupType.Some? && EqualsIgnoreCase(g.xp.groupType.value, BuyerLocation)
  }

  /**
   * The copied GetCurrencyForUser: BuyerLocation is matched ignoring case,
   * and a missing currency makes the final cast throw (None).
   */
  function MeCurrencyForUser(groups: seq<UserGroup>): (r: Option<CurrencySymbol>)
    ensures r.None? <==> forall i :: 0 <= i < |groups| && IsBuyerLocationIgnoreCase(groups[i]) ==> groups[i].xp.currency.None?
  {
    NoCurrencyOfKept(groups, IsBuyerLocationIgnoreCase);
    FirstCurrency(GroupsWhere(groups, IsBuyerLocationIgnoreCase))
  }

  /**
   * The copied GetExchangeRatesForUser: it swallows the failure above but
   * then reads the items of an empty page, so it throws too (None).
   */
  function MeExchangeRatesForUser(groups: seq<UserGroup>, provider: CurrencySymbol -> seq<ConversionRate>)
    : (r: Option<seq<ConversionRate>>)
    ensures r.Some? <==> MeCurrencyForUser(groups).Some?
  {
    match MeCurrencyForUser(groups)
    case None => None
    case Some(c) => Some(provider(c))
  }

  lemma {:induction false} GroupsWhereAgree(groups: seq<UserGroup>, k1: UserGroup -> bool, k2: UserGroup -> bool)
    requires forall i :: 0 <= i < |groups| ==> k1(groups[i]) == k2(groups[i])
    ensures GroupsWhere(groups, k1) == GroupsWhere(groups, k2)
  {
    if groups != [] {
      GroupsWhereAgree(groups[1..], k1, k2);
    }
  }

  /** An exact match is also a match ignoring case. */
  lemma ExactMatchIgnoresCaseToo(g: UserGroup)
    requires IsBuyerLocation(g)
    ensures IsBuyerLocationIgnoreCase(g)
  {
  }

  /**
   * When no group's type is "BuyerLocation" in another letter case, the
   * copy resolves the same currency as the service and fails exactly when
   * the service does.
   */
  lemma CopiesAgreeWithoutCaseVariants(groups: seq<UserGroup>, provider: CurrencySymbol -> seq<ConversionRate>)
    requires forall i :: 0 <= i < |groups| && IsBuyerLocationIgnoreCase(groups[i]) ==> IsBuyerLocation(groups[i])
    ensures GetCurrencyForUser(groups).Success? <==> MeCurrencyForUser(groups).Some?
    ensures GetCurrencyForUser(groups).Success? ==> MeCurrencyForUser(groups).value == GetCurrencyForUser(groups).value
    ensures GetExchangeRatesForUser(groups, provider).Success? ==>
              MeExchangeRatesForUser(groups, provider) == Some(GetExchangeRatesForUser(groups, provider).value)
  {
    GroupsWhereAgree(groups, IsBuyerLocation, IsBuyerLocationIgnoreCase);
  }

  /** The two copies differ on a group typed "buyerlocation": only MeProductCommand's accepts it. */
  lemma CopiesDisagreeOnCase()
    ensures var groups := [UserGroup("g", UserGroupXp(Some("buyerlocation"), Some("EUR")))];
            GetCurrencyForUser(groups).Failure? && MeCurrencyForUser(groups) == Some("EUR")
  {
    var g := UserGroup("g", UserGroupXp(Some("buyerlocation"), Some("EUR")));
    assert IsBuyerLocationIgnoreCase(g);
    assert GroupsWhere([g], IsBuyerLocationIgnoreCase) == [g];
    TypeMatchIsExact();
  }

  // ---------------------------------------------------------------------
  // List
  // ---------------------------------------------------------------------

  datatype SearchType = ExactPhrasePrefix | AnyTerm

  /** The search part of a product listing query; filters, page and sort pass through unchanged. */
  datatype SearchQuery = SearchQuery(search: string, searchOn: string, searchType: SearchType)

  /** What List asks of its collaborators, in order. */
  datatype Request = ListProducts(query: SearchQuery) | FetchMarkupMultiplier | FetchExchangeRates

  const SearchFields := "ID,Name,Description,xp.Facets.supplier"

  /** The search text defaults to "" and the fields are searched only when there is a search. */
  function Query(search: Option<string>, searchType: SearchType): (q: SearchQuery)
    ensures q.searchType == searchType
    ensures search.None? ==> q.search == "" && q.searchOn == ""
    ensures search.Some? ==> q.search == search.value && q.searchOn == SearchFields
  {
    SearchQuery(search.GetOr(""), if search.Some? then SearchFields else "", searchType)
  }

  /** `Items.Select(product => ApplyBuyerProductPricing(product, multiplier, rates))` */
  function PriceAll(products: seq<MeProduct>, multiplier: real, rates: seq<ConversionRate>): (r: seq<MeProduct>)
    ensures |r| == |products|
    ensures forall i :: 0 <= i < |products| ==> r[i] == ApplyBuyerProductPricing(products[i], multiplier, rates)
  {
    if products == [] then []
    else [ApplyBuyerProductPricing(products[0], multiplier, rates)] + PriceAll(products[1..], multiplier, rates)
  }

  /**
   * List: an exact-phrase-prefix search, and when it finds nothing an
   * any-term search with the same text; when both find nothing it returns
   * the empty page without fetching the multiplier or the rates. Otherwise
   * every item found is priced with the same multiplier and rate table.
   * `catalog` answers the searches; `multiplier` and `rates` are what the
   * two fetches return (rates None: that fetch throws and the page found is
   * returned unpriced).
   */
  method List(search: Option<string>, catalog: SearchQuery -> seq<MeProduct>, multiplier: real,
              rates: Option<seq<ConversionRate>>) returns (items: seq<MeProduct>, requests: seq<Request>)
    ensures var exact, anyTerm := Query(search, ExactPhrasePrefix), Query(search, AnyTerm);
            var found := if catalog(exact) != [] then catalog(exact) else catalog(anyTerm);
            && (catalog(exact) != [] ==> requests == [ListProducts(exact), FetchMarkupMultiplier, FetchExchangeRates])
            && (catalog(exact) == [] && found != [] ==>
                  requests == [ListProducts(exact), ListProducts(anyTerm), FetchMarkupMultiplier, FetchExchangeRates])
            && (found == [] ==> requests == [ListProducts(exact), ListProducts(anyTerm)] && items == [])
            && (rates.Some? ==> items == PriceAll(found, multiplier, rates.value))
            && (rates.None? ==> items == found)
  {
    var exact := Query(search, ExactPhrasePrefix);
    requests := [ListProducts(exact)];
    items := catalog(exact);
    if items == [] {
      var anyTerm := Query(search, AnyTerm);
      requests := requests + [ListProducts(anyTerm)];
      items := catalog(anyTerm);
      if items == [] {
        return;
      }
    }
    requests := requests + [FetchMarkupMultiplier, FetchExchangeRates];
    if rates.None? {
      return;
    }
    items := PriceAll(items, multiplier, rates.value);
  }
}
