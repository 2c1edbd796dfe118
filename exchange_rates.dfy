/**
 * HSExchangeRatesService: the currency of the signed-in user is taken from
 * the first of their "BuyerLocation" user groups that names one, and the
 * exchange rates are then requested for exactly that currency. The listing
 * of the user's groups and the rate provider are inputs; errors are values.
 */
module ExchangeRates {
  import opened Wrappers

  /** A currency code such as "USD" (the CurrencySymbol enumeration). */
  type CurrencySymbol = string

  const USD: CurrencySymbol := "USD"
  const BuyerLocation := "BuyerLocation"

  datatype UserGroupXp = UserGroupXp(groupType: Option<string>, currency: Option<CurrencySymbol>)
  datatype UserGroup = UserGroup(id: string, xp: UserGroupXp)

  /** One entry of the rate table: how many units of `currency` one unit of the user's currency buys. */
  datatype ConversionRate = ConversionRate(currency: Option<CurrencySymbol>, rate: Option<real>)

  datatype ErrorCode = ErrorCode(title: string, message: string)

  const RateNotDefined := ErrorCode("Exchange Rate Error", "Exchange Rate Not Defined For User")

  /** The listing filter `xp.Type == "BuyerLocation"`: an exact comparison. */
  predicate IsBuyerLocation(g: UserGroup)
  {
    g.xp.groupType == Some(BuyerLocation)
  }

  /** The groups a listing filter keeps, in the order they are listed. */
  function GroupsWhere(groups: seq<UserGroup>, keep: UserGroup -> bool): (r: seq<UserGroup>)
    ensures |r| <= |groups|
    ensures forall g :: g in r <==> g in groups && keep(g)
  {
    if groups == [] then []
    else (if keep(groups[0]) then [groups[0]] else []) + GroupsWhere(groups[1..], keep)
  }

  /** `FirstOrDefault(u => u.xp.Currency != null)?.xp?.Currency` */
  function FirstCurrency(groups: seq<UserGroup>): (r: Option<CurrencySymbol>)
    ensures r.None? <==> forall i :: 0 <= i < |groups| ==> groups[i].xp.currency.None?
    ensures r.Some? ==> exists i :: 0 <= i < |groups| && groups[i].xp.currency == r
  {
    if groups == [] then None
    else if groups[0].xp.currency.Some? then groups[0].xp.currency
    else FirstCurrency(groups[1..])
  }

  /** GetCurrencyForUser: fails with RateNotDefined when no BuyerLocation group has a currency. */
  function GetCurrencyForUser(groups: seq<UserGroup>): (r: Result<CurrencySymbol, ErrorCode>)
    ensures r.Failure? ==> r.error == RateNotDefined
  {
    match FirstCurrency(GroupsWhere(groups, IsBuyerLocation))
    case None => Failure(RateNotDefined)
    case Some(c) => Success(c)
  }

  /** GetExchangeRatesForUser: the provider's rate table for the resolved currency; errors propagate. */
  function GetExchangeRatesForUser(groups: seq<UserGroup>, provider: CurrencySymbol -> seq<ConversionRate>)
    : (r: Result<seq<ConversionRate>, ErrorCode>)
    ensures r.Failure? <==> GetCurrencyForUser(groups).Failure?
  {
    match GetCurrencyForUser(groups)
    case Failure(e) => Failure(e)
    case Success(c) => Success(provider(c))
  }

  // ---------------------------------------------------------------------
  // Properties
  // ---------------------------------------------------------------------

  /** No currency is found exactly when no kept group names one. */
  lemma {:induction false} NoCurrencyOfKept(groups: seq<UserGroup>, keep: UserGroup -> bool)
    ensures FirstCurrency(GroupsWhere(groups, keep)).None? <==>
              forall i :: 0 <= i < |groups| && keep(groups[i]) ==> groups[i].xp.currency.None?
  {
    if groups != [] {
      var g, rest := groups[0], groups[1..];
      NoCurrencyOfKept(rest, keep);
      var kept := GroupsWhere(rest, keep);
      assert forall i :: 1 <= i < |groups| ==> groups[i] == rest[i - 1];
      if keep(g) {
        assert GroupsWhere(groups, keep) == [g] + kept;
        assert ([g] + kept)[1..] == kept;
      } else {
        assert GroupsWhere(groups, keep) == kept;
      }
    }
  }

  /** Group `i` is the first kept group naming a currency, and that currency is `c`. */
  ghost predicate FirstKeptWithCurrency(groups: seq<UserGroup>, keep: UserGroup -> bool, i: int, c: Option<CurrencySymbol>)
  {
    0 <= i < |groups| && keep(groups[i]) && groups[i].xp.currency == c
    && forall j :: 0 <= j < i && keep(groups[j]) ==> groups[j].xp.currency.None?
  }

  /** The currency found is that of the first kept group naming one. */
  lemma {:induction false} FirstCurrencyOfKept(groups: seq<UserGroup>, keep: UserGroup -> bool) returns (i: int)
    requires FirstCurrency(GroupsWhere(groups, keep)).Some?
    ensures FirstKeptWithCurrency(groups, keep, i, FirstCurrency(GroupsWhere(groups, keep)))
  {
    var g, rest := groups[0], groups[1..];
    var kept := GroupsWhere(rest, keep);
    var r := FirstCurrency(GroupsWhere(groups, keep));
    if keep(g) {
      assert GroupsWhere(groups, keep) == [g] + kept;
      if g.xp.currency.Some? {
        return 0;
      }
      assert ([g] + kept)[1..] == kept;
    } else {
      assert GroupsWhere(groups, keep) == kept;
    }
    assert r == FirstCurrency(kept);
    var k := FirstCurrencyOfKept(rest, keep);
    i := k + 1;
    assert groups[i] == rest[k];
    forall j | 0 <= j < i && keep(groups[j])
      ensures groups[j].xp.currency.None?
    {
      if j > 0 {
        assert groups[j] == rest[j - 1];
      }
    }
  }

  /**
   * GetCurrencyForUser succeeds exactly when some BuyerLocation group has a
   * currency, and then returns that of the first such group: earlier
   * BuyerLocation groups without a currency are skipped.
   */
  lemma CurrencyOfFirstBuyerLocation(groups: seq<UserGroup>)
    ensures GetCurrencyForUser(groups).Failure? <==>
              forall i :: 0 <= i < |groups| && IsBuyerLocation(groups[i]) ==> groups[i].xp.currency.None?
    ensures GetCurrencyForUser(groups).Success? ==>
              exists i :: 0 <= i < |groups| && IsBuyerLocation(groups[i])
                          && groups[i].xp.currency == Some(GetCurrencyForUser(groups).value)
                          && forall j :: 0 <= j < i && IsBuyerLocation(groups[j]) ==> groups[j].xp.currency.None?
  {
    NoCurrencyOfKept(groups, IsBuyerLocation);
    if GetCurrencyForUser(groups).Success? {
      var i := FirstCurrencyOfKept(groups, IsBuyerLocation);
      assert FirstKeptWithCurrency(groups, IsBuyerLocation, i, Some(GetCurrencyForUser(groups).value));
    }
  }

  /** Groups of any other type play no part: only the BuyerLocation groups decide. */
  lemma {:induction false} OnlyBuyerLocationsCount(groups: seq<UserGroup>)
    ensures GetCurrencyForUser(groups) == GetCurrencyForUser(GroupsWhere(groups, IsBuyerLocation))
  {
    KeptTwice(groups, IsBuyerLocation);
  }

  lemma {:induction false} KeptTwice(groups: seq<UserGroup>, keep: UserGroup -> bool)
    ensures GroupsWhere(GroupsWhere(groups, keep), keep) == GroupsWhere(groups, keep)
  {
    if groups != [] {
      var g, rest := groups[0], groups[1..];
      KeptTwice(rest, keep);
      var kept := GroupsWhere(rest, keep);
      if keep(g) {
        assert GroupsWhere(groups, keep) == [g] + kept;
        assert ([g] + kept)[1..] == kept;
        assert GroupsWhere([g] + kept, keep) == [g] + GroupsWhere(kept, keep);
      } else {
        assert GroupsWhere(groups, keep) == kept;
      }
    }
  }

  /** The type comparison is exact: a "buyerlocation" group does not count. */
  lemma TypeMatchIsExact()
    ensures GetCurrencyForUser([UserGroup("g", UserGroupXp(Some("buyerlocation"), Some("EUR")))]) == Failure(RateNotDefined)
  {
    var g := UserGroup("g", UserGroupXp(Some("buyerlocation"), Some("EUR")));
    assert !IsBuyerLocation(g);
    assert GroupsWhere([g], IsBuyerLocation) == [];
  }

  /**
   * GetExchangeRatesForUser asks the provider for exactly the resolved
   * currency; when no currency resolves it fails with the same error
   * without consulting the provider at all.
   */
  lemma RatesForResolvedCurrency(groups: seq<UserGroup>, provider: CurrencySymbol -> seq<ConversionRate>,
                                 other: CurrencySymbol -> seq<ConversionRate>)
    ensures GetCurrencyForUser(groups).Success? ==>
              GetExchangeRatesForUser(groups, provider) == Success(provider(GetCurrencyForUser(groups).value))
    ensures GetCurrencyForUser(groups).Failure? ==>
              GetExchangeRatesForUser(groups, provider) == Failure(RateNotDefined)
              && GetExchangeRatesForUser(groups, provider) == GetExchangeRatesForUser(groups, other)
  {
  }
}
