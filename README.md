# Headstart middleware: payments, buyer aggregates and buyer pricing in Dafny

This project models four parts of the Headstart middleware. That middleware sits
between a storefront and the OrderCloud commerce platform. Each part is modelled
with proofs about what it does.

- **Payment reconciliation** (`PaymentCommand`). It deletes an order's payments
  whose type is no longer requested. It then creates, patches, voids and replaces,
  or leaves alone the credit-card and purchase-order payments, so that they match
  the order total.
- **Buyer aggregates** (`HSBuyerCommand`). It creates a buyer with the resources
  every buyer needs. It updates and reads a buyer together with its markup and
  impersonation config.
- **Buyer-facing pricing** (`MeProductCommand`). It applies the buyer's markup,
  rounds to cents and converts into the user's currency. It also runs the
  two-stage product search.
- **Currency resolution** (`HSExchangeRatesService`). It finds the user's currency
  from their "BuyerLocation" user groups, then fetches the rates for it.

The commerce platform is an in-memory store. For payments, the store holds the
order's payment list. For buyers, it holds buyers, assignments, incrementors and
impersonation configs. Next to the store is a log of every mutating call issued,
in order. That log is what the ordering properties and the "no call was made"
properties are stated over.

The source wraps most steps in a catch that logs and returns a default. The model
makes each of these an explicit branch or result value.

| file | module | models |
|---|---|---|
| wrappers.dfy | Wrappers | `Option` and `Result` |
| payment_rules.dfy | PaymentRules | the payment store, its calls, and every step of `SavePayments` as a function of the store |
| payment_properties.dfy | PaymentProperties | stale deletion, each update branch, settlement, and repeating the call |
| payment_command.dfy | PaymentCommands | class `PaymentCommand`; each method is proved to have the effect of its PaymentRules function |
| buyer_rules.dfy | BuyerRules | the platform store for buyers, its operations, and each buyer command as a function |
| buyer_properties.dfy | BuyerProperties | provisioning, the markup step, the impersonation upsert, and update/get |
| buyer_command.dfy | BuyerCommands | class `BuyerCommand`; each method is proved to have the effect of its BuyerRules function |
| exchange_rates.dfy | ExchangeRates | currency selection and the rate lookup |
| pricing.dfy | Pricing | rounding, markup, conversion, product and spec pricing, the case-insensitive currency lookup, and `List` |

Two parts of the source work by changing state step by step: `PaymentCommand` and
`HSBuyerCommand`. Each is modelled as a class with the store and the call log as
fields. Every method carries an `ensures` that its new state, and its result, equal
a function of the old state. The properties are proved about those functions, so
they hold of the methods.

Pricing and currency resolution are functions. `List` is a method, because it
issues its requests one after another and can return early.

Prices are `real`: exact rationals that stand in for C# `decimal`.
`Math.Round(x, 2)` is banker's rounding at hundredths (`Round2`).

`ConvertPrice` catches a missing, null or zero rate and returns the price
unchanged; the model follows the code.

## Model

| member | source | states |
|---|---|---|
| PaymentRules.FirstOfType | src/Middleware/src/Headstart.API/Commands/PaymentCommand.cs:65 | the result is the first payment of the type; none exactly when no payment has that type |
| PaymentRules.Remove | src/Middleware/src/Headstart.API/Commands/PaymentCommand.cs:172 | `List.Remove` leaves the list as it was when the payment is absent, and otherwise drops exactly one element |
| PaymentRules.Without | src/Middleware/src/Headstart.API/Commands/PaymentCommand.cs:171 | the payments left after deleting IDs are exactly those whose ID is not among them, in order |
| PaymentRules.PatchWhere | src/Middleware/src/Headstart.API/Commands/PaymentCommand.cs:99-104 | a patch keeps the list's length and changes only payments with the patched ID |
| PaymentProperties.StaleDeletionAgrees | src/Middleware/src/Headstart.API/Commands/PaymentCommand.cs:161-188 | with unique IDs, after stale deletion the platform's list and the returned list agree; they hold exactly the existing payments of requested types, in order; the calls issued are exactly the stale calls |
| PaymentProperties.StaleDeletionEffects | src/Middleware/src/Headstart.API/Commands/PaymentCommand.cs:165-185 | payment by payment, the calls issued are those of the type's branch, and the platform keeps exactly the payments with no stale ID |
| PaymentProperties.StalePurchaseOrderDeletedTwice | src/Middleware/src/Headstart.API/Commands/PaymentCommand.cs:169-183 | a stale purchase order passes the first `if` and the trailing `else`, so Delete is issued twice for it |
| PaymentProperties.StaleCreditCardVoidedFirst | src/Middleware/src/Headstart.API/Commands/PaymentCommand.cs:174-177 | a stale credit-card payment is voided with the card processor before its Delete is issued |
| PaymentProperties.CreditCardBranches | src/Middleware/src/Headstart.API/Commands/PaymentCommand.cs:81-114 | four cases: (1) none existing: create for the total, not accepted; (2) same card and same amount: no call and no change; (3) same card with another amount: void, then patch amount, accepted=false and xp under the existing ID; (4) another card: void, delete, then create |
| PaymentProperties.PurchaseOrderBranches | src/Middleware/src/Headstart.API/Commands/PaymentCommand.cs:123-138 | a purchase order is created for the total when none exists; otherwise it is always patched to the total |
| PaymentProperties.OtherTypesIgnored | src/Middleware/src/Headstart.API/Commands/PaymentCommand.cs:63-68 | a requested type other than credit card or purchase order causes no call and no change |
| PaymentProperties.ReconcileLoop | src/Middleware/src/Headstart.API/Commands/PaymentCommand.cs:63-68 | the loop over the requests keeps its invariant: (1) IDs unique and one payment per type; (2) only requested types; (3) each handled request is settled; (4) unhandled types are untouched |
| PaymentProperties.SavePaymentsSettles | src/Middleware/src/Headstart.API/Commands/PaymentCommand.cs:57-71 | for a well-formed request whose IDs are new, the existing same-type payment's, or a stale payment's (so a re-sent payment under its own ID is covered), the returned payments hold one payment per requested type and no other; each is for the order total, and the credit card is the requested one |
| PaymentProperties.NothingStale | src/Middleware/src/Headstart.API/Commands/PaymentCommand.cs:165-167 | when every existing type is requested, stale deletion keeps everything and issues no call |
| PaymentProperties.SettledReconcile | src/Middleware/src/Headstart.API/Commands/PaymentCommand.cs:63-68 | reconciling a settled order changes no payment; it only re-patches the purchase order |
| PaymentProperties.ResubmissionSettles | src/Middleware/src/Headstart.API/Commands/PaymentCommand.cs:57-71 | example: re-sending the order's credit card (on another card) and purchase order under their existing IDs settles the order |
| PaymentProperties.SavePaymentsTwice | src/Middleware/src/Headstart.API/Commands/PaymentCommand.cs:57-71 | under the same hypotheses as SavePaymentsSettles, a repeated SavePayments returns the same payments, and its only call is the purchase-order re-patch |
| PaymentCommands.PaymentCommand.SavePayments | src/Middleware/src/Headstart.API/Commands/PaymentCommand.cs:57-71 | new store and result equal the SavePayments function; for a well-formed request with compatible IDs (new, the same-type payment's, or a stale payment's) the result is settled |
| PaymentCommands.PaymentCommand.DeleteStalePayments | src/Middleware/src/Headstart.API/Commands/PaymentCommand.cs:161-188 | the loop over a copy, proved against the stale-deletion function; with unique IDs, the platform and the returned list both end as exactly the kept payments |
| PaymentCommands.PaymentCommand.UpdateCCPayment | src/Middleware/src/Headstart.API/Commands/PaymentCommand.cs:81-114 | the new store is that of the credit-card branch function |
| PaymentCommands.PaymentCommand.UpdatePoPayment | src/Middleware/src/Headstart.API/Commands/PaymentCommand.cs:123-138 | the new store is that of the purchase-order branch function |
| PaymentCommands.PaymentCommand.DeleteCreditCardPayment | src/Middleware/src/Headstart.API/Commands/PaymentCommand.cs:147-151 | a void, then a delete |
| PaymentCommands.PaymentCommand.CreatePayment | src/Middleware/src/Headstart.API/Commands/PaymentCommand.cs:89 | the payment is appended and the call logged |
| PaymentCommands.PaymentCommand.PatchPayment | src/Middleware/src/Headstart.API/Commands/PaymentCommand.cs:99-104 | the payment with the ID is patched and the call logged |
| PaymentCommands.PaymentCommand.DeletePayment | src/Middleware/src/Headstart.API/Commands/PaymentCommand.cs:150 | the payment with the ID is removed and the call logged |
| PaymentCommands.PaymentCommand.VoidTransaction | src/Middleware/src/Headstart.API/Commands/PaymentCommand.cs:149 | the void is logged, and the payment list is untouched |
| BuyerRules.SelectToken | src/Middleware/src/Headstart.API/Commands/BuyerCommand.cs:202 | the token is null exactly when no client was passed or no token was given; otherwise it is the given token |
| BuyerRules.SelectClient | src/Middleware/src/Headstart.API/Commands/BuyerCommand.cs:203 | the client is the one passed, or else the configured one |
| BuyerRules.FirstConfigFor | src/Middleware/src/Headstart.API/Commands/BuyerCommand.cs:178-179 | the result is a config of the buyer taken from the list; there is none exactly when the list has no config for the buyer |
| BuyerRules.ConfigsWithout | src/Middleware/src/Headstart.API/Commands/BuyerCommand.cs:316 | after the delete, exactly the configs with another ID remain |
| BuyerRules.CreateBuyerAndRelatedFunctionalResources | src/Middleware/src/Headstart.API/Commands/BuyerCommand.cs:195-242 | a buyer is returned exactly when one was sent, differing from it only in its ID: the assigned ID (the sent one, or `next` for none or `{buyerIncrementor}`) when the create succeeds, and the ID as sent (`{buyerIncrementor}` for none) when the platform already holds the assigned ID |
| BuyerProperties.CreateProvisions | src/Middleware/src/Headstart.API/Commands/BuyerCommand.cs:205-235 | a successful create issues exactly six calls, in order: (1) create the buyer; (2) the HSBaseBuyer profile; (3) the BuyerEmails sender; (4) the user incrementor, padding 5; (5) the location incrementor, padding 4; (6) the catalog assignment with all categories and not all products. The stored records match these calls |
| BuyerProperties.CreateWithoutIdUsesNext | src/Middleware/src/Headstart.API/Commands/BuyerCommand.cs:205-208 | a buyer with no ID gets the platform's next ID, and every resource uses it |
| BuyerProperties.CreateConflict | src/Middleware/src/Headstart.API/Commands/BuyerCommand.cs:205-241 | a rejected create is caught: the buyer comes back with the ID it was sent with, and nothing is provisioned |
| BuyerProperties.CreateOverExistingBuyerPatchesIt | src/Middleware/src/Headstart.API/Commands/BuyerCommand.cs:78-79 | when the buyer ID already exists, the create fails, yet the markup is patched onto the existing buyer |
| BuyerProperties.MarkupOutcomes | src/Middleware/src/Headstart.API/Commands/BuyerCommand.cs:252-272 | a null markup gives no call and 0; a missing buyer gives 0; otherwise the percent is stored on the buyer and returned |
| BuyerProperties.ImpersonationUpsert | src/Middleware/src/Headstart.API/Commands/BuyerCommand.cs:313-329 | four cases: (1) config exists, null request: the config is deleted and null returned; (2) config exists, request given: saved under the existing ID; (3) no config, null request: empty config; (4) no config, request given: created as `hs_admin_<buyerID>` with HSBaseBuyer, and the buyer's lookup then finds it |
| BuyerProperties.SaveImpersonationConfigDefaults | src/Middleware/src/Headstart.API/Commands/BuyerCommand.cs:280-292 | the two-argument overload issues every call through the configured client, without a token |
| BuyerProperties.CreateNeverDeletes | src/Middleware/src/Headstart.API/Commands/BuyerCommand.cs:77-83 | Create only appends calls and never issues a delete; buyers stay stored under their own IDs; with no config requested, it returns the empty config |
| BuyerProperties.CreateUsesConfiguredClient | src/Middleware/src/Headstart.API/Commands/BuyerCommand.cs:56 | Create(superBuyer) issues every call through the configured client, without a token |
| BuyerProperties.UpdateNeverDeletes | src/Middleware/src/Headstart.API/Commands/BuyerCommand.cs:111-118 | Update only appends calls and never issues a delete; with no config requested, it returns the empty config |
| BuyerProperties.UpdateForcesId | src/Middleware/src/Headstart.API/Commands/BuyerCommand.cs:109-113 | Update saves the buyer under buyerID whatever ID the body had, and buyers stay stored under their own IDs |
| BuyerProperties.GetDefaults | src/Middleware/src/Headstart.API/Commands/BuyerCommand.cs:138-166 | a missing buyer gives the empty aggregate; an absent markup reads as 0; the config is the buyer's first |
| BuyerProperties.UpdateThenGet | src/Middleware/src/Headstart.API/Commands/BuyerCommand.cs:104-131 | Get after Update reads the buyer back under buyerID, with the markup Update returned |
| BuyerCommands.BuyerCommand.Create | src/Middleware/src/Headstart.API/Commands/BuyerCommand.cs:51-63 | new state and result equal the Create function |
| BuyerCommands.BuyerCommand.CreateWith | src/Middleware/src/Headstart.API/Commands/BuyerCommand.cs:72-96 | new state and result equal the CreateWith function |
| BuyerCommands.BuyerCommand.Update | src/Middleware/src/Headstart.API/Commands/BuyerCommand.cs:104-131 | new state and result equal the Update function |
| BuyerCommands.BuyerCommand.Get | src/Middleware/src/Headstart.API/Commands/BuyerCommand.cs:138-166 | changes nothing; for a present buyer it returns that buyer with its markup, or 0 when unset; for a missing buyer, the empty aggregate |
| BuyerCommands.BuyerCommand.GetImpersonationByBuyerID | src/Middleware/src/Headstart.API/Commands/BuyerCommand.cs:173-186 | changes nothing; the result is a stored config of the buyer, or none when the buyer has none |
| BuyerCommands.BuyerCommand.CreateBuyerAndRelatedFunctionalResources | src/Middleware/src/Headstart.API/Commands/BuyerCommand.cs:195-242 | the sequence of platform calls, proved equal to the provisioning function |
| BuyerCommands.BuyerCommand.SaveMarkup | src/Middleware/src/Headstart.API/Commands/BuyerCommand.cs:264-265 | the markup patch and its defaults, proved equal to the markup function |
| BuyerCommands.BuyerCommand.CreateMarkup | src/Middleware/src/Headstart.API/Commands/BuyerCommand.cs:252-272 | equals the CreateMarkup function: it patches with the selected client and token |
| BuyerCommands.BuyerCommand.UpdateMarkup | src/Middleware/src/Headstart.API/Commands/BuyerCommand.cs:344-359 | equals the UpdateMarkup function: it patches with the configured client and no token |
| BuyerCommands.BuyerCommand.SaveImpersonationConfig | src/Middleware/src/Headstart.API/Commands/BuyerCommand.cs:280-292 | equals the two-argument upsert |
| BuyerCommands.BuyerCommand.SaveImpersonationConfigWith | src/Middleware/src/Headstart.API/Commands/BuyerCommand.cs:302-336 | equals the four-way upsert function |
| BuyerCommands.BuyerCommand.CreateBuyerCall | src/Middleware/src/Headstart.API/Commands/BuyerCommand.cs:206 | the platform's buyer create: a conflict on an existing ID, otherwise stored under the assigned ID |
| BuyerCommands.BuyerCommand.SaveBuyerCall | src/Middleware/src/Headstart.API/Commands/BuyerCommand.cs:113 | the buyer is stored under the given ID |
| BuyerCommands.BuyerCommand.PatchMarkupCall | src/Middleware/src/Headstart.API/Commands/BuyerCommand.cs:264 | not-found for a missing buyer, otherwise the markup percent is set |
| BuyerCommands.BuyerCommand.SaveAssignmentCall | src/Middleware/src/Headstart.API/Commands/BuyerCommand.cs:211-215 | the assignment is added and the call logged |
| BuyerCommands.BuyerCommand.SaveIncrementorCall | src/Middleware/src/Headstart.API/Commands/BuyerCommand.cs:224-227 | the incrementor is stored under its ID |
| BuyerCommands.BuyerCommand.DeleteConfigCall | src/Middleware/src/Headstart.API/Commands/BuyerCommand.cs:316 | the configs with that ID are removed |
| BuyerCommands.BuyerCommand.SaveConfigCall | src/Middleware/src/Headstart.API/Commands/BuyerCommand.cs:321 | the config replaces the one with that ID, under that ID |
| BuyerCommands.BuyerCommand.CreateConfigCall | src/Middleware/src/Headstart.API/Commands/BuyerCommand.cs:328 | a conflict on an existing ID, otherwise the config is appended |
| ExchangeRates.GroupsWhere | src/Middleware/src/Headstart.Common/Services/SebExchangeRatesService.cs:54 | the listing filter keeps exactly the groups that match, and never more groups than it was given |
| ExchangeRates.FirstCurrency | src/Middleware/src/Headstart.Common/Services/SebExchangeRatesService.cs:55 | none exactly when no group has a currency; otherwise the currency of one of the groups |
| ExchangeRates.GetCurrencyForUser | src/Middleware/src/Headstart.Common/Services/SebExchangeRatesService.cs:52-58 | a failure is always the "Exchange Rate Error" / "Exchange Rate Not Defined For User" ErrorCode |
| ExchangeRates.GetExchangeRatesForUser | src/Middleware/src/Headstart.Common/Services/SebExchangeRatesService.cs:65-70 | fails exactly when currency resolution fails |
| ExchangeRates.NoCurrencyOfKept | src/Middleware/src/Headstart.Common/Services/SebExchangeRatesService.cs:54-56 | after filtering, no currency is found exactly when no kept group has one |
| ExchangeRates.CurrencyOfFirstBuyerLocation | src/Middleware/src/Headstart.Common/Services/SebExchangeRatesService.cs:54-57 | success exactly when some BuyerLocation group has a currency; the currency is that of the first such group; earlier groups without one are skipped |
| ExchangeRates.OnlyBuyerLocationsCount | src/Middleware/src/Headstart.Common/Services/SebExchangeRatesService.cs:54 | groups of other types do not affect the result |
| ExchangeRates.TypeMatchIsExact | src/Middleware/src/Headstart.Common/Services/SebExchangeRatesService.cs:54 | example: a group typed "buyerlocation" is not considered |
| ExchangeRates.RatesForResolvedCurrency | src/Middleware/src/Headstart.Common/Services/SebExchangeRatesService.cs:65-70 | rates are requested for exactly the resolved currency; on failure the error propagates and the provider is not consulted |
| Pricing.CentsNearby | src/Middleware/src/Headstart.API/Commands/MeProductCommand.cs:234 | the whole number of cents is within half a cent of the value |
| Pricing.Round2Bounds | src/Middleware/src/Headstart.API/Commands/MeProductCommand.cs:234 | the rounded value is a whole number of cents within 0.005 of the input |
| Pricing.Round2Nearest | src/Middleware/src/Headstart.API/Commands/MeProductCommand.cs:234 | no whole number of cents is closer to the input than the rounded value |
| Pricing.Round2TiesToEven | src/Middleware/src/Headstart.API/Commands/MeProductCommand.cs:234 | a value exactly halfway between two cents rounds to the even one (banker's rounding) |
| Pricing.Round2KeepsCents | src/Middleware/src/Headstart.API/Commands/MeProductCommand.cs:234 | a value already in whole cents is unchanged |
| Pricing.MarkupMultiplier | src/Middleware/src/Headstart.API/Commands/MeProductCommand.cs:299-300 | the percentage is recovered from the multiplier: (m - 1) * 100 = percent |
| Pricing.TenPercentMarkup | src/Middleware/src/Headstart.API/Commands/MeProductCommand.cs:299-300 | example: 10 gives 1.10, and 0 gives 1 |
| Pricing.GetDefaultMarkupMultiplier | src/Middleware/src/Headstart.API/Commands/MeProductCommand.cs:289-307 | for a buyer found through the buyer command's Get, the result is its markup percent (0 when unset) / 100 + 1; when the user or buyer cannot be found, it is 0 |
| Pricing.FindRate | src/Middleware/src/Headstart.API/Commands/MeProductCommand.cs:274 | none exactly when no entry has the currency; otherwise an entry for that currency |
| Pricing.RateFor | src/Middleware/src/Headstart.API/Commands/MeProductCommand.cs:274-275 | a divisor exists exactly when the first matching entry has a non-zero rate |
| Pricing.ConvertPrice | src/Middleware/src/Headstart.API/Commands/MeProductCommand.cs:271-281 | when no usable rate exists, the price is unchanged |
| Pricing.ConvertsBack | src/Middleware/src/Headstart.API/Commands/MeProductCommand.cs:269-282 | the converted price times the rate is the input price; without a usable rate it is the input price |
| Pricing.ConvertPriceUsesFirstEntry | src/Middleware/src/Headstart.API/Commands/MeProductCommand.cs:274 | later entries for the same currency are never used |
| Pricing.ConvertPriceFallsBack | src/Middleware/src/Headstart.API/Commands/MeProductCommand.cs:271-281 | a zero rate, a null rate or no entry each leave the price unchanged |
| Pricing.MarkUpBreaks | src/Middleware/src/Headstart.API/Commands/MeProductCommand.cs:232-239 | every break keeps its place and quantity, and gets the marked-up, rounded and converted price |
| Pricing.ConvertBreaks | src/Middleware/src/Headstart.API/Commands/MeProductCommand.cs:243-251 | every break keeps its place and quantity, and gets its price converted from USD |
| Pricing.ApplyBuyerProductPricing | src/Middleware/src/Headstart.API/Commands/MeProductCommand.cs:219-260 | only the price breaks change; the product, its xp, its schedule ID, and whether it has a schedule and breaks all stay as they were |
| Pricing.DefaultSchedulePricing | src/Middleware/src/Headstart.API/Commands/MeProductCommand.cs:229-239 | on the product's own schedule, the break count and quantities are kept; each new price times the rate for the product's currency (USD by default) equals round2(price × multiplier); without a usable rate, it equals round2(price × multiplier) |
| Pricing.DefaultPriceExample | src/Middleware/src/Headstart.API/Commands/MeProductCommand.cs:234-236 | example: 100.00 at 10% with a rate of 2 gives 55.00 |
| Pricing.CustomSchedulePricing | src/Middleware/src/Headstart.API/Commands/MeProductCommand.cs:241-251 | on a custom schedule, the break count and quantities are kept; each new price times the USD rate equals the old price; without a rate, nothing changes |
| Pricing.CustomScheduleIgnoresMarkup | src/Middleware/src/Headstart.API/Commands/MeProductCommand.cs:243-251 | the multiplier has no effect on a custom schedule |
| Pricing.UnpricedProductUnchanged | src/Middleware/src/Headstart.API/Commands/MeProductCommand.cs:223 | a product with no schedule, or a schedule with no break list, is returned unchanged |
| Pricing.ZeroMultiplierZeroesDefaultPrices | src/Middleware/src/Headstart.API/Commands/MeProductCommand.cs:289-307 | with the failure multiplier 0, every default-schedule price becomes 0 |
| Pricing.ConvertOptions | src/Middleware/src/Headstart.API/Commands/MeProductCommand.cs:136-144 | an option without a surcharge is kept as it is; an option with one has it converted |
| Pricing.ConvertSpecs | src/Middleware/src/Headstart.API/Commands/MeProductCommand.cs:134-146 | every spec keeps its place, and its options are converted |
| Pricing.ApplySpecMarkups | src/Middleware/src/Headstart.API/Commands/MeProductCommand.cs:129-153 | the spec count is kept; when some spec has no option list, the result is empty |
| Pricing.SpecSurchargesConverted | src/Middleware/src/Headstart.API/Commands/MeProductCommand.cs:136-144 | IDs and places are kept and null surcharges are untouched; a surcharge's new value times the rate is the old one: converted, never marked up |
| Pricing.SpecsUnchangedWithoutRate | src/Middleware/src/Headstart.API/Commands/MeProductCommand.cs:138-142 | without a usable rate, the specs come back identical, so no markup is ever applied to them |
| Pricing.ApplyBuyerPricing | src/Middleware/src/Headstart.API/Commands/MeProductCommand.cs:97-120 | variants are untouched; a failed rate fetch changes nothing; otherwise the product is priced; a product without xp keeps its specs |
| Pricing.SpecsShareProductCurrency | src/Middleware/src/Headstart.API/Commands/MeProductCommand.cs:108-110 | surcharges are converted with the same currency as the product's default schedule |
| Pricing.MeCurrencyForUser | src/Middleware/src/Headstart.API/Commands/MeProductCommand.cs:314-328 | none exactly when no group whose type matches "BuyerLocation", ignoring case, has a currency |
| Pricing.MeExchangeRatesForUser | src/Middleware/src/Headstart.API/Commands/MeProductCommand.cs:335-348 | the rate fetch succeeds exactly when the copied currency lookup does |
| Pricing.ExactMatchIgnoresCaseToo | src/Middleware/src/Headstart.API/Commands/MeProductCommand.cs:319 | an exact "BuyerLocation" match is also a match that ignores case |
| Pricing.CopiesAgreeWithoutCaseVariants | src/Middleware/src/Headstart.API/Commands/MeProductCommand.cs:319-320 | with no group typed as a case variant of "BuyerLocation", this copy and the service resolve the same currency and rates |
| Pricing.CopiesDisagreeOnCase | src/Middleware/src/Headstart.API/Commands/MeProductCommand.cs:319 | a "buyerlocation" group is accepted here but rejected by the service |
| Pricing.Query | src/Middleware/src/Headstart.API/Commands/MeProductCommand.cs:166-167 | the search text defaults to ""; the fields are searched only when a search is given |
| Pricing.PriceAll | src/Middleware/src/Headstart.API/Commands/MeProductCommand.cs:186 | every item is priced with the same multiplier and rate table, in order |
| Pricing.List | src/Middleware/src/Headstart.API/Commands/MeProductCommand.cs:161-193 | ExactPhrasePrefix runs first, then AnyTerm only if that finds nothing; when both find nothing, the page is empty and neither the multiplier nor the rates are fetched; otherwise both are fetched and every item found is priced, or returned unpriced when the rate fetch fails |

## Left out

- The remote OrderCloud client, the card processor and the rate provider have no
  network behaviour, validation or authorisation. They are the in-memory store, a
  call log and function parameters.
- A platform 404 on deleting or patching a payment is not modelled. A missing ID is
  a no-op on the store, and the call is still logged. Whether the platform rejects
  the second Delete of a stale purchase order is therefore outside the model.
- The platform's payment-ID assignment is not modelled: a created payment keeps the
  ID it was sent with.
- PaymentProperties.SavePaymentsSettles and SavePaymentsTwice exclude a requested ID
  that equals the ID of a kept payment of another type. The platform would reject
  that create as a conflict, and the payment store does not model payment conflicts.
- The ID the platform gives a buyer created as `{buyerIncrementor}` is a parameter
  (`next`).
- Platform failures are deterministic. A create with an existing ID is a conflict,
  and a patch of a missing buyer is not-found. Other network or permission failures
  are not modelled.
- The worksheet fetch and the two payment listings are not modelled. `SavePayments`
  takes the order (ID and total) and the platform's payment list.
- The in-place updates of the request objects are modelled as returned values. This
  covers `requestedPayment.Amount`, `superBuyer.Buyer.ID` and the impersonation
  fields. The caller's objects are therefore not shown changing.
- ApplyBuyerProductPricing and ApplySpecMarkups rewrite price-break and option objects
  in place. The model returns repriced copies instead. `SuperHSMeProduct.PriceSchedule`,
  which is the same object as the product's schedule, is not a separate field. That
  aliasing appears only where it changes a result: a product without xp comes back
  repriced from ApplyBuyerPricing.
- The seeding client and the configured client are two labels on one store; separate
  environments are not modelled.
- A null `superBuyer` is not modelled. A null buyer, markup and config are each
  modelled.
- `SaveAsync` of an impersonation config replaces the config with that ID. Platform
  upsert details beyond that are not modelled.
- GetImpersonationByBuyerID: a failed list is not modelled. The `BuyerID=` filter is
  an exact comparison, with no wildcard semantics.
- `Task.WhenAll` fan-out is sequential in the model.
- The one-hour buyer cache in GetDefaultMarkupMultiplier is a plain lookup.
- C# `decimal` is modelled as exact rationals, so its 28-digit precision and
  overflow are not captured.
- Rates are `double` in the source; they are taken as exact values.
- Ignoring case is modelled on ASCII letters only.
- A failed or null-item product search is not modelled. Filters, page and sort pass
  through to both searches and are not modelled.
- A spec list that is null is not modelled. A null option list is modelled.
- MeProductCommand.Get, RequestProductInfo (an email send) and every logging call are
  not modelled.
- Coding.cs is not part of this model: it only wraps JSON, Base64Url and SHA-256
  library code.
- ConfigSettings.cs is not part of this model: it is configuration reading behind a
  locked singleton.
- AppEnvSettingsModel.cs is not part of this model: it is a property bag with no
  behaviour.
- ProductController.cs is not part of this model: it only routes HTTP requests to a
  command that is not shown.
- Concurrent SavePayments calls on the same order are not modelled.
