/**
 * HSBuyerCommand as the source writes it: each command issues its platform
 * calls one after the other, overwriting fields of the request on the way.
 * The platform's records and the call log are fields of the object; every
 * method is proved to have exactly the effect of the matching function of
 * module BuyerRules, so the properties of module BuyerProperties hold of it.
 */
module BuyerCommands {
  import opened Wrappers
  import opened BuyerRules

  class BuyerCommand {
    var buyers: map<string, Buyer>
    var assignments: set<Assignment>
    var incrementors: map<string, Incrementor>
    var configs: seq<ImpersonationConfig>
    /** The mutating calls issued so far, oldest first. */
    var calls: seq<Call>

    function State(): Platform
      reads this
    {
      Platform(buyers, assignments, incrementors, configs, calls)
    }

    constructor(p: Platform)
      ensures State() == p.(calls := [])
    {
      buyers := p.buyers;
      assignments := p.assignments;
      incrementors := p.incrementors;
      configs := p.configs;
      calls := [];
    }

    // -------------------------------------------------------------------
    // The platform's operations
    // -------------------------------------------------------------------

    /** Buyers.CreateAsync; `next` is the number the platform's buyer incrementor gives next. */
    method CreateBuyerCall(client: Client, b: Buyer, token: Option<string>, next: string)
      returns (r: Result<Buyer, PlatformError>)
      modifies this
      ensures (State(), r) == CreateBuyerOp(old(State()), client, b, token, next)
    {
      calls := calls + [CreateBuyer(client, b, token)];
      var id := AssignedID(b, next);
      if id in buyers {
        return Failure(Conflict);
      }
      var stored := b.(id := Some(id));
      buyers := buyers[id := stored];
      r := Success(stored);
    }

    /** Buyers.SaveAsync */
    method SaveBuyerCall(buyerID: string, b: Buyer) returns (saved: Buyer)
      modifies this
      ensures (State(), saved) == SaveBuyerOp(old(State()), buyerID, b)
    {
      calls := calls + [SaveBuyer(buyerID, b)];
      saved := b.(id := Some(buyerID));
      buyers := buyers[buyerID := saved];
    }

    /** Buyers.PatchAsync of `xp.MarkupPercent` */
    method PatchMarkupCall(client: Client, buyerID: string, percent: int, token: Option<string>)
      returns (r: Result<Buyer, PlatformError>)
      modifies this
      ensures (State(), r) == PatchMarkupOp(old(State()), client, buyerID, percent, token)
    {
      calls := calls + [PatchBuyerMarkup(client, buyerID, percent, token)];
      if buyerID !in buyers {
        return Failure(NotFound);
      }
      var patched := buyers[buyerID].(markupPercent := Some(percent));
      buyers := buyers[buyerID := patched];
      r := Success(patched);
    }

    method SaveAssignmentCall(client: Client, a: Assignment, token: Option<string>)
      modifies this
      ensures State() == SaveAssignmentOp(old(State()), client, a, token)
    {
      calls := calls + [SaveAssignment(client, a, token)];
      assignments := assignments + {a};
    }

    method SaveIncrementorCall(client: Client, inc: Incrementor, token: Option<string>)
      modifies this
      ensures State() == SaveIncrementorOp(old(State()), client, inc, token)
    {
      calls := calls + [SaveIncrementor(client, inc, token)];
      incrementors := incrementors[inc.id := inc];
    }

    method DeleteConfigCall(client: Client, id: Option<string>)
      modifies this
      ensures State() == DeleteConfigOp(old(State()), client, id)
    {
      calls := calls + [DeleteConfig(client, id)];
      configs := ConfigsWithout(configs, id);
    }

    method SaveConfigCall(client: Client, id: Option<string>, c: ImpersonationConfig, token: Option<string>)
      returns (saved: ImpersonationConfig)
      modifies this
      ensures (State(), saved) == SaveConfigOp(old(State()), client, id, c, token)
    {
      calls := calls + [SaveConfig(client, id, c, token)];
      saved := c.(id := id);
      configs := ConfigsWithout(configs, id) + [saved];
    }

    method CreateConfigCall(client: Client, c: ImpersonationConfig) returns (r: Result<ImpersonationConfig, PlatformError>)
      modifies this
      ensures (State(), r) == CreateConfigOp(old(State()), client, c)
    {
      calls := calls + [CreateConfig(client, c)];
      if exists i :: 0 <= i < |configs| && configs[i].id == c.id {
        return Failure(Conflict);
      }
      configs := configs + [c];
      r := Success(c);
    }

    // -------------------------------------------------------------------
    // The commands
    // -------------------------------------------------------------------

    /** Create(superBuyer): the general Create with the configured client and no token. */
    method Create(sb: SuperBuyer, next: string) returns (r: SuperBuyer)
      modifies this
      ensures (State(), r) == BuyerRules.Create(old(State()), sb, next)
    {
      r := CreateWith(sb, None, Some(Configured), next);
    }

    /** Create(superBuyer, accessToken, oc) */
    method CreateWith(sb: SuperBuyer, accessToken: Option<string>, oc: Option<Client>, next: string) returns (r: SuperBuyer)
      modifies this
      ensures (State(), r) == BuyerRules.CreateWith(old(State()), sb, accessToken, oc, next)
    {
      var created := CreateBuyerAndRelatedFunctionalResources(sb.buyer, accessToken, oc, next);
      if created.None? {
        return EmptySuperBuyer;
      }
      var id := created.value.id.value;
      var markup := CreateMarkup(sb.markup, id, accessToken, oc);
      var config := Some(EmptyConfig);
      if sb.config.Some? {
        config := SaveImpersonationConfigWith(sb.config, id, accessToken, oc);
      }
      r := SuperBuyer(created, Some(markup), config);
    }

    /** Update: forces the buyer's ID to buyerID before saving it. */
    method Update(buyerID: string, sb: SuperBuyer) returns (r: SuperBuyer)
      modifies this
      ensures (State(), r) == BuyerRules.Update(old(State()), buyerID, sb)
    {
      if sb.buyer.None? {
        return EmptySuperBuyer;
      }
      var b := sb.buyer.value.(id := Some(buyerID));
      var saved := SaveBuyerCall(buyerID, b);
      var markup := UpdateMarkup(sb.markup, buyerID);
      var config := Some(EmptyConfig);
      if sb.config.Some? {
        config := SaveImpersonationConfig(sb.config, buyerID);
      }
      r := SuperBuyer(Some(saved), Some(markup), config);
    }

    /** Get: reads the buyer and its config; changes nothing. */
    method Get(buyerID: string) returns (r: SuperBuyer)
      ensures r == BuyerRules.Get(State(), buyerID)
      ensures buyerID in buyers ==>
                r.buyer == Some(buyers[buyerID])
                && r.markup == Some(BuyerMarkup(buyers[buyerID].markupPercent.GetOr(0)))
      ensures buyerID !in buyers ==> r == EmptySuperBuyer
    {
      var config := GetImpersonationByBuyerID(buyerID);
      if buyerID !in buyers {
        return EmptySuperBuyer;
      }
      var b := buyers[buyerID];
      r := SuperBuyer(Some(b), Some(BuyerMarkup(b.markupPercent.GetOr(0))), config);
    }

    /** GetImpersonationByBuyerID: the first config listed for the buyer, if any. */
    method GetImpersonationByBuyerID(buyerID: string) returns (r: Option<ImpersonationConfig>)
      ensures r == BuyerRules.GetImpersonationByBuyerID(State(), buyerID)
      ensures r.Some? ==> r.value in configs && r.value.buyerID == Some(buyerID)
      ensures r.None? ==> forall c :: c in configs ==> c.buyerID != Some(buyerID)
    {
      r := FirstConfigFor(configs, buyerID);
    }

    method CreateBuyerAndRelatedFunctionalResources(buyer: Option<Buyer>, accessToken: Option<string>,
                                                    oc: Option<Client>, next: string) returns (r: Option<Buyer>)
      modifies this
      ensures (State(), r) == BuyerRules.CreateBuyerAndRelatedFunctionalResources(old(State()), buyer, accessToken, oc, next)
    {
      if buyer.None? {
        return None;
      }
      var token := SelectToken(accessToken, oc);
      var client := SelectClient(oc);
      var b := buyer.value.(id := Some(buyer.value.id.GetOr(BuyerIncrementor)));
      var created := CreateBuyerCall(client, b, accessToken, next);
      if created.Failure? {
        return Some(b);
      }
      var id := AssignedID(b, next);
      SaveAssignmentCall(client, SecurityProfileAssignment(id, BaseBuyerRole), token);
      SaveAssignmentCall(client, MessageSenderAssignment(BuyerEmails, id), token);
      SaveIncrementorCall(client, Incrementor(id + "-UserIncrementor", 0, 5, "User Incrementor"), token);
      SaveIncrementorCall(client, Incrementor(id + "-LocationIncrementor", 0, 4, "Location Incrementor"), token);
      SaveAssignmentCall(client, CatalogAssignment(id, id, true, false), token);
      r := Some(b.(id := Some(id)));
    }

    method SaveMarkup(client: Client, markup: Option<BuyerMarkup>, buyerID: string, token: Option<string>)
      returns (r: BuyerMarkup)
      modifies this
      ensures (State(), r) == BuyerRules.SaveMarkup(old(State()), client, markup, buyerID, token)
    {
      if markup.None? {
        return BuyerMarkup(0);
      }
      var updated := PatchMarkupCall(client, buyerID, markup.value.percent, token);
      if updated.Failure? {
        return BuyerMarkup(0);
      }
      r := BuyerMarkup(updated.value.markupPercent.GetOr(0));
    }

    method CreateMarkup(markup: Option<BuyerMarkup>, buyerID: string, accessToken: Option<string>, oc: Option<Client>)
      returns (r: BuyerMarkup)
      modifies this
      ensures (State(), r) == BuyerRules.CreateMarkup(old(State()), markup, buyerID, accessToken, oc)
    {
      r := SaveMarkup(SelectClient(oc), markup, buyerID, SelectToken(accessToken, oc));
    }

    method UpdateMarkup(markup: Option<BuyerMarkup>, buyerID: string) returns (r: BuyerMarkup)
      modifies this
      ensures (State(), r) == BuyerRules.UpdateMarkup(old(State()), markup, buyerID)
    {
      r := SaveMarkup(Configured, markup, buyerID, None);
    }

    /** SaveImpersonationConfig(impersonation, buyerID) */
    method SaveImpersonationConfig(imp: Option<ImpersonationConfig>, buyerID: string) returns (r: Option<ImpersonationConfig>)
      modifies this
      ensures (State(), r) == BuyerRules.SaveImpersonationConfig(old(State()), imp, buyerID)
    {
      r := SaveImpersonationConfigWith(imp, buyerID, None, Some(Configured));
    }

    /** SaveImpersonationConfig(impersonation, buyerID, accessToken, oc) */
    method SaveImpersonationConfigWith(imp: Option<ImpersonationConfig>, buyerID: string, accessToken: Option<string>,
                                       oc: Option<Client>) returns (r: Option<ImpersonationConfig>)
      modifies this
      ensures (State(), r) == BuyerRules.SaveImpersonationConfigWith(old(State()), imp, buyerID, accessToken, oc)
    {
      var token := SelectToken(accessToken, oc);
      var client := SelectClient(oc);
      var current := GetImpersonationByBuyerID(buyerID);
      if current.Some? && imp.None? {
        DeleteConfigCall(client, current.value.id);
        return None;
      } else if current.Some? {
        var saved := SaveConfigCall(client, current.value.id, imp.value, token);
        return Some(saved);
      } else if imp.None? {
        return Some(EmptyConfig);
      }
      var created := CreateConfigCall(client, NewConfig(imp.value, buyerID));
      r := if created.Success? then Some(created.value) else Some(EmptyConfig);
    }
  }
}
