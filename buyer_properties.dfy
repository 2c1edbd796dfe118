/**
 * What the buyer commands guarantee, proved about the functions of module
 * BuyerRules.
 */
module BuyerProperties {
  import opened Wrappers
  import opened BuyerRules

  /** The calls an operation appended to the log, given the log before it. */
  ghost predicate Extends(before: seq<Call>, after: seq<Call>)
  {
    |before| <= |after| && after[..|before|] == before
  }

  ghost predicate NoDelete(before: seq<Call>, after: seq<Call>)
  {
    forall i :: |before| <= i < |after| ==> !after[i].DeleteConfig?
  }

  /** Whether a call goes through the configured client without a token. */
  predicate ThroughConfiguredWithoutToken(c: Call)
  {
    match c
    case CreateBuyer(client, _, token) => client == Configured && token.None?
    case SaveBuyer(_, _) => true
    case PatchBuyerMarkup(client, _, _, token) => client == Configured && token.None?
    case SaveAssignment(client, _, token) => client == Configured && token.None?
    case SaveIncrementor(client, _, token) => client == Configured && token.None?
    case DeleteConfig(client, _) => client == Configured
    case SaveConfig(client, _, _, token) => client == Configured && token.None?
    case CreateConfig(client, _) => client == Configured
  }

  // ---------------------------------------------------------------------
  // Provisioning a new buyer
  // ---------------------------------------------------------------------

  /**
   * A buyer whose assigned ID is free is created, then receives, in this
   * order and under that ID, the base security profile, the "BuyerEmails"
   * sender, the user incrementor (padding 5), the location incrementor
   * (padding 4) and its own catalog with all categories and not all
   * products. The buyer creation itself carries the access token as given;
   * the five resources carry the selected token.
   */
  lemma CreateProvisions(p: Platform, buyer: Buyer, accessToken: Option<string>, oc: Option<Client>, next: string)
    requires AssignedID(buyer.(id := Some(buyer.id.GetOr(BuyerIncrementor))), next) !in p.buyers
    ensures var b := buyer.(id := Some(buyer.id.GetOr(BuyerIncrementor)));
      var id := AssignedID(b, next);
      var client := SelectClient(oc);
      var token := SelectToken(accessToken, oc);
      var (p', r) := CreateBuyerAndRelatedFunctionalResources(p, Some(buyer), accessToken, oc, next);
      && r == Some(b.(id := Some(id)))
      && p'.calls == p.calls + [
           CreateBuyer(client, b, accessToken),
           SaveAssignment(client, SecurityProfileAssignment(id, "HSBaseBuyer"), token),
           SaveAssignment(client, MessageSenderAssignment("BuyerEmails", id), token),
           SaveIncrementor(client, Incrementor(id + "-UserIncrementor", 0, 5, "User Incrementor"), token),
           SaveIncrementor(client, Incrementor(id + "-LocationIncrementor", 0, 4, "Location Incrementor"), token),
           SaveAssignment(client, CatalogAssignment(id, id, true, false), token)]
      && p'.buyers == p.buyers[id := b.(id := Some(id))]
      && p'.assignments == p.assignments + {SecurityProfileAssignment(id, "HSBaseBuyer"),
                                            MessageSenderAssignment("BuyerEmails", id),
                                            CatalogAssignment(id, id, true, false)}
      && p'.incrementors == p.incrementors[id + "-UserIncrementor" := Incrementor(id + "-UserIncrementor", 0, 5, "User Incrementor")]
                                          [id + "-LocationIncrementor" := Incrementor(id + "-LocationIncrementor", 0, 4, "Location Incrementor")]
      && p'.configs == p.configs
  {
  }

  /** A buyer sent without an ID gets the platform's next number, and every resource uses that number. */
  lemma CreateWithoutIdUsesNext(p: Platform, buyer: Buyer, accessToken: Option<string>, oc: Option<Client>, next: string)
    requires buyer.id.None? && next !in p.buyers
    ensures var (p', r) := CreateBuyerAndRelatedFunctionalResources(p, Some(buyer), accessToken, oc, next);
      && r == Some(buyer.(id := Some(next)))
      && next in p'.buyers
      && SecurityProfileAssignment(next, BaseBuyerRole) in p'.assignments
      && CatalogAssignment(next, next, true, false) in p'.assignments
  {
    CreateProvisions(p, buyer, accessToken, oc, next);
  }

  /** A create the platform rejects is caught: the buyer comes back with the ID it was sent with, and nothing is provisioned. */
  lemma CreateConflict(p: Platform, buyer: Buyer, accessToken: Option<string>, oc: Option<Client>, next: string)
    requires AssignedID(buyer.(id := Some(buyer.id.GetOr(BuyerIncrementor))), next) in p.buyers
    ensures var b := buyer.(id := Some(buyer.id.GetOr(BuyerIncrementor)));
      var (p', r) := CreateBuyerAndRelatedFunctionalResources(p, Some(buyer), accessToken, oc, next);
      && r == Some(b)
      && p' == p.(calls := p.calls + [CreateBuyer(SelectClient(oc), b, accessToken)])
  {
  }

  /**
   * Creating an aggregate for a buyer ID that already exists: the buyer
   * create fails and is caught, yet the markup patch that follows goes to
   * the existing buyer under that ID.
   */
  lemma CreateOverExistingBuyerPatchesIt(p: Platform, sb: SuperBuyer, accessToken: Option<string>,
                                         oc: Option<Client>, next: string)
    requires sb.buyer.Some? && sb.buyer.value.id.Some? && sb.buyer.value.id.value != BuyerIncrementor
    requires sb.buyer.value.id.value in p.buyers
    requires sb.markup.Some?
    ensures var x := sb.buyer.value.id.value;
      var (p', r) := CreateWith(p, sb, accessToken, oc, next);
      && r.buyer == sb.buyer
      && r.markup == sb.markup
      && x in p'.buyers && p'.buyers[x] == p.buyers[x].(markupPercent := Some(sb.markup.value.percent))
  {
    var x := sb.buyer.value.id.value;
    var (p1, created) := CreateBuyerAndRelatedFunctionalResources(p, sb.buyer, accessToken, oc, next);
    assert sb.buyer.value.(id := Some(x)) == sb.buyer.value;
    CreateConflict(p, sb.buyer.value, accessToken, oc, next);
    var (p2, markup) := CreateMarkup(p1, sb.markup, x, accessToken, oc);
    assert p2.buyers[x] == p.buyers[x].(markupPercent := Some(sb.markup.value.percent));
    if sb.config.Some? {
      ConfigStep(p2, sb.config, x, accessToken, oc);
    }
  }

  // ---------------------------------------------------------------------
  // Markup
  // ---------------------------------------------------------------------

  /** The markup step: no call and 0 without a markup; 0 when the buyer is missing; else the percent, stored on the buyer. */
  lemma MarkupOutcomes(p: Platform, client: Client, markup: Option<BuyerMarkup>, buyerID: string, token: Option<string>)
    ensures var (p', m) := SaveMarkup(p, client, markup, buyerID, token);
      && (markup.None? ==> p' == p && m == BuyerMarkup(0))
      && (markup.Some? && buyerID !in p.buyers ==>
            m == BuyerMarkup(0) && p' == p.(calls := p.calls + [PatchBuyerMarkup(client, buyerID, markup.value.percent, token)]))
      && (markup.Some? && buyerID in p.buyers ==>
            m == markup.value
            && p'.buyers == p.buyers[buyerID := p.buyers[buyerID].(markupPercent := Some(markup.value.percent))]
            && p'.calls == p.calls + [PatchBuyerMarkup(client, buyerID, markup.value.percent, token)])
  {
  }

  // ---------------------------------------------------------------------
  // Impersonation configs
  // ---------------------------------------------------------------------

  lemma {:induction false} FirstConfigForAppend(cs: seq<ImpersonationConfig>, c: ImpersonationConfig, buyerID: string)
    ensures FirstConfigFor(cs + [c], buyerID) ==
      if FirstConfigFor(cs, buyerID).Some? then FirstConfigFor(cs, buyerID)
      else if c.buyerID == Some(buyerID) then Some(c) else None
  {
    if cs == [] {
      assert [c][1..] == [];
    } else {
      assert (cs + [c])[0] == cs[0];
      assert (cs + [c])[1..] == cs[1..] + [c];
      FirstConfigForAppend(cs[1..], c, buyerID);
    }
  }

  /**
   * The upsert rule, case by case: with a config for the buyer, a null
   * request deletes it and returns null, and a request is saved under its
   * ID; without one, a null request does nothing and returns an empty
   * config, and a request becomes "hs_admin_<buyerID>" with the base
   * security profile, which the buyer's lookup then finds.
   */
  lemma ImpersonationUpsert(p: Platform, imp: Option<ImpersonationConfig>, buyerID: string,
                            accessToken: Option<string>, oc: Option<Client>)
    ensures var client := SelectClient(oc);
      var token := SelectToken(accessToken, oc);
      var current := GetImpersonationByBuyerID(p, buyerID);
      var (p', r) := SaveImpersonationConfigWith(p, imp, buyerID, accessToken, oc);
      && (current.Some? && imp.None? ==>
            r.None? && p'.calls == p.calls + [DeleteConfig(client, current.value.id)]
            && forall c :: c in p'.configs ==> c.id != current.value.id)
      && (current.Some? && imp.Some? ==>
            r == Some(imp.value.(id := current.value.id))
            && p'.calls == p.calls + [SaveConfig(client, current.value.id, imp.value, token)]
            && r.value in p'.configs)
      && (current.None? && imp.None? ==> p' == p && r == Some(EmptyConfig))
      && (current.None? && imp.Some? ==>
            var c := imp.value.(buyerID := Some(buyerID), securityProfileID := Some("HSBaseBuyer"),
                                id := Some("hs_admin_" + buyerID));
            && p'.calls == p.calls + [CreateConfig(client, c)]
            && ((forall d :: d in p.configs ==> d.id != c.id) ==>
                  r == Some(c) && GetImpersonationByBuyerID(p', buyerID) == Some(c))
            && ((exists d :: d in p.configs && d.id == c.id) ==> r == Some(EmptyConfig)))
  {
    var current := GetImpersonationByBuyerID(p, buyerID);
    if current.None? && imp.Some? {
      var c := NewConfig(imp.value, buyerID);
      if forall d :: d in p.configs ==> d.id != c.id {
        FirstConfigForAppend(p.configs, c, buyerID);
      }
    }
  }

  /** The two-argument overload is the general one with the configured client and no token. */
  lemma SaveImpersonationConfigDefaults(p: Platform, imp: Option<ImpersonationConfig>, buyerID: string)
    ensures var (p', r) := SaveImpersonationConfig(p, imp, buyerID);
      forall i :: |p.calls| <= i < |p'.calls| ==> ThroughConfiguredWithoutToken(p'.calls[i])
  {
  }

  // ---------------------------------------------------------------------
  // Create and Update
  // ---------------------------------------------------------------------

  /**
   * The log grew by calls only, none of them a config delete, and, when
   * `configured` holds, each through the configured client without a token.
   */
  ghost predicate Appended(before: seq<Call>, after: seq<Call>, configured: bool)
  {
    && Extends(before, after) && NoDelete(before, after)
    && (configured ==> forall i :: |before| <= i < |after| ==> ThroughConfiguredWithoutToken(after[i]))
  }

  lemma AppendedTrans(a: seq<Call>, b: seq<Call>, c: seq<Call>, configured: bool)
    requires Appended(a, b, configured) && Appended(b, c, configured)
    ensures Appended(a, c, configured)
  {
    assert c[..|a|] == c[..|b|][..|a|];
  }

  lemma ResourcesStep(p: Platform, buyer: Option<Buyer>, accessToken: Option<string>, oc: Option<Client>, next: string)
    ensures var p' := CreateBuyerAndRelatedFunctionalResources(p, buyer, accessToken, oc, next).0;
      && Appended(p.calls, p'.calls, oc == Some(Configured) && accessToken.None?)
      && (Valid(p) ==> Valid(p'))
  {
    if buyer.Some? {
      var flag := oc == Some(Configured) && accessToken.None?;
      var token := SelectToken(accessToken, oc);
      var client := SelectClient(oc);
      var b := buyer.value.(id := Some(buyer.value.id.GetOr(BuyerIncrementor)));
      var (p1, created) := CreateBuyerOp(p, client, b, accessToken, next);
      assert p1.calls == p.calls + [CreateBuyer(client, b, accessToken)];
      LogOne(p.calls, CreateBuyer(client, b, accessToken), flag);
      if created.Success? {
        var id := AssignedID(b, next);
        ProvisionAppends(p1, client, id, token);
        AppendedTrans(p.calls, p1.calls, Provision(p1, client, id, token).calls, flag);
      }
    }
  }

  /** Provisioning appends five calls through one client and token, and leaves the buyers alone. */
  lemma ProvisionAppends(p: Platform, client: Client, id: string, token: Option<string>)
    ensures var p' := Provision(p, client, id, token);
      && p'.buyers == p.buyers
      && Appended(p.calls, p'.calls, client == Configured && token.None?)
  {
    var p' := Provision(p, client, id, token);
    assert p'.calls == p.calls + [
      SaveAssignment(client, SecurityProfileAssignment(id, BaseBuyerRole), token),
      SaveAssignment(client, MessageSenderAssignment(BuyerEmails, id), token),
      SaveIncrementor(client, Incrementor(id + "-UserIncrementor", 0, 5, "User Incrementor"), token),
      SaveIncrementor(client, Incrementor(id + "-LocationIncrementor", 0, 4, "Location Incrementor"), token),
      SaveAssignment(client, CatalogAssignment(id, id, true, false), token)];
  }

  lemma MarkupStep(p: Platform, markup: Option<BuyerMarkup>, buyerID: string, accessToken: Option<string>, oc: Option<Client>)
    ensures var p' := CreateMarkup(p, markup, buyerID, accessToken, oc).0;
      && Appended(p.calls, p'.calls, oc == Some(Configured) && accessToken.None?)
      && (Valid(p) ==> Valid(p'))
  {
  }

  lemma ConfigStep(p: Platform, imp: Option<ImpersonationConfig>, buyerID: string, accessToken: Option<string>, oc: Option<Client>)
    ensures var p' := SaveImpersonationConfigWith(p, imp, buyerID, accessToken, oc).0;
      && (imp.Some? ==> Appended(p.calls, p'.calls, oc == Some(Configured) && accessToken.None?))
      && p'.buyers == p.buyers
  {
    var flag := oc == Some(Configured) && accessToken.None?;
    var token := SelectToken(accessToken, oc);
    var client := SelectClient(oc);
    var current := GetImpersonationByBuyerID(p, buyerID);
    if current.Some? && imp.Some? {
      LogOne(p.calls, SaveConfig(client, current.value.id, imp.value, token), flag);
    } else if current.None? && imp.Some? {
      LogOne(p.calls, CreateConfig(client, NewConfig(imp.value, buyerID)), flag);
    }
  }

  /** Logging one call that is not a delete appends it in the sense of Appended. */
  lemma LogOne(before: seq<Call>, c: Call, configured: bool)
    requires !c.DeleteConfig? && (configured ==> ThroughConfiguredWithoutToken(c))
    ensures Appended(before, before + [c], configured)
  {
    assert (before + [c])[..|before|] == before;
  }

  /**
   * Create calls the upsert only with a config, so it never deletes one; it
   * only appends to the log, keeps every buyer under its own ID, and, as
   * Create(superBuyer), issues every call through the configured client
   * without a token.
   */
  lemma CreateNeverDeletes(p: Platform, sb: SuperBuyer, accessToken: Option<string>, oc: Option<Client>, next: string)
    ensures var (p', r) := CreateWith(p, sb, accessToken, oc, next);
      && Appended(p.calls, p'.calls, oc == Some(Configured) && accessToken.None?)
      && (Valid(p) ==> Valid(p'))
      && (sb.buyer.Some? && sb.config.None? ==> r.config == Some(EmptyConfig))
  {
    var flag := oc == Some(Configured) && accessToken.None?;
    var (p1, created) := CreateBuyerAndRelatedFunctionalResources(p, sb.buyer, accessToken, oc, next);
    ResourcesStep(p, sb.buyer, accessToken, oc, next);
    if created.Some? {
      var id := created.value.id.value;
      var (p2, markup) := CreateMarkup(p1, sb.markup, id, accessToken, oc);
      MarkupStep(p1, sb.markup, id, accessToken, oc);
      AppendedTrans(p.calls, p1.calls, p2.calls, flag);
      if sb.config.Some? {
        var p3 := SaveImpersonationConfigWith(p2, sb.config, id, accessToken, oc).0;
        ConfigStep(p2, sb.config, id, accessToken, oc);
        AppendedTrans(p.calls, p2.calls, p3.calls, flag);
      }
    }
  }

  lemma CreateUsesConfiguredClient(p: Platform, sb: SuperBuyer, next: string)
    ensures var (p', r) := Create(p, sb, next);
      forall i :: |p.calls| <= i < |p'.calls| ==> ThroughConfiguredWithoutToken(p'.calls[i])
  {
    CreateNeverDeletes(p, sb, None, Some(Configured), next);
  }

  /** Update likewise never deletes a config and only appends to the log. */
  lemma UpdateNeverDeletes(p: Platform, buyerID: string, sb: SuperBuyer)
    ensures var (p', r) := Update(p, buyerID, sb);
      && Appended(p.calls, p'.calls, false)
      && (sb.buyer.Some? && sb.config.None? ==> r.config == Some(EmptyConfig))
  {
    if sb.buyer.Some? {
      var b := sb.buyer.value.(id := Some(buyerID));
      var (p1, saved) := SaveBuyerOp(p, buyerID, b);
      assert Appended(p.calls, p1.calls, false);
      var (p2, markup) := UpdateMarkup(p1, sb.markup, buyerID);
      MarkupStep(p1, sb.markup, buyerID, None, Some(Configured));
      AppendedTrans(p.calls, p1.calls, p2.calls, false);
      if sb.config.Some? {
        var p3 := SaveImpersonationConfig(p2, sb.config, buyerID).0;
        ConfigStep(p2, sb.config, buyerID, None, Some(Configured));
        AppendedTrans(p.calls, p2.calls, p3.calls, false);
      }
    }
  }

  /**
   * Update saves the buyer under buyerID whatever ID the request carried,
   * so every buyer stays stored under its own ID, and the returned buyer
   * has that ID.
   */
  lemma UpdateForcesId(p: Platform, buyerID: string, sb: SuperBuyer)
    requires Valid(p) && sb.buyer.Some?
    ensures var (p', r) := Update(p, buyerID, sb);
      && Valid(p')
      && buyerID in p'.buyers
      && r.buyer.Some? && r.buyer.value.id == Some(buyerID)
  {
    var b := sb.buyer.value.(id := Some(buyerID));
    var (p1, saved) := SaveBuyerOp(p, buyerID, b);
    assert Valid(p1) && buyerID in p1.buyers;
    var (p2, markup) := UpdateMarkup(p1, sb.markup, buyerID);
    MarkupStep(p1, sb.markup, buyerID, None, Some(Configured));
    assert buyerID in p2.buyers;
    if sb.config.Some? {
      ConfigStep(p2, sb.config, buyerID, None, Some(Configured));
    }
  }

  /** Get of a buyer never given a markup reports a markup of 0; Get of a missing buyer is empty. */
  lemma GetDefaults(p: Platform, buyerID: string)
    ensures buyerID !in p.buyers ==> Get(p, buyerID) == EmptySuperBuyer
    ensures buyerID in p.buyers && p.buyers[buyerID].markupPercent.None? ==>
              Get(p, buyerID).markup == Some(BuyerMarkup(0))
    ensures buyerID in p.buyers ==> Get(p, buyerID).config == GetImpersonationByBuyerID(p, buyerID)
  {
  }

  /** What Update saved is what Get reads back: the buyer under its ID, and the markup Update returned. */
  lemma UpdateThenGet(p: Platform, buyerID: string, sb: SuperBuyer)
    requires sb.buyer.Some?
    ensures var (p', r) := Update(p, buyerID, sb);
      var g := Get(p', buyerID);
      && g.buyer.Some? && g.buyer.value.id == Some(buyerID)
      && g.buyer.value.name == sb.buyer.value.name
      && (sb.markup.Some? ==> g.markup == sb.markup && r.markup == sb.markup)
      && (sb.markup.None? ==> g.markup == Some(BuyerMarkup(sb.buyer.value.markupPercent.GetOr(0))))
  {
    var b := sb.buyer.value.(id := Some(buyerID));
    var (p1, saved) := SaveBuyerOp(p, buyerID, b);
    var (p2, markup) := UpdateMarkup(p1, sb.markup, buyerID);
    MarkupOutcomes(p1, Configured, sb.markup, buyerID, None);
    if sb.config.Some? {
      ConfigStep(p2, sb.config, buyerID, None, Some(Configured));
    }
  }
}
