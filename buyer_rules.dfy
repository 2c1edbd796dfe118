/**
 * The buyer aggregate (HSBuyerCommand), stated on values. The commerce
 * platform is a record of buyers, assignments, incrementors and
 * impersonation configs together with an append-only log of the calls
 * issued to it. Every remote call is a function from the platform to the
 * platform and the call's outcome; every command is the composition of its
 * calls, with the source's catch-and-return-a-default written out as an
 * explicit branch.
 */
module BuyerRules {
  import opened Wrappers

  /** The platform client a call goes through: the configured one, or one passed in for seeding. */
  datatype Client = Configured | Seeding

  datatype Buyer = Buyer(id: Option<string>, name: string, markupPercent: Option<int>)

  datatype BuyerMarkup = BuyerMarkup(percent: int)

  datatype ImpersonationConfig = ImpersonationConfig(
    id: Option<string>,
    buyerID: Option<string>,
    securityProfileID: Option<string>,
    clientID: Option<string>)

  /** The aggregate the commands take and return: the buyer, its markup, its impersonation config. */
  datatype SuperBuyer = SuperBuyer(
    buyer: Option<Buyer>,
    markup: Option<BuyerMarkup>,
    config: Option<ImpersonationConfig>)

  datatype Assignment =
    | SecurityProfileAssignment(buyerID: string, securityProfileID: string)
    | MessageSenderAssignment(messageSenderID: string, buyerID: string)
    | CatalogAssignment(buyerID: string, catalogID: string, viewAllCategories: bool, viewAllProducts: bool)

  datatype Incrementor = Incrementor(id: string, lastNumber: int, leftPaddingCount: int, name: string)

  /** The mutating calls, in the order they are issued. */
  datatype Call =
    | CreateBuyer(client: Client, buyer: Buyer, token: Option<string>)
    | SaveBuyer(buyerID: string, buyer: Buyer)
    | PatchBuyerMarkup(client: Client, buyerID: string, percent: int, token: Option<string>)
    | SaveAssignment(client: Client, assignment: Assignment, token: Option<string>)
    | SaveIncrementor(client: Client, incrementor: Incrementor, token: Option<string>)
    | DeleteConfig(client: Client, configID: Option<string>)
    | SaveConfig(client: Client, configID: Option<string>, config: ImpersonationConfig, token: Option<string>)
    | CreateConfig(client: Client, config: ImpersonationConfig)

  datatype PlatformError = Conflict | NotFound

  datatype Platform = Platform(
    buyers: map<string, Buyer>,
    assignments: set<Assignment>,
    incrementors: map<string, Incrementor>,
    configs: seq<ImpersonationConfig>,
    calls: seq<Call>)

  /** The ID template the platform replaces with the next number of its buyer incrementor. */
  const BuyerIncrementor := "{buyerIncrementor}"
  /** CustomRole.HSBaseBuyer */
  const BaseBuyerRole := "HSBaseBuyer"
  const BuyerEmails := "BuyerEmails"

  const EmptyConfig := ImpersonationConfig(None, None, None, None)
  const EmptySuperBuyer := SuperBuyer(None, None, None)

  /** Every buyer is stored under its own ID. */
  ghost predicate Valid(p: Platform)
  {
    forall k :: k in p.buyers ==> p.buyers[k].id == Some(k)
  }

  // ---------------------------------------------------------------------
  // Choosing the client and the token
  // ---------------------------------------------------------------------

  /** `oc == null ? null : accessToken` */
  function SelectToken(accessToken: Option<string>, oc: Option<Client>): (token: Option<string>)
    ensures token.None? <==> oc.None? || accessToken.None?
    ensures token.Some? ==> token == accessToken
  {
    if oc.None? then None else accessToken
  }

  /** `oc ?? _oc` */
  function SelectClient(oc: Option<Client>): (client: Client)
    ensures oc.Some? ==> client == oc.value
    ensures oc.None? ==> client == Configured
  {
    oc.GetOr(Configured)
  }

  // ---------------------------------------------------------------------
  // The platform's operations
  // ---------------------------------------------------------------------

  function Log(p: Platform, c: Call): Platform
  {
    p.(calls := p.calls + [c])
  }

  /** The ID the platform gives a new buyer: the next incrementor number for the template, else the requested ID. */
  function AssignedID(b: Buyer, next: string): string
  {
    if b.id.None? || b.id == Some(BuyerIncrementor) then next else b.id.value
  }

  /** Buyers.CreateAsync: fails when a buyer with the assigned ID exists. */
  function CreateBuyerOp(p: Platform, client: Client, b: Buyer, token: Option<string>, next: string)
    : (Platform, Result<Buyer, PlatformError>)
  {
    var id := AssignedID(b, next);
    var p1 := Log(p, CreateBuyer(client, b, token));
    if id in p.buyers then (p1, Failure(Conflict))
    else
      var stored := b.(id := Some(id));
      (p1.(buyers := p.buyers[id := stored]), Success(stored))
  }

  /** Buyers.SaveAsync: creates or replaces the buyer stored under buyerID. */
  function SaveBuyerOp(p: Platform, buyerID: string, b: Buyer): (Platform, Buyer)
  {
    var stored := b.(id := Some(buyerID));
    (Log(p, SaveBuyer(buyerID, b)).(buyers := p.buyers[buyerID := stored]), stored)
  }

  /** Buyers.PatchAsync with `xp.MarkupPercent`: fails when there is no such buyer. */
  function PatchMarkupOp(p: Platform, client: Client, buyerID: string, percent: int, token: Option<string>)
    : (Platform, Result<Buyer, PlatformError>)
  {
    var p1 := Log(p, PatchBuyerMarkup(client, buyerID, percent, token));
    if buyerID !in p.buyers then (p1, Failure(NotFound))
    else
      var patched := p.buyers[buyerID].(markupPercent := Some(percent));
      (p1.(buyers := p.buyers[buyerID := patched]), Success(patched))
  }

  function SaveAssignmentOp(p: Platform, client: Client, a: Assignment, token: Option<string>): Platform
  {
    Log(p, SaveAssignment(client, a, token)).(assignments := p.assignments + {a})
  }

  function SaveIncrementorOp(p: Platform, client: Client, inc: Incrementor, token: Option<string>): Platform
  {
    Log(p, SaveIncrementor(client, inc, token)).(incrementors := p.incrementors[inc.id := inc])
  }

  /** The first config of the list for the buyer: `ListAsync(filters: "BuyerID=...")` then `FirstOrDefault`. */
  function FirstConfigFor(cs: seq<ImpersonationConfig>, buyerID: string): (r: Option<ImpersonationConfig>)
    ensures r.Some? ==> r.value in cs && r.value.buyerID == Some(buyerID)
    ensures r.None? <==> forall c :: c in cs ==> c.buyerID != Some(buyerID)
  {
    if cs == [] then None
    else if cs[0].buyerID == Some(buyerID) then Some(cs[0])
    else FirstConfigFor(cs[1..], buyerID)
  }

  /** The configs with an ID other than id, in order. */
  function ConfigsWithout(cs: seq<ImpersonationConfig>, id: Option<string>): (r: seq<ImpersonationConfig>)
    ensures forall c :: c in r <==> c in cs && c.id != id
  {
    if cs == [] then []
    else (if cs[0].id == id then [] else [cs[0]]) + ConfigsWithout(cs[1..], id)
  }

  /** ImpersonationConfigs.DeleteAsync */
  function DeleteConfigOp(p: Platform, client: Client, id: Option<string>): Platform
  {
    Log(p, DeleteConfig(client, id)).(configs := ConfigsWithout(p.configs, id))
  }

  /** ImpersonationConfigs.SaveAsync: the config replaces the one stored under id, and carries that ID. */
  function SaveConfigOp(p: Platform, client: Client, id: Option<string>, c: ImpersonationConfig, token: Option<string>)
    : (Platform, ImpersonationConfig)
  {
    var stored := c.(id := id);
    (Log(p, SaveConfig(client, id, c, token)).(configs := ConfigsWithout(p.configs, id) + [stored]), stored)
  }

  /** ImpersonationConfigs.CreateAsync: fails when a config with that ID exists. */
  function CreateConfigOp(p: Platform, client: Client, c: ImpersonationConfig): (Platform, Result<ImpersonationConfig, PlatformError>)
  {
    var p1 := Log(p, CreateConfig(client, c));
    if exists i :: 0 <= i < |p.configs| && p.configs[i].id == c.id then (p1, Failure(Conflict))
    else (p1.(configs := p.configs + [c]), Success(c))
  }

  // ---------------------------------------------------------------------
  // The command's steps
  // ---------------------------------------------------------------------

  /** The five resources a new buyer receives, in the order they are saved. */
  function Provision(p: Platform, client: Client, id: string, token: Option<string>): Platform
  {
    var p1 := SaveAssignmentOp(p, client, SecurityProfileAssignment(id, BaseBuyerRole), token);
    var p2 := SaveAssignmentOp(p1, client, MessageSenderAssignment(BuyerEmails, id), token);
    var p3 := SaveIncrementorOp(p2, client, Incrementor(id + "-UserIncrementor", 0, 5, "User Incrementor"), token);
    var p4 := SaveIncrementorOp(p3, client, Incrementor(id + "-LocationIncrementor", 0, 4, "Location Incrementor"), token);
    SaveAssignmentOp(p4, client, CatalogAssignment(id, id, true, false), token)
  }

  /**
   * CreateBuyerAndRelatedFunctionalResources. A missing buyer fails before
   * any call and yields no buyer; a failed create is caught, and the buyer
   * is returned with the ID it was sent with and nothing provisioned.
   */
  function CreateBuyerAndRelatedFunctionalResources(p: Platform, buyer: Option<Buyer>, accessToken: Option<string>,
                                                    oc: Option<Client>, next: string): (r: (Platform, Option<Buyer>))
    ensures r.1.Some? <==> buyer.Some?
    ensures r.1.Some? ==> r.1.value.(id := buyer.value.id) == buyer.value
    ensures r.1.Some? ==> r.1.value.id.Some?
    ensures r.1.Some? && AssignedID(buyer.value, next) !in p.buyers ==>
              r.1.value.id == Some(AssignedID(buyer.value, next))
    ensures r.1.Some? && AssignedID(buyer.value, next) in p.buyers ==>
              r.1.value.id == Some(buyer.value.id.GetOr(BuyerIncrementor))
  {
    if buyer.None? then (p, None)
    else
      var token := SelectToken(accessToken, oc);
      var client := SelectClient(oc);
      var b := buyer.value.(id := Some(buyer.value.id.GetOr(BuyerIncrementor)));
      var (p1, created) := CreateBuyerOp(p, client, b, accessToken, next);
      if created.Failure? then (p1, Some(b))
      else
        var id := AssignedID(b, next);
        (Provision(p1, client, id, token), Some(b.(id := Some(id))))
  }

  /** The markup patch shared by CreateMarkup and UpdateMarkup; any failure yields a markup of 0. */
  function SaveMarkup(p: Platform, client: Client, markup: Option<BuyerMarkup>, buyerID: string, token: Option<string>)
    : (Platform, BuyerMarkup)
  {
    if markup.None? then (p, BuyerMarkup(0))
    else
      var (p1, r) := PatchMarkupOp(p, client, buyerID, markup.value.percent, token);
      if r.Failure? then (p1, BuyerMarkup(0))
      else match r.value.markupPercent
        case Some(v) => (p1, BuyerMarkup(v))
        case None => (p1, BuyerMarkup(0))
  }

  function CreateMarkup(p: Platform, markup: Option<BuyerMarkup>, buyerID: string, accessToken: Option<string>,
                        oc: Option<Client>): (Platform, BuyerMarkup)
  {
    SaveMarkup(p, SelectClient(oc), markup, buyerID, SelectToken(accessToken, oc))
  }

  /** UpdateMarkup: through the configured client, without a token. */
  function UpdateMarkup(p: Platform, markup: Option<BuyerMarkup>, buyerID: string): (Platform, BuyerMarkup)
  {
    SaveMarkup(p, Configured, markup, buyerID, None)
  }

  /** GetImpersonationByBuyerID: always through the configured client. */
  function GetImpersonationByBuyerID(p: Platform, buyerID: string): Option<ImpersonationConfig>
  {
    FirstConfigFor(p.configs, buyerID)
  }

  /** The config created for a buyer that has none. */
  function NewConfig(imp: ImpersonationConfig, buyerID: string): ImpersonationConfig
  {
    imp.(buyerID := Some(buyerID), securityProfileID := Some(BaseBuyerRole), id := Some("hs_admin_" + buyerID))
  }

  /**
   * SaveImpersonationConfig with a client: delete when a config exists and
   * none is requested, save under the existing ID when one exists, else
   * create a config for the buyer. A null request with nothing to delete
   * fails on the request and is caught, as is a failed create: both yield an
   * empty config.
   */
  function SaveImpersonationConfigWith(p: Platform, imp: Option<ImpersonationConfig>, buyerID: string,
                                       accessToken: Option<string>, oc: Option<Client>): (Platform, Option<ImpersonationConfig>)
  {
    var token := SelectToken(accessToken, oc);
    var client := SelectClient(oc);
    var current := GetImpersonationByBuyerID(p, buyerID);
    if current.Some? && imp.None? then
      (DeleteConfigOp(p, client, current.value.id), None)
    else if current.Some? then
      var (p1, saved) := SaveConfigOp(p, client, current.value.id, imp.value, token);
      (p1, Some(saved))
    else if imp.None? then
      (p, Some(EmptyConfig))
    else
      var (p1, created) := CreateConfigOp(p, client, NewConfig(imp.value, buyerID));
      (p1, if created.Success? then Some(created.value) else Some(EmptyConfig))
  }

  /** SaveImpersonationConfig(impersonation, buyerID): the configured client and no token. */
  function SaveImpersonationConfig(p: Platform, imp: Option<ImpersonationConfig>, buyerID: string)
    : (Platform, Option<ImpersonationConfig>)
  {
    SaveImpersonationConfigWith(p, imp, buyerID, None, Some(Configured))
  }

  /**
   * Create(superBuyer, accessToken, oc). Without a created buyer the aggregate
   * is empty; otherwise the markup is patched and, only when a config is
   * requested, the config is saved, all under the created buyer's ID.
   */
  function CreateWith(p: Platform, sb: SuperBuyer, accessToken: Option<string>, oc: Option<Client>, next: string)
    : (Platform, SuperBuyer)
  {
    var (p1, created) := CreateBuyerAndRelatedFunctionalResources(p, sb.buyer, accessToken, oc, next);
    if created.None? then (p1, EmptySuperBuyer)
    else
      var id := created.value.id.value;
      var (p2, markup) := CreateMarkup(p1, sb.markup, id, accessToken, oc);
      var (p3, config) :=
        if sb.config.Some? then SaveImpersonationConfigWith(p2, sb.config, id, accessToken, oc) else (p2, Some(EmptyConfig));
      (p3, SuperBuyer(created, Some(markup), config))
  }

  /** Create(superBuyer): the configured client passed explicitly, and no token. */
  function Create(p: Platform, sb: SuperBuyer, next: string): (Platform, SuperBuyer)
  {
    CreateWith(p, sb, None, Some(Configured), next)
  }

  /** Update: the buyer is saved under buyerID whatever ID it carries, then markup and config follow. */
  function Update(p: Platform, buyerID: string, sb: SuperBuyer): (Platform, SuperBuyer)
  {
    if sb.buyer.None? then (p, EmptySuperBuyer)
    else
      var b := sb.buyer.value.(id := Some(buyerID));
      var (p1, saved) := SaveBuyerOp(p, buyerID, b);
      var (p2, markup) := UpdateMarkup(p1, sb.markup, buyerID);
      var (p3, config) :=
        if sb.config.Some? then SaveImpersonationConfig(p2, sb.config, buyerID) else (p2, Some(EmptyConfig));
      (p3, SuperBuyer(Some(saved), Some(markup), config))
  }

  /** Get: the buyer, its markup (0 when unset) and its first config; empty when the buyer does not exist. */
  function Get(p: Platform, buyerID: string): SuperBuyer
  {
    var config := GetImpersonationByBuyerID(p, buyerID);
    if buyerID !in p.buyers then EmptySuperBuyer
    else
      var b := p.buyers[buyerID];
      SuperBuyer(Some(b), Some(BuyerMarkup(b.markupPercent.GetOr(0))), config)
  }
}
