/**
 * Payment reconciliation of an order (PaymentCommand.SavePayments), stated on
 * values. The commerce platform is an in-memory store holding the order's
 * payment list together with an append-only log of the calls issued to the
 * platform and to the card processor. Each function below is the effect one
 * step of the command has on that store; the class in module PaymentCommands
 * performs the same steps by updating fields and is proved equal to them.
 */
module PaymentRules {
  import opened Wrappers

  datatype PaymentType = PurchaseOrder | CreditCard | SpendingAccount

  /** The platform's view of the order a payment call goes through. */
  datatype Direction = Incoming | Outgoing

  /** Extended properties of a payment; their content is opaque here. */
  type Xp = map<string, string>

  datatype Payment = Payment(
    id: string,
    paymentType: PaymentType,
    amount: Option<real>,
    creditCardID: Option<string>,
    accepted: Option<bool>,
    xp: Xp)

  /** The order of the worksheet: its ID and its authoritative total. */
  datatype Order = Order(id: string, total: real)

  /** A partial payment: only the fields that are present are written. */
  datatype PaymentPatch = PaymentPatch(amount: Option<real>, accepted: Option<bool>, xp: Option<Xp>)

  /** The mutating calls, in the order they are issued. Patch and delete always go through the incoming direction. */
  datatype Call =
    | CreatePayment(direction: Direction, orderID: string, payment: Payment, token: Option<string>)
    | PatchPayment(orderID: string, paymentID: string, patch: PaymentPatch)
    | DeletePayment(orderID: string, paymentID: string)
    | VoidTransaction(paymentID: string, orderID: string, userToken: string)

  /** The order's payments on the platform and the log of calls issued so far. */
  datatype Store = Store(payments: seq<Payment>, calls: seq<Call>)

  // ---------------------------------------------------------------------
  // Lists of payments
  // ---------------------------------------------------------------------

  /** `ps.Any(p => p.Type == t)` */
  predicate HasType(ps: seq<Payment>, t: PaymentType)
  {
    exists i :: 0 <= i < |ps| && ps[i].paymentType == t
  }

  /** The index of the first payment of type t, or |ps| when there is none. */
  function FirstIndexOfType(ps: seq<Payment>, t: PaymentType): (k: nat)
    ensures k <= |ps|
    ensures k < |ps| ==> ps[k].paymentType == t
    ensures forall j :: 0 <= j < k ==> ps[j].paymentType != t
  {
    if ps == [] then 0
    else if ps[0].paymentType == t then 0
    else 1 + FirstIndexOfType(ps[1..], t)
  }

  /** `ps.FirstOrDefault(p => p.Type == t)` */
  function FirstOfType(ps: seq<Payment>, t: PaymentType): (r: Option<Payment>)
    ensures r.None? <==> !HasType(ps, t)
    ensures r.Some? ==> r.value in ps && r.value.paymentType == t
  {
    var k := FirstIndexOfType(ps, t);
    if k < |ps| then Some(ps[k]) else None
  }

  /** `List.Remove`: drops the first occurrence of p, if any. */
  function Remove(ps: seq<Payment>, p: Payment): (r: seq<Payment>)
    ensures p !in ps ==> r == ps
    ensures p in ps ==> |r| == |ps| - 1
  {
    if ps == [] then []
    else if ps[0] == p then
      assert ps == [ps[0]] + ps[1..];
      ps[1..]
    else
      assert ps == [ps[0]] + ps[1..];
      [ps[0]] + Remove(ps[1..], p)
  }

  /** The payments whose ID is not in ids, in their original order. */
  function Without(ps: seq<Payment>, ids: set<string>): (r: seq<Payment>)
    ensures forall p :: p in r <==> p in ps && p.id !in ids
  {
    if ps == [] then []
    else (if ps[0].id in ids then [] else [ps[0]]) + Without(ps[1..], ids)
  }

  function ApplyPatch(p: Payment, patch: PaymentPatch): Payment
  {
    p.(amount := if patch.amount.Some? then patch.amount else p.amount,
       accepted := if patch.accepted.Some? then patch.accepted else p.accepted,
       xp := if patch.xp.Some? then patch.xp.value else p.xp)
  }

  /** The payments with the patch applied to those whose ID is id. */
  function PatchWhere(ps: seq<Payment>, id: string, patch: PaymentPatch): (r: seq<Payment>)
    ensures |r| == |ps|
    ensures forall i :: 0 <= i < |ps| ==> r[i] == if ps[i].id == id then ApplyPatch(ps[i], patch) else ps[i]
  {
    if ps == [] then []
    else [if ps[0].id == id then ApplyPatch(ps[0], patch) else ps[0]] + PatchWhere(ps[1..], id, patch)
  }

  // ---------------------------------------------------------------------
  // The platform's and the card processor's operations
  // ---------------------------------------------------------------------

  function Create(s: Store, direction: Direction, orderID: string, p: Payment, token: Option<string>): Store
  {
    Store(s.payments + [p], s.calls + [CreatePayment(direction, orderID, p, token)])
  }

  function Patch(s: Store, orderID: string, paymentID: string, patch: PaymentPatch): Store
  {
    Store(PatchWhere(s.payments, paymentID, patch), s.calls + [PatchPayment(orderID, paymentID, patch)])
  }

  function Delete(s: Store, orderID: string, paymentID: string): Store
  {
    Store(Without(s.payments, {paymentID}), s.calls + [DeletePayment(orderID, paymentID)])
  }

  /** Voiding a transaction changes nothing in the order's payment list. */
  function Void(s: Store, p: Payment, order: Order, token: string): Store
  {
    Store(s.payments, s.calls + [VoidTransaction(p.id, order.id, token)])
  }

  // ---------------------------------------------------------------------
  // The command's steps
  // ---------------------------------------------------------------------

  /** DeleteCreditCardPaymentAsync: void with the processor, then delete. */
  function DeleteCreditCardPayment(s: Store, p: Payment, order: Order, token: string): Store
  {
    Delete(Void(s, p, order, token), order.id, p.id)
  }

  /** The request as it is sent when a credit-card payment is created. */
  function NewCreditCardPayment(requested: Payment, total: real): Payment
  {
    requested.(amount := Some(total), accepted := Some(false))
  }

  /** UpdateCCPaymentAsync */
  function UpdateCCPayment(s: Store, requested: Payment, existing: Option<Payment>, order: Order, token: string): Store
  {
    var amount := order.total;
    if existing.None? then
      Create(s, Outgoing, order.id, NewCreditCardPayment(requested, amount), Some(token))
    else if existing.value.creditCardID == requested.creditCardID && existing.value.amount == Some(amount) then
      s
    else if existing.value.creditCardID == requested.creditCardID then
      Patch(Void(s, existing.value, order, token), order.id, existing.value.id,
            PaymentPatch(Some(amount), Some(false), Some(requested.xp)))
    else
      Create(DeleteCreditCardPayment(s, existing.value, order, token), Outgoing, order.id,
             NewCreditCardPayment(requested, amount), Some(token))
  }

  /** UpdatePoPaymentAsync */
  function UpdatePoPayment(s: Store, requested: Payment, existing: Option<Payment>, order: Order): Store
  {
    if existing.None? then
      Create(s, Incoming, order.id, requested.(amount := Some(order.total)), None)
    else
      Patch(s, order.id, existing.value.id, PaymentPatch(Some(order.total), None, None))
  }

  /**
   * One iteration of the loop of DeleteStalePaymentsAsync, on payment p of the
   * copied list, with `live` the list it removes from. The three tests are as
   * written: `if PurchaseOrder`, then `if CreditCard ... else ...`, which are
   * not exclusive, so a stale purchase order is deleted twice.
   */
  function DeleteStalePayment(s: Store, requested: seq<Payment>, p: Payment, live: seq<Payment>,
                              order: Order, token: string): (Store, seq<Payment>)
  {
    if HasType(requested, p.paymentType) then (s, live)
    else
      var (s1, live1) :=
        if p.paymentType == PurchaseOrder then (Delete(s, order.id, p.id), Remove(live, p)) else (s, live);
      if p.paymentType == CreditCard then (DeleteCreditCardPayment(s1, p, order, token), Remove(live1, p))
      else (Delete(s1, order.id, p.id), Remove(live1, p))
  }

  /** DeleteStalePaymentsAsync after the loop has visited the payments `visited` of the copy, starting from `live`. */
  function DeleteStalePayments(s: Store, requested: seq<Payment>, visited: seq<Payment>, live: seq<Payment>,
                               order: Order, token: string): (Store, seq<Payment>)
    decreases |visited|
  {
    if visited == [] then (s, live)
    else
      var (s1, live1) := DeleteStalePayments(s, requested, visited[..|visited| - 1], live, order, token);
      DeleteStalePayment(s1, requested, visited[|visited| - 1], live1, order, token)
  }

  /** One iteration of the loop of SavePayments over the requested payments. */
  function ReconcilePayment(s: Store, requested: Payment, existing: seq<Payment>, order: Order, token: string): Store
  {
    var e := FirstOfType(existing, requested.paymentType);
    var s1 := if requested.paymentType == CreditCard then UpdateCCPayment(s, requested, e, order, token) else s;
    if requested.paymentType == PurchaseOrder then UpdatePoPayment(s1, requested, e, order) else s1
  }

  /** The loop of SavePayments after it has handled the requests `handled`. */
  function ReconcilePayments(s: Store, handled: seq<Payment>, existing: seq<Payment>, order: Order, token: string): Store
    decreases |handled|
  {
    if handled == [] then s
    else ReconcilePayment(ReconcilePayments(s, handled[..|handled| - 1], existing, order, token),
                          handled[|handled| - 1], existing, order, token)
  }

  /** SavePayments: the new store and the payment list it returns. */
  function SavePayments(s: Store, order: Order, requested: seq<Payment>, token: string): (Store, seq<Payment>)
  {
    var (s1, existing) := DeleteStalePayments(s, requested, s.payments, s.payments, order, token);
    var s2 := ReconcilePayments(s1, requested, existing, order, token);
    (s2, s2.payments)
  }

  // ---------------------------------------------------------------------
  // Reference descriptions of stale deletion
  // ---------------------------------------------------------------------

  /** The existing payments whose type was requested, in order. */
  function Kept(requested: seq<Payment>, ps: seq<Payment>): (r: seq<Payment>)
    decreases |ps|
  {
    if ps == [] then []
    else Kept(requested, ps[..|ps| - 1]) + (if HasType(requested, ps[|ps| - 1].paymentType) then [ps[|ps| - 1]] else [])
  }

  /** The IDs of the payments in ps whose type was not requested. */
  function StaleIds(requested: seq<Payment>, ps: seq<Payment>): set<string>
    decreases |ps|
  {
    if ps == [] then {}
    else StaleIds(requested, ps[..|ps| - 1]) + (if HasType(requested, ps[|ps| - 1].paymentType) then {} else {ps[|ps| - 1].id})
  }

  /** The calls the source issues for one existing payment, by its type. */
  function StaleCallsFor(requested: seq<Payment>, p: Payment, order: Order, token: string): seq<Call>
  {
    if HasType(requested, p.paymentType) then []
    else match p.paymentType
      case PurchaseOrder => [DeletePayment(order.id, p.id), DeletePayment(order.id, p.id)]
      case CreditCard => [VoidTransaction(p.id, order.id, token), DeletePayment(order.id, p.id)]
      case SpendingAccount => [DeletePayment(order.id, p.id)]
  }

  function StaleCalls(requested: seq<Payment>, ps: seq<Payment>, order: Order, token: string): seq<Call>
    decreases |ps|
  {
    if ps == [] then []
    else StaleCalls(requested, ps[..|ps| - 1], order, token) + StaleCallsFor(requested, ps[|ps| - 1], order, token)
  }

  // ---------------------------------------------------------------------
  // Well-formedness of payment lists
  // ---------------------------------------------------------------------

  ghost predicate DistinctIds(ps: seq<Payment>)
  {
    forall i, j :: 0 <= i < j < |ps| ==> ps[i].id != ps[j].id
  }

  ghost predicate OnePerType(ps: seq<Payment>)
  {
    forall i, j :: 0 <= i < j < |ps| ==> ps[i].paymentType != ps[j].paymentType
  }

  /** At most one request per type, none for a spending account, distinct IDs. */
  ghost predicate WellFormedRequest(requested: seq<Payment>)
  {
    && OnePerType(requested)
    && DistinctIds(requested)
    && forall i :: 0 <= i < |requested| ==> requested[i].paymentType != SpendingAccount
  }

  /**
   * A requested ID is new to the order, or it is the ID of the existing payment
   * of the same type (a storefront re-sending the order's own payments), or the
   * ID of a payment whose type is no longer requested (stale deletion removes it
   * before anything is created).
   */
  ghost predicate CompatibleIds(requested: seq<Payment>, ps: seq<Payment>)
  {
    forall i, j :: 0 <= i < |requested| && 0 <= j < |ps| && requested[i].id == ps[j].id ==>
      ps[j].paymentType == requested[i].paymentType || !HasType(requested, ps[j].paymentType)
  }

  /**
   * The order is settled for the request: one payment per requested type and
   * no other, each for the order total, and the credit-card payment on the
   * requested card.
   */
  ghost predicate Settled(ps: seq<Payment>, requested: seq<Payment>, total: real)
  {
    && DistinctIds(ps)
    && OnePerType(ps)
    && (forall i :: 0 <= i < |ps| ==> HasType(requested, ps[i].paymentType) && ps[i].amount == Some(total))
    && (forall j :: 0 <= j < |requested| ==> HasType(ps, requested[j].paymentType))
    && (forall i, j ::
          0 <= i < |ps| && 0 <= j < |requested| && ps[i].paymentType == CreditCard && requested[j].paymentType == CreditCard
          ==> ps[i].creditCardID == requested[j].creditCardID)
  }
}
