/**
 * PaymentCommand as the source writes it: an object whose methods issue
 * calls to the commerce platform and to the card processor one after the
 * other. The platform's payment list for the order and the log of issued
 * calls are fields; every method is proved to have exactly the effect the
 * matching function of module PaymentRules describes, so the properties
 * proved in module PaymentProperties hold of the methods.
 */
module PaymentCommands {
  import opened Wrappers
  import opened PaymentRules
  import PaymentProperties

  class PaymentCommand {
    /** The order's payments as the platform holds them. */
    var payments: seq<Payment>
    /** The mutating calls issued so far, oldest first. */
    var calls: seq<Call>

    function State(): Store
      reads this
    {
      Store(payments, calls)
    }

    constructor(existing: seq<Payment>)
      ensures State() == Store(existing, [])
    {
      payments := existing;
      calls := [];
    }

    // -------------------------------------------------------------------
    // The platform's and the card processor's operations
    // -------------------------------------------------------------------

    /** Payments.CreateAsync */
    method CreatePayment(direction: Direction, orderID: string, p: Payment, token: Option<string>)
      modifies this
      ensures State() == Create(old(State()), direction, orderID, p, token)
    {
      payments := payments + [p];
      calls := calls + [Call.CreatePayment(direction, orderID, p, token)];
    }

    /** Payments.PatchAsync */
    method PatchPayment(orderID: string, paymentID: string, patch: PaymentPatch)
      modifies this
      ensures State() == Patch(old(State()), orderID, paymentID, patch)
    {
      payments := PatchWhere(payments, paymentID, patch);
      calls := calls + [Call.PatchPayment(orderID, paymentID, patch)];
    }

    /** Payments.DeleteAsync */
    method DeletePayment(orderID: string, paymentID: string)
      modifies this
      ensures State() == Delete(old(State()), orderID, paymentID)
    {
      payments := Without(payments, {paymentID});
      calls := calls + [Call.DeletePayment(orderID, paymentID)];
    }

    /** The card processor's VoidTransactionAsync: no change to the order's payments. */
    method VoidTransaction(p: Payment, order: Order, token: string)
      modifies this
      ensures State() == Void(old(State()), p, order, token)
    {
      calls := calls + [Call.VoidTransaction(p.id, order.id, token)];
    }

    // -------------------------------------------------------------------
    // The command
    // -------------------------------------------------------------------

    /**
     * SavePayments: removes the payments of types no longer requested, then
     * creates or updates one payment per requested type, and returns the
     * order's payments as the platform then lists them. For a well-formed
     * request on an order with unique payments it leaves the order settled.
     */
    method SavePayments(order: Order, requested: seq<Payment>, token: string) returns (result: seq<Payment>)
      modifies this
      ensures (State(), result) == PaymentRules.SavePayments(old(State()), order, requested, token)
      ensures (WellFormedRequest(requested) && DistinctIds(old(payments)) && OnePerType(old(payments))
               && CompatibleIds(requested, old(payments))) ==> Settled(result, requested, order.total)
    {
      ghost var s0 := State();
      var existing := payments;
      existing := DeleteStalePayments(requested, existing, order, token);
      ghost var s1 := State();
      for i := 0 to |requested|
        invariant State() == ReconcilePayments(s1, requested[..i], existing, order, token)
      {
        var r := requested[i];
        var e := FirstOfType(existing, r.paymentType);
        if r.paymentType == CreditCard {
          UpdateCCPayment(r, e, order, token);
        }
        if r.paymentType == PurchaseOrder {
          UpdatePoPayment(r, e, order);
        }
        assert requested[..i + 1][..i] == requested[..i];
      }
      assert requested[..|requested|] == requested;
      result := payments;
      if WellFormedRequest(requested) && DistinctIds(s0.payments) && OnePerType(s0.payments)
         && CompatibleIds(requested, s0.payments) {
        PaymentProperties.SavePaymentsSettles(s0, order, requested, token);
      }
    }

    /** UpdateCCPaymentAsync */
    method UpdateCCPayment(requested: Payment, existing: Option<Payment>, order: Order, token: string)
      modifies this
      ensures State() == PaymentRules.UpdateCCPayment(old(State()), requested, existing, order, token)
    {
      var amount := order.total;
      if existing.None? {
        CreatePayment(Outgoing, order.id, NewCreditCardPayment(requested, amount), Some(token));
      } else if existing.value.creditCardID == requested.creditCardID && existing.value.amount == Some(amount) {
        return;
      } else if existing.value.creditCardID == requested.creditCardID {
        VoidTransaction(existing.value, order, token);
        PatchPayment(order.id, existing.value.id, PaymentPatch(Some(amount), Some(false), Some(requested.xp)));
      } else {
        DeleteCreditCardPayment(existing.value, order, token);
        CreatePayment(Outgoing, order.id, NewCreditCardPayment(requested, amount), Some(token));
      }
    }

    /** UpdatePoPaymentAsync */
    method UpdatePoPayment(requested: Payment, existing: Option<Payment>, order: Order)
      modifies this
      ensures State() == PaymentRules.UpdatePoPayment(old(State()), requested, existing, order)
    {
      if existing.None? {
        CreatePayment(Incoming, order.id, requested.(amount := Some(order.total)), None);
      } else {
        PatchPayment(order.id, existing.value.id, PaymentPatch(Some(order.total), None, None));
      }
    }

    /** DeleteCreditCardPaymentAsync */
    method DeleteCreditCardPayment(p: Payment, order: Order, token: string)
      modifies this
      ensures State() == PaymentRules.DeleteCreditCardPayment(old(State()), p, order, token)
    {
      VoidTransaction(p, order, token);
      DeletePayment(order.id, p.id);
    }

    /**
     * DeleteStalePaymentsAsync: walks a copy of `existing`, deleting every
     * payment whose type is not requested and removing it from the list it
     * returns. With unique payment IDs the platform and the returned list
     * agree afterwards and hold exactly the existing payments of requested types.
     */
    method DeleteStalePayments(requested: seq<Payment>, existing: seq<Payment>, order: Order, token: string)
      returns (live: seq<Payment>)
      modifies this
      ensures (State(), live) == PaymentRules.DeleteStalePayments(old(State()), requested, existing, existing, order, token)
      ensures existing == old(payments) && DistinctIds(existing) ==>
                (payments == live == Kept(requested, existing)
                 && calls == old(calls) + StaleCalls(requested, existing, order, token))
    {
      ghost var s0 := State();
      var copy := existing;
      live := existing;
      for i := 0 to |copy|
        invariant (State(), live) == PaymentRules.DeleteStalePayments(s0, requested, copy[..i], existing, order, token)
      {
        var p := copy[i];
        if !HasType(requested, p.paymentType) {
          if p.paymentType == PurchaseOrder {
            DeletePayment(order.id, p.id);
            live := Remove(live, p);
          }
          if p.paymentType == CreditCard {
            DeleteCreditCardPayment(p, order, token);
            live := Remove(live, p);
          } else {
            DeletePayment(order.id, p.id);
            live := Remove(live, p);
          }
        }
        assert copy[..i + 1][..i] == copy[..i];
      }
      assert copy[..|copy|] == copy;
      if existing == s0.payments && DistinctIds(existing) {
        PaymentProperties.StaleDeletionAgrees(s0, requested, order, token);
      }
    }
  }
}
