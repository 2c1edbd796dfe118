/**
 * What payment reconciliation guarantees, proved about the functions of
 * module PaymentRules.
 */
module PaymentProperties {
  import opened Wrappers
  import opened PaymentRules

  // ---------------------------------------------------------------------
  // Facts about the list helpers
  // ---------------------------------------------------------------------

  lemma {:induction false} WithoutNone(ps: seq<Payment>)
    ensures Without(ps, {}) == ps
  {
    if ps != [] {
      WithoutNone(ps[1..]);
      assert ps == [ps[0]] + ps[1..];
    }
  }

  /** Unfolds Without at the front of a list. */
  lemma WithoutCons(x: Payment, ps: seq<Payment>, ids: set<string>)
    ensures Without([x] + ps, ids) == (if x.id in ids then [] else [x]) + Without(ps, ids)
  {
    assert ([x] + ps)[1..] == ps;
    assert ([x] + ps)[0] == x;
  }

  lemma {:induction false} WithoutTwice(ps: seq<Payment>, a: set<string>, b: set<string>)
    ensures Without(Without(ps, a), b) == Without(ps, a + b)
  {
    if ps != [] {
      assert ps == [ps[0]] + ps[1..];
      WithoutTwice(ps[1..], a, b);
      var w := Without(ps[1..], a);
      WithoutCons(ps[0], ps[1..], a);
      WithoutCons(ps[0], ps[1..], a + b);
      if ps[0].id in a {
        assert Without(ps, a) == w;
      } else {
        assert Without(ps, a) == [ps[0]] + w;
        WithoutCons(ps[0], w, b);
      }
    }
  }

  /** Removing IDs that no payment of the list carries changes nothing. */
  lemma {:induction false} WithoutForeign(ps: seq<Payment>, a: set<string>, b: set<string>)
    requires forall p :: p in ps ==> p.id !in b
    ensures Without(ps, a + b) == Without(ps, a)
  {
    if ps != [] {
      assert ps[0] in ps;
      assert forall p :: p in ps[1..] ==> p in ps;
      WithoutForeign(ps[1..], a, b);
    }
  }

  lemma {:induction false} WithoutAppend(ps: seq<Payment>, x: Payment, ids: set<string>)
    ensures Without(ps + [x], ids) == Without(ps, ids) + (if x.id in ids then [] else [x])
  {
    if ps == [] {
      assert [x][1..] == [];
    } else {
      assert (ps + [x])[1..] == ps[1..] + [x];
      WithoutAppend(ps[1..], x, ids);
    }
  }

  lemma DistinctIdsCons(x: Payment, ps: seq<Payment>)
    ensures DistinctIds([x] + ps) <==> (forall p :: p in ps ==> p.id != x.id) && DistinctIds(ps)
  {
    var xs := [x] + ps;
    if (forall p :: p in ps ==> p.id != x.id) && DistinctIds(ps) {
      forall i, j | 0 <= i < j < |xs| ensures xs[i].id != xs[j].id {
        if i > 0 { assert xs[i] == ps[i - 1] && xs[j] == ps[j - 1]; }
        else { assert xs[j] == ps[j - 1]; assert xs[j] in ps; }
      }
    }
    if DistinctIds(xs) {
      forall p | p in ps ensures p.id != x.id {
        var j :| 0 <= j < |ps| && ps[j] == p;
        assert xs[0] == x && xs[j + 1] == p;
      }
      forall i, j | 0 <= i < j < |ps| ensures ps[i].id != ps[j].id {
        assert xs[i + 1] == ps[i] && xs[j + 1] == ps[j];
      }
    }
  }

  lemma OnePerTypeCons(x: Payment, ps: seq<Payment>)
    ensures OnePerType([x] + ps) <==> !HasType(ps, x.paymentType) && OnePerType(ps)
  {
    var xs := [x] + ps;
    if !HasType(ps, x.paymentType) && OnePerType(ps) {
      forall i, j | 0 <= i < j < |xs| ensures xs[i].paymentType != xs[j].paymentType {
        if i > 0 { assert xs[i] == ps[i - 1] && xs[j] == ps[j - 1]; }
        else { assert xs[j] == ps[j - 1]; }
      }
    }
    if OnePerType(xs) {
      forall j | 0 <= j < |ps| ensures ps[j].paymentType != x.paymentType {
        assert xs[0] == x && xs[j + 1] == ps[j];
      }
      forall i, j | 0 <= i < j < |ps| ensures ps[i].paymentType != ps[j].paymentType {
        assert xs[i + 1] == ps[i] && xs[j + 1] == ps[j];
      }
    }
  }

  /** Deleting payments keeps IDs and types unique. */
  lemma WithoutKeepsUnique(ps: seq<Payment>, ids: set<string>)
    ensures DistinctIds(ps) ==> DistinctIds(Without(ps, ids))
    ensures OnePerType(ps) ==> OnePerType(Without(ps, ids))
  {
    if DistinctIds(ps) { WithoutKeepsDistinct(ps, ids); }
    if OnePerType(ps) { WithoutKeepsOnePerType(ps, ids); }
  }

  lemma {:induction false} WithoutKeepsDistinct(ps: seq<Payment>, ids: set<string>)
    requires DistinctIds(ps)
    ensures DistinctIds(Without(ps, ids))
  {
    if ps != [] {
      assert ps == [ps[0]] + ps[1..];
      DistinctIdsCons(ps[0], ps[1..]);
      WithoutKeepsDistinct(ps[1..], ids);
      var w := Without(ps[1..], ids);
      if ps[0].id !in ids {
        assert Without(ps, ids) == [ps[0]] + w;
        DistinctIdsCons(ps[0], w);
      } else {
        assert Without(ps, ids) == w;
      }
    }
  }

  lemma {:induction false} WithoutKeepsOnePerType(ps: seq<Payment>, ids: set<string>)
    requires OnePerType(ps)
    ensures OnePerType(Without(ps, ids))
  {
    if ps != [] {
      assert ps == [ps[0]] + ps[1..];
      OnePerTypeCons(ps[0], ps[1..]);
      WithoutKeepsOnePerType(ps[1..], ids);
      var w := Without(ps[1..], ids);
      if ps[0].id !in ids {
        assert Without(ps, ids) == [ps[0]] + w;
        assert !HasType(w, ps[0].paymentType) by {
          forall j | 0 <= j < |w| ensures w[j].paymentType != ps[0].paymentType {
            assert w[j] in ps[1..];
          }
        }
        OnePerTypeCons(ps[0], w);
      } else {
        assert Without(ps, ids) == w;
      }
    }
  }

  lemma HasTypeAppend(a: seq<Payment>, b: seq<Payment>, t: PaymentType)
    ensures HasType(a + b, t) <==> HasType(a, t) || HasType(b, t)
  {
    if HasType(a + b, t) {
      var i :| 0 <= i < |a + b| && (a + b)[i].paymentType == t;
      if i >= |a| { assert b[i - |a|] == (a + b)[i]; }
    }
    if HasType(b, t) {
      var i :| 0 <= i < |b| && b[i].paymentType == t;
      assert (a + b)[|a| + i] == b[i];
    }
    if HasType(a, t) {
      var i :| 0 <= i < |a| && a[i].paymentType == t;
      assert (a + b)[i] == a[i];
    }
  }

  lemma {:induction false} FirstIndexOfTypeAppend(a: seq<Payment>, b: seq<Payment>, t: PaymentType)
    ensures FirstIndexOfType(a + b, t) == if HasType(a, t) then FirstIndexOfType(a, t) else |a| + FirstIndexOfType(b, t)
  {
    if a == [] {
      assert a + b == b;
    } else {
      assert (a + b)[1..] == a[1..] + b;
      assert (a + b)[0] == a[0];
      FirstIndexOfTypeAppend(a[1..], b, t);
      HasTypeCons(a, t);
    }
  }

  lemma HasTypeCons(a: seq<Payment>, t: PaymentType)
    requires a != []
    ensures HasType(a, t) <==> a[0].paymentType == t || HasType(a[1..], t)
  {
    if HasType(a, t) && a[0].paymentType != t {
      var i :| 0 <= i < |a| && a[i].paymentType == t;
      assert a[1..][i - 1] == a[i];
    }
    if HasType(a[1..], t) {
      var i :| 0 <= i < |a[1..]| && a[1..][i].paymentType == t;
      assert a[i + 1] == a[1..][i];
    }
  }

  lemma FirstOfTypeAppend(a: seq<Payment>, b: seq<Payment>, t: PaymentType)
    ensures FirstOfType(a + b, t) == if HasType(a, t) then FirstOfType(a, t) else FirstOfType(b, t)
  {
    FirstIndexOfTypeAppend(a, b, t);
    if HasType(a, t) {
      var k := FirstIndexOfType(a, t);
      assert (a + b)[k] == a[k];
    } else {
      var k := FirstIndexOfType(b, t);
      if k < |b| { assert (a + b)[|a| + k] == b[k]; }
    }
  }

  /** With one payment per type, a payment of type t is the first of its type. */
  lemma FirstOfTypeUnique(ps: seq<Payment>, i: nat)
    requires OnePerType(ps) && i < |ps|
    ensures FirstOfType(ps, ps[i].paymentType) == Some(ps[i])
  {
    var k := FirstIndexOfType(ps, ps[i].paymentType);
    assert k <= i;
  }

  /** Two lists whose payments agree, position by position, on ID and type. */
  ghost predicate SameShape(a: seq<Payment>, b: seq<Payment>)
  {
    |a| == |b| && forall i :: 0 <= i < |a| ==> a[i].id == b[i].id && a[i].paymentType == b[i].paymentType
  }

  lemma SameShapeFacts(a: seq<Payment>, b: seq<Payment>, t: PaymentType)
    requires SameShape(a, b)
    ensures FirstIndexOfType(a, t) == FirstIndexOfType(b, t)
    ensures HasType(a, t) <==> HasType(b, t)
    ensures DistinctIds(a) <==> DistinctIds(b)
    ensures OnePerType(a) <==> OnePerType(b)
  {
    if HasType(a, t) {
      var i :| 0 <= i < |a| && a[i].paymentType == t;
      assert b[i].paymentType == t;
    }
    if HasType(b, t) {
      var i :| 0 <= i < |b| && b[i].paymentType == t;
      assert a[i].paymentType == t;
    }
  }

  /** Patching keeps every payment's ID and type, and changes the first payment of a type only if it has the ID. */
  lemma FirstOfTypePatched(ps: seq<Payment>, id: string, patch: PaymentPatch, t: PaymentType)
    ensures SameShape(PatchWhere(ps, id, patch), ps)
    ensures FirstOfType(PatchWhere(ps, id, patch), t) == match FirstOfType(ps, t)
      case None => None
      case Some(p) => Some(if p.id == id then ApplyPatch(p, patch) else p)
  {
    var r := PatchWhere(ps, id, patch);
    assert SameShape(r, ps);
    SameShapeFacts(r, ps, t);
  }

  /** A patch that leaves every patched payment as it was leaves the list as it was. */
  lemma PatchWhereIdentity(ps: seq<Payment>, id: string, patch: PaymentPatch)
    requires forall p :: p in ps && p.id == id ==> ApplyPatch(p, patch) == p
    ensures PatchWhere(ps, id, patch) == ps
  {
    var r := PatchWhere(ps, id, patch);
    forall i | 0 <= i < |ps| ensures r[i] == ps[i] {
      assert ps[i] in ps;
    }
  }

  /** Unfolds FirstOfType at the front of a list. */
  lemma FirstOfTypeCons(x: Payment, ps: seq<Payment>, t: PaymentType)
    ensures FirstOfType([x] + ps, t) == if x.paymentType == t then Some(x) else FirstOfType(ps, t)
  {
    var xs := [x] + ps;
    assert xs[0] == x && xs[1..] == ps;
    if x.paymentType != t {
      var k := FirstIndexOfType(ps, t);
      assert FirstIndexOfType(xs, t) == 1 + k;
      if k < |ps| { assert xs[1 + k] == ps[k]; }
    }
  }

  /** Deleting the payments with an ID that no payment of type t carries keeps the first payment of type t. */
  lemma {:induction false} FirstOfTypeWithout(ps: seq<Payment>, id: string, t: PaymentType)
    requires forall i :: 0 <= i < |ps| && ps[i].id == id ==> ps[i].paymentType != t
    ensures FirstOfType(Without(ps, {id}), t) == FirstOfType(ps, t)
    decreases |ps|
  {
    if ps != [] {
      var x := ps[0];
      var rest := ps[1..];
      assert ps == [x] + rest;
      FirstOfTypeWithout(rest, id, t);
      var w := Without(rest, {id});
      WithoutCons(x, rest, {id});
      FirstOfTypeCons(x, rest, t);
      if x.id == id {
        assert Without(ps, {id}) == w;
      } else {
        assert Without(ps, {id}) == [x] + w;
        FirstOfTypeCons(x, w, t);
      }
    }
  }

  // ---------------------------------------------------------------------
  // Stale deletion
  // ---------------------------------------------------------------------

  /** One payment of the existing list: the calls of StaleCallsFor, and its ID deleted when it is stale. */
  lemma StaleStepCalls(s: Store, requested: seq<Payment>, p: Payment, live: seq<Payment>, order: Order, token: string)
    ensures DeleteStalePayment(s, requested, p, live, order, token).0.calls == s.calls + StaleCallsFor(requested, p, order, token)
  {
  }

  lemma StaleStepEffects(s: Store, requested: seq<Payment>, p: Payment, live: seq<Payment>, order: Order, token: string)
    ensures var (s', _) := DeleteStalePayment(s, requested, p, live, order, token);
      && s'.calls == s.calls + StaleCallsFor(requested, p, order, token)
      && s'.payments == Without(s.payments, if HasType(requested, p.paymentType) then {} else {p.id})
  {
    if HasType(requested, p.paymentType) {
      WithoutNone(s.payments);
    } else if p.paymentType == PurchaseOrder {
      WithoutTwice(s.payments, {p.id}, {p.id});
      assert {p.id} + {p.id} == {p.id};
    }
  }

  /**
   * Stale deletion issues, payment by payment of the existing list, exactly
   * the calls of StaleCallsFor (void before delete for a credit card, two
   * deletes for a purchase order, one for anything else, none for a payment
   * whose type was requested), and leaves on the platform exactly the
   * payments whose ID is not that of a stale payment.
   */
  lemma StaleDeletionEffects(s: Store, requested: seq<Payment>, visited: seq<Payment>,
                              live: seq<Payment>, order: Order, token: string)
    ensures var (s', _) := DeleteStalePayments(s, requested, visited, live, order, token);
      && s'.calls == s.calls + StaleCalls(requested, visited, order, token)
      && s'.payments == Without(s.payments, StaleIds(requested, visited))
  {
    StaleDeletionCalls(s, requested, visited, live, order, token);
    StaleDeletionPayments(s, requested, visited, live, order, token);
  }

  lemma {:induction false} StaleDeletionCalls(s: Store, requested: seq<Payment>, visited: seq<Payment>,
                                              live: seq<Payment>, order: Order, token: string)
    ensures DeleteStalePayments(s, requested, visited, live, order, token).0.calls
         == s.calls + StaleCalls(requested, visited, order, token)
    decreases |visited|
  {
    if visited != [] {
      var prefix := visited[..|visited| - 1];
      var p := visited[|visited| - 1];
      var (s1, live1) := DeleteStalePayments(s, requested, prefix, live, order, token);
      StaleDeletionCalls(s, requested, prefix, live, order, token);
      StaleStepCalls(s1, requested, p, live1, order, token);
      assert s1.calls + StaleCallsFor(requested, p, order, token)
          == s.calls + (StaleCalls(requested, prefix, order, token) + StaleCallsFor(requested, p, order, token));
    }
  }

  lemma {:induction false} StaleDeletionPayments(s: Store, requested: seq<Payment>, visited: seq<Payment>,
                                                 live: seq<Payment>, order: Order, token: string)
    ensures DeleteStalePayments(s, requested, visited, live, order, token).0.payments
         == Without(s.payments, StaleIds(requested, visited))
    decreases |visited|
  {
    if visited == [] {
      WithoutNone(s.payments);
    } else {
      var prefix := visited[..|visited| - 1];
      var p := visited[|visited| - 1];
      var ids := StaleIds(requested, prefix);
      var extra: set<string> := if HasType(requested, p.paymentType) then {} else {p.id};
      var (s1, live1) := DeleteStalePayments(s, requested, prefix, live, order, token);
      StaleDeletionPayments(s, requested, prefix, live, order, token);
      StaleStepEffects(s1, requested, p, live1, order, token);
      WithoutTwice(s.payments, ids, extra);
    }
  }

  lemma {:induction false} RemoveFront(a: seq<Payment>, x: Payment, b: seq<Payment>)
    requires x !in a
    ensures Remove(a + [x] + b, x) == a + b
    decreases |a|
  {
    var c := a + [x] + b;
    if a == [] {
      assert c[0] == x && c[1..] == b by { assert c == [x] + b; }
    } else {
      var tail := a[1..] + [x] + b;
      assert c[0] == a[0] && c[0] != x && c[1..] == tail by { assert a[0] in a; }
      assert Remove(tail, x) == a[1..] + b by { RemoveFront(a[1..], x, b); }
      assert a + b == [a[0]] + (a[1..] + b);
    }
  }

  lemma KeptFrom(requested: seq<Payment>, ps: seq<Payment>)
    ensures forall p :: p in Kept(requested, ps) <==> p in ps && HasType(requested, p.paymentType)
    decreases |ps|
  {
    if ps != [] {
      var prefix := ps[..|ps| - 1];
      KeptFrom(requested, prefix);
      assert ps == prefix + [ps[|ps| - 1]];
    }
  }

  lemma StaleIdsFrom(requested: seq<Payment>, ps: seq<Payment>)
    ensures forall id :: id in StaleIds(requested, ps) <==>
      exists p :: p in ps && p.id == id && !HasType(requested, p.paymentType)
    decreases |ps|
  {
    if ps != [] {
      var prefix := ps[..|ps| - 1];
      StaleIdsFrom(requested, prefix);
      assert ps == prefix + [ps[|ps| - 1]];
    }
  }

  /** One payment of the copy, found once in the live list: it stays when its type was requested, else it goes. */
  lemma StaleStepLive(s: Store, requested: seq<Payment>, x: Payment, kept: seq<Payment>, rest: seq<Payment>,
                      order: Order, token: string)
    requires x !in kept && x !in rest
    ensures DeleteStalePayment(s, requested, x, kept + [x] + rest, order, token).1
         == kept + (if HasType(requested, x.paymentType) then [x] else []) + rest
  {
    if !HasType(requested, x.paymentType) {
      RemoveFront(kept, x, rest);
      assert x !in kept + rest;
    }
  }

  /** The first i payments of a list with unique IDs are not the payment at i. */
  lemma DistinctNotBefore(ps: seq<Payment>, i: nat)
    requires DistinctIds(ps) && i < |ps|
    ensures ps[i] !in ps[..i] && ps[i] !in ps[i + 1..]
  {
    var before, after := ps[..i], ps[i + 1..];
    assert forall j :: 0 <= j < |before| ==> before[j] == ps[j];
    assert forall j :: 0 <= j < |after| ==> after[j] == ps[i + 1 + j];
  }

  /**
   * The list DeleteStalePaymentsAsync returns holds exactly the existing
   * payments whose type was requested, in their order: each stale payment is
   * removed once, and the second Remove for a stale purchase order finds
   * nothing. (Payment IDs within an order are unique.)
   */
  lemma {:induction false} StaleDeletionLive(s: Store, requested: seq<Payment>, visited: seq<Payment>,
                                             rest: seq<Payment>, order: Order, token: string)
    requires DistinctIds(visited + rest)
    ensures DeleteStalePayments(s, requested, visited, visited + rest, order, token).1 == Kept(requested, visited) + rest
    decreases |visited|
  {
    if visited != [] {
      var n := |visited| - 1;
      var prefix := visited[..n];
      var x := visited[n];
      var all := visited + rest;
      assert all == prefix + ([x] + rest);
      StaleDeletionLive(s, requested, prefix, [x] + rest, order, token);
      var (s1, live1) := DeleteStalePayments(s, requested, prefix, all, order, token);
      var kept := Kept(requested, prefix);
      assert live1 == kept + [x] + rest;
      DistinctNotBefore(all, n);
      assert all[..n] == prefix && all[n + 1..] == rest;
      KeptFrom(requested, prefix);
      StaleStepLive(s1, requested, x, kept, rest, order, token);
    }
  }

  /** Dropping the last payment of a list with unique IDs: the rest keeps unique IDs, none equal to the last one's. */
  lemma DistinctLast(ps: seq<Payment>)
    requires DistinctIds(ps) && ps != []
    ensures DistinctIds(ps[..|ps| - 1])
    ensures forall p :: p in ps[..|ps| - 1] ==> p.id != ps[|ps| - 1].id
  {
    var prefix := ps[..|ps| - 1];
    forall p | p in prefix ensures p.id != ps[|ps| - 1].id {
      var i :| 0 <= i < |prefix| && prefix[i] == p;
      assert ps[i] == p;
    }
  }

  /** With unique IDs, the platform keeps exactly the payments the returned list keeps. */
  lemma {:induction false} StaleIdsMatchKept(requested: seq<Payment>, ps: seq<Payment>)
    requires DistinctIds(ps)
    ensures Without(ps, StaleIds(requested, ps)) == Kept(requested, ps)
    decreases |ps|
  {
    if ps != [] {
      var prefix := ps[..|ps| - 1];
      var x := ps[|ps| - 1];
      assert ps == prefix + [x];
      DistinctLast(ps);
      StaleIdsMatchKept(requested, prefix);
      var ids := StaleIds(requested, prefix);
      var stale := if HasType(requested, x.paymentType) then {} else {x.id};
      assert StaleIds(requested, ps) == ids + stale;
      StaleIdsFrom(requested, prefix);
      assert x.id !in ids;
      WithoutAppend(prefix, x, ids + stale);
      WithoutForeign(prefix, ids, stale);
    }
  }

  /** After stale deletion the platform and the returned list agree, and hold only requested types. */
  lemma StaleDeletionAgrees(s: Store, requested: seq<Payment>, order: Order, token: string)
    requires DistinctIds(s.payments)
    ensures var (s1, existing) := DeleteStalePayments(s, requested, s.payments, s.payments, order, token);
      && s1.payments == existing == Kept(requested, s.payments)
      && s1.calls == s.calls + StaleCalls(requested, s.payments, order, token)
      && forall p :: p in existing ==> p in s.payments && HasType(requested, p.paymentType)
  {
    StaleDeletionEffects(s, requested, s.payments, s.payments, order, token);
    assert s.payments + [] == s.payments;
    StaleDeletionLive(s, requested, s.payments, [], order, token);
    StaleIdsMatchKept(requested, s.payments);
    KeptFrom(requested, s.payments);
  }

  /** A stale purchase order: Delete is issued twice for it. */
  lemma StalePurchaseOrderDeletedTwice(s: Store, requested: seq<Payment>, p: Payment, order: Order, token: string)
    requires p.paymentType == PurchaseOrder && !HasType(requested, PurchaseOrder)
    ensures var (s', live) := DeleteStalePayments(s, requested, [p], [p], order, token);
      && s'.calls == s.calls + [DeletePayment(order.id, p.id), DeletePayment(order.id, p.id)]
      && live == []
  {
    StaleDeletionEffects(s, requested, [p], [p], order, token);
    assert [p][..0] == [];
  }

  /** A stale credit-card payment: it is voided with the card processor before it is deleted. */
  lemma StaleCreditCardVoidedFirst(s: Store, requested: seq<Payment>, p: Payment, order: Order, token: string)
    requires p.paymentType == CreditCard && !HasType(requested, CreditCard)
    ensures var (s', live) := DeleteStalePayments(s, requested, [p], [p], order, token);
      && s'.calls == s.calls + [VoidTransaction(p.id, order.id, token), DeletePayment(order.id, p.id)]
      && live == []
  {
    StaleDeletionEffects(s, requested, [p], [p], order, token);
    assert [p][..0] == [];
  }

  // ---------------------------------------------------------------------
  // The branches of the credit-card and purchase-order updates
  // ---------------------------------------------------------------------

  /** UpdateCCPaymentAsync, branch by branch: the calls it issues and the payments it leaves. */
  lemma CreditCardBranches(s: Store, r: Payment, existing: Option<Payment>, order: Order, token: string)
    ensures var s' := UpdateCCPayment(s, r, existing, order, token);
      var created := r.(amount := Some(order.total), accepted := Some(false));
      && (existing.None? ==>
            s'.calls == s.calls + [CreatePayment(Outgoing, order.id, created, Some(token))]
            && s'.payments == s.payments + [created])
      && (existing.Some? && existing.value.creditCardID == r.creditCardID && existing.value.amount == Some(order.total) ==>
            s' == s)
      && (existing.Some? && existing.value.creditCardID == r.creditCardID && existing.value.amount != Some(order.total) ==>
            s'.calls == s.calls + [VoidTransaction(existing.value.id, order.id, token),
                                   PatchPayment(order.id, existing.value.id, PaymentPatch(Some(order.total), Some(false), Some(r.xp)))]
            && s'.payments == PatchWhere(s.payments, existing.value.id, PaymentPatch(Some(order.total), Some(false), Some(r.xp))))
      && (existing.Some? && existing.value.creditCardID != r.creditCardID ==>
            s'.calls == s.calls + [VoidTransaction(existing.value.id, order.id, token),
                                   DeletePayment(order.id, existing.value.id),
                                   CreatePayment(Outgoing, order.id, created, Some(token))]
            && s'.payments == Without(s.payments, {existing.value.id}) + [created])
  {
  }

  /** UpdatePoPaymentAsync: create for the total, or patch the amount to the total even when it already is. */
  lemma PurchaseOrderBranches(s: Store, r: Payment, existing: Option<Payment>, order: Order)
    ensures var s' := UpdatePoPayment(s, r, existing, order);
      && (existing.None? ==>
            s'.calls == s.calls + [CreatePayment(Incoming, order.id, r.(amount := Some(order.total)), None)])
      && (existing.Some? ==>
            s'.calls == s.calls + [PatchPayment(order.id, existing.value.id, PaymentPatch(Some(order.total), None, None))])
  {
  }

  /** A requested type other than credit card or purchase order causes no call and no change. */
  lemma OtherTypesIgnored(s: Store, r: Payment, existing: seq<Payment>, order: Order, token: string)
    requires r.paymentType != CreditCard && r.paymentType != PurchaseOrder
    ensures ReconcilePayment(s, r, existing, order, token) == s
  {
  }

  // ---------------------------------------------------------------------
  // Reconciliation settles the order
  // ---------------------------------------------------------------------

  ghost function Ids(ps: seq<Payment>): set<string>
  {
    set p | p in ps :: p.id
  }

  /** The (ID, type) pairs of the payments. */
  ghost function Keys(ps: seq<Payment>): set<(string, PaymentType)>
  {
    set p | p in ps :: (p.id, p.paymentType)
  }

  /** No payment in ps carries q's ID unless it has q's type. */
  ghost predicate IdFree(ps: seq<Payment>, q: Payment)
  {
    forall t :: (q.id, t) in Keys(ps) ==> t == q.paymentType
  }

  /** The first payment of r's type is for the total, and on r's card when r is a credit card. */
  ghost predicate Handled(ps: seq<Payment>, r: Payment, total: real)
  {
    var e := FirstOfType(ps, r.paymentType);
    e.Some? && e.value.amount == Some(total) && (r.paymentType == CreditCard ==> e.value.creditCardID == r.creditCardID)
  }

  /** What holds of the platform's payments after the loop of SavePayments has handled `handled`. */
  ghost predicate ReconcileInvariant(ps: seq<Payment>, requested: seq<Payment>, handled: seq<Payment>,
                                     existing: seq<Payment>, total: real)
  {
    && DistinctIds(ps) && OnePerType(ps)
    && (forall p :: p in ps ==> HasType(requested, p.paymentType))
    && (forall r :: r in handled ==> Handled(ps, r, total))
    && (forall t :: !HasType(handled, t) ==> FirstOfType(ps, t) == FirstOfType(existing, t))
    && (forall q :: q in requested && q !in handled ==> IdFree(ps, q))
  }

  /**
   * What one iteration must establish of the new payment list ps' for the
   * invariant to hold with request k handled: unique IDs and types, only
   * requested types, request k handled, every other type's first payment
   * untouched, and no (ID, type) pair other than those present and request k's.
   */
  lemma InvariantStep(ps: seq<Payment>, ps': seq<Payment>, requested: seq<Payment>, k: nat,
                      existing: seq<Payment>, total: real)
    requires WellFormedRequest(requested) && k < |requested|
    requires ReconcileInvariant(ps, requested, requested[..k], existing, total)
    requires DistinctIds(ps') && OnePerType(ps')
    requires forall p :: p in ps' ==> HasType(requested, p.paymentType)
    requires Handled(ps', requested[k], total)
    requires forall t :: t != requested[k].paymentType ==> FirstOfType(ps', t) == FirstOfType(ps, t)
    requires Keys(ps') <= Keys(ps) + {(requested[k].id, requested[k].paymentType)}
    ensures ReconcileInvariant(ps', requested, requested[..k + 1], existing, total)
  {
    var r := requested[k];
    var handled := requested[..k];
    assert requested[..k + 1] == handled + [r];
    HandledStep(ps, ps', requested, k, total);
    UntouchedStep(ps, ps', requested, k, existing);
    FreshStep(ps, ps', requested, k);
  }

  lemma HandledStep(ps: seq<Payment>, ps': seq<Payment>, requested: seq<Payment>, k: nat, total: real)
    requires OnePerType(requested) && k < |requested|
    requires forall q :: q in requested[..k] ==> Handled(ps, q, total)
    requires Handled(ps', requested[k], total)
    requires forall t :: t != requested[k].paymentType ==> FirstOfType(ps', t) == FirstOfType(ps, t)
    ensures forall q :: q in requested[..k] + [requested[k]] ==> Handled(ps', q, total)
  {
    var r := requested[k];
    var handled := requested[..k];
    forall q | q in handled + [r] ensures Handled(ps', q, total) {
      if q != r {
        assert q in handled;
        var i :| 0 <= i < k && handled[i] == q;
        assert requested[i] == q;
        assert q.paymentType != r.paymentType;
        assert Handled(ps, q, total);
      }
    }
  }

  lemma UntouchedStep(ps: seq<Payment>, ps': seq<Payment>, requested: seq<Payment>, k: nat, existing: seq<Payment>)
    requires k < |requested|
    requires forall t :: !HasType(requested[..k], t) ==> FirstOfType(ps, t) == FirstOfType(existing, t)
    requires forall t :: t != requested[k].paymentType ==> FirstOfType(ps', t) == FirstOfType(ps, t)
    ensures forall t :: !HasType(requested[..k] + [requested[k]], t) ==> FirstOfType(ps', t) == FirstOfType(existing, t)
  {
    var r := requested[k];
    var handled := requested[..k];
    forall t | !HasType(handled + [r], t) ensures FirstOfType(ps', t) == FirstOfType(existing, t) {
      HasTypeAppend(handled, [r], t);
      assert [r][0] == r;
    }
  }

  lemma FreshStep(ps: seq<Payment>, ps': seq<Payment>, requested: seq<Payment>, k: nat)
    requires DistinctIds(requested) && k < |requested|
    requires forall q :: q in requested && q !in requested[..k] ==> IdFree(ps, q)
    requires Keys(ps') <= Keys(ps) + {(requested[k].id, requested[k].paymentType)}
    ensures forall q :: q in requested && q !in requested[..k] + [requested[k]] ==> IdFree(ps', q)
  {
    var r := requested[k];
    var handled := requested[..k];
    forall q | q in requested && q !in handled + [r] ensures IdFree(ps', q) {
      var i :| 0 <= i < |requested| && requested[i] == q;
      assert i != k;
      assert q !in handled;
      assert q.id != r.id;
    }
  }

  /** A request whose ID only its own type may carry, and whose type is absent, has an ID new to ps. */
  lemma IdFreeAbsent(ps: seq<Payment>, q: Payment)
    requires IdFree(ps, q) && !HasType(ps, q.paymentType)
    ensures q.id !in Ids(ps)
  {
    forall p | p in ps ensures p.id != q.id {
      assert (p.id, p.paymentType) in Keys(ps);
      var i :| 0 <= i < |ps| && ps[i] == p;
    }
  }

  lemma AppendFresh(ps: seq<Payment>, x: Payment)
    requires DistinctIds(ps) && OnePerType(ps)
    requires x.id !in Ids(ps)
    requires !HasType(ps, x.paymentType)
    ensures DistinctIds(ps + [x]) && OnePerType(ps + [x])
    ensures Keys(ps + [x]) == Keys(ps) + {(x.id, x.paymentType)}
    ensures forall t :: FirstOfType(ps + [x], t) == if t == x.paymentType then Some(x) else FirstOfType(ps, t)
  {
    var xs := ps + [x];
    forall i, j | 0 <= i < j < |xs| ensures xs[i].id != xs[j].id && xs[i].paymentType != xs[j].paymentType {
      if j == |ps| { assert xs[i] == ps[i]; assert ps[i] in ps; }
    }
    forall t ensures FirstOfType(xs, t) == if t == x.paymentType then Some(x) else FirstOfType(ps, t) {
      FirstOfTypeAppend(ps, [x], t);
      FirstOfTypeCons(x, [], t);
      assert [x] + [] == [x];
    }
  }

  lemma DistinctWithout(ps: seq<Payment>, e: Payment)
    requires DistinctIds(ps) && OnePerType(ps) && e in ps
    ensures DistinctIds(Without(ps, {e.id})) && OnePerType(Without(ps, {e.id}))
    ensures !HasType(Without(ps, {e.id}), e.paymentType)
    ensures Keys(Without(ps, {e.id})) <= Keys(ps)
  {
    WithoutKeepsUnique(ps, {e.id});
  }

  /** A branch that creates the payment for a type that has none. */
  lemma CreateStep(ps: seq<Payment>, c: Payment, requested: seq<Payment>, k: nat, existing: seq<Payment>, total: real)
    requires WellFormedRequest(requested) && k < |requested|
    requires ReconcileInvariant(ps, requested, requested[..k], existing, total)
    requires !HasType(ps, requested[k].paymentType)
    requires c.id == requested[k].id && c.paymentType == requested[k].paymentType
    requires c.amount == Some(total) && c.creditCardID == requested[k].creditCardID
    ensures ReconcileInvariant(ps + [c], requested, requested[..k + 1], existing, total)
  {
    var r := requested[k];
    assert r !in requested[..k] by {
      forall i | 0 <= i < k ensures requested[..k][i] != r { assert requested[i].paymentType != r.paymentType; }
    }
    assert r in requested;
    IdFreeAbsent(ps, r);
    AppendFresh(ps, c);
    forall p | p in ps + [c] ensures HasType(requested, p.paymentType) {
      if p == c { assert requested[k].paymentType == c.paymentType; }
    }
    InvariantStep(ps, ps + [c], requested, k, existing, total);
  }

  /** Patching the payment at kt leaves the first payment of every other type as it was. */
  lemma PatchOtherType(ps: seq<Payment>, kt: nat, patch: PaymentPatch, t: PaymentType)
    requires DistinctIds(ps) && kt < |ps| && t != ps[kt].paymentType
    ensures FirstOfType(PatchWhere(ps, ps[kt].id, patch), t) == FirstOfType(ps, t)
  {
    FirstOfTypePatched(ps, ps[kt].id, patch, t);
    var j := FirstIndexOfType(ps, t);
    assert j < |ps| ==> j != kt;
  }

  /** Patching keeps IDs and types, hence uniqueness, the set of IDs and the requested types. */
  lemma PatchKeeps(ps: seq<Payment>, id: string, patch: PaymentPatch, requested: seq<Payment>)
    requires DistinctIds(ps) && OnePerType(ps)
    requires forall p :: p in ps ==> HasType(requested, p.paymentType)
    ensures var ps' := PatchWhere(ps, id, patch);
      && DistinctIds(ps') && OnePerType(ps') && Keys(ps') <= Keys(ps)
      && forall p :: p in ps' ==> HasType(requested, p.paymentType)
  {
    var ps' := PatchWhere(ps, id, patch);
    assert SameShape(ps', ps);
    SameShapeFacts(ps', ps, PurchaseOrder);
    PatchKeepsMembers(ps, id, patch, requested);
  }

  lemma PatchKeepsMembers(ps: seq<Payment>, id: string, patch: PaymentPatch, requested: seq<Payment>)
    requires forall p :: p in ps ==> HasType(requested, p.paymentType)
    ensures var ps' := PatchWhere(ps, id, patch);
      Keys(ps') <= Keys(ps) && forall p :: p in ps' ==> HasType(requested, p.paymentType)
  {
    var ps' := PatchWhere(ps, id, patch);
    forall p | p in ps' ensures HasType(requested, p.paymentType) && (p.id, p.paymentType) in Keys(ps) {
      var i :| 0 <= i < |ps'| && ps'[i] == p;
      assert p.id == ps[i].id && p.paymentType == ps[i].paymentType;
      assert ps[i] in ps;
    }
  }

  /** A branch that patches the amount of the existing payment of request k's type. */
  lemma PatchStep(ps: seq<Payment>, patch: PaymentPatch, requested: seq<Payment>, k: nat, existing: seq<Payment>, total: real)
    requires WellFormedRequest(requested) && k < |requested|
    requires ReconcileInvariant(ps, requested, requested[..k], existing, total)
    requires FirstOfType(ps, requested[k].paymentType).Some?
    requires patch.amount == Some(total)
    requires requested[k].paymentType == CreditCard ==>
               FirstOfType(ps, requested[k].paymentType).value.creditCardID == requested[k].creditCardID
    ensures ReconcileInvariant(PatchWhere(ps, FirstOfType(ps, requested[k].paymentType).value.id, patch),
                               requested, requested[..k + 1], existing, total)
  {
    var t := requested[k].paymentType;
    var kt := FirstIndexOfType(ps, t);
    var ps' := PatchWhere(ps, ps[kt].id, patch);
    FirstOfTypePatched(ps, ps[kt].id, patch, t);
    PatchKeeps(ps, ps[kt].id, patch, requested);
    forall t' | t' != t ensures FirstOfType(ps', t') == FirstOfType(ps, t') {
      PatchOtherType(ps, kt, patch, t');
    }
    InvariantStep(ps, ps', requested, k, existing, total);
  }

  /** A branch that deletes the existing payment of request k's type and creates a new one. */
  lemma ReplaceStep(ps: seq<Payment>, c: Payment, requested: seq<Payment>, k: nat, existing: seq<Payment>, total: real)
    requires WellFormedRequest(requested) && k < |requested|
    requires ReconcileInvariant(ps, requested, requested[..k], existing, total)
    requires FirstOfType(ps, requested[k].paymentType).Some?
    requires c.id == requested[k].id && c.paymentType == requested[k].paymentType
    requires c.amount == Some(total) && c.creditCardID == requested[k].creditCardID
    ensures ReconcileInvariant(Without(ps, {FirstOfType(ps, requested[k].paymentType).value.id}) + [c],
                               requested, requested[..k + 1], existing, total)
  {
    var t := requested[k].paymentType;
    var kt := FirstIndexOfType(ps, t);
    var e := ps[kt];
    var w := Without(ps, {e.id});
    DistinctWithout(ps, e);
    var r := requested[k];
    assert r !in requested[..k] by {
      forall i | 0 <= i < k ensures requested[..k][i] != r { assert requested[i].paymentType != r.paymentType; }
    }
    assert r in requested;
    assert IdFree(w, r);
    IdFreeAbsent(w, r);
    AppendFresh(w, c);
    forall t' | t' != t ensures FirstOfType(w, t') == FirstOfType(ps, t') {
      FirstOfTypeWithout(ps, e.id, t');
    }
    forall p | p in w + [c] ensures HasType(requested, p.paymentType) {
      if p == c { assert requested[k].paymentType == c.paymentType; }
    }
    InvariantStep(ps, w + [c], requested, k, existing, total);
  }

  /** One iteration of the loop of SavePayments keeps the invariant and handles its request. */
  lemma ReconcileStep(s: Store, requested: seq<Payment>, k: nat, existing: seq<Payment>, order: Order, token: string)
    requires WellFormedRequest(requested) && k < |requested|
    requires ReconcileInvariant(s.payments, requested, requested[..k], existing, order.total)
    ensures ReconcileInvariant(ReconcilePayment(s, requested[k], existing, order, token).payments,
                               requested, requested[..k + 1], existing, order.total)
  {
    var r := requested[k];
    var t := r.paymentType;
    var ps := s.payments;
    var total := order.total;
    assert t != SpendingAccount;
    assert !HasType(requested[..k], t) by {
      forall i | 0 <= i < k ensures requested[..k][i].paymentType != t { assert requested[i].paymentType != t; }
    }
    var e := FirstOfType(existing, t);
    assert e == FirstOfType(ps, t);
    if e.None? {
      var c := if t == CreditCard then NewCreditCardPayment(r, total) else r.(amount := Some(total));
      CreateStep(ps, c, requested, k, existing, total);
    } else if t == CreditCard && e.value.creditCardID == r.creditCardID && e.value.amount == Some(total) {
      InvariantStep(ps, ps, requested, k, existing, total);
    } else if t == CreditCard && e.value.creditCardID == r.creditCardID {
      PatchStep(ps, PaymentPatch(Some(total), Some(false), Some(r.xp)), requested, k, existing, total);
    } else if t == PurchaseOrder {
      PatchStep(ps, PaymentPatch(Some(total), None, None), requested, k, existing, total);
    } else {
      ReplaceStep(ps, NewCreditCardPayment(r, total), requested, k, existing, total);
    }
  }

  lemma {:induction false} ReconcileLoop(s: Store, requested: seq<Payment>, k: nat, existing: seq<Payment>,
                                         order: Order, token: string)
    requires WellFormedRequest(requested) && k <= |requested|
    requires ReconcileInvariant(s.payments, requested, [], existing, order.total)
    ensures ReconcileInvariant(ReconcilePayments(s, requested[..k], existing, order, token).payments,
                               requested, requested[..k], existing, order.total)
  {
    if k > 0 {
      ReconcileLoop(s, requested, k - 1, existing, order, token);
      assert requested[..k][..k - 1] == requested[..k - 1];
      ReconcileStep(ReconcilePayments(s, requested[..k - 1], existing, order, token), requested, k - 1, existing, order, token);
    }
  }

  /** After stale deletion, a compatible request's ID is carried by no kept payment of another type. */
  lemma CompatibleKept(requested: seq<Payment>, ps: seq<Payment>, kept: seq<Payment>)
    requires CompatibleIds(requested, ps)
    requires forall p :: p in kept ==> p in ps && HasType(requested, p.paymentType)
    ensures forall q :: q in requested ==> IdFree(kept, q)
  {
    forall q | q in requested ensures IdFree(kept, q) {
      forall t | (q.id, t) in Keys(kept) ensures t == q.paymentType {
        var p :| p in kept && (p.id, p.paymentType) == (q.id, t);
        var i :| 0 <= i < |requested| && requested[i] == q;
        var j :| 0 <= j < |ps| && ps[j] == p;
      }
    }
  }

  /**
   * For a request with at most one payment per type (credit card or purchase
   * order) on an order whose payments have unique IDs and at most one per
   * type, SavePayments leaves exactly one payment per requested type and no
   * other, each for the order total, the credit-card one on the requested card.
   * Requested IDs may repeat those of the order's payments of the same type,
   * as when the storefront re-sends the order's own payments.
   */
  lemma SavePaymentsSettles(s: Store, order: Order, requested: seq<Payment>, token: string)
    requires WellFormedRequest(requested)
    requires DistinctIds(s.payments) && OnePerType(s.payments) && CompatibleIds(requested, s.payments)
    ensures Settled(SavePayments(s, order, requested, token).1, requested, order.total)
  {
    StaleDeletionAgrees(s, requested, order, token);
    var (s1, existing) := DeleteStalePayments(s, requested, s.payments, s.payments, order, token);
    StaleIdsMatchKept(requested, s.payments);
    WithoutKeepsUnique(s.payments, StaleIds(requested, s.payments));
    CompatibleKept(requested, s.payments, existing);
    assert ReconcileInvariant(s1.payments, requested, [], existing, order.total);
    ReconcileLoop(s1, requested, |requested|, existing, order, token);
    assert requested[..|requested|] == requested;
    var ps := SavePayments(s, order, requested, token).1;
    forall i | 0 <= i < |ps| ensures ps[i].amount == Some(order.total) {
      assert ps[i] in ps;
      var j :| 0 <= j < |requested| && requested[j].paymentType == ps[i].paymentType;
      assert requested[j] in requested;
      FirstOfTypeUnique(ps, i);
    }
    forall i, j | 0 <= i < |ps| && 0 <= j < |requested| && ps[i].paymentType == CreditCard
        && requested[j].paymentType == CreditCard
      ensures ps[i].creditCardID == requested[j].creditCardID
    {
      assert requested[j] in requested;
      FirstOfTypeUnique(ps, i);
    }
    forall j | 0 <= j < |requested| ensures HasType(ps, requested[j].paymentType) {
      assert requested[j] in requested;
    }
    forall i | 0 <= i < |ps| ensures HasType(requested, ps[i].paymentType) {
      assert ps[i] in ps;
    }
  }

  // ---------------------------------------------------------------------
  // Repeating the call
  // ---------------------------------------------------------------------

  /** When every existing payment's type is requested, stale deletion finds nothing to do. */
  lemma {:induction false} NothingStale(requested: seq<Payment>, ps: seq<Payment>, order: Order, token: string)
    requires forall p :: p in ps ==> HasType(requested, p.paymentType)
    ensures Kept(requested, ps) == ps
    ensures StaleIds(requested, ps) == {}
    ensures StaleCalls(requested, ps, order, token) == []
    decreases |ps|
  {
    if ps != [] {
      var prefix := ps[..|ps| - 1];
      assert ps == prefix + [ps[|ps| - 1]];
      assert ps[|ps| - 1] in ps;
      NothingStale(requested, prefix, order, token);
    }
  }

  /** The call a repeated reconciliation issues: the purchase order's amount is patched again, to the same total. */
  function RepatchCalls(ps: seq<Payment>, handled: seq<Payment>, order: Order): seq<Call>
  {
    var e := FirstOfType(ps, PurchaseOrder);
    if HasType(handled, PurchaseOrder) && e.Some? then
      [PatchPayment(order.id, e.value.id, PaymentPatch(Some(order.total), None, None))]
    else []
  }

  /** The call reconciling request r against settled payments issues: the purchase order's re-patch. */
  function RepatchOne(ps: seq<Payment>, r: Payment, order: Order): seq<Call>
  {
    var e := FirstOfType(ps, PurchaseOrder);
    if r.paymentType == PurchaseOrder && e.Some? then
      [PatchPayment(order.id, e.value.id, PaymentPatch(Some(order.total), None, None))]
    else []
  }

  /** One request against settled payments: nothing changes but the purchase order's re-patch. */
  lemma SettledStep(c: seq<Call>, ps: seq<Payment>, requested: seq<Payment>, j: nat, order: Order, token: string)
    requires j < |requested| && Settled(ps, requested, order.total)
    ensures ReconcilePayment(Store(ps, c), requested[j], ps, order, token) == Store(ps, c + RepatchOne(ps, requested[j], order))
  {
    var r := requested[j];
    var t := r.paymentType;
    if t == CreditCard || t == PurchaseOrder {
      assert HasType(ps, t);
      var i := FirstIndexOfType(ps, t);
      assert FirstOfType(ps, t).value == ps[i];
      if t == PurchaseOrder {
        PatchWhereIdentity(ps, ps[i].id, PaymentPatch(Some(order.total), None, None));
      } else {
        assert ps[i].creditCardID == r.creditCardID;
      }
    }
  }

  /** Reconciling a settled order again changes no payment; only the purchase order is patched again. */
  lemma {:induction false} SettledReconcile(s: Store, requested: seq<Payment>, k: nat, order: Order, token: string)
    requires WellFormedRequest(requested) && k <= |requested|
    requires Settled(s.payments, requested, order.total)
    ensures ReconcilePayments(s, requested[..k], s.payments, order, token)
         == Store(s.payments, s.calls + RepatchCalls(s.payments, requested[..k], order))
  {
    var ps := s.payments;
    if k > 0 {
      var handled := requested[..k - 1];
      var r := requested[k - 1];
      assert requested[..k][..k - 1] == handled;
      assert requested[..k][k - 1] == r;
      SettledReconcile(s, requested, k - 1, order, token);
      var c := s.calls + RepatchCalls(ps, handled, order);
      assert ReconcilePayments(s, requested[..k], ps, order, token)
          == ReconcilePayment(Store(ps, c), r, ps, order, token);
      SettledStep(c, ps, requested, k - 1, order, token);
      RepatchCallsStep(ps, requested, k, order);
    }
  }

  /** Extending the handled prefix by one request adds that request's re-patch, if any. */
  lemma RepatchCallsStep(ps: seq<Payment>, requested: seq<Payment>, k: nat, order: Order)
    requires OnePerType(requested) && 0 < k <= |requested|
    ensures RepatchCalls(ps, requested[..k], order)
         == RepatchCalls(ps, requested[..k - 1], order) + RepatchOne(ps, requested[k - 1], order)
  {
    var handled := requested[..k - 1];
    var r := requested[k - 1];
    assert requested[..k] == handled + [r];
    HasTypeAppend(handled, [r], PurchaseOrder);
    assert [r][0] == r;
    if r.paymentType == PurchaseOrder {
      assert !HasType(handled, PurchaseOrder) by {
        forall j | 0 <= j < k - 1 ensures handled[j].paymentType != PurchaseOrder { assert requested[j] == handled[j]; }
      }
    }
  }

  /**
   * The storefront re-sends the order's credit card, now on another card, and
   * its purchase order, both under their existing IDs: the order is settled.
   */
  lemma ResubmissionSettles(order: Order, token: string)
    ensures var cc := Payment("c1", CreditCard, Some(10.0), Some("cardA"), None, map[]);
      var po := Payment("p1", PurchaseOrder, Some(10.0), None, None, map[]);
      var requested := [cc.(creditCardID := Some("cardB")), po];
      Settled(SavePayments(Store([cc, po], []), order, requested, token).1, requested, order.total)
  {
    var cc := Payment("c1", CreditCard, Some(10.0), Some("cardA"), None, map[]);
    var po := Payment("p1", PurchaseOrder, Some(10.0), None, None, map[]);
    var requested := [cc.(creditCardID := Some("cardB")), po];
    assert requested[0].paymentType == CreditCard && requested[1].paymentType == PurchaseOrder;
    SavePaymentsSettles(Store([cc, po], []), order, requested, token);
  }

  /**
   * Calling SavePayments a second time with the same request leaves the
   * payments as the first call left them: nothing is stale any more, the
   * credit-card payment already matches, and the purchase order is patched
   * to the amount it already has (the one call the repeat issues).
   */
  lemma SavePaymentsTwice(s: Store, order: Order, requested: seq<Payment>, token: string)
    requires WellFormedRequest(requested)
    requires DistinctIds(s.payments) && OnePerType(s.payments) && CompatibleIds(requested, s.payments)
    ensures var (s1, ps1) := SavePayments(s, order, requested, token);
      var (s2, ps2) := SavePayments(s1, order, requested, token);
      && ps2 == ps1
      && s2.calls == s1.calls + RepatchCalls(ps1, requested, order)
  {
    SavePaymentsSettles(s, order, requested, token);
    var (s1, ps1) := SavePayments(s, order, requested, token);
    assert ps1 == s1.payments;
    SettledNothingStale(s1, requested, order, token);
    SettledReconcile(s1, requested, |requested|, order, token);
    assert requested[..|requested|] == requested;
  }

  /** Against settled payments, stale deletion issues no call and keeps every payment. */
  lemma SettledNothingStale(s: Store, requested: seq<Payment>, order: Order, token: string)
    requires Settled(s.payments, requested, order.total)
    ensures DeleteStalePayments(s, requested, s.payments, s.payments, order, token) == (s, s.payments)
  {
    var ps := s.payments;
    forall p | p in ps ensures HasType(requested, p.paymentType) {
      var i :| 0 <= i < |ps| && ps[i] == p;
    }
    NothingStale(requested, ps, order, token);
    StaleDeletionEffects(s, requested, ps, ps, order, token);
    assert ps + [] == ps;
    StaleDeletionLive(s, requested, ps, [], order, token);
    WithoutNone(ps);
    var (s', live) := DeleteStalePayments(s, requested, ps, ps, order, token);
    assert s'.calls == s.calls + [] && s'.payments == ps;
    assert s' == s;
    assert live == Kept(requested, ps) + [];
  }
}
