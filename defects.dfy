/**
 * Three places where the account entity does not do what its comments and the rest of the
 * code evidently intend, each with an input that shows it and the corrected rule with the
 * intended property proved about it:
 *  - `purchaseClass` merges `[active_classes, newEntry]`, nesting the old list, so the
 *    time-slot guard only sees the latest purchase;
 *  - `purchaseMembership` merges `[active_memberships, membershipId]` the same way, so
 *    an owned membership can be bought again and cannot be cancelled from the record;
 *  - `changeIcon` rejects an oversize or failed pick without returning, so the file is
 *    still uploaded, set as the icon and pushed.
 * The `User` class of UserStorage runs the as-written rules of AccountRules, which the
 * lemmas below exhibit; the corrected rules are defined and proved here.
 */
module Defects {
  import opened Base
  import opened JsValues
  import opened Backend
  import opened AccountRules

  // -------------------------------------------------------- class purchases

  const Card: JsValue := Str("card")

  function Purchase(timeId: string): ClassPurchase
  {
    ClassPurchase("yoga", timeId, Card, Num(10), Str("drop-in"), Str("p1"), Str("g1"), Str("class"))
  }

  /**
   * As written: once a slot t1 is bought, buying any other slot t2 hides t1 inside the
   * nested list, so buying t1 a third time passes the guard and is charged again.
   */
  lemma NestedClassListForgets(pulled: Record, d1: ClassPurchase, d2: ClassPurchase, d3: ClassPurchase)
    requires PurchaseClassEffect(pulled, d1, true).outcome.Success?
    requires d2.timeId != d1.timeId && d3.timeId == d1.timeId
    ensures var m1 := PurchaseClassEffect(pulled, d1, true).outcome.value;
            && HasTimeSlot(ListDefault(m1, "active_classes").items, d1.timeId)
            && PurchaseClassEffect(m1, d2, true).outcome.Success?
            && var m2 := PurchaseClassEffect(m1, d2, true).outcome.value;
               && PurchaseClassEffect(m2, d3, true).outcome.Success?
               && PurchaseClassEffect(m2, d3, true).calls[0].name == "chargeCustomer"
  {
    var m1 := PurchaseClassEffect(pulled, d1, true).outcome.value;
    var xs1 := ListDefault(m1, "active_classes").items;
    assert TimeIdOf(xs1[1]) == Some(Str(d1.timeId));
    NestedGuardSeesOnlyLast(pulled, d1, d2.timeId);
    NestedGuardSeesOnlyLast(m1, d2, d3.timeId);
  }

  /** As written: after a purchase the guard sees no slot but the one just bought. */
  lemma NestedGuardSeesOnlyLast(pulled: Record, d: ClassPurchase, t: string)
    requires PurchaseClassEffect(pulled, d, true).outcome.Success?
    requires t != d.timeId
    ensures var m := PurchaseClassEffect(pulled, d, true).outcome.value;
            TimeSlotGuard(m, "active_classes", t, ClassAlreadyBought).Success?
  {
    var m := PurchaseClassEffect(pulled, d, true).outcome.value;
    var before := ListDefault(pulled, "active_classes");
    var xs := [before, Entry(d.classId, d.timeId)];
    assert before.Arr?;
    assert ListDefault(m, "active_classes") == Arr(xs);
    assert TimeIdOf(xs[0]) == Some(Undef);
    assert TimeIdOf(xs[1]) == Some(Str(d.timeId));
    assert forall i :: 0 <= i < |xs| ==> TimeIdOf(xs[i]).Some?;
    assert !HasTimeSlot(xs, t);
  }

  /** The record an effect leaves: its merged record when it succeeds, else the one it started from. */
  function Recorded(e: Effect, pulled: Record): Record
  {
    if e.outcome.Success? then e.outcome.value else pulled
  }

  /** The smallest instance: an empty list, slots t1, t2, then t1 again, all three sold. */
  lemma NestedClassListRebuysSlot()
    ensures var m0: Record := map["active_classes" := Arr([])];
            var e1 := PurchaseClassEffect(m0, Purchase("t1"), true);
            var e2 := PurchaseClassEffect(Recorded(e1, m0), Purchase("t2"), true);
            var e3 := PurchaseClassEffect(Recorded(e2, m0), Purchase("t1"), true);
            e1.outcome.Success? && e2.outcome.Success? && e3.outcome.Success?
  {
    var m0: Record := map["active_classes" := Arr([])];
    assert !HasTimeSlot([], "t1");
    NestedClassListForgets(m0, Purchase("t1"), Purchase("t2"), Purchase("t1"));
  }

  /**
   * The corrected purchase: `[...active_classes, newEntry]` and
   * `[...scheduled_classes, newEntry]`; a schedule that cannot be spread throws after the
   * charge and the document call, as the merge does.
   */
  function PurchaseClassSpread(pulled: Record, d: ClassPurchase, chargeOk: bool): (e: Effect)
    ensures e.outcome.Success? ==>
              && TimeSlotGuard(pulled, "active_classes", d.timeId, ClassAlreadyBought).Success?
              && Get(e.outcome.value, "active_classes")
                 == Arr(ListDefault(pulled, "active_classes").items + [Entry(d.classId, d.timeId)])
              && Spread(ListDefault(pulled, "scheduled_classes")).Success?
              && Get(e.outcome.value, "scheduled_classes")
                 == Arr(Spread(ListDefault(pulled, "scheduled_classes")).value + [Entry(d.classId, d.timeId)])
              && SameExcept(e.outcome.value, pulled, {"active_classes", "scheduled_classes"})
    ensures e.outcome.Success? <==>
              && chargeOk && TimeSlotGuard(pulled, "active_classes", d.timeId, ClassAlreadyBought).Success?
              && Spread(ListDefault(pulled, "scheduled_classes")).Success?
    ensures TimeSlotGuard(pulled, "active_classes", d.timeId, ClassAlreadyBought).Failure? ==>
              e == Effect([], Failure(TimeSlotGuard(pulled, "active_classes", d.timeId, ClassAlreadyBought).error))
    ensures TimeSlotGuard(pulled, "active_classes", d.timeId, ClassAlreadyBought).Success? ==>
              |e.calls| > 0 && e.calls[0].name == "chargeCustomer"
  {
    match TimeSlotGuard(pulled, "active_classes", d.timeId, ClassAlreadyBought)
    case Failure(err) => Effect([], Failure(err))
    case Success(active) =>
      var charge := ServiceCall("chargeCustomer",
        map["cardId" := d.creditCardId, "amount" := d.price, "description" := d.description]);
      if !chargeOk then Effect([charge], Failure(ServiceFailed("chargeCustomer")))
      else
        var document := ServiceCall("documentClassPurchase",
          map["classId" := Str(d.classId), "timeId" := Str(d.timeId), "partnerId" := d.partnerId,
              "amount" := d.price, "user" := UserSummary(pulled)]);
        var entry := Entry(d.classId, d.timeId);
        match Spread(ListDefault(pulled, "scheduled_classes"))
        case Failure(err) => Effect([charge, document], Failure(err))
        case Success(scheduled) =>
          Effect([charge, document],
                 Success(pulled["active_classes" := Arr(active + [entry])]["scheduled_classes" := Arr(scheduled + [entry])]))
  }

  /** A list every entry of which has a time_id the guard can read. */
  predicate WellFormedSlots(xs: seq<JsValue>)
  {
    forall i :: 0 <= i < |xs| ==> TimeIdOf(xs[i]).Some?
  }

  /**
   * Corrected: after a purchase every slot bought before, and the new one, is still
   * visible to the guard, and the list stays readable.
   */
  lemma SpreadPurchaseRemembers(pulled: Record, d: ClassPurchase, chargeOk: bool, t: string)
    requires PurchaseClassSpread(pulled, d, chargeOk).outcome.Success?
    ensures var after := ListDefault(PurchaseClassSpread(pulled, d, chargeOk).outcome.value, "active_classes");
            && after.Arr? && WellFormedSlots(after.items)
            && HasTimeSlot(after.items, d.timeId)
            && (HasTimeSlot(ListDefault(pulled, "active_classes").items, t) ==> HasTimeSlot(after.items, t))
  {
    var before := ListDefault(pulled, "active_classes").items;
    var after := before + [Entry(d.classId, d.timeId)];
    assert TimeIdOf(after[|before|]) == Some(Str(d.timeId));
    if HasTimeSlot(before, t) {
      var i :| 0 <= i < |before| && TimeIdOf(before[i]) == Some(Str(t));
      assert after[i] == before[i];
    }
    forall i | 0 <= i < |after| ensures TimeIdOf(after[i]).Some? {
      if i < |before| {
        assert after[i] == before[i];
      }
    }
  }

  /** Corrected: any slot bought through any number of purchases is refused, uncharged, later. */
  lemma {:induction false} SpreadPurchasesRefuseEverySlot(pulled: Record, ds: seq<ClassPurchase>, k: nat,
                                                           again: ClassPurchase, chargeOk: bool)
    requires k < |ds| && again.timeId == ds[k].timeId
    requires PurchasesSucceed(pulled, ds)
    ensures var m := AfterPurchases(pulled, ds);
            PurchaseClassSpread(m, again, chargeOk) == Effect([], Failure(ClassAlreadyBought))
  {
    SlotsAfterPurchases(pulled, ds, k);
    var m := AfterPurchases(pulled, ds);
    var xs := ListDefault(m, "active_classes").items;
    assert TimeSlotGuard(m, "active_classes", again.timeId, ClassAlreadyBought) == Failure(ClassAlreadyBought);
  }

  /** The record after a run of corrected purchases, each recorded as it succeeds. */
  function AfterPurchases(pulled: Record, ds: seq<ClassPurchase>): Record
    decreases |ds|
  {
    if ds == [] then pulled
    else
      var e := PurchaseClassSpread(pulled, ds[0], true);
      if e.outcome.Success? then AfterPurchases(e.outcome.value, ds[1..]) else pulled
  }

  predicate PurchasesSucceed(pulled: Record, ds: seq<ClassPurchase>)
    decreases |ds|
  {
    ds == [] || (PurchaseClassSpread(pulled, ds[0], true).outcome.Success?
                 && PurchasesSucceed(PurchaseClassSpread(pulled, ds[0], true).outcome.value, ds[1..]))
  }

  lemma {:induction false} SlotsAfterPurchases(pulled: Record, ds: seq<ClassPurchase>, k: nat)
    requires k < |ds| && PurchasesSucceed(pulled, ds)
    ensures var after := ListDefault(AfterPurchases(pulled, ds), "active_classes");
            after.Arr? && WellFormedSlots(after.items) && HasTimeSlot(after.items, ds[k].timeId)
    decreases |ds|
  {
    var m := PurchaseClassSpread(pulled, ds[0], true).outcome.value;
    assert PurchasesSucceed(m, ds[1..]);
    assert AfterPurchases(pulled, ds) == AfterPurchases(m, ds[1..]);
    if k == 0 {
      SpreadPurchaseRemembers(pulled, ds[0], true, ds[0].timeId);
      SlotsKept(m, ds[1..], ds[0].timeId);
    } else {
      assert ds[1..][k - 1] == ds[k];
      SlotsAfterPurchases(m, ds[1..], k - 1);
    }
  }

  /** A slot the guard sees stays visible through further corrected purchases. */
  lemma {:induction false} SlotsKept(pulled: Record, ds: seq<ClassPurchase>, t: string)
    requires PurchasesSucceed(pulled, ds)
    requires ListDefault(pulled, "active_classes").Arr?
    requires WellFormedSlots(ListDefault(pulled, "active_classes").items)
    requires HasTimeSlot(ListDefault(pulled, "active_classes").items, t)
    ensures var after := ListDefault(AfterPurchases(pulled, ds), "active_classes");
            after.Arr? && WellFormedSlots(after.items) && HasTimeSlot(after.items, t)
    decreases |ds|
  {
    if ds != [] {
      var m := PurchaseClassSpread(pulled, ds[0], true).outcome.value;
      SpreadPurchaseRemembers(pulled, ds[0], true, t);
      SlotsKept(m, ds[1..], t);
    }
  }

  // ---------------------------------------------------------- memberships

  function Membership(id: string): MembershipPurchase
  {
    MembershipPurchase(id, Card, Num(30), Str("monthly"), Str("p1"), id)
  }

  /**
   * As written: after buying m0 and then m1, `includes('m0')` no longer sees m0, so it is
   * sold and subscribed again, and cancelling m0 leaves it in the record.
   */
  lemma NestedMembershipRebuys()
    ensures var m0: Record := map["active_memberships" := Arr([])];
            var e1 := PurchaseMembershipEffect(m0, Membership("m0"), true);
            var e2 := PurchaseMembershipEffect(Recorded(e1, m0), Membership("m1"), true);
            var m2 := Recorded(e2, m0);
            var e3 := PurchaseMembershipEffect(m2, Membership("m0"), true);
            var cancelled := DeleteSubscriptionEffect(m2, "m0", true);
            && e1.outcome.Success? && e2.outcome.Success?
            && e3.outcome.Success? && e3.calls[0].name == "subscribeCustomer"
            && cancelled.outcome.Success?
            && Get(cancelled.outcome.value, "active_memberships") == ListDefault(m2, "active_memberships")
  {
    var m0: Record := map["active_memberships" := Arr([])];
    var m1 := PurchaseMembershipEffect(m0, Membership("m0"), true).outcome.value;
    assert MembershipIncludes(Arr([Arr([]), Str("m0")]), "m1") == Success(false);
    var m2 := PurchaseMembershipEffect(m1, Membership("m1"), true).outcome.value;
    var xs := [Arr([Arr([]), Str("m0")]), Str("m1")];
    assert ListDefault(m2, "active_memberships") == Arr(xs);
    assert MembershipIncludes(Arr(xs), "m0") == Success(false);
    NestedIdHidden();
  }

  /** The nested list `[[], 'm0']` prints as ",m0", so `it != 'm0'` keeps it. */
  lemma NestedIdHidden()
    ensures var xs := [Arr([Arr([]), Str("m0")]), Str("m1")];
            RemoveMembership(xs, "m0") == xs
  {
    var inner := Arr([Arr([]), Str("m0")]);
    assert ToStr(Arr([])) == "";
    assert ElementStrings([Str("m0")]) == ["m0"];
    assert ElementStrings([Arr([]), Str("m0")]) == ["", "m0"];
    assert ToStr(inner) == ",m0";
    assert !LooseEquals(inner, "m0");
    assert !LooseEquals(Str("m1"), "m0");
  }

  /**
   * The corrected purchase: `[...active_memberships, membershipId]`. Once `includes` has
   * not thrown the memberships are a list or a string, and both spread.
   */
  function PurchaseMembershipSpread(pulled: Record, d: MembershipPurchase, subscribeOk: bool): (e: Effect)
    ensures e.outcome.Success? ==>
              && MembershipIncludes(ListDefault(pulled, "active_memberships"), d.membershipId) == Success(false)
              && Spread(ListDefault(pulled, "active_memberships")).Success?
              && Get(e.outcome.value, "active_memberships")
                 == Arr(Spread(ListDefault(pulled, "active_memberships")).value + [Str(d.membershipId)])
              && SameExcept(e.outcome.value, pulled, {"active_memberships"})
    ensures e.outcome.Success? <==>
              subscribeOk && MembershipIncludes(ListDefault(pulled, "active_memberships"), d.membershipId) == Success(false)
    ensures MembershipIncludes(ListDefault(pulled, "active_memberships"), d.membershipId) == Success(true) ==>
              e == Effect([], Failure(MembershipAlreadyBought))
    ensures MembershipIncludes(ListDefault(pulled, "active_memberships"), d.membershipId).Failure? ==>
              e.calls == [] && e.outcome.Failure?
  {
    var list := ListDefault(pulled, "active_memberships");
    match MembershipIncludes(list, d.membershipId)
    case Failure(err) => Effect([], Failure(err))
    case Success(owned) =>
      if owned then Effect([], Failure(MembershipAlreadyBought))
      else
        var subscribe := ServiceCall("subscribeCustomer",
          map["gymId" := Str(d.gymId), "cardId" := d.creditCardId, "amount" := d.price,
              "description" := d.description]);
        if !subscribeOk then Effect([subscribe], Failure(ServiceFailed("subscribeCustomer")))
        else
          var document := ServiceCall("documentMembershipPurchase",
            map["partnerId" := d.partnerId, "gymId" := Str(d.gymId), "amount" := d.price]);
          var items := if list.Arr? then list.items else Spread(list).value;
          Effect([subscribe, document],
                 Success(pulled["active_memberships" := Arr(items + [Str(d.membershipId)])]))
  }

  /**
   * Corrected: a membership owned before a purchase is still owned after it, so buying it
   * again is refused before any subscription.
   */
  lemma SpreadMembershipRemembers(pulled: Record, d: MembershipPurchase, subscribeOk: bool,
                                  owned: string, again: MembershipPurchase, againOk: bool)
    requires PurchaseMembershipSpread(pulled, d, subscribeOk).outcome.Success?
    requires owned == d.membershipId ||
             (ListDefault(pulled, "active_memberships").Arr? && Str(owned) in ListDefault(pulled, "active_memberships").items)
    requires again.membershipId == owned
    ensures var m := PurchaseMembershipSpread(pulled, d, subscribeOk).outcome.value;
            PurchaseMembershipSpread(m, again, againOk) == Effect([], Failure(MembershipAlreadyBought))
  {
    var xs := Spread(ListDefault(pulled, "active_memberships")).value;
    var ys := xs + [Str(d.membershipId)];
    assert ys[|xs|] == Str(d.membershipId);
    if owned != d.membershipId {
      var i :| 0 <= i < |xs| && xs[i] == Str(owned);
      assert ys[i] == Str(owned);
    }
  }

  /** Corrected: a membership bought and then cancelled is no longer among the memberships. */
  lemma SpreadMembershipCancels(pulled: Record, d: MembershipPurchase, subscribeOk: bool)
    requires PurchaseMembershipSpread(pulled, d, subscribeOk).outcome.Success?
    ensures var m := PurchaseMembershipSpread(pulled, d, subscribeOk).outcome.value;
            var c := DeleteSubscriptionEffect(m, d.membershipId, true);
            && c.outcome.Success?
            && MembershipIncludes(ListDefault(c.outcome.value, "active_memberships"), d.membershipId)
               == Success(false)
  {
  }

  // ------------------------------------------------------------- icon change

  /** As written: an oversize file that uploads is rejected, yet uploaded, set as the icon and pushed. */
  lemma OversizeIconStillApplied(pick: PickResult)
    requires !pick.error && pick.fileSize > MaxIconBytes
    ensures var o := IconChangeAsWritten(pick, true, true);
            && o.settlement == Rejected("Image file size must not exceed 8MB.")
            && o.uploaded && o.iconSet && o.pushed
  {
  }

  /** The corrected callback: each `reject` is followed by a `return`. */
  function IconChangeChecked(pick: PickResult, uploadOk: bool, pushOk: bool): (o: IconOutcome)
    ensures pick.error || pick.fileSize > MaxIconBytes ==> !o.uploaded && !o.iconSet && !o.pushed
    ensures o.pushed ==> o.settlement == Resolved("Success.")
    ensures o.settlement == Resolved("Success.") <==>
              !pick.error && pick.fileSize <= MaxIconBytes && uploadOk && pushOk
  {
    if pick.error then IconOutcome(Rejected("Something prevented the action."), false, false, false)
    else if pick.fileSize > MaxIconBytes then
      IconOutcome(Rejected("Image file size must not exceed 8MB."), false, false, false)
    else if !uploadOk then IconOutcome(Rejected("Something prevented upload."), false, false, false)
    else if !pushOk then IconOutcome(Rejected("Something prevented upload."), true, true, false)
    else IconOutcome(Resolved("Success."), true, true, true)
  }

  /** On a pick that passes both checks, the corrected and the written callback agree. */
  lemma IconChangeAgreesOnValidPick(pick: PickResult, uploadOk: bool, pushOk: bool)
    requires !pick.error && pick.fileSize <= MaxIconBytes
    ensures IconChangeChecked(pick, uploadOk, pushOk) == IconChangeAsWritten(pick, uploadOk, pushOk)
  {
  }
}
