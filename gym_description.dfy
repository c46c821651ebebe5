/**
 * The gym description screen: which membership the signed-in member holds for the gym,
 * what the purchase area shows for it, the purchase request the card selection sends,
 * and which banner a failed purchase lands in, by the error's `code`.
 */
module GymDescription {
  import opened Base
  import opened JsValues
  import opened AccountRules

  /** `hasMembership`: null before it is computed, then 'imbue', 'gym' or false. */
  datatype MembershipState = NotComputed | ImbueMembership | GymMembership | NoMembership

  /**
   * The nested ternary over `user.active_memberships.includes(...)`: imbue's own
   * membership is checked first, then the gym's; a value without `includes` throws.
   */
  function ClassifyMembership(activeMemberships: JsValue, imbueId: string, gymId: string)
    : (r: Result<MembershipState, UserError>)
    ensures r.Failure? <==> MembershipIncludes(activeMemberships, imbueId).Failure?
    ensures r == Success(ImbueMembership) <==> MembershipIncludes(activeMemberships, imbueId) == Success(true)
    ensures r == Success(GymMembership) <==>
              && MembershipIncludes(activeMemberships, imbueId) == Success(false)
              && MembershipIncludes(activeMemberships, gymId) == Success(true)
    ensures r == Success(NoMembership) <==>
              && MembershipIncludes(activeMemberships, imbueId) == Success(false)
              && MembershipIncludes(activeMemberships, gymId) == Success(false)
    ensures r != Success(NotComputed)
  {
    match MembershipIncludes(activeMemberships, imbueId)
    case Failure(e) => Failure(e)
    case Success(imbue) =>
      if imbue then Success(ImbueMembership)
      else
        // the second `includes` cannot throw once the first has not
        var gym := MembershipIncludes(activeMemberships, gymId);
        if gym == Success(true) then Success(GymMembership) else Success(NoMembership)
  }

  /** A list holding imbue's id classifies as 'imbue' whatever else it holds. */
  lemma ImbueWins(xs: seq<JsValue>, imbueId: string, gymId: string)
    requires Str(imbueId) in xs
    ensures ClassifyMembership(Arr(xs), imbueId, gymId) == Success(ImbueMembership)
    ensures Str(gymId) in xs ==> ClassifyMembership(Arr(xs + [Str(gymId)]), imbueId, gymId) == Success(ImbueMembership)
  {
    assert Str(imbueId) in xs + [Str(gymId)];
  }

  /** What the purchase area renders. */
  datatype PurchaseArea = Placeholder | Nothing | PurchaseOptions

  /** `hasMembership === null ? <View /> : hasMembership ? null : <purchase options>`. */
  function RenderPurchaseArea(h: MembershipState): (a: PurchaseArea)
    ensures a == PurchaseOptions <==> h == NoMembership
    ensures a == Placeholder <==> h == NotComputed
  {
    match h
    case NotComputed => Placeholder
    case ImbueMembership => Nothing
    case GymMembership => Nothing
    case NoMembership => PurchaseOptions
  }

  /** The fields of the gym document the purchase reads. */
  datatype GymDoc = GymDoc(id: string, membershipPrice: JsValue, name: string, partnerId: JsValue)

  /** The details `onCardSelect` hands to `purchaseMembership`. */
  function MembershipRequest(gym: GymDoc, cardId: JsValue): (d: MembershipPurchase)
    ensures d.membershipId == gym.id && d.gymId == gym.id
    ensures d.creditCardId == cardId && d.price == gym.membershipPrice && d.partnerId == gym.partnerId
  {
    MembershipPurchase(gym.id, cardId, gym.membershipPrice,
                       Str("Gym Online Membership – " + gym.name), gym.partnerId, gym.id)
  }

  /** The two banners; `onCardSelect` clears both before it tries the purchase. */
  datatype Banners = Banners(error: string, success: string)

  /** The `switch (err.code)` in the catch of `onCardSelect`. */
  function BannersAfterError(code: Option<string>, message: string): (b: Banners)
    ensures code == Some("busy") ==> b == Banners(message, "")
    ensures code == Some("membership-already-bought") ==> b == Banners("", message)
    ensures code != Some("busy") && code != Some("membership-already-bought") ==>
              b == Banners("Something prevented the action.", "")
  {
    match code
    case Some(c) =>
      if c == "busy" then Banners(message, "")
      else if c == "membership-already-bought" then Banners("", message)
      else Banners("Something prevented the action.", "")
    case None => Banners("Something prevented the action.", "")
  }

  /** The banners once the purchase has settled. */
  function BannersAfterPurchase(outcome: Result<JsValue, UserError>, message: string): Banners
  {
    match outcome
    case Success(_) => Banners("", "")
    case Failure(e) => BannersAfterError(ErrorCode(e), message)
  }

  /**
   * Routed through the entity's error codes: a busy refusal is an error banner with its
   * message, an owned membership a success banner, every other failure the generic error.
   */
  lemma PurchaseBannerRouting(e: UserError, message: string)
    ensures e.Busy? ==> BannersAfterPurchase(Failure(e), message) == Banners(message, "")
    ensures e == MembershipAlreadyBought ==> BannersAfterPurchase(Failure(e), message) == Banners("", message)
    ensures !e.Busy? && e != MembershipAlreadyBought ==>
              BannersAfterPurchase(Failure(e), message) == Banners("Something prevented the action.", "")
  {
  }

  /** Buying the gym's membership on a record that already shows it lands in the success banner. */
  lemma OwnedGymMembershipIsSuccessBanner(pulled: Record, gym: GymDoc, cardId: JsValue, ok: bool, message: string)
    requires MembershipIncludes(ListDefault(pulled, "active_memberships"), gym.id) == Success(true)
    ensures var e := PurchaseMembershipEffect(pulled, MembershipRequest(gym, cardId), ok);
            e.calls == [] && BannersAfterPurchase(Failure(e.outcome.error), message) == Banners("", message)
  {
  }
}
