/**
 * The boot screen: on mount it clears the session cache, then sends a signed-in member
 * to the screen their account type and waitlist position call for, and anyone else to
 * the landing screen. Every `navigation.reset` is recorded, in order, in a route log.
 */
module Boot {
  import opened Base
  import opened JsValues
  import opened SessionCache

  datatype Route = Landing | Waitlist | PartnerDashboard | UserDashboard

  /** `user.retrieveWaitlistStatus()`: the two fields the screen reads. */
  datatype WaitlistStatus = WaitlistStatus(threshold: JsValue, priority: JsValue)

  /** What the screen does, in order: the cache reset and each route reset. */
  datatype BootEvent = CacheReset | RouteReset(route: Route)

  /**
   * The resets `bootWithUser` makes for an account type (compared with `===`). A user
   * past the threshold is sent to the waitlist and the function returns; a user within
   * it falls through into the partner case, which resets to the partner dashboard before
   * the second switch resets to the user dashboard. None: a read threw and the rest of
   * the function did not run.
   */
  function BootRoutes(accountType: JsValue, status: Option<WaitlistStatus>): seq<Route>
  {
    if accountType == Str("user") then
      if status.None? then []
      else if Greater(status.value.priority, status.value.threshold) then [Waitlist]
      else [PartnerDashboard, UserDashboard]
    else if accountType == Str("partner") then [PartnerDashboard, PartnerDashboard]
    else [Landing, Landing]
  }

  /** Where each kind of account belongs, stated independently of the switches. */
  function Destination(accountType: JsValue, status: WaitlistStatus): Route
  {
    match accountType
    case Str("user") => if Greater(status.priority, status.threshold) then Waitlist else UserDashboard
    case Str("partner") => PartnerDashboard
    case _ => Landing
  }

  /** Whatever the account, once the reads succeed the last reset is its destination. */
  lemma BootEndsAtDestination(accountType: JsValue, status: WaitlistStatus)
    ensures |BootRoutes(accountType, Some(status))| > 0
    ensures BootRoutes(accountType, Some(status))[|BootRoutes(accountType, Some(status))| - 1] ==
              Destination(accountType, status)
  {
  }

  /**
   * The fall-through: a user within the threshold passes through the partner dashboard
   * first, and only a user past it is stopped at the waitlist after a single reset.
   */
  lemma UserFallsThroughPartnerCase(status: WaitlistStatus)
    ensures !Greater(status.priority, status.threshold) ==>
              BootRoutes(Str("user"), Some(status)) == [PartnerDashboard, UserDashboard]
    ensures Greater(status.priority, status.threshold) <==> BootRoutes(Str("user"), Some(status)) == [Waitlist]
    ensures Waitlist in BootRoutes(Str("user"), Some(status)) <==> Greater(status.priority, status.threshold)
  {
  }

  /** A numeric priority above a numeric threshold is past it; equal is within. */
  lemma WaitlistByNumbers(priority: int, threshold: int)
    ensures BootRoutes(Str("user"), Some(WaitlistStatus(Num(threshold), Num(priority)))) ==
              if priority > threshold then [Waitlist] else [PartnerDashboard, UserDashboard]
  {
  }

  function ResetEvents(routes: seq<Route>): (es: seq<BootEvent>)
    ensures |es| == |routes|
    ensures forall i :: 0 <= i < |routes| ==> es[i] == RouteReset(routes[i])
  {
    if routes == [] then [] else [RouteReset(routes[0])] + ResetEvents(routes[1..])
  }

  class BootScreen {
    const cache: Cache
    /** The events so far, the cache reset and the route resets in order. */
    var events: seq<BootEvent>

    constructor (cache: Cache)
      ensures this.cache == cache && events == []
    {
      this.cache := cache;
      events := [];
    }

    /** `navigation.reset({ index: 0, routes: [{ name }] })`. */
    method Reset(route: Route)
      modifies this
      ensures events == old(events) + [RouteReset(route)]
    {
      events := events + [RouteReset(route)];
    }

    /**
     * `bootWithUser`, given what `retrieveUser` yields for `account_type` and what the
     * waitlist read yields (None when it throws); the waitlist is only read for a user.
     */
    method BootWithUser(accountType: JsValue, status: Option<WaitlistStatus>)
      modifies this
      ensures events == old(events) + ResetEvents(BootRoutes(accountType, status))
    {
      // first switch
      if accountType == Str("user") {
        if status.None? {
          return;
        }
        if Greater(status.value.priority, status.value.threshold) {
          Reset(Waitlist);
          return;
        }
        // no break: falls into the partner case
        Reset(PartnerDashboard);
      } else if accountType == Str("partner") {
        Reset(PartnerDashboard);
      } else {
        Reset(Landing);
      }
      // second switch
      if accountType == Str("user") {
        Reset(UserDashboard);
      } else if accountType == Str("partner") {
        Reset(PartnerDashboard);
      } else {
        Reset(Landing);
      }
      assert ResetEvents(BootRoutes(accountType, status)) ==
               [RouteReset(BootRoutes(accountType, status)[0]), RouteReset(BootRoutes(accountType, status)[1])];
    }

    /**
     * The mount effect: the cache is cleared first, whatever follows; then a signed-in
     * member is booted (`account` is None when `new User()` or `retrieveUser` throws) and anyone else is
     * reset to the landing screen.
     */
    method Mount(signedIn: bool, account: Option<JsValue>, status: Option<WaitlistStatus>)
      modifies this, cache
      ensures cache.entries == map[]
      ensures |events| > |old(events)| && events[|old(events)|] == CacheReset
      ensures events == old(events) + [CacheReset] +
                if !signedIn then [RouteReset(Landing)]
                else if account.None? then []
                else ResetEvents(BootRoutes(account.value, status))
    {
      cache.ResetAll();
      events := events + [CacheReset];
      if signedIn {
        if account.Some? {
          BootWithUser(account.value, status);
        }
      } else {
        Reset(Landing);
      }
    }
  }
}
