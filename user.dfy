/**
 * The `User` account entity: a local mirror of one account record that is hydrated from
 * the store, read through normalising views, changed by guarded mutations and pushed back.
 * Its collaborators (auth, the record store, the callable functions and the session cache)
 * are the plain state of the Backend and SessionCache modules; whether a foreign call
 * succeeds, and what it hands back, are parameters of the operation that makes it.
 */
module UserStorage {
  import opened Base
  import opened JsValues
  import opened Backend
  import opened SessionCache
  import opened AccountRules

  /** `a || b` on JavaScript values. */
  function JsOr(a: JsValue, b: JsValue): JsValue
  {
    if Truthy(a) then a else b
  }

  class User {
    const auth: AuthSession
    const store: RemoteStore
    const gateway: Gateway
    const cache: Cache

    /** The auth user seen at construction. */
    var firebaseUser: Option<AuthUser>
    /** The id the record is bound to; unbound until `init` or `create`. */
    var uid: Option<string>
    var collection: string
    var accountType: string
    /** The local mirror of the record (`getAll()`); `loaded` once it has been hydrated. */
    var mirror: Record
    var loaded: bool
    /** The guarded operation in flight, if any. */
    var busy: Option<string>

    /**
     * `new User()`: the account type and collection come from the auth display name; a
     * signed-in auth user whose display name is null makes `displayName.search` throw, and
     * no entity is made.
     */
    static method New(auth: AuthSession, store: RemoteStore, gateway: Gateway, cache: Cache)
      returns (r: Result<User, UserError>)
      ensures AccountTypeOf(auth.currentUser).Failure? ==> r == Failure(AccountTypeOf(auth.currentUser).error)
      ensures AccountTypeOf(auth.currentUser).Success? ==>
                && r.Success? && fresh(r.value)
                && r.value.auth == auth && r.value.store == store
                && r.value.gateway == gateway && r.value.cache == cache
                && r.value.firebaseUser == auth.currentUser
                && r.value.accountType == AccountTypeOf(auth.currentUser).value
                && r.value.collection == CollectionFor(r.value.accountType)
                && r.value.uid == None && r.value.mirror == map[] && !r.value.loaded && r.value.busy == None
    {
      var t := AccountTypeOf(auth.currentUser);
      if t.Failure? {
        return Failure(t.error);
      }
      var u := new User(auth, store, gateway, cache);
      r := Success(u);
    }

    /** The constructor once the display name has parsed: `super(collection)` and the two fields. */
    constructor (auth: AuthSession, store: RemoteStore, gateway: Gateway, cache: Cache)
      requires AccountTypeOf(auth.currentUser).Success?
      ensures this.auth == auth && this.store == store && this.gateway == gateway && this.cache == cache
      ensures firebaseUser == auth.currentUser
      ensures accountType == AccountTypeOf(auth.currentUser).value
      ensures collection == CollectionFor(accountType)
      ensures uid == None && mirror == map[] && !loaded && busy == None
    {
      this.auth := auth;
      this.store := store;
      this.gateway := gateway;
      this.cache := cache;
      firebaseUser := auth.currentUser;
      var t := AccountTypeOf(auth.currentUser).value;
      accountType := t;
      collection := CollectionFor(t);
      uid := None;
      mirror := map[];
      loaded := false;
      busy := None;
    }

    // ------------------------------------------------------ the DataObject part

    /** What `_forcePull` reads for the signed-in user from the given store contents. */
    function PullFrom(records: map<(string, string), Record>): Result<Record, UserError>
      reads this
    {
      if firebaseUser.None? then Failure(TypeError("cannot read property uid of null"))
      else if (collection, firebaseUser.value.uid) !in records then Failure(NotFound)
      else Success(records[(collection, firebaseUser.value.uid)])
    }

    /** The mirror `init` settles on: the one already loaded, or a fresh read. */
    function Hydrated(records: map<(string, string), Record>): Result<Record, UserError>
      reads this
    {
      if firebaseUser.None? then Failure(TypeError("cannot read property uid of null"))
      else if loaded then Success(mirror)
      else PullFrom(records)
    }

    /** `init()`: bind the uid of the signed-in user and hydrate the mirror unless it already is. */
    method Init() returns (err: Option<UserError>)
      modifies this
      ensures firebaseUser == old(firebaseUser) && collection == old(collection)
      ensures accountType == old(accountType) && busy == old(busy)
      ensures firebaseUser.Some? ==> uid == Some(firebaseUser.value.uid)
      ensures firebaseUser.None? ==> uid == old(uid)
      ensures old(Hydrated(store.records)).Failure? ==>
                err == Some(old(Hydrated(store.records)).error) && mirror == old(mirror) && loaded == old(loaded)
      ensures old(Hydrated(store.records)).Success? ==>
                err == None && mirror == old(Hydrated(store.records)).value && loaded
    {
      if firebaseUser.None? {
        return Some(TypeError("cannot read property uid of null"));
      }
      uid := Some(firebaseUser.value.uid);
      if !loaded {
        var key := (collection, firebaseUser.value.uid);
        if key !in store.records {
          return Some(NotFound);
        }
        mirror := store.records[key];
        loaded := true;
      }
      err := None;
    }

    /** `_forcePull()`: replace the mirror by the stored record under the bound uid. */
    method ForcePull() returns (err: Option<UserError>)
      modifies this
      ensures firebaseUser == old(firebaseUser) && collection == old(collection) && uid == old(uid)
      ensures accountType == old(accountType) && busy == old(busy) && loaded == old(loaded)
      ensures uid.None? || (collection, uid.value) !in store.records ==>
                err == Some(NotFound) && mirror == old(mirror)
      ensures uid.Some? && (collection, uid.value) in store.records ==>
                err == None && mirror == store.records[(collection, uid.value)]
    {
      if uid.None? || (collection, uid.value) !in store.records {
        return Some(NotFound);
      }
      mirror := store.records[(collection, uid.value)];
      err := None;
    }

    /** `push()`: write the mirror to the record under the bound uid. */
    method Push(pushOk: bool) returns (err: Option<UserError>)
      modifies store
      ensures pushOk && uid.Some? ==>
                err == None && store.records == old(store.records)[(collection, uid.value) := mirror]
      ensures !pushOk || uid.None? ==> err == Some(PushFailed) && store.records == old(store.records)
    {
      if !pushOk || uid.None? {
        return Some(PushFailed);
      }
      store.records := store.records[(collection, uid.value) := mirror];
      err := None;
    }

    /**
     * How one run of the guarded template ends, from the store contents, call log and
     * mirror before it: init and pull, then the effect's calls, then its error or its
     * merged mirror, pushed.
     */
    ghost predicate Completed(records0: map<(string, string), Record>, log0: seq<ServiceCall>,
                              mirror0: Record, effect: Record -> Effect, pushOk: bool,
                              r: Result<JsValue, UserError>)
      reads this, store, gateway
    {
      match PullFrom(records0)
      case Failure(e) =>
        r == Failure(e) && mirror == mirror0 && store.records == records0 && gateway.log == log0
      case Success(p) =>
        && uid == Some(firebaseUser.value.uid) && loaded
        && gateway.log == log0 + effect(p).calls
        && match effect(p).outcome
           case Failure(e) => r == Failure(e) && mirror == p && store.records == records0
           case Success(m) =>
             && mirror == m
             && (pushOk ==> r == Success(Undef) && store.records == records0[(collection, uid.value) := m])
             && (!pushOk ==> r == Failure(PushFailed) && store.records == records0)
    }

    /** The template the four mutations share: init, force-pull, the effect, merge, push. */
    method Perform(effect: Record -> Effect, pushOk: bool) returns (r: Result<JsValue, UserError>)
      modifies this, store, gateway
      ensures firebaseUser == old(firebaseUser) && collection == old(collection)
      ensures accountType == old(accountType) && busy == old(busy)
      ensures Completed(old(store.records), old(gateway.log), old(mirror), effect, pushOk, r)
    {
      var err := Init();
      if err.Some? {
        return Failure(err.value);
      }
      err := ForcePull();
      if err.Some? {
        return Failure(err.value);
      }
      var e := effect(mirror);
      gateway.log := gateway.log + e.calls;
      match e.outcome
      case Failure(x) =>
        r := Failure(x);
      case Success(m) =>
        mirror := m;
        err := Push(pushOk);
        r := if err.Some? then Failure(err.value) else Success(Undef);
    }

    // --------------------------------------------------------- the mutations

    /** `purchaseClass(details)`, busy-wrapped, with the nested merge of the two lists as written. */
    method PurchaseClass(d: ClassPurchase, chargeOk: bool, pushOk: bool) returns (r: Result<JsValue, UserError>)
      modifies this, store, gateway
      ensures old(busy).Some? ==> r == Failure(Busy(old(busy).value)) && unchanged(this, store, gateway)
      ensures old(busy).None? ==>
                && busy == None && firebaseUser == old(firebaseUser) && collection == old(collection)
                && Completed(old(store.records), old(gateway.log), old(mirror),
                             p => PurchaseClassEffect(p, d, chargeOk), pushOk, r)
    {
      if busy.Some? {
        return Failure(Busy(busy.value));
      }
      busy := Some("purchaseClass");
      r := Perform(p => PurchaseClassEffect(p, d, chargeOk), pushOk);
      busy := None;
    }

    /** `scheduleClass(details)`: the same template, with no busy guard. */
    method ScheduleClass(d: ClassBooking, pushOk: bool) returns (r: Result<JsValue, UserError>)
      modifies this, store, gateway
      ensures busy == old(busy) && firebaseUser == old(firebaseUser) && collection == old(collection)
      ensures Completed(old(store.records), old(gateway.log), old(mirror),
                        p => ScheduleClassEffect(p, d), pushOk, r)
    {
      r := Perform(p => ScheduleClassEffect(p, d), pushOk);
    }

    /** `purchaseMembership(details)`, busy-wrapped, with the nested merge of the memberships as written. */
    method PurchaseMembership(d: MembershipPurchase, subscribeOk: bool, pushOk: bool)
      returns (r: Result<JsValue, UserError>)
      modifies this, store, gateway
      ensures old(busy).Some? ==> r == Failure(Busy(old(busy).value)) && unchanged(this, store, gateway)
      ensures old(busy).None? ==>
                && busy == None && firebaseUser == old(firebaseUser) && collection == old(collection)
                && Completed(old(store.records), old(gateway.log), old(mirror),
                             p => PurchaseMembershipEffect(p, d, subscribeOk), pushOk, r)
    {
      if busy.Some? {
        return Failure(Busy(busy.value));
      }
      busy := Some("purchaseMembership");
      r := Perform(p => PurchaseMembershipEffect(p, d, subscribeOk), pushOk);
      busy := None;
    }

    /** `deleteSubscription({ gymId })`, busy-wrapped. */
    method DeleteSubscription(gymId: string, deleteOk: bool, pushOk: bool) returns (r: Result<JsValue, UserError>)
      modifies this, store, gateway
      ensures old(busy).Some? ==> r == Failure(Busy(old(busy).value)) && unchanged(this, store, gateway)
      ensures old(busy).None? ==>
                && busy == None && firebaseUser == old(firebaseUser) && collection == old(collection)
                && Completed(old(store.records), old(gateway.log), old(mirror),
                             p => DeleteSubscriptionEffect(p, gymId, deleteOk), pushOk, r)
    {
      if busy.Some? {
        return Failure(Busy(busy.value));
      }
      busy := Some("deleteSubscription");
      r := Perform(p => DeleteSubscriptionEffect(p, gymId, deleteOk), pushOk);
      busy := None;
    }

    // -------------------------------------------------------------- livestream

    /**
     * `createLivestream()`, busy-wrapped: an existing key is returned without a call;
     * otherwise the callable function runs and the record is pulled up to 15 times, the
     * first truthy key returned, and undefined after the last pull. `written(i)` is the
     * record the cloud function has left in the store by the i-th pull; `polls` counts pulls.
     */
    method CreateLivestream(createOk: bool, written: nat -> Record)
      returns (r: Result<JsValue, UserError>, polls: nat)
      modifies this, store, gateway
      ensures old(busy).Some? ==>
                r == Failure(Busy(old(busy).value)) && polls == 0 && unchanged(this, store, gateway)
      ensures old(busy).None? ==> busy == None && firebaseUser == old(firebaseUser)
      ensures old(busy).None? && old(Hydrated(store.records)).Failure? ==>
                r == Failure(old(Hydrated(store.records)).error) && polls == 0 && gateway.log == old(gateway.log)
      ensures old(busy).None? && old(Hydrated(store.records)).Success? &&
              Truthy(StreamKey(old(Hydrated(store.records)).value)) ==>
                r == Success(StreamKey(old(Hydrated(store.records)).value)) && polls == 0
                && gateway.log == old(gateway.log)
      ensures old(busy).None? && old(Hydrated(store.records)).Success? &&
              !Truthy(StreamKey(old(Hydrated(store.records)).value)) ==>
                && gateway.log == old(gateway.log) + [ServiceCall("createLivestream", map[])]
                && (!createOk ==> r == Failure(ServiceFailed("createLivestream")) && polls == 0)
                && (createOk && FirstKeyIndex(written, 0, LivestreamPolls).Some? ==>
                      && polls == FirstKeyIndex(written, 0, LivestreamPolls).value + 1
                      && r == Success(StreamKey(written(polls - 1))) && mirror == written(polls - 1))
                && (createOk && FirstKeyIndex(written, 0, LivestreamPolls).None? ==>
                      && polls == LivestreamPolls && r == Success(Undef)
                      && mirror == written(LivestreamPolls - 1))
    {
      polls := 0;
      if busy.Some? {
        return Failure(Busy(busy.value)), 0;
      }
      busy := Some("createLivestream");
      var err := Init();
      if err.Some? {
        busy := None;
        return Failure(err.value), 0;
      }
      if Truthy(StreamKey(mirror)) {
        busy := None;
        return Success(StreamKey(mirror)), 0;
      }
      gateway.log := gateway.log + [ServiceCall("createLivestream", map[])];
      if !createOk {
        busy := None;
        return Failure(ServiceFailed("createLivestream")), 0;
      }
      r := Success(Undef);
      var i: nat := 0;
      while i < LivestreamPolls
        invariant i <= LivestreamPolls && polls == i
        invariant uid.Some? && busy.Some? && firebaseUser == old(firebaseUser)
        invariant gateway.log == old(gateway.log) + [ServiceCall("createLivestream", map[])]
        invariant FirstKeyIndex(written, 0, LivestreamPolls) == FirstKeyIndex(written, i, LivestreamPolls)
        invariant i > 0 ==> mirror == written(i - 1)
      {
        store.records := store.records[(collection, uid.value) := written(i)];
        err := ForcePull();
        i := i + 1;
        polls := i;
        if Truthy(StreamKey(mirror)) {
          busy := None;
          return Success(StreamKey(mirror)), polls;
        }
      }
      busy := None;
    }

    // ------------------------------------------------------------------ create

    /**
     * `create(form, options)`: sign the account up (manually, through auth, when there are
     * no options), rename the auth user to `${type}_${first}_${last}`, bind uid, collection
     * and type, seed the mirror and push it. `createdUid` is the uid the manual sign-up
     * resolves to (None: it rejects); `profileOk` and `pushOk` say whether the rename and
     * the push succeed.
     */
    method Create(form: SignUpForm, options: Option<SocialOptions>, createdUid: Option<string>,
                  profileOk: bool, pushOk: bool) returns (r: Result<JsValue, UserError>)
      modifies this, auth, store
      ensures busy == old(busy) && firebaseUser == old(firebaseUser) && loaded == old(loaded)
      ensures options.None? && createdUid.None? ==>
                r == Failure(AuthFailed) && unchanged(this, auth, store)
      ensures options.Some? && old(auth.currentUser).None? ==>
                r == Failure(TypeError("cannot read property updateProfile of null"))
                && unchanged(this, auth, store)
      ensures options.Some? || createdUid.Some? ==>
                var a := AccountOf(form, options, if createdUid.Some? then createdUid.value else "");
                var signedIn := if options.None? then Some(AuthUser(a.uid, None)) else old(auth.currentUser);
                signedIn.Some? ==>
                  && uid == Some(a.uid) && collection == CollectionFor(a.accountType)
                  && accountType == a.accountType
                  && mirror == Seeded(old(mirror), a.accountType, a.uid, a.first, a.last, a.email, a.iconForeign)
                  && auth.currentUser == Some(if profileOk
                                              then signedIn.value.(displayName := Some(DisplayName(a.accountType, a.first, a.last)))
                                              else signedIn.value)
                  && (pushOk ==> store.records == old(store.records)[(collection, a.uid) := mirror])
                  && (!pushOk ==> store.records == old(store.records))
                  && r == (if !pushOk then Failure(PushFailed)
                           else if !profileOk then Failure(AuthFailed)
                           else Success(Undef))
    {
      if options.None? {
        if createdUid.None? {
          return Failure(AuthFailed);
        }
        auth.currentUser := Some(AuthUser(createdUid.value, None));
      }
      var a := AccountOf(form, options, if createdUid.Some? then createdUid.value else "");
      if auth.currentUser.None? {
        return Failure(TypeError("cannot read property updateProfile of null"));
      }
      if profileOk {
        auth.currentUser := Some(auth.currentUser.value.(displayName := Some(DisplayName(a.accountType, a.first, a.last))));
      }
      var pushed := BindAndSeed(a, pushOk);
      r := if !pushed then Failure(PushFailed)
           else if !profileOk then Failure(AuthFailed)
           else Success(Undef);
    }

    /** The second half of `create`: bind uid, collection and type, seed the mirror, push. */
    method BindAndSeed(a: NewAccount, pushOk: bool) returns (pushed: bool)
      modifies this, store
      ensures busy == old(busy) && firebaseUser == old(firebaseUser) && loaded == old(loaded)
      ensures uid == Some(a.uid) && collection == CollectionFor(a.accountType) && accountType == a.accountType
      ensures mirror == Seeded(old(mirror), a.accountType, a.uid, a.first, a.last, a.email, a.iconForeign)
      ensures pushed == pushOk
      ensures pushOk ==> store.records == old(store.records)[(collection, a.uid) := mirror]
      ensures !pushOk ==> store.records == old(store.records)
    {
      var seeded := Seeded(mirror, a.accountType, a.uid, a.first, a.last, a.email, a.iconForeign);
      uid, collection, accountType, mirror := Some(a.uid), CollectionFor(a.accountType), a.accountType, seeded;
      var err := Push(pushOk);
      pushed := err.None?;
    }

    // -------------------------------------------------------------- read views

    /**
     * `retrieveUser()`: write the empty-list defaults of the account type back into the
     * mirror and return it with `name` and `icon_uri_full` added; `storageUrl` is what
     * `publicStorage` resolves a storage path to.
     */
    method RetrieveUser(storageUrl: string -> JsValue) returns (r: Result<Record, UserError>)
      modifies this
      ensures busy == old(busy) && firebaseUser == old(firebaseUser) && accountType == old(accountType)
      ensures old(Hydrated(store.records)).Failure? ==>
                r == Failure(old(Hydrated(store.records)).error) && mirror == old(mirror)
      ensures old(Hydrated(store.records)).Success? ==>
                var m := old(Hydrated(store.records)).value;
                && mirror == Normalise(m, accountType)
                && r == Success(mirror["name" := Str(ToStr(Get(m, "first")) + " " + ToStr(Get(m, "last")))]
                                      ["icon_uri_full" :=
                                         JsOr(storageUrl(firebaseUser.value.uid),
                                              JsOr(Get(m, "icon_uri_foreign"),
                                                   storageUrl(ToStr(OrDefault(Get(m, "icon_uri"), Str(DefaultIcon))))))])
    {
      var err := Init();
      if err.Some? {
        return Failure(err.value);
      }
      var m := mirror;
      mirror := Normalise(m, accountType);
      var name := Str(ToStr(Get(m, "first")) + " " + ToStr(Get(m, "last")));
      var full := JsOr(storageUrl(uid.value),
                       JsOr(Get(m, "icon_uri_foreign"),
                            storageUrl(ToStr(OrDefault(Get(m, "icon_uri"), Str(DefaultIcon))))));
      r := Success(mirror["name" := name]["icon_uri_full" := full]);
    }

    /**
     * A cached subresource list: a non-empty cache entry is returned without a read; an
     * empty or missing one is a miss, after which the cache holds exactly what was fetched.
     * `fetched` is what the read of the subcollection gives (None: it rejects).
     */
    method CachedSubresource(sub: string, fetched: Option<seq<JsValue>>)
      returns (r: Result<seq<JsValue>, UserError>, readDb: bool)
      modifies this, cache
      ensures busy == old(busy) && firebaseUser == old(firebaseUser)
      ensures old(Hydrated(store.records)).Failure? ==>
                r == Failure(old(Hydrated(store.records)).error) && !readDb && unchanged(cache)
      ensures old(Hydrated(store.records)).Success? ==>
                var key := SubresourceKey(collection, Some(firebaseUser.value.uid), sub);
                && (|old(cache.ListAt(key))| > 0 ==>
                      r == Success(old(cache.ListAt(key))) && !readDb && unchanged(cache))
                && (|old(cache.ListAt(key))| == 0 && fetched.None? ==>
                      r == Failure(ReadFailed) && readDb && unchanged(cache))
                && (|old(cache.ListAt(key))| == 0 && fetched.Some? ==>
                      r == Success(fetched.value) && readDb
                      && cache.entries == old(cache.entries)[key := fetched.value])
    {
      var err := Init();
      if err.Some? {
        return Failure(err.value), false;
      }
      var key := SubresourceKey(collection, uid, sub);
      var data := cache.ListAt(key);
      if |data| > 0 {
        return Success(data), false;
      }
      if fetched.None? {
        return Failure(ReadFailed), true;
      }
      cache.Set(key, fetched.value);
      r, readDb := Success(fetched.value), true;
    }

    /** `retrievePaymentMethods()`. */
    method RetrievePaymentMethods(fetched: Option<seq<JsValue>>)
      returns (r: Result<seq<JsValue>, UserError>, readDb: bool)
      modifies this, cache
      ensures busy == old(busy) && firebaseUser == old(firebaseUser)
      ensures old(Hydrated(store.records)).Success? ==>
                var key := SubresourceKey(collection, Some(firebaseUser.value.uid), "payment_methods");
                && (|old(cache.ListAt(key))| > 0 ==>
                      r == Success(old(cache.ListAt(key))) && !readDb && unchanged(cache))
                && (|old(cache.ListAt(key))| == 0 && fetched.Some? ==>
                      r == Success(fetched.value) && readDb
                      && cache.entries == old(cache.entries)[key := fetched.value])
    {
      r, readDb := CachedSubresource("payment_methods", fetched);
    }

    /** `retrievePastTransactions()`. */
    method RetrievePastTransactions(fetched: Option<seq<JsValue>>)
      returns (r: Result<seq<JsValue>, UserError>, readDb: bool)
      modifies this, cache
      ensures busy == old(busy) && firebaseUser == old(firebaseUser)
      ensures old(Hydrated(store.records)).Success? ==>
                var key := SubresourceKey(collection, Some(firebaseUser.value.uid), "payments");
                && (|old(cache.ListAt(key))| > 0 ==>
                      r == Success(old(cache.ListAt(key))) && !readDb && unchanged(cache))
                && (|old(cache.ListAt(key))| == 0 && fetched.Some? ==>
                      r == Success(fetched.value) && readDb
                      && cache.entries == old(cache.entries)[key := fetched.value])
    {
      r, readDb := CachedSubresource("payments", fetched);
    }

    /**
     * `addPaymentMethod(form)`: invoke the callable function (no init comes first) and
     * append the method it returns to the cached list, a missing list counting as empty.
     * `added` is what the function resolves to (None: it rejects).
     */
    method AddPaymentMethod(form: Record, added: Option<JsValue>) returns (r: Result<JsValue, UserError>)
      modifies gateway, cache
      ensures gateway.log == old(gateway.log) + [ServiceCall("addPaymentMethod", form)]
      ensures added.None? ==> r == Failure(ServiceFailed("addPaymentMethod")) && unchanged(cache)
      ensures added.Some? ==>
                var key := SubresourceKey(collection, uid, "payment_methods");
                && r == Success(Undef)
                && cache.entries == old(cache.entries)[key := old(cache.ListAt(key)) + [added.value]]
    {
      gateway.log := gateway.log + [ServiceCall("addPaymentMethod", form)];
      if added.None? {
        return Failure(ServiceFailed("addPaymentMethod"));
      }
      var key := SubresourceKey(collection, uid, "payment_methods");
      var data := cache.ListAt(key);
      cache.Set(key, data + [added.value]);
      r := Success(Undef);
    }

    /** The ids `retrieveClasses()` queries: a partner's associated classes, a member's union. */
    method RetrieveClasses() returns (r: Result<JsValue, UserError>)
      modifies this
      ensures busy == old(busy) && firebaseUser == old(firebaseUser) && accountType == old(accountType)
      ensures old(Hydrated(store.records)).Failure? ==> r == Failure(old(Hydrated(store.records)).error)
      ensures old(Hydrated(store.records)).Success? ==>
                var m := old(Hydrated(store.records)).value;
                && mirror == m
                && (accountType == "partner" ==> r == Success(ListDefault(m, "associated_classes")))
                && (accountType != "partner" ==>
                      match ClassUnion(ListDefault(m, "active_classes"), ListDefault(m, "scheduled_classes"))
                      case Failure(e) => r == Failure(e)
                      case Success(ids) => r == Success(Arr(ids)))
    {
      var err := Init();
      if err.Some? {
        return Failure(err.value);
      }
      if accountType == "partner" {
        return Success(ListDefault(mirror, "associated_classes"));
      }
      var u := ClassUnion(ListDefault(mirror, "active_classes"), ListDefault(mirror, "scheduled_classes"));
      r := if u.Failure? then Failure(u.error) else Success(Arr(u.value));
    }

    /** The ids `retrieveScheduledClasses()` queries. */
    method RetrieveScheduledClasses() returns (r: Result<JsValue, UserError>)
      modifies this
      ensures busy == old(busy) && firebaseUser == old(firebaseUser)
      ensures old(Hydrated(store.records)).Failure? ==> r == Failure(old(Hydrated(store.records)).error)
      ensures old(Hydrated(store.records)).Success? ==>
                r == Success(ListDefault(old(Hydrated(store.records)).value, "scheduled_classes"))
    {
      var err := Init();
      if err.Some? {
        return Failure(err.value);
      }
      r := Success(ListDefault(mirror, "scheduled_classes"));
    }

    /** The ids `retrievePartnerGyms()` queries; it returns undefined (None) for a non-partner. */
    method RetrievePartnerGyms() returns (r: Result<Option<JsValue>, UserError>)
      modifies this
      ensures busy == old(busy) && firebaseUser == old(firebaseUser) && accountType == old(accountType)
      ensures old(Hydrated(store.records)).Failure? ==> r == Failure(old(Hydrated(store.records)).error)
      ensures old(Hydrated(store.records)).Success? && accountType != "partner" ==> r == Success(None)
      ensures old(Hydrated(store.records)).Success? && accountType == "partner" ==>
                r == Success(Some(ListDefault(old(Hydrated(store.records)).value, "associated_gyms")))
    {
      var err := Init();
      if err.Some? {
        return Failure(err.value);
      }
      if accountType != "partner" {
        return Success(None);
      }
      r := Success(Some(ListDefault(mirror, "associated_gyms")));
    }

    // ------------------------------------------------------------- icon change

    /**
     * `changeIcon()` from the picker's answer on, as written: a picker error and an oversize
     * file reject the promise without returning, so the upload, the `icon_uri` merge and
     * the push still run, and the first settlement is the one the caller sees. `uploadOk`
     * and `pushOk` say whether the upload and the push succeed. If `init` throws, the
     * returned promise is never settled.
     */
    method ChangeIcon(pick: PickResult, uploadOk: bool, pushOk: bool) returns (s: Settlement)
      modifies this, store
      ensures busy == old(busy) && firebaseUser == old(firebaseUser)
      ensures old(Hydrated(store.records)).Failure? ==>
                s == Pending && mirror == old(mirror) && store.records == old(store.records)
      ensures old(Hydrated(store.records)).Success? ==>
                var m := old(Hydrated(store.records)).value;
                var o := IconChangeAsWritten(pick, uploadOk, pushOk);
                && s == o.settlement
                && mirror == (if o.iconSet then m["icon_uri" := Get(m, "id")] else m)
                && store.records == (if o.pushed then old(store.records)[(collection, firebaseUser.value.uid) := mirror]
                                     else old(store.records))
    {
      var err := Init();
      if err.Some? {
        return Pending;
      }
      var settled: Settlement := Pending;
      if pick.error {
        settled := Rejected("Something prevented the action.");
      }
      var userId := Get(mirror, "id");
      if pick.fileSize > MaxIconBytes {
        settled := Settle(settled, Rejected("Image file size must not exceed 8MB."));
      }
      if !uploadOk {
        return Settle(settled, Rejected("Something prevented upload."));
      }
      mirror := mirror["icon_uri" := userId];
      err := Push(pushOk);
      if err.Some? {
        return Settle(settled, Rejected("Something prevented upload."));
      }
      s := Settle(settled, Resolved("Success."));
    }
  }
}
