/**
 * The pure rules inside the `User` account entity: how the account type is read from
 * the auth display name, what a new account document is seeded with, how the read views
 * normalise the mirror, the precondition checks of the guarded mutations, and what each
 * guarded mutation calls and merges once the record has been pulled.
 */
module AccountRules {
  import opened Base
  import opened JsValues
  import opened Backend

  /** What the entity's operations throw. */
  datatype UserError =
    | Busy(inFlight: string)       // the busy guard: another guarded operation is running
    | ClassAlreadyBought
    | ClassAlreadyScheduled
    | MembershipAlreadyBought
    | TypeError(reason: string)    // a JavaScript TypeError raised by the expression named
    | NotFound                     // hydrating or pulling a record the store does not have
    | ServiceFailed(name: string)  // the callable function `name` rejected
    | AuthFailed                   // an auth() call rejected
    | ReadFailed                   // a read of a store subcollection rejected
    | PushFailed                   // writing the mirror to the store rejected

  /** `err.code` as callers see it. */
  function ErrorCode(e: UserError): Option<string>
  {
    match e
    case Busy(_) => Some("busy")
    case MembershipAlreadyBought => Some("membership-already-bought")
    case _ => None
  }

  // ---------------------------------------------------------- account type

  /** The end index `slice(0, end)` uses: a negative end counts from the back. */
  function SliceEnd(len: nat, end: int): (r: nat)
    ensures r <= len
  {
    if end < 0 then (if len + end < 0 then 0 else len + end)
    else if end > len then len
    else end
  }

  /**
   * `displayName.slice(0, displayName.search('_'))`: the part before the first `_`;
   * without any `_` the search gives -1 and the slice drops the last character.
   */
  function AccountTypeOfName(displayName: string): (t: string)
    ensures '_' in displayName ==> '_' !in t && t + "_" <= displayName
    ensures '_' !in displayName ==>
              t == displayName[..if |displayName| == 0 then 0 else |displayName| - 1]
  {
    var k := IndexOf(displayName, '_');
    assert k >= 0 ==> displayName[..k + 1] == displayName[..k] + "_";
    displayName[..SliceEnd(|displayName|, k)]
  }

  /**
   * The account type the constructor settles on: `user` when nobody is signed in, the
   * parsed display name otherwise; a null display name makes `search` throw.
   */
  function AccountTypeOf(u: Option<AuthUser>): Result<string, UserError>
  {
    if u.None? then Success("user")
    else if u.value.displayName.None? then Failure(TypeError("cannot read property search of null"))
    else Success(AccountTypeOfName(u.value.displayName.value))
  }

  function CollectionFor(accountType: string): (c: string)
    ensures c == "partners" <==> accountType == "partner"
    ensures c == "partners" || c == "users"
  {
    if accountType == "partner" then "partners" else "users"
  }

  /** The display name `create` writes: `${type}_${first}_${last}`. */
  function DisplayName(accountType: string, first: string, last: string): string
  {
    accountType + "_" + first + "_" + last
  }

  /** The display name written at creation reads back as the account type it encodes. */
  lemma DisplayNameRoundTrip(accountType: string, first: string, last: string, uid: string)
    requires '_' !in accountType
    ensures AccountTypeOfName(DisplayName(accountType, first, last)) == accountType
    ensures AccountTypeOf(Some(AuthUser(uid, Some(DisplayName(accountType, first, last))))) == Success(accountType)
    ensures CollectionFor(AccountTypeOf(Some(AuthUser(uid, Some(DisplayName(accountType, first, last))))).value)
              == CollectionFor(accountType)
  {
    var name := DisplayName(accountType, first, last);
    var n := |accountType|;
    assert name[..n] == accountType;
    FirstIndexOf(name, '_', n);
  }

  /** An index holding `c` with no `c` before it is what `search` finds. */
  lemma {:induction false} FirstIndexOf(s: string, c: char, n: nat)
    requires n < |s| && s[n] == c && c !in s[..n]
    ensures IndexOf(s, c) == n
  {
    if n > 0 {
      assert s[0] == s[..n][0];
      assert s[1..][..n - 1] == s[1..n];
      assert s[1..n] <= s[..n][1..];
      FirstIndexOf(s[1..], c, n - 1);
    }
  }

  // ------------------------------------------------------ social sign-up names

  /** `displayName.split(' ')[0]`. */
  function SocialFirst(displayName: string): string
  {
    Split(displayName, ' ')[0]
  }

  /** `displayName.split(' ').slice(1).join(' ')`. */
  function SocialLast(displayName: string): string
  {
    JoinWith(Split(displayName, ' ')[1..], " ")
  }

  /** The first name is the text before the first space, the last name everything after it. */
  lemma SocialNameParts(displayName: string)
    ensures ' ' !in SocialFirst(displayName)
    ensures ' ' in displayName ==> SocialFirst(displayName) + " " + SocialLast(displayName) == displayName
    ensures ' ' !in displayName ==> SocialFirst(displayName) == displayName && SocialLast(displayName) == ""
  {
    var parts := Split(displayName, ' ');
    JoinSplit(displayName, ' ');
    if ' ' in displayName {
      assert |parts| >= 2;
      assert JoinWith(parts, " ") == parts[0] + " " + JoinWith(parts[1..], " ");
    }
  }

  // --------------------------------------------------------------- seeding

  const DefaultIcon: string := "default-icon.png"

  /** The mirror after `create` has merged both groups of seed fields into it. */
  function Seeded(mirror: Record, accountType: string, uid: string, first: string, last: string,
                  email: JsValue, iconForeign: JsValue): (r: Record)
    ensures Get(r, "icon_uri") == Str(DefaultIcon)
    ensures Get(r, "account_type") == Str(accountType) && Get(r, "id") == Str(uid)
    ensures Get(r, "first") == Str(first) && Get(r, "last") == Str(last)
    ensures Get(r, "email") == email && Get(r, "icon_uri_foreign") == iconForeign
    ensures accountType == "partner" ==>
              && Get(r, "associated_classes") == Arr([]) && Get(r, "associated_gyms") == Arr([])
              && Get(r, "revenue") == Num(0) && Get(r, "revenue_total") == Num(0)
    ensures accountType != "partner" ==>
              && Get(r, "active_memberships") == Arr([]) && Get(r, "active_classes") == Arr([])
              && Get(r, "scheduled_classes") == Arr([])
  {
    var base := mirror["account_type" := Str(accountType)]["id" := Str(uid)]["first" := Str(first)]
                      ["last" := Str(last)]["email" := email]["icon_uri" := Str(DefaultIcon)]
                      ["icon_uri_foreign" := iconForeign];
    if accountType == "partner" then
      base["associated_classes" := Arr([])]["associated_gyms" := Arr([])]
          ["revenue" := Num(0)]["revenue_total" := Num(0)]
    else
      base["active_memberships" := Arr([])]["active_classes" := Arr([])]["scheduled_classes" := Arr([])]
  }

  /** What `create` was asked to make: the manual form, or the social profile it overrides it with. */
  datatype SignUpForm = SignUpForm(first: string, last: string, email: string, password: string,
                                   accountType: string)

  datatype SocialProfile = SocialProfile(uid: string, displayName: string, email: JsValue,
                                         photoURL: JsValue)

  datatype SocialOptions = SocialOptions(accountType: string, user: SocialProfile)

  /** The fields `create` settles on before it seeds the record. */
  datatype NewAccount = NewAccount(accountType: string, uid: string, first: string, last: string,
                                   email: JsValue, iconForeign: JsValue)

  /**
   * A manual sign-up takes its fields from the form, the uid from the created auth user and
   * no foreign icon; a social sign-up takes type and uid from the options and splits the
   * provider's display name at the first space.
   */
  function AccountOf(form: SignUpForm, options: Option<SocialOptions>, createdUid: string): (a: NewAccount)
    ensures options.None? ==> a == NewAccount(form.accountType, createdUid, form.first, form.last,
                                              Str(form.email), Null)
    ensures options.Some? ==>
              && a.accountType == options.value.accountType && a.uid == options.value.user.uid
              && ' ' !in a.first && a.iconForeign == options.value.user.photoURL
              && a.email == options.value.user.email
              && (' ' in options.value.user.displayName ==>
                    a.first + " " + a.last == options.value.user.displayName)
              && (' ' !in options.value.user.displayName ==>
                    a.first == options.value.user.displayName && a.last == "")
  {
    match options
    case None => NewAccount(form.accountType, createdUid, form.first, form.last, Str(form.email), Null)
    case Some(o) =>
      SocialNameParts(o.user.displayName);
      NewAccount(o.accountType, o.user.uid, SocialFirst(o.user.displayName),
                 SocialLast(o.user.displayName), o.user.email, o.user.photoURL)
  }

  // --------------------------------------------------------- normalisation

  /** The list fields `retrieveUser` writes back with an empty-list default. */
  function ListKeys(accountType: string): set<string>
  {
    if accountType == "partner" then {"associated_classes", "associated_gyms"}
    else {"active_classes", "active_memberships", "scheduled_classes"}
  }

  function ListDefault(r: Record, key: string): JsValue
  {
    OrDefault(Get(r, key), Arr([]))
  }

  /**
   * The merge `retrieveUser` does: each list field of the account type that is undefined
   * becomes the empty list; everything else, including a present non-list value, stays.
   */
  function Normalise(r: Record, accountType: string): (n: Record)
    ensures forall key :: key in ListKeys(accountType) ==>
              Get(n, key) != Undef && Get(n, key) == ListDefault(r, key)
    ensures forall key :: key !in ListKeys(accountType) ==> Get(n, key) == Get(r, key)
    ensures n.Keys == r.Keys + ListKeys(accountType)
  {
    if accountType == "partner" then
      r["associated_classes" := ListDefault(r, "associated_classes")]
       ["associated_gyms" := ListDefault(r, "associated_gyms")]
    else
      r["active_classes" := ListDefault(r, "active_classes")]
       ["active_memberships" := ListDefault(r, "active_memberships")]
       ["scheduled_classes" := ListDefault(r, "scheduled_classes")]
  }

  /** Normalising twice is normalising once. */
  lemma NormaliseIdempotent(r: Record, accountType: string)
    ensures Normalise(Normalise(r, accountType), accountType) == Normalise(r, accountType)
  {
    var n := Normalise(r, accountType);
    var nn := Normalise(n, accountType);
    assert nn.Keys == n.Keys;
    forall key | key in n ensures nn[key] == n[key] {
      assert Get(nn, key) == Get(n, key);
    }
  }

  /** A freshly seeded account is already in the form `retrieveUser` normalises to. */
  lemma SeededIsNormal(mirror: Record, accountType: string, uid: string, first: string,
                       last: string, email: JsValue, iconForeign: JsValue)
    ensures var s := Seeded(mirror, accountType, uid, first, last, email, iconForeign);
            Normalise(s, accountType) == s
  {
    var s := Seeded(mirror, accountType, uid, first, last, email, iconForeign);
    if accountType == "partner" {
      assert Get(s, "associated_classes") == Arr([]) && Get(s, "associated_gyms") == Arr([]);
      KeepListed(s, "associated_classes");
      KeepListed(s, "associated_gyms");
    } else {
      assert Get(s, "active_classes") == Arr([]) && Get(s, "active_memberships") == Arr([]);
      assert Get(s, "scheduled_classes") == Arr([]);
      KeepListed(s, "active_classes");
      KeepListed(s, "active_memberships");
      KeepListed(s, "scheduled_classes");
    }
  }

  /** Writing back the default of a list field that is already there changes nothing. */
  lemma KeepListed(r: Record, key: string)
    requires Get(r, key) != Undef
    ensures r[key := ListDefault(r, key)] == r
  {
  }

  // ------------------------------------------------------------ class union

  /** Values a JavaScript `Set` compares by value; arrays and objects it compares by identity. */
  predicate IsPrimitive(v: JsValue)
  {
    !(v.Arr? || v.Obj?)
  }

  /**
   * `[...new Set(xs)]` over values freshly read from the store: each primitive is kept
   * once; arrays and objects are all distinct objects, so every one of them is kept.
   */
  function Dedupe(xs: seq<JsValue>): (r: seq<JsValue>)
    ensures forall v :: v in r <==> v in xs
    ensures forall i, j :: 0 <= i < j < |r| && IsPrimitive(r[i]) ==> r[i] != r[j]
    ensures forall v :: !IsPrimitive(v) ==> multiset(r)[v] == multiset(xs)[v]
    ensures |r| <= |xs|
  {
    if xs == [] then []
    else
      var front := xs[..|xs| - 1];
      var x := xs[|xs| - 1];
      assert xs == front + [x];
      var p := Dedupe(front);
      if IsPrimitive(x) && x in front then p else p + [x]
  }

  /** Spreading `...v` into an array literal: lists spread their items, strings their characters. */
  function Spread(v: JsValue): Result<seq<JsValue>, UserError>
  {
    match v
    case Arr(xs) => Success(xs)
    case Str(s) => Success(seq(|s|, i requires 0 <= i < |s| => Str([s[i]])))
    case _ => Failure(TypeError("value is not iterable"))
  }

  /** The ids `retrieveClasses` queries for a member: active and scheduled, duplicates removed. */
  function ClassUnion(active: JsValue, scheduled: JsValue): (r: Result<seq<JsValue>, UserError>)
    ensures active.Arr? && scheduled.Arr? ==> r.Success?
    ensures r.Success? && active.Arr? && scheduled.Arr? ==>
              forall v :: v in r.value <==> v in active.items || v in scheduled.items
    ensures r.Success? ==> forall i, j :: 0 <= i < j < |r.value| && IsPrimitive(r.value[i]) ==>
                                           r.value[i] != r.value[j]
    ensures r.Failure? <==> Spread(active).Failure? || Spread(scheduled).Failure?
    ensures r.Success? ==> forall v :: v in r.value <==> v in Spread(active).value || v in Spread(scheduled).value
  {
    match Spread(active)
    case Failure(e) => Failure(e)
    case Success(xs) =>
      match Spread(scheduled)
      case Failure(e) => Failure(e)
      case Success(ys) => Success(Dedupe(xs + ys))
  }

  // ------------------------------------------------------- the guard checks

  /** `it.time_id`; None when `it` is null or undefined, where reading a property throws. */
  function TimeIdOf(it: JsValue): Option<JsValue>
  {
    match it
    case Undef => None
    case Null => None
    case Obj(m) => Some(Get(m, "time_id"))
    case _ => Some(Undef)
  }

  predicate HasTimeSlot(xs: seq<JsValue>, timeId: string)
  {
    exists i :: 0 <= i < |xs| && TimeIdOf(xs[i]) == Some(Str(timeId))
  }

  /**
   * `list.map(it => it.time_id).includes(timeId)` on the list under `key` (default []):
   * the list when the slot is free, `duplicate` when it is taken, and the TypeError the
   * expression throws on a non-list or on a null entry.
   */
  function TimeSlotGuard(r: Record, key: string, timeId: string, duplicate: UserError)
    : (g: Result<seq<JsValue>, UserError>)
    ensures g.Success? <==>
              ListDefault(r, key).Arr? && (forall i :: 0 <= i < |ListDefault(r, key).items| ==>
                                             TimeIdOf(ListDefault(r, key).items[i]).Some?)
              && !HasTimeSlot(ListDefault(r, key).items, timeId)
    ensures g.Success? ==> ListDefault(r, key) == Arr(g.value)
    ensures g == Failure(duplicate) && !duplicate.TypeError? ==>
              ListDefault(r, key).Arr? && HasTimeSlot(ListDefault(r, key).items, timeId)
    ensures ListDefault(r, key).Arr? &&
            (forall i :: 0 <= i < |ListDefault(r, key).items| ==> TimeIdOf(ListDefault(r, key).items[i]).Some?) &&
            HasTimeSlot(ListDefault(r, key).items, timeId) ==>
              g == Failure(duplicate)
  {
    var v := ListDefault(r, key);
    if !v.Arr? then Failure(TypeError("map is not a function"))
    else if exists i :: 0 <= i < |v.items| && TimeIdOf(v.items[i]).None? then
      Failure(TypeError("cannot read property time_id"))
    else if HasTimeSlot(v.items, timeId) then Failure(duplicate)
    else Success(v.items)
  }

  /** `list.includes(id)`: an array compares its items, a string searches its text. */
  function MembershipIncludes(list: JsValue, id: string): Result<bool, UserError>
  {
    match list
    case Arr(xs) => Success(Str(id) in xs)
    case Str(s) => Success(IsSubstring(id, s))
    case _ => Failure(TypeError("includes is not a function"))
  }

  /** `list.filter(it => it != gymId)`. */
  function RemoveMembership(xs: seq<JsValue>, gymId: string): (r: seq<JsValue>)
    ensures forall v :: v in r <==> v in xs && !LooseEquals(v, gymId)
    ensures |r| <= |xs|
  {
    if xs == [] then []
    else if LooseEquals(xs[0], gymId) then RemoveMembership(xs[1..], gymId)
    else [xs[0]] + RemoveMembership(xs[1..], gymId)
  }

  /** The filter keeps the relative order of what it keeps: it distributes over concatenation. */
  lemma {:induction false} RemoveMembershipAppend(xs: seq<JsValue>, ys: seq<JsValue>, gymId: string)
    ensures RemoveMembership(xs + ys, gymId) == RemoveMembership(xs, gymId) + RemoveMembership(ys, gymId)
  {
    if xs != [] {
      assert (xs + ys)[1..] == xs[1..] + ys;
      RemoveMembershipAppend(xs[1..], ys, gymId);
    } else {
      assert xs + ys == ys;
    }
  }

  /** Removing an id that is not there changes nothing. */
  lemma {:induction false} RemoveMembershipAbsent(xs: seq<JsValue>, gymId: string)
    requires forall i :: 0 <= i < |xs| ==> !LooseEquals(xs[i], gymId)
    ensures RemoveMembership(xs, gymId) == xs
  {
    if xs != [] {
      RemoveMembershipAbsent(xs[1..], gymId);
    }
  }

  /** Removing twice is removing once. */
  lemma RemoveMembershipIdempotent(xs: seq<JsValue>, gymId: string)
    ensures RemoveMembership(RemoveMembership(xs, gymId), gymId) == RemoveMembership(xs, gymId)
  {
    var r := RemoveMembership(xs, gymId);
    forall i | 0 <= i < |r| ensures !LooseEquals(r[i], gymId) {
      assert r[i] in r;
    }
    RemoveMembershipAbsent(r, gymId);
  }

  // --------------------------------------------------------- the mutations

  /** The `{ class_id, time_id }` entry the class operations append. */
  function Entry(classId: string, timeId: string): JsValue
  {
    Obj(map["class_id" := Str(classId), "time_id" := Str(timeId)])
  }

  datatype ClassPurchase = ClassPurchase(classId: string, timeId: string, creditCardId: JsValue,
                                         price: JsValue, description: JsValue, partnerId: JsValue,
                                         gymId: JsValue, purchaseType: JsValue)

  datatype ClassBooking = ClassBooking(classId: string, timeId: string)

  datatype MembershipPurchase = MembershipPurchase(membershipId: string, creditCardId: JsValue,
                                                   price: JsValue, description: JsValue,
                                                   partnerId: JsValue, gymId: string)

  /**
   * What a guarded mutation does once the record is pulled: the callable functions it
   * invokes, in order, and then either the error it throws or the mirror it pushes.
   */
  datatype Effect = Effect(calls: seq<ServiceCall>, outcome: Result<Record, UserError>)

  /** The `user` summary the document calls send: icon (default), first and last name. */
  function UserSummary(r: Record): JsValue
  {
    Obj(map["icon_uri" := OrDefault(Get(r, "icon_uri"), Str(DefaultIcon)),
            "first" := Get(r, "first"), "last" := Get(r, "last")])
  }

  /** The last item of the list stored under `key`, when it is a non-empty list. */
  function LastOf(r: Record, key: string): Option<JsValue>
  {
    var v := Get(r, key);
    if v.Arr? && |v.items| > 0 then Some(v.items[|v.items| - 1]) else None
  }

  /** Every field but the ones named is as it was. */
  ghost predicate SameExcept(m: Record, r: Record, keys: set<string>)
  {
    forall k :: k !in keys ==> Get(m, k) == Get(r, k)
  }

  /**
   * `purchaseClass` after the pull: refuse a time slot already among the active classes
   * before charging; charge; document; merge `[active_classes, entry]` and
   * `[scheduled_classes, entry]` (the old lists nested, not spread, as written).
   */
  function PurchaseClassEffect(pulled: Record, d: ClassPurchase, chargeOk: bool): (e: Effect)
    ensures TimeSlotGuard(pulled, "active_classes", d.timeId, ClassAlreadyBought).Failure? ==>
              e.calls == [] &&
              e.outcome == Failure(TimeSlotGuard(pulled, "active_classes", d.timeId, ClassAlreadyBought).error)
    ensures ListDefault(pulled, "active_classes").Arr? &&
            HasTimeSlot(ListDefault(pulled, "active_classes").items, d.timeId) ==>
              e.calls == [] && e.outcome.Failure? && e.outcome.error in {ClassAlreadyBought, TypeError("cannot read property time_id")}
    ensures ListDefault(pulled, "active_classes").Arr? &&
            (forall i :: 0 <= i < |ListDefault(pulled, "active_classes").items| ==>
                           TimeIdOf(ListDefault(pulled, "active_classes").items[i]).Some?) &&
            HasTimeSlot(ListDefault(pulled, "active_classes").items, d.timeId) ==>
              e == Effect([], Failure(ClassAlreadyBought))
    ensures e.outcome.Success? <==>
              chargeOk && TimeSlotGuard(pulled, "active_classes", d.timeId, ClassAlreadyBought).Success?
    ensures e.outcome.Success? ==>
              && Get(e.outcome.value, "active_classes")
                 == Arr([ListDefault(pulled, "active_classes"), Entry(d.classId, d.timeId)])
              && Get(e.outcome.value, "scheduled_classes")
                 == Arr([ListDefault(pulled, "scheduled_classes"), Entry(d.classId, d.timeId)])
              && |e.calls| == 2 && e.calls[0].name == "chargeCustomer"
              && e.calls[1].name == "documentClassPurchase"
              && LastOf(e.outcome.value, "active_classes") == Some(Entry(d.classId, d.timeId))
              && LastOf(e.outcome.value, "scheduled_classes") == Some(Entry(d.classId, d.timeId))
              && SameExcept(e.outcome.value, pulled, {"active_classes", "scheduled_classes"})
  {
    match TimeSlotGuard(pulled, "active_classes", d.timeId, ClassAlreadyBought)
    case Failure(err) => Effect([], Failure(err))
    case Success(active) =>
      var charge := ServiceCall("chargeCustomer",
        map["cardId" := d.creditCardId, "amount" := d.price, "description" := d.description]);
      if !chargeOk then Effect([charge], Failure(ServiceFailed("chargeCustomer")))
      else
        var document := ServiceCall("documentClassPurchase",
          map["classId" := Str(d.classId), "timeId" := Str(d.timeId), "partnerId" := d.partnerId,
              "amount" := d.price, "user" := UserSummary(pulled)]);
        var entry := Entry(d.classId, d.timeId);
        var update := map["active_classes" := Arr([Arr(active), entry]),
                          "scheduled_classes" := Arr([ListDefault(pulled, "scheduled_classes"), entry])];
        Effect([charge, document], Success(Merge(pulled, update)))
  }

  /**
   * `scheduleClass` after the pull: refuse a time slot already scheduled; document;
   * merge the scheduled list with the entry appended.
   */
  function ScheduleClassEffect(pulled: Record, d: ClassBooking): (e: Effect)
    ensures ListDefault(pulled, "scheduled_classes").Arr? &&
            HasTimeSlot(ListDefault(pulled, "scheduled_classes").items, d.timeId) ==>
              e.calls == [] && e.outcome.Failure? &&
              e.outcome.error in {ClassAlreadyScheduled, TypeError("cannot read property time_id")}
    ensures ListDefault(pulled, "scheduled_classes").Arr? &&
            (forall i :: 0 <= i < |ListDefault(pulled, "scheduled_classes").items| ==>
                           TimeIdOf(ListDefault(pulled, "scheduled_classes").items[i]).Some?) &&
            HasTimeSlot(ListDefault(pulled, "scheduled_classes").items, d.timeId) ==>
              e == Effect([], Failure(ClassAlreadyScheduled))
    ensures e.outcome.Success? <==>
              TimeSlotGuard(pulled, "scheduled_classes", d.timeId, ClassAlreadyScheduled).Success?
    ensures e.outcome.Failure? ==> e.calls == []
    ensures e.outcome.Success? ==>
              && e.calls == [ServiceCall("documentScheduledClass",
                               map["classId" := Str(d.classId), "timeId" := Str(d.timeId),
                                   "user" := UserSummary(pulled)])]
              && Get(e.outcome.value, "scheduled_classes")
                   == Arr(ListDefault(pulled, "scheduled_classes").items + [Entry(d.classId, d.timeId)])
              && SameExcept(e.outcome.value, pulled, {"scheduled_classes"})
  {
    match TimeSlotGuard(pulled, "scheduled_classes", d.timeId, ClassAlreadyScheduled)
    case Failure(err) => Effect([], Failure(err))
    case Success(scheduled) =>
      var document := ServiceCall("documentScheduledClass",
        map["classId" := Str(d.classId), "timeId" := Str(d.timeId), "user" := UserSummary(pulled)]);
      var entry := Entry(d.classId, d.timeId);
      Effect([document], Success(Merge(pulled, map["scheduled_classes" := Arr(scheduled + [entry])])))
  }

  /**
   * `purchaseMembership` after the pull: refuse a membership already owned before
   * subscribing; subscribe; document; merge `[active_memberships, membershipId]`
   * (the old list nested, not spread, as written).
   */
  function PurchaseMembershipEffect(pulled: Record, d: MembershipPurchase, subscribeOk: bool): (e: Effect)
    ensures MembershipIncludes(ListDefault(pulled, "active_memberships"), d.membershipId) == Success(true) ==>
              e.calls == [] && e.outcome == Failure(MembershipAlreadyBought)
    ensures MembershipIncludes(ListDefault(pulled, "active_memberships"), d.membershipId).Failure? ==>
              e.calls == [] && e.outcome.Failure?
    ensures !subscribeOk ==> e.outcome.Failure?
    ensures e.outcome.Success? <==>
              subscribeOk && MembershipIncludes(ListDefault(pulled, "active_memberships"), d.membershipId) == Success(false)
    ensures e.outcome.Success? ==>
              && |e.calls| == 2 && e.calls[0].name == "subscribeCustomer"
              && e.calls[1].name == "documentMembershipPurchase"
              && Get(e.outcome.value, "active_memberships")
                   == Arr([ListDefault(pulled, "active_memberships"), Str(d.membershipId)])
              && SameExcept(e.outcome.value, pulled, {"active_memberships"})
  {
    var list := ListDefault(pulled, "active_memberships");
    match MembershipIncludes(list, d.membershipId)
    case Failure(err) => Effect([], Failure(err))
    case Success(owned) =>
      if owned then Effect([], Failure(MembershipAlreadyBought))
      else
        var subscribe := ServiceCall("subscribeCustomer",
          map["gymId" := Str(d.gymId), "cardId" := d.creditCardId, "amount" := d.price,
              "description" := d.description]);
        if !subscribeOk then Effect([subscribe], Failure(ServiceFailed("subscribeCustomer")))
        else
          var document := ServiceCall("documentMembershipPurchase",
            map["partnerId" := d.partnerId, "gymId" := Str(d.gymId), "amount" := d.price]);
          Effect([subscribe, document],
                 Success(Merge(pulled, map["active_memberships" := Arr([list, Str(d.membershipId)])])))
  }

  /** A membership just bought is refused, with no call made, when it is bought again. */
  lemma MembershipRepeatRefused(pulled: Record, d: MembershipPurchase, again: MembershipPurchase,
                                subscribeOk: bool, subscribeAgainOk: bool)
    requires PurchaseMembershipEffect(pulled, d, subscribeOk).outcome.Success?
    requires again.membershipId == d.membershipId
    ensures var m := PurchaseMembershipEffect(pulled, d, subscribeOk).outcome.value;
            PurchaseMembershipEffect(m, again, subscribeAgainOk) == Effect([], Failure(MembershipAlreadyBought))
  {
    var m := PurchaseMembershipEffect(pulled, d, subscribeOk).outcome.value;
    assert ListDefault(m, "active_memberships").items[1] == Str(d.membershipId);
  }

  /**
   * `deleteSubscription` after the pull: cancel through the callable function, then
   * filter every entry loosely equal to the gym id out of the memberships. There is no
   * precondition; a non-list memberships value throws only after the cancellation.
   */
  function DeleteSubscriptionEffect(pulled: Record, gymId: string, deleteOk: bool): (e: Effect)
    ensures e.calls == [ServiceCall("deleteSubscription", map["gymIds" := Arr([Str(gymId)])])]
    ensures e.outcome.Success? <==> deleteOk && ListDefault(pulled, "active_memberships").Arr?
    ensures e.outcome.Success? ==>
              && Get(e.outcome.value, "active_memberships")
                   == Arr(RemoveMembership(ListDefault(pulled, "active_memberships").items, gymId))
              && SameExcept(e.outcome.value, pulled, {"active_memberships"})
  {
    var cancel := ServiceCall("deleteSubscription", map["gymIds" := Arr([Str(gymId)])]);
    var list := ListDefault(pulled, "active_memberships");
    if !deleteOk then Effect([cancel], Failure(ServiceFailed("deleteSubscription")))
    else if !list.Arr? then Effect([cancel], Failure(TypeError("filter is not a function")))
    else Effect([cancel], Success(Merge(pulled, map["active_memberships" := Arr(RemoveMembership(list.items, gymId))])))
  }

  /** Deleting the same subscription again, on the record the first call pushed, changes nothing more. */
  lemma DeleteSubscriptionIdempotent(pulled: Record, gymId: string)
    requires DeleteSubscriptionEffect(pulled, gymId, true).outcome.Success?
    ensures var m := DeleteSubscriptionEffect(pulled, gymId, true).outcome.value;
            DeleteSubscriptionEffect(m, gymId, true).outcome == Success(m)
  {
    var xs := ListDefault(pulled, "active_memberships").items;
    var m := DeleteSubscriptionEffect(pulled, gymId, true).outcome.value;
    assert m == pulled["active_memberships" := Arr(RemoveMembership(xs, gymId))];
    assert ListDefault(m, "active_memberships").items == RemoveMembership(xs, gymId);
    RemoveMembershipIdempotent(xs, gymId);
    var m2 := DeleteSubscriptionEffect(m, gymId, true).outcome.value;
    assert m2 == m["active_memberships" := Arr(RemoveMembership(xs, gymId))];
    assert m["active_memberships"] == Arr(RemoveMembership(xs, gymId));
    assert m2 == m;
  }

  // -------------------------------------------------------------- livestream

  /** How many times `createLivestream` pulls the record looking for the key. */
  const LivestreamPolls: nat := 15

  function StreamKey(r: Record): JsValue
  {
    Get(r, "stream_key")
  }

  /**
   * The first pull in [from, bound) whose record shows a truthy stream key, where
   * `states(i)` is the record the i-th pull reads.
   */
  function FirstKeyIndex(states: nat -> Record, from: nat, bound: nat): (k: Option<nat>)
    ensures k.Some? ==> from <= k.value < bound && Truthy(StreamKey(states(k.value)))
                        && forall j :: from <= j < k.value ==> !Truthy(StreamKey(states(j)))
    ensures k.None? ==> forall j :: from <= j < bound ==> !Truthy(StreamKey(states(j)))
    decreases bound - from
  {
    if from >= bound then None
    else if Truthy(StreamKey(states(from))) then Some(from)
    else FirstKeyIndex(states, from + 1, bound)
  }

  // ----------------------------------------------------------- payment cache

  /** The cache path `${collection}/${uid}/${sub}`; an unbound uid prints as `undefined`. */
  function SubresourceKey(collection: string, uid: Option<string>, sub: string): string
  {
    collection + "/" + (if uid.Some? then uid.value else "undefined") + "/" + sub
  }

  // ------------------------------------------------------------- icon change

  /** How a `new Promise` ends: the first `resolve` or `reject` wins. */
  datatype Settlement = Pending | Resolved(message: string) | Rejected(message: string)

  function Settle(s: Settlement, next: Settlement): Settlement
  {
    if s.Pending? then next else s
  }

  /** What the image picker hands back. */
  datatype PickResult = PickResult(didCancel: bool, error: bool, fileSize: int)

  const MaxIconBytes: int := 8 * 1024 * 1024

  /** How `changeIcon` ends, whether it uploaded, whether it merged `icon_uri`, whether it pushed. */
  datatype IconOutcome = IconOutcome(settlement: Settlement, uploaded: bool, iconSet: bool, pushed: bool)

  /**
   * The picker callback of `changeIcon` as written: a picker error and an oversize file
   * reject the promise but do not return, so the upload, the merge and the push still run;
   * the first settlement is the one that counts.
   */
  function IconChangeAsWritten(pick: PickResult, uploadOk: bool, pushOk: bool): (o: IconOutcome)
    ensures o.uploaded == uploadOk && o.iconSet == uploadOk && o.pushed == (uploadOk && pushOk)
    ensures pick.error ==> o.settlement == Rejected("Something prevented the action.")
    ensures !pick.error && pick.fileSize > MaxIconBytes ==>
              o.settlement == Rejected("Image file size must not exceed 8MB.")
    ensures !pick.error && pick.fileSize <= MaxIconBytes ==>
              o.settlement == (if uploadOk && pushOk then Resolved("Success.")
                               else Rejected("Something prevented upload."))
    ensures o.settlement != Pending
  {
    var s0 := if pick.error then Rejected("Something prevented the action.") else Pending;
    var s1 := if pick.fileSize > MaxIconBytes then Settle(s0, Rejected("Image file size must not exceed 8MB."))
              else s0;
    if !uploadOk then IconOutcome(Settle(s1, Rejected("Something prevented upload.")), false, false, false)
    else if !pushOk then IconOutcome(Settle(s1, Rejected("Something prevented upload.")), true, true, false)
    else IconOutcome(Settle(s1, Resolved("Success.")), true, true, true)
  }
}
