# The imbue account entity and its screens, in Dafny

This project models the core of the imbue fitness app: the `User` account entity and the screens that drive it.

The `User` entity keeps a local mirror of one account record. It does these things:

- reads the account type from the auth display name;
- seeds a new account;
- normalises the mirror for reading;
- answers its read views from the session cache;
- runs the guarded mutations. These are class purchase, class booking, membership purchase and cancellation, and livestream creation. Each pulls the record, calls the payment functions and merges and pushes the new record.

Around the entity, the project models these screens:

- the sign-up form check and its button;
- the partner login check and its button;
- the gym screen's membership classifier and its error-code banner routing;
- the class list's date filter and item flattening;
- the profile layout's button-option overrides;
- the boot screen's routing, including its `switch` fall-through and the cache reset on mount.

Modules:

- `Base`: `Option` and `Result`.
- `JsValues`: the JavaScript values and the bits of JavaScript semantics the code relies on. These are truthiness, destructuring defaults, `String(v)`, `Number(s)`, loose `==`, the relational `>`, and `search`, `split`, `join` and `includes`.
- `Backend`: the auth user, the record store and the log of callable functions, as plain state.
- `SessionCache`: the process-wide cache of lists.
- `AccountRules`: the entity's pure rules. Each guarded mutation is an `Effect`, meaning the calls it makes and then its error or its merged record.
- `Defects`: the three places where the entity's code does not do what it evidently intends. It holds the as-written behaviour with an input that shows it, and the corrected rules with their properties proved. The `User` class runs the code as written.
- `UserStorage`: the `User` class. Its methods change the mirror, the store, the call log and the cache, and are proved against the `AccountRules` functions.
- `FormRules`, `SignUp`, `LoginPartner`, `GymDescription`, `ClassList`, `ProfileLayout` and `Boot`: the screens. Each stateful screen is a class with the fields of its React state.

A foreign call's success, and what it hands back, are parameters of the operation that makes it. The same holds for the picker's answer, what `publicStorage` resolves and what `handleAuthError` builds.

## Model

| member | source | states |
|---|---|---|
| AccountRules.AccountTypeOfName | assets/js/backend/storage/User.js:38-41 | With an `_` in the display name, the type is the part before the first `_`. Without one, the type is the name minus its last character (`slice(0, -1)`). |
| AccountRules.CollectionFor | assets/js/backend/storage/User.js:97-99 | The collection is `partners` exactly for a partner, and `users` for every other type. |
| AccountRules.DisplayNameRoundTrip | assets/js/backend/storage/User.js:102-104 | For a type without `_`, the display name `create` writes reads back, at construction, as the same type and the same collection. |
| AccountRules.FirstIndexOf | assets/js/backend/storage/User.js:40 | `search('_')` finds the first `_`. |
| AccountRules.SocialNameParts | assets/js/backend/storage/User.js:89-91 | The social first name has no space. First, a space and last give the display name back. A name without a space is all first name. |
| JsValues.JoinSplit | assets/js/backend/storage/User.js:89-91 | Joining what `split(c)` cut, with `c`, gives the string back. |
| AccountRules.AccountOf | assets/js/backend/storage/User.js:63-94 | The manual path takes the form's type, fields and the created uid with a null foreign icon. The social path takes the options' type, the uid, the split display name, the email and the photo URL. |
| AccountRules.Seeded | assets/js/backend/storage/User.js:112-136 | The new document holds the type, id, names, email, default icon and foreign icon. A partner also gets empty `associated_classes`/`associated_gyms` and zero revenues. A user gets empty membership, class and schedule lists. |
| AccountRules.Normalise | assets/js/backend/storage/User.js:149-176 | Every list key of the account type reads as a list default, meaning `[]` where it was undefined. Every other field is untouched, and only the list keys are added. |
| AccountRules.NormaliseIdempotent | assets/js/backend/storage/User.js:165-176 | Normalising twice is normalising once. |
| AccountRules.SeededIsNormal | assets/js/backend/storage/User.js:112-136 | A freshly seeded mirror is already normal, so `retrieveUser` writes nothing new into it. |
| AccountRules.Dedupe | assets/js/backend/storage/User.js:240 | The `Set` keeps exactly the values it was given, and no primitive appears twice. Every object and array is kept, as it is when each was read from the store as its own object. It never grows the list. |
| AccountRules.ClassUnion | assets/js/backend/storage/User.js:236-241 | The union throws iff one of the two values cannot be spread. Otherwise it holds exactly the elements of both spreads, without repeated primitives, and for two lists the union always succeeds. |
| AccountRules.TimeSlotGuard | assets/js/backend/storage/User.js:333-337 | The guard passes iff the list (default `[]`) is an array, every entry has a readable `time_id`, and none is the slot. It names the duplicate exactly when the list is readable and the slot is taken. |
| AccountRules.RemoveMembership | assets/js/backend/storage/User.js:519 | The filter keeps exactly the entries not loosely equal to the gym id, and never grows the list. |
| AccountRules.RemoveMembershipAppend | assets/js/backend/storage/User.js:519 | The filter distributes over concatenation, so it keeps order. |
| AccountRules.RemoveMembershipAbsent | assets/js/backend/storage/User.js:519 | A list without the id is unchanged. |
| AccountRules.RemoveMembershipIdempotent | assets/js/backend/storage/User.js:519 | Filtering twice is filtering once. |
| AccountRules.PurchaseClassEffect | assets/js/backend/storage/User.js:306-372 | As written. A taken or unreadable slot throws before any call. A readable list holding the slot gives `ClassAlreadyBought` and no call. Success means charged, then documented, then both `active_classes` and `scheduled_classes` are merged as nested `[old, entry]` pairs. Nothing else changes. |
| AccountRules.ScheduleClassEffect | assets/js/backend/storage/User.js:379-426 | A scheduled slot throws with no call, and `ClassAlreadyScheduled` is the error when the schedule is readable. Success iff the slot is free, after which the entry is appended to the spread schedule and the partner is notified. |
| AccountRules.PurchaseMembershipEffect | assets/js/backend/storage/User.js:440-487 | As written. An owned id is refused before subscribing. Success iff the subscription succeeds and `includes` does not find the id. Success means subscribed, then documented, then the nested `[old, id]` pair merged, and nothing else changes. |
| AccountRules.MembershipRepeatRefused | assets/js/backend/storage/User.js:461-462 | Buying again the id just bought is refused with no call. |
| AccountRules.DeleteSubscriptionEffect | assets/js/backend/storage/User.js:499-525 | The cancellation is always called first. Success iff it succeeds and the memberships are a list, which is then filtered of the gym id. Nothing else changes. |
| AccountRules.DeleteSubscriptionIdempotent | assets/js/backend/storage/User.js:519-523 | Cancelling again on the pushed record leaves it as it is. |
| AccountRules.FirstKeyIndex | assets/js/backend/storage/User.js:544-550 | Gives the first pull in the range whose record shows a truthy stream key, or says there is none. |
| AccountRules.IconChangeAsWritten | assets/js/backend/storage/User.js:580-607 | As written. A picker error or an oversize file rejects, yet the upload, the merge and the push still run. The first settlement counts, and it is never pending. |
| UserStorage.User.New | assets/js/backend/storage/User.js:32-49 | `new User()` throws the TypeError of `displayName.search` when the signed-in auth user's display name is null, and makes no entity. Otherwise it makes a fresh entity whose type and collection come from the display name (`user` when nobody is signed in), with no uid or mirror yet. |
| UserStorage.User.constructor | assets/js/backend/storage/User.js:32-49 | Once the display name has parsed: type and collection come from it, and there is no uid or mirror yet. |
| UserStorage.User.Init | assets/js/backend/storage/User.js:55-57 | Binds the signed-in uid and hydrates the mirror unless loaded. A missing auth user or record is an error that leaves the mirror alone. |
| UserStorage.User.ForcePull | assets/js/backend/storage/User.js:322 | Replaces the mirror by the stored record, or reports it missing. |
| UserStorage.User.Push | assets/js/backend/storage/User.js:370 | Writes the mirror under (collection, uid), or fails and leaves the store alone. |
| UserStorage.User.Perform | assets/js/backend/storage/User.js:319-371 | Init, then pull, then the effect's calls are logged. Then either its error with the pulled mirror and the store untouched, or its record mirrored and pushed. |
| UserStorage.User.PurchaseClass | assets/js/backend/storage/User.js:306-372 | A busy entity refuses with nothing changed. Otherwise the purchase as written, with its nested merge, runs through the template and the busy flag is cleared. |
| UserStorage.User.ScheduleClass | assets/js/backend/storage/User.js:379-426 | The booking runs through the template, with no busy guard. |
| UserStorage.User.PurchaseMembership | assets/js/backend/storage/User.js:440-487 | A busy entity refuses with nothing changed. Otherwise the membership purchase as written, with its nested merge, runs through the template and the busy flag is cleared. |
| UserStorage.User.DeleteSubscription | assets/js/backend/storage/User.js:499-525 | A busy entity refuses with nothing changed. Otherwise the cancellation runs through the template. |
| UserStorage.User.CreateLivestream | assets/js/backend/storage/User.js:531-552 | An existing key is returned with no call. Otherwise it makes one call and pulls up to 15 times, returning the first truthy key after exactly that many pulls, or undefined after 15. |
| UserStorage.User.Create | assets/js/backend/storage/User.js:62-143 | A rejected manual sign-up changes nothing. A social sign-up with no auth user throws before any change. Otherwise it binds uid/collection/type, seeds the mirror, renames the auth user and pushes, reporting the first failure. |
| UserStorage.User.BindAndSeed | assets/js/backend/storage/User.js:106-142 | Binds the account, seeds the mirror and pushes it, or leaves the store alone. |
| UserStorage.User.RetrieveUser | assets/js/backend/storage/User.js:145-186 | Writes back the normalised mirror and returns it with `name` and the first truthy of the uid's storage URL, the foreign icon and the icon's URL. |
| UserStorage.User.CachedSubresource | assets/js/backend/storage/User.js:188-204 | A non-empty cache entry is returned with no read and the cache untouched. On a miss, a failed read changes nothing, and a read is stored under `collection/uid/sub` and returned. |
| UserStorage.User.RetrievePaymentMethods | assets/js/backend/storage/User.js:188-204 | The cached subresource `payment_methods`. |
| UserStorage.User.RetrievePastTransactions | assets/js/backend/storage/User.js:206-222 | The cached subresource `payments`. |
| UserStorage.User.AddPaymentMethod | assets/js/backend/storage/User.js:272-292 | The call is always made. On success the method is appended to the cached list, a miss counting as empty; on failure the cache is unchanged. |
| UserStorage.User.RetrieveClasses | assets/js/backend/storage/User.js:224-245 | A partner queries its associated classes. A member queries the deduplicated union of active and scheduled classes, with the union's TypeError when a list cannot be spread. |
| UserStorage.User.RetrieveScheduledClasses | assets/js/backend/storage/User.js:247-254 | Queries the scheduled classes (default `[]`). |
| UserStorage.User.RetrievePartnerGyms | assets/js/backend/storage/User.js:259-270 | A non-partner gets undefined; a partner queries its associated gyms. |
| UserStorage.User.ChangeIcon | assets/js/backend/storage/User.js:554-610 | A failed init never settles. Otherwise the callback runs as written: a picker error or an oversize file rejects first, yet any pick whose upload succeeds sets the icon to the user id and is pushed. Only a valid pick with a successful upload and push resolves. |
| SessionCache.Cache.Set | assets/js/backend/storage/User.js:201 | The entry holds the value and other entries are kept. |
| SessionCache.Cache.ResetAll | assets/js/screens/Boot.js:86 | Every later lookup misses. |
| Defects.NestedClassListForgets | assets/js/backend/storage/User.js:366-369 | As written: after slots t1 and then t2 are bought, t1 passes the guard again and is charged again. |
| Defects.NestedGuardSeesOnlyLast | assets/js/backend/storage/User.js:333-337 | As written: after a purchase, every slot but the one just bought passes the guard. |
| Defects.NestedClassListRebuysSlot | assets/js/backend/storage/User.js:306-372 | The concrete run: buying t1, then t2, then t1 all succeed. |
| Defects.PurchaseClassSpread | assets/js/backend/storage/User.js:366-369 | Corrected: success iff charged, the slot is free and the schedule spreads. Both lists then get the entry appended, and nothing else changes. |
| Defects.SpreadPurchaseRemembers | assets/js/backend/storage/User.js:366-369 | Corrected: after a purchase, the new slot and every earlier slot are visible to the guard, and the list stays readable. |
| Defects.SlotsAfterPurchases | assets/js/backend/storage/User.js:366-369 | Corrected: after any run of purchases, every slot bought is visible. |
| Defects.SlotsKept | assets/js/backend/storage/User.js:366-369 | Corrected: a visible slot stays visible through further purchases. |
| Defects.SpreadPurchasesRefuseEverySlot | assets/js/backend/storage/User.js:333-337 | Corrected: any slot bought in any run of purchases is refused later, with no charge. |
| Defects.NestedMembershipRebuys | assets/js/backend/storage/User.js:482-484 | As written: after m0 and then m1, m0 is subscribed again, and cancelling m0 leaves the memberships as they were. |
| Defects.NestedIdHidden | assets/js/backend/storage/User.js:519 | The nested `[[], 'm0']` prints as `,m0`, so the filter keeps it. |
| Defects.PurchaseMembershipSpread | assets/js/backend/storage/User.js:482-484 | Corrected: success iff subscribed and not owned. The id is then appended to the spread list, and nothing else changes. |
| Defects.SpreadMembershipRemembers | assets/js/backend/storage/User.js:461-462 | Corrected: a membership owned before, or just bought, is refused with no call when bought again. |
| Defects.SpreadMembershipCancels | assets/js/backend/storage/User.js:519-522 | Corrected: a bought membership, once cancelled, is no longer included. |
| Defects.OversizeIconStillApplied | assets/js/backend/storage/User.js:590-592 | As written: an oversize pick is rejected yet uploaded, set and pushed. |
| Defects.IconChangeChecked | assets/js/backend/storage/User.js:580-607 | Corrected: a failed or oversize pick uploads, sets and pushes nothing. It resolves iff the pick is valid and the upload and push succeed. |
| Defects.IconChangeAgreesOnValidPick | assets/js/backend/storage/User.js:580-607 | On a valid pick, the corrected and the written callbacks agree. |
| FormRules.BlankMembers | assets/js/screens/SignUp.js:33-38 | A name is marked iff a field of that name is empty. No mark is made iff every field is filled. |
| FormRules.BlankAppend | assets/js/screens/SignUp.js:33-38 | The marks keep form order across parts of the form. |
| SignUp.SignUpVerdictCases | assets/js/screens/SignUp.js:32-58 | The checks run in order and the first failure decides. Any empty field gives the required message with exactly the empty fields red. Only a filled form can fail the match, which clears the confirmation, or the strength rule. Only a filled, matching, strong form passes. |
| SignUp.RequiredMarks | assets/js/screens/SignUp.js:33-38 | The five pushes give the names of the empty fields in form order. |
| SignUp.SignUpScreen.Invalidate | assets/js/screens/SignUp.js:32-58 | Returns the verdict's message, sets the red fields only when the verdict names some, clears the confirmation only on a mismatch, and changes nothing else. |
| SignUp.SignUpScreen.OnPress | assets/js/screens/SignUp.js:130-159 | An invalid form shows its message and red fields with no submission, clearing the confirmation only on a mismatch. A valid one submits the fields as a `user` exactly once, then either shows success and moves to Boot, or shows the auth error's message and red fields. |
| SignUp.SignUpScreen.Submit | assets/js/screens/SignUp.js:141-146 | Records the submission, then the success message and the move to Boot, or the auth error. |
| LoginPartner.LoginVerdict | assets/js/screens/LoginPartner.js:29-37 | Fails with the required message iff email or password is empty, with exactly the empty ones red; otherwise it passes. |
| LoginPartner.LoginScreen.Invalidate | assets/js/screens/LoginPartner.js:29-37 | Returns the verdict's message and sets the red fields only when some are empty. |
| LoginPartner.LoginScreen.OnPress | assets/js/screens/LoginPartner.js:99-130 | An invalid form shows the required message with no sign-in. A valid one tries sign-in once, then either shows success and pushes Boot, or shows the auth error's message and red fields. |
| GymDescription.ClassifyMembership | assets/js/screens/GymDescription.js:62-67 | 'imbue' iff imbue's id is included. Otherwise 'gym' iff the gym's id is, otherwise false. It throws iff `includes` does, and is never the uncomputed null. |
| GymDescription.ImbueWins | assets/js/screens/GymDescription.js:62-67 | A list holding imbue's id is 'imbue' whatever else it holds. |
| GymDescription.RenderPurchaseArea | assets/js/screens/GymDescription.js:143-145 | Purchase options iff no membership, and a placeholder iff not computed. |
| GymDescription.MembershipRequest | assets/js/screens/GymDescription.js:163-179 | The membership purchased is the gym's own id, with its price, partner and the chosen card. |
| GymDescription.BannersAfterError | assets/js/screens/GymDescription.js:183-193 | `busy` shows the message as an error, `membership-already-bought` as a success, and anything else the generic error. |
| GymDescription.PurchaseBannerRouting | assets/js/screens/GymDescription.js:183-193 | Through the entity's error codes, a busy refusal is an error banner and an owned membership is a success banner. Every other failure is the generic error. |
| GymDescription.OwnedGymMembershipIsSuccessBanner | assets/js/screens/GymDescription.js:163-193 | Buying a membership the record already shows makes no call and lands in the success banner. |
| ClassList.TimesOn | assets/js/components/ClassList.js:29-31 | Keeps exactly the time entries of that date, and never grows. |
| ClassList.TimesOnAppend | assets/js/components/ClassList.js:29-31 | The filter keeps order, because it distributes over concatenation. |
| ClassList.DocItems | assets/js/components/ClassList.js:43-53 | One item per time entry of a document, in order. |
| ClassList.FlattenLength | assets/js/components/ClassList.js:41-53 | As many items as (document, time) pairs. |
| ClassList.FlattenAt | assets/js/components/ClassList.js:41-53 | The j-th time of the i-th document is the item at its document-major offset. |
| ClassList.FlattenPairs | assets/js/components/ClassList.js:41-53 | Exactly one item per (document, time) pair, document-major, and no others. |
| ClassList.NarrowedIsListable | assets/js/components/ClassList.js:28-32 | A document narrowed to a date holds only objects of that date, so walking its times cannot throw. |
| ClassList.TimeItems | assets/js/components/ClassList.js:43-53 | The inner loop gives one item per time entry of a listable document, in order. |
| ClassList.ClassListView.UpdateClasses | assets/js/components/ClassList.js:22-36 | Non-list data changes nothing. Without a date, the data is kept. With one, it throws iff some document's `active_times` is not a list or holds null or undefined, and then `classes` is not set. Otherwise each document keeps its fields and only that date's times. |
| ClassList.ClassListView.BuildItems | assets/js/components/ClassList.js:38-117 | Without classes, nothing changes. With them, it throws iff some document's `active_times` is not a list or holds null or undefined, leaving the items as they were. Otherwise the items are their flattening. |
| ProfileLayout.Defaults | assets/js/layouts/ProfileLayout.js:40-75 | Three buttons. Back is shown, while log-out and edit-icon are hidden. Log-out's press signs out, and its long press signs out only in a debug build, being null otherwise. |
| ProfileLayout.ApplyInstructions | assets/js/layouts/ProfileLayout.js:79-81 | Keeps the buttons. It throws iff there is an instruction for a button the defaults lack. |
| ProfileLayout.ApplyAll | assets/js/layouts/ProfileLayout.js:77-83 | Keeps the buttons. |
| ProfileLayout.ApplyAllSucceeds | assets/js/layouts/ProfileLayout.js:77-83 | The merge throws iff some non-empty instruction list names an unknown button. |
| ProfileLayout.ApplyInstructionsLookup | assets/js/layouts/ProfileLayout.js:79-81 | After one button's instructions, its keys hold their last given value, and everything else is as it was. |
| ProfileLayout.ApplyAllLookup | assets/js/layouts/ProfileLayout.js:77-83 | After a merge that does not throw, each (button, key) holds the value the overrides give it last, or its default. |
| ProfileLayout.GivenValueWins | assets/js/layouts/ProfileLayout.js:77-83 | In a props object, every given (button, key, value) is the value the merge leaves. |
| ProfileLayout.MergeOverrides | assets/js/layouts/ProfileLayout.js:77-83 | The nested loops compute the merge, throw included. |
| ProfileLayout.BackButtonByDefault | assets/js/layouts/ProfileLayout.js:179 | With `goBack.show` not overridden, the back button is hidden iff `hideBackButton` is truthy. |
| ProfileLayout.ProfileLayoutScreen.OnMount | assets/js/layouts/ProfileLayout.js:39-85 | Stores the defaults, or the defaults merged with a truthy `buttonOptions`. A throw leaves the state unset. |
| Boot.BootEndsAtDestination | assets/js/screens/Boot.js:27-82 | Whatever the account, the last reset goes to where it belongs. That is the waitlist or the user dashboard for a user, the partner dashboard for a partner, and the landing screen otherwise. |
| Boot.UserFallsThroughPartnerCase | assets/js/screens/Boot.js:34-52 | A user within the threshold falls through to the partner dashboard before the user dashboard. Only a user past it is stopped at the waitlist. |
| Boot.WaitlistByNumbers | assets/js/screens/Boot.js:40 | With numbers, a priority above the threshold is waitlisted, and an equal one is within. |
| Boot.BootScreen.Reset | assets/js/screens/Boot.js:41-44 | Records one route reset. |
| Boot.BootScreen.BootWithUser | assets/js/screens/Boot.js:27-82 | The resets are exactly the two switches' resets for the account type, or none when the waitlist read throws. |
| Boot.BootScreen.Mount | assets/js/screens/Boot.js:84-104 | The cache is cleared before anything else. Then a signed-in member is booted, and anyone else is reset to the landing screen. |

## Left out

- `DataObject.js` is not part of this model. Its `initByUid`, `_forcePull`, `push`, `mergeItems`, `getAll` and `_BusyErrorWrapper` are modelled from how `User.js` uses them: a record keyed by collection and uid, with a busy guard that refuses another guarded operation with code `busy`.
- The cache module (`cache.js`) is not part of this model. It is a map from path to list.
- `ClassesCollection`, `GymsCollection` and their `retrieveWhere` queries. The read views return the ids they query.
- `publicStorage`, the storage upload, the image picker and the permission request. Their answers are parameters. The `requestPermissions` check of `changeIcon` is left out because `HelperFunctions.js` is not part of this model.
- Sleeps and timers: 3.5 s between livestream pulls, 200 ms on the boot screen and 3 s after sign-up. They change no state the model keeps.
- Concurrency. The un-awaited `document*` calls are logged in order and their failures ignored. In `create`, the `Promise.all` of rename and push reports the push failure first when both fail.
- The store's own rejection of nested arrays. Push success is a parameter, so the as-written nested merges are not refused by it.
- `initializeAccount`, `signInWithEmailAndPassword` and the `handleAuthError*` helpers. Their outcome is the `authError` parameter.
- Navigation and rendering beyond the routes reset or pushed, the banners and the back-button rule.
- Numbers are integers, and `Number(s)` is exact only for strings of decimal digits. Signs, whitespace, hex and exponents read as NaN.
- Strings are sequences of characters, not UTF-16 code units.
- Objects have no prototype: a button named like an `Object.prototype` property is treated as absent.
- Callbacks in button options are named handlers.
- `retrieveWaitlistStatus` is not defined in `User.js`; its two fields are a parameter of `Boot.BootScreen.BootWithUser`.
- The debug buttons of the boot screen (Boot.js:121-133) are developer UI.
- The screens and components outside the core: `PartnerSignUpV2`, `UserDashboard`, the Algolia search bar, the card selection and badge, and the landing and home screens.
- UserStorage.User.RetrievePaymentMethods: states only the hydrated success cases. The failure cases are stated once, by `UserStorage.User.CachedSubresource`, which it calls.
- UserStorage.User.RetrievePastTransactions: as for the payment methods.
- ProfileLayout.ApplyAllSucceeds: each button's instructions are a list of key/value entries here, so they are always an object. A null or undefined instructions value, on which `Object.entries` throws at `assets/js/layouts/ProfileLayout.js:79`, is not modelled, so the throws-iff covers object-valued instructions only.
- AccountRules.Dedupe: object identity is not modelled. Every object or array in the two lists counts as its own object, as after a pull. Within one session, `purchaseClass` puts the same entry object into both lists, and the `Set` would keep it once where the model keeps it twice.
- AccountRules.AccountOf: a social profile's display name is always a string here. A null one, which makes `user.displayName.split` at User.js:89 throw, is not modelled.
- The class documents given to the class list are objects. A null document is not modelled.

## Findings

| source | as written | input that shows it | evidently intended | confidence | as-written member | corrected member |
|---|---|---|---|---|---|---|
| assets/js/backend/storage/User.js:366-369 | `active_classes: [active_classes, newEntry]` nests the old list, so the guard at 333-337 only sees the newest slot | from an empty list, buy slot t1, then t2, then t1 again: the third purchase passes the guard and is charged | `[...active_classes, newEntry]` as in `scheduleClass` (line 423), so every bought slot is refused later | not executed | Defects.NestedClassListRebuysSlot | Defects.SpreadPurchasesRefuseEverySlot |
| assets/js/backend/storage/User.js:482-484 | `active_memberships: [active_memberships, membershipId]` nests the old list, so `includes` at 461 and the filter at 519 no longer see older ids | from an empty list, buy m0, then m1; buying m0 again subscribes again, and cancelling m0 leaves the list as it was | `[...active_memberships, membershipId]` | not executed | Defects.NestedMembershipRebuys | Defects.SpreadMembershipRemembers |
| assets/js/backend/storage/User.js:590-592 | `reject(...)` on an oversize file, and at 574-576 on a picker error, is not followed by `return`, so the upload, merge and push still run | a pick of 9 MB with no error, and upload and push succeeding | each `reject` ends the callback | not executed | Defects.OversizeIconStillApplied | Defects.IconChangeChecked |
