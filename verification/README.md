# Lawndon server mutations in Dafny

A model of the mutation core of the Lawndon lawn-care backend. The backend keeps four kinds of
document: **Profile** (an account with orders, zones and linkage entries), **Mower** (an
equipment listing with reviews and offers), **Mowing** (a shared mowing event with members and
topics) and **Forum** (with images and sources). Every GraphQL mutation follows the same
pattern. It loads a whole document, transforms one nested list or field in memory, writes the
whole document back, and answers `'Success'` or `'Error'`.

Here each resolver is a pure function from a store `State` (four sequences of immutable
documents) to a `Reply(status, state)`. The modelling choices:

- **find-one** answers with the first matching document in sequence order (`Common.FirstIndex`
  and the `Store.*Index` lookups).
- **update-one** with the same query replaces that document.
- **save** appends a document.
- The identifier generator `get_id` becomes a `freshId` parameter. Where a proof needs the id to
  be unused, it takes `Store.Fresh` as a hypothesis.
- The bounded-list utility `slicer` is modelled by its assumed behaviour: it keeps the last `n`
  elements, dropping from the front. Its source is not part of this model.
- `Status` has a third value, `Raised`, for a resolver that throws. The API layer then reports an
  error and nothing has been written.
- Numeric fields are `real`. Like and support counters are `int`.

Module layout, following the source:

- `Common`: `Option`, `Cord`, `Status`, first-match lookup.
- `SubLists`: the shared nested-list engine.
  - Capped append: `CappedAppend`, built on `Slicer`, cap 20.
  - In-place update of the elements whose id matches: `MapWhere`.
  - Filter-out delete: `RemoveKey`.
- `Profiles`, `Mowers`, `Mowings`, `Forums`: the four documents, with the transform each manage
  resolver applies once its document is found.
- `Store`: the collections, the find-one queries, and the invariant `WellFormed`. `WellFormed`
  says usernames and account ids are unique, capped lists hold at most 20 entries, sub-entity
  ids are unique within their list, and there is at most one linkage entry per (title, path).
- `Accounts`, `ProfileMutations`, `MowerMutations`, `MowingMutations`, `ForumMutations`: the
  resolvers. Each one has a lemma showing it keeps `WellFormed`.

Three behaviours of the code are easy to misread:

- Zone delete subtracts the `square` given in the request, not the deleted zone's area. It does
  so even when no zone matched.
- Order accept adds `cost` to the budget every time, including on a repeat accept and when no
  order matched.
- `createForum` stores the owner's username in the forum's `account_id` field.

## Model

| member | source | states |
|---|---|---|
| Common.FirstIndex | index.js:216 | find-one: `None` exactly when nothing matches; otherwise the index of a match with no match before it |
| Store.AccountIndex | index.js:331 | lookup by account id returns the first profile with that id, or `None` exactly when no profile has it |
| Store.UsernameIndex | index.js:216 | lookup by username returns the first profile with that username, or `None` exactly when none has it |
| Store.CodeIndex | index.js:248 | lookup by security code returns the first profile with that code, or `None` exactly when none has it |
| Store.OwnerIndex | index.js:420 | lookup by (username, account id) returns the first profile matching both, or `None` exactly when none does |
| Store.MowerIndex | index.js:471 | lookup by shortid returns the first mower with that id, or `None` exactly when none has it |
| Store.MowingIndex | index.js:666 | lookup by shortid returns the first mowing with that id, or `None` exactly when none has it |
| Store.ForumIndex | index.js:757 | lookup by shortid returns the first forum with that id, or `None` exactly when none has it |
| SubLists.Slicer | index.js:388 | keeps min(length, n) elements, and they form a suffix of the input |
| SubLists.CappedAppend | index.js:377-388 | a capped create holds 1 to 20 elements, ends with the new element, is a suffix of old list + new element, and is exactly old + new when the list had room |
| SubLists.CappedAppendEvictsOldest | index.js:388 | on a full list of 20, a create drops exactly the oldest element, so the previously second element comes first |
| SubLists.MapWhere | index.js:400-409 | in-place update keeps length and order; only elements with the matching id change, each to f of itself |
| SubLists.MapWhereAbsent | index.js:400-409 | updating an id no element carries leaves the list unchanged |
| SubLists.RemoveKey | index.js:359 | filter-out delete returns a subsequence with no element of that id, in which every other element of the input still occurs (counts are fixed by RemoveKeyCounts) |
| SubLists.RemoveKeyCounts | index.js:359 | a delete keeps every element whose id differs exactly as many times as it occurred and drops every occurrence of an element with that id; with the subsequence property this is the order-preserving filter |
| SubLists.RemoveKeyUnchanged | index.js:359 | a delete leaves the list unchanged exactly when no element carries the id |
| SubLists.RemoveAppended | index.js:377-394 | deleting by the id just appended undoes the append when the id was not already present |
| SubLists.CappedAppendKeepsUnique | index.js:377-388 | a create with a fresh id keeps element ids unique |
| SubLists.RemoveKeyKeepsUnique | index.js:394 | a delete keeps element ids unique |
| SubLists.MapWhereKeepsUnique | index.js:400-409 | an id-preserving in-place update keeps element ids unique |
| Profiles.Link | index.js:428-432 | appends exactly one linkage entry (id, title, path) after the existing ones and changes nothing else in the profile |
| Profiles.OrderStep | index.js:334-360 | create appends an unaccepted order (no cap). Accept marks each order with id coll_id accepted and adds cost to the budget unconditionally. Any other option is exactly the filter-out delete of coll_id. Only orders and budget change |
| Profiles.ZoneStep | index.js:373-410 | create is exactly the capped append of a zone with 0 likes (all old zones kept while fewer than 20) and adds square to the area. Delete is exactly the filter-out delete of coll_id and subtracts the input square. Update sets status and photo, and like adds exactly 1, only on matching zones. Any other option is a no-op |
| Profiles.ZoneAreaRoundTrip | index.js:390-396 | zone create then delete with the same square restores area_size, whatever id the delete names |
| Profiles.ZoneCreateDeleteRoundTrip | index.js:377-396 | create then delete by the new id restores the profile exactly, when the list had room and the id was fresh |
| Profiles.AcceptTwiceAddsCostTwice | index.js:347-355 | a repeated accept leaves the orders as the first accept left them but adds cost a second time: not idempotent |
| Profiles.OrderStepKeepsValid | index.js:338-359 | order steps keep order ids unique, given a fresh id |
| Profiles.ZoneStepKeepsValid | index.js:377-409 | zone steps keep zones within 20 and zone ids unique, given a fresh id |
| Profiles.LinkKeepsValid | index.js:424-432 | adding a (title, path) entry that is not yet present keeps linkage entries unique |
| Mowers.AddReview | index.js:477-485 | a review create is exactly the capped append of the new review: all old reviews kept while fewer than 20, the oldest dropped otherwise; nothing else in the mower changes |
| Mowers.OfferStep | index.js:515-542 | create is exactly the capped append of the new offer with 0 likes. Like adds exactly 1 to matching offers only, keeping length and order. Any other option is exactly the filter-out delete of coll_id |
| Mowers.AddReviewKeepsValid | index.js:477-485 | review create keeps reviews within 20 with unique ids |
| Mowers.OfferStepKeepsValid | index.js:515-542 | offer steps keep offers within 20 with unique ids |
| Mowings.TopicStep | index.js:669-694 | create (as intended) is exactly the capped append of the new topic with 0 supports. Support adds exactly 1 to matching topics only. Any other option is exactly the filter-out delete of coll_id |
| Mowings.TopicStepKeepsValid | index.js:669-694 | topic steps keep topics within 20 with unique ids |
| Forums.ImageStep | index.js:760-786 | create is exactly the capped append of the new image. Update changes only the status of matching images. Any other option is exactly the filter-out delete of coll_id |
| Forums.SourceStep | index.js:815-841 | create is exactly the capped append of the new source with 0 likes. Like adds exactly 1 to matching sources only. Any other option is exactly the filter-out delete of coll_id |
| Forums.ImageStepKeepsValid | index.js:760-786 | image steps keep images within 20 with unique ids |
| Forums.SourceStepKeepsValid | index.js:815-841 | source steps keep sources within 20 with unique ids |
| Accounts.Register | index.js:215-246 | a taken username returns ('', username) and leaves the store unchanged. Otherwise exactly one profile is appended (rate 1, budget 0, area 0, empty lists) and its fresh id is returned |
| Accounts.Login | index.js:247-256 | returns the first profile with the code as (account_id, username), or ('', '') when no profile has the code |
| Accounts.UpdateProfilePersonalInfo | index.js:267-285 | Error with no change for an unknown account. Otherwise only that profile changes: the photo is always set, and the username is taken only when no profile already has it |
| Accounts.UpdateProfileGeoInfo | index.js:286-300 | Error with no change for an unknown account. Otherwise only that profile's region and coordinates change |
| Accounts.UpdateProfileLawncareInfo | index.js:301-315 | Error with no change for an unknown account. Otherwise only that profile's activity day and rate change |
| Accounts.UpdateProfileSecurityCode | index.js:316-329 | Error with no change for an unknown account. Otherwise only that profile's security code changes |
| Accounts.RegisterTwice | index.js:216-245 | registering the same username again returns the empty account id and writes nothing |
| Accounts.LoginAfterRegister | index.js:221-252 | after registering with an unused code, login with that code returns the new account |
| Accounts.RegisterKeepsWellFormed | index.js:216-242 | registration keeps usernames and account ids unique, given a fresh id |
| Store.AccountIndexAfterReplace | index.js:268-279 | an update-one issued with the find-one's query rewrites the document found, and the same lookup afterwards still finds it at that index |
| Store.RenameProfile | index.js:270-279 | renaming a profile to a username no other profile holds keeps usernames and account ids unique |
| Accounts.UpdatePersonalInfoKeepsWellFormed | index.js:268-279 | a username change never creates a duplicate username |
| Accounts.UpdateGeoInfoKeepsWellFormed | index.js:286-300 | the geo update keeps the store invariant |
| Accounts.UpdateLawncareInfoKeepsWellFormed | index.js:301-315 | the lawn-care update keeps the store invariant |
| Accounts.UpdateSecurityCodeKeepsWellFormed | index.js:316-329 | the security-code update keeps the store invariant |
| ProfileMutations.ManageProfileOrder | index.js:330-368 | Error with no change exactly when the account is unknown. Otherwise only the first profile with that id changes, by the order step |
| ProfileMutations.ManageProfileZone | index.js:369-418 | Error with no change exactly when the account is unknown. Otherwise only the first profile with that id changes, by the zone step |
| ProfileMutations.ZoneResolverFound | index.js:369-414 | on an account the lookup finds, the zone resolver succeeds and writes the zone step's result back at that index |
| ProfileMutations.ZoneCreateThenDelete | index.js:373-414 | a zone create followed by a zone delete on the same account writes back the composition of both zone steps, because the create does not move the account |
| ProfileMutations.ZoneRoundTripThroughStore | index.js:373-414 | through the resolver, zone create then delete of the new zone restores area_size, and restores the whole store when the list had room and the id was fresh |
| ProfileMutations.AcceptTwiceThroughStore | index.js:347-364 | through the resolver, a second accept of the same order adds cost again: the budget grows by twice cost |
| ProfileMutations.ManageOrderKeepsWellFormed | index.js:330-364 | the order resolver keeps the store invariant |
| ProfileMutations.ManageZoneKeepsWellFormed | index.js:369-414 | the zone resolver keeps the store invariant |
| MowerMutations.CreateMower | index.js:419-458 | succeeds exactly when the (username, id) profile exists, no identical mower exists, and no "mower" linkage entry has the title. On success it appends one linkage entry and one mower with the same fresh id and empty lists; Error changes nothing |
| MowerMutations.MakeMowerReview | index.js:469-493 | Error with no change exactly when the user or the mower is missing. Otherwise only that mower changes: one review, signed with the caller's username, is appended under the cap |
| MowerMutations.UpdateMowerInfo | index.js:494-509 | Error with no change exactly when the user or the mower is missing. Otherwise only that mower's link and photo change |
| MowerMutations.ManageMowerOffer | index.js:510-550 | Error with no change exactly when the user or the mower is missing. Otherwise only that mower changes, by the offer step with the caller's username |
| MowerMutations.CreateMowerTwice | index.js:420-451 | a second identical createMower returns Error and writes nothing, so one mower and one linkage entry result |
| MowerMutations.CreateMowerKeepsWellFormed | index.js:419-451 | createMower keeps the store invariant, including unique linkage entries |
| MowerMutations.MakeMowerReviewKeepsWellFormed | index.js:469-487 | makeMowerReview keeps the store invariant |
| MowerMutations.UpdateMowerInfoKeepsWellFormed | index.js:494-503 | updateMowerInfo keeps the store invariant |
| MowerMutations.ManageMowerOfferKeepsWellFormed | index.js:510-544 | manageMowerOffer keeps the store invariant |
| MowingMutations.CreateMowing | index.js:551-596 | same guard and linkage as createMower. The new mowing has the fresh id, no topics, and members equal to exactly the creator |
| MowingMutations.UpdateMowingPhoto | index.js:649-663 | Error with no change exactly when the user or the mowing is missing. Otherwise only that mowing's photo changes |
| MowingMutations.ManageMowingTopic | index.js:664-702 | as written: Error when the user or the mowing is missing. Otherwise create throws with nothing written, and support or delete change only that mowing, by the topic step |
| MowingMutations.ManageMowingTopicIntended | index.js:669-681 | corrected: every option succeeds once both lookups do, and only that mowing changes, by the topic step |
| MowingMutations.TopicCreateDiffers | index.js:673 | with both documents present, topic create throws as written but stores the new topic last as intended |
| MowingMutations.CreateMowingTwice | index.js:552-589 | a second identical createMowing returns Error and writes nothing |
| MowingMutations.CreateMowingKeepsWellFormed | index.js:551-589 | createMowing keeps the store invariant |
| MowingMutations.UpdateMowingPhotoKeepsWellFormed | index.js:649-657 | updateMowingPhoto keeps the store invariant |
| MowingMutations.ManageMowingTopicKeepsWellFormed | index.js:664-696 | both topic resolvers keep the store invariant |
| ForumMutations.CreateForum | index.js:703-744 | as written: same guard and linkage as createMower. The new forum has progress 0 and empty lists, and its account_id field holds the owner's username |
| ForumMutations.CreateForumIntended | index.js:718-721 | corrected: same guard and linkage, and the new forum records the owner's account id |
| ForumMutations.ForumOwnerDiffers | index.js:720 | when the username and account id differ, the forum as written does not carry the owner's account id, and the intended one does |
| ForumMutations.ManageForumImage | index.js:755-794 | Error with no change exactly when the user or the forum is missing. Otherwise only that forum changes, by the image step |
| ForumMutations.UpdateForumProgress | index.js:795-809 | Error with no change exactly when the user or the forum is missing. Otherwise only that forum's progress changes |
| ForumMutations.ManageForumSource | index.js:810-849 | Error with no change exactly when the user or the forum is missing. Otherwise only that forum changes, by the source step with the caller's username |
| ForumMutations.CreateForumTwice | index.js:704-737 | a second identical createForum returns Error and writes nothing |
| ForumMutations.CreateForumKeepsWellFormed | index.js:703-737 | createForum keeps the store invariant |
| ForumMutations.ManageForumImageKeepsWellFormed | index.js:755-788 | manageForumImage keeps the store invariant |
| ForumMutations.UpdateForumProgressKeepsWellFormed | index.js:795-803 | updateForumProgress keeps the store invariant |
| ForumMutations.ManageForumSourceKeepsWellFormed | index.js:810-843 | manageForumSource keeps the store invariant |

## Left out

- manageMowingStatus (index.js:607-648): its `join` writes fields the schemas do not declare
  (`telegram_tag` in a linkage entry, `account_id` in a member). What is stored then depends on
  how Mongoose handles undeclared fields, which is not part of this model. Its `join` also
  appends a (mowing title, "mowing") linkage entry without checking for one already present
  (index.js:614-618), so a creator who joins their own mowing holds two such entries. The
  linkage-uniqueness part of `WellFormed` therefore holds for the modelled resolvers only.
- The read resolvers getProfiles, getProfile, getMower(s), getMowing(s) and getForum(s) are plain
  reads with nothing to state.
- The Telegram bot, the `/questions` route and `get_question` are user interface with
  process-global state, outside the mutation core.
- The Express, Apollo and `gql` wiring, `middleware`, `mongo_connect` and `apollo_start` are
  I/O.
- Concurrency: each resolver is one atomic step. Lost updates between concurrent
  read-modify-write cycles are not modelled. Neither is the window between the two writes of
  the create resolvers, where the profile is written before the new document is saved.
- `get_id` and `slicer` are not part of this model. The id is a parameter, and `slicer` is
  modelled by its assumed keep-the-last-n behaviour.
- Numbers are unbounded `real`/`int`. JavaScript floating-point rounding is not modelled.
- Store queries: equality on embedded documents (`cords`, `borders`) in the duplicate checks is
  modelled as structural equality. The `$set` of a whole document is modelled as replacing it.
- Store errors: a failed write is not modelled. Every write succeeds.

## Findings

| source | as written | input that shows it | evidently intended | confidence | as-written member | corrected member |
|---|---|---|---|---|---|---|
| index.js:673 | topic create builds the new list by spreading `mowing.sources`. A mowing has no such field, so the spread of `undefined` throws and the topic is never stored | any existing username and mowing id with option `create` | spread `mowing.topics` | high; not executed | MowingMutations.ManageMowingTopic | MowingMutations.ManageMowingTopicIntended |
| index.js:720 | createForum stores `account_id: profile.username` | owner with username `ann` and account id `x1`: the new forum's account_id is `ann` | `account_id: profile.account_id`, as createMower (index.js:436) and createMowing (index.js:568) do | medium; not executed | ForumMutations.CreateForum | ForumMutations.CreateForumIntended |
