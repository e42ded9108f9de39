# Sulu document security subscriber, modelled in Dafny

Sulu's `SecuritySubscriber` keeps a document's per-role permissions in sync
with the PHPCR nodes that store the document. It is configured with a
permission schema (`view`, `add`, `edit`, `delete`, in that order) and with the
live session.

- **Persist.** For every role id `r` in the document's permission map, the
  persist writes the property `sec:role-r` on the draft node. The property holds
  the list of the role's granted permission names, in schema order. A
  `sec:role-*` property already on the draft node whose role is no longer in
  the map is removed. When the document has a path, the node at that path in
  the live session gets the same writes. It also loses each of those stale
  properties, but only where it has them. A document without a path never
  causes a lookup in the live session.
- **Hydrate.** A hydrate reads a node's `sec:*` properties back into a map
  from role id to a full flag map. Every schema permission is present in it,
  true exactly when the stored list names it.

The subscriber's implementation file is not part of this model. The behaviour
modelled is the behaviour the unit test
`SecuritySubscriberTest.php` fixes.

Files:

- `wrappers.dfy`: the `Option` type.
- `role_names.dfy`: module `RoleNames`. It builds the property name
  `sec:role-<id>` from a role id and reads a role id from a property name. The
  two are proved to be inverse bijections between ids and role-property names.
- `permission_codec.dfy`: module `PermissionCodec`. It has the encoding of a
  flag map into the stored list of granted names, in schema order, and the
  decoding of a stored list into a full flag map. It proves both round trips
  and that the encoding is the only schema-ordered list with its members.
- `reconcile.dfy`: module `Reconcile`. It defines what a persist does to the
  draft and live property tables and what a hydrate reads, as functions of the
  old tables. It proves the properties the test asserts about them, plus
  persist-then-hydrate and idempotence.
- `subscriber.dfy`: module `Subscriber`. It has the mutable objects: nodes
  holding property tables, the live session with its log of lookups, the
  document, and the subscriber with its imperative `HandlePersist` and
  `HandleHydrate`. Each method is proved to leave exactly the tables the
  `Reconcile` functions describe.
- `scenarios.dfy`: module `Scenarios`. It states the concrete cases of the
  test: the encoding example, the three persist cases and the hydrate case,
  both as lemmas about the `Reconcile` functions and as methods that call the
  subscriber on the objects of each case.

## Model

| member | source | states |
|---|---|---|
| RoleNames.RoleProperty | src/Sulu/Component/Content/Tests/Unit/Document/Subscriber/SecuritySubscriberTest.php:48 | a role's property name starts with `sec:role-`, and so is matched by both `sec:role-*` and `sec:*` |
| RoleNames.RoleOf | src/Sulu/Component/Content/Tests/Unit/Document/Subscriber/SecuritySubscriberTest.php:138-143 | a name that reads as a role id is a `sec:role-*` name and is exactly that role's property name |
| RoleNames.RoleOfRoleProperty | src/Sulu/Component/Content/Tests/Unit/Document/Subscriber/SecuritySubscriberTest.php:138-143 | reading the role id out of role r's property name gives r back |
| RoleNames.RolePropertyOfRoleOf | src/Sulu/Component/Content/Tests/Unit/Document/Subscriber/SecuritySubscriberTest.php:138-143 | a name that reads as role r is exactly role r's property name, so no two spellings name one role |
| RoleNames.RoleNamingBijective | src/Sulu/Component/Content/Tests/Unit/Document/Subscriber/SecuritySubscriberTest.php:48 | naming and reading role properties are inverse for all ids and all names |
| RoleNames.RolePropertyInjective | src/Sulu/Component/Content/Tests/Unit/Document/Subscriber/SecuritySubscriberTest.php:48 | different roles have different property names |
| RoleNames.IntToDecimal | src/Sulu/Component/Content/Tests/Unit/Document/Subscriber/SecuritySubscriberTest.php:48 | a role id's spelling is non-empty, starts with a minus sign exactly when the id is negative, and is otherwise canonical digits |
| RoleNames.ParseInt | src/Sulu/Component/Content/Tests/Unit/Document/Subscriber/SecuritySubscriberTest.php:138-143 | a parsed id is negative exactly when the text starts with a minus sign |
| RoleNames.ParseIntOfIntToDecimal | src/Sulu/Component/Content/Tests/Unit/Document/Subscriber/SecuritySubscriberTest.php:48 | the decimal spelling of any role id, negative ones included, parses back to that id |
| RoleNames.IntToDecimalOfParseInt | src/Sulu/Component/Content/Tests/Unit/Document/Subscriber/SecuritySubscriberTest.php:138-143 | a string that parses as an id is that id's decimal spelling |
| RoleNames.NatToDecimal | src/Sulu/Component/Content/Tests/Unit/Document/Subscriber/SecuritySubscriberTest.php:48 | the decimal spelling is non-empty, all digits, without leading zeros, and is "0" only for zero |
| RoleNames.DecimalValueOfNatToDecimal | src/Sulu/Component/Content/Tests/Unit/Document/Subscriber/SecuritySubscriberTest.php:48 | the value of a number's decimal spelling is that number |
| RoleNames.NatToDecimalOfDecimalValue | src/Sulu/Component/Content/Tests/Unit/Document/Subscriber/SecuritySubscriberTest.php:138-143 | a canonical digit string is the spelling of its own value |
| PermissionCodec.Encode | src/Sulu/Component/Content/Tests/Unit/Document/Subscriber/SecuritySubscriberTest.php:40-66 | the stored list holds exactly the schema names whose flag is true, and keeps schema order |
| PermissionCodec.Decode | src/Sulu/Component/Content/Tests/Unit/Document/Subscriber/SecuritySubscriberTest.php:139-164 | the decoded flag map has every schema name as a key, each true exactly when the stored list names it |
| PermissionCodec.Complete | src/Sulu/Component/Content/Tests/Unit/Document/Subscriber/SecuritySubscriberTest.php:151-164 | the completed flag map has every schema name, true exactly when the original map grants it |
| PermissionCodec.DecodeEncode | src/Sulu/Component/Content/Tests/Unit/Document/Subscriber/SecuritySubscriberTest.php:151-164 | decoding an encoded flag map gives the map completed over the schema |
| PermissionCodec.DecodeEncodeFull | src/Sulu/Component/Content/Tests/Unit/Document/Subscriber/SecuritySubscriberTest.php:151-164 | a flag map with every schema name survives the encode-decode round trip unchanged |
| PermissionCodec.SchemaOrderUnique | src/Sulu/Component/Content/Tests/Unit/Document/Subscriber/SecuritySubscriberTest.php:40-66 | over a schema without repeats, two schema-ordered lists with the same members are equal |
| PermissionCodec.EncodeDecode | src/Sulu/Component/Content/Tests/Unit/Document/Subscriber/SecuritySubscriberTest.php:139-144 | a stored list in schema order encodes back to itself after decoding |
| PermissionCodec.EncodeNothingGranted | src/Sulu/Component/Content/Tests/Unit/Document/Subscriber/SecuritySubscriberTest.php:58-59 | a role with no permission granted encodes to the empty list |
| PermissionCodec.EncodeDistinct | src/Sulu/Component/Content/Tests/Unit/Document/Subscriber/SecuritySubscriberTest.php:40-66 | a stored list never names a permission twice |
| Reconcile.StaleNames | src/Sulu/Component/Content/Tests/Unit/Document/Subscriber/SecuritySubscriberTest.php:101-122 | the stale names are exactly the `sec:role-*` properties of the table whose role is not in the permission map |
| Reconcile.Writes | src/Sulu/Component/Content/Tests/Unit/Document/Subscriber/SecuritySubscriberTest.php:66-93 | a persist writes one property per role, named after the role and holding its encoded list, and writes nothing else |
| Reconcile.DraftAfter | src/Sulu/Component/Content/Tests/Unit/Document/Subscriber/SecuritySubscriberTest.php:45-128 | defines the draft table after a persist: the stale role properties removed, then every role written; its properties are the `Persist*` lemmas below |
| Reconcile.LiveAfter | src/Sulu/Component/Content/Tests/Unit/Document/Subscriber/SecuritySubscriberTest.php:45-128 | defines the live table after a persist: the draft's stale role properties removed where present, then every role written; its properties are the `Live*` lemmas below |
| Reconcile.Hydrated | src/Sulu/Component/Content/Tests/Unit/Document/Subscriber/SecuritySubscriberTest.php:137-164 | hydration has an entry for role r exactly when the table has role r's property, holding that property's decoded list |
| Reconcile.PersistWritesEveryRole | src/Sulu/Component/Content/Tests/Unit/Document/Subscriber/SecuritySubscriberTest.php:47-66 | after a persist, every role's property on the draft node holds its encoded list, whatever was there before |
| Reconcile.PersistRoleProperties | src/Sulu/Component/Content/Tests/Unit/Document/Subscriber/SecuritySubscriberTest.php:99-128 | after a persist, a `sec:role-*` name is on the draft node exactly when it names a role of the map |
| Reconcile.PersistRemovesStale | src/Sulu/Component/Content/Tests/Unit/Document/Subscriber/SecuritySubscriberTest.php:101-122 | a stale role property that was on the draft node is gone after a persist |
| Reconcile.PersistKeepsOtherProperties | src/Sulu/Component/Content/Tests/Unit/Document/Subscriber/SecuritySubscriberTest.php:101-103 | properties outside `sec:role-*` are neither added, removed nor changed by a persist |
| Reconcile.PersistKeepsEmptyRole | src/Sulu/Component/Content/Tests/Unit/Document/Subscriber/SecuritySubscriberTest.php:58-67 | a role of the map with nothing granted keeps its property, holding the empty list, and is not removed |
| Reconcile.PersistIdempotent | src/Sulu/Component/Content/Tests/Unit/Document/Subscriber/SecuritySubscriberTest.php:99-128 | persisting the same permissions twice leaves the draft table as one persist does |
| Reconcile.WriteThenRemove | src/Sulu/Component/Content/Tests/Unit/Document/Subscriber/SecuritySubscriberTest.php:99-128 | writing first and removing the stale properties afterwards leaves the same draft and live tables as the removal-first description |
| Reconcile.PersistWritesDistinct | src/Sulu/Component/Content/Tests/Unit/Document/Subscriber/SecuritySubscriberTest.php:66 | over a schema without repeats, every role's property after a persist holds a list without repeated names |
| Reconcile.LiveGetsSameWrites | src/Sulu/Component/Content/Tests/Unit/Document/Subscriber/SecuritySubscriberTest.php:62-69 | the live node ends with the very same value as the draft node under every role's property |
| Reconcile.LiveRemovals | src/Sulu/Component/Content/Tests/Unit/Document/Subscriber/SecuritySubscriberTest.php:103-125 | a property the live node has disappears from it exactly when the draft node had it as a stale role property |
| Reconcile.LiveKeepsLiveOnlyStale | src/Sulu/Component/Content/Tests/Unit/Document/Subscriber/SecuritySubscriberTest.php:49-70 | a stale role property that only the live node has keeps its value |
| Reconcile.HydratedFlagsCoverSchema | src/Sulu/Component/Content/Tests/Unit/Document/Subscriber/SecuritySubscriberTest.php:151-164 | every hydrated role has a flag for every schema permission, true exactly when its stored list names it |
| Reconcile.PersistStoredRoles | src/Sulu/Component/Content/Tests/Unit/Document/Subscriber/SecuritySubscriberTest.php:99-122 | after a persist, role r has a property on the draft node exactly when r is a role of the map |
| Reconcile.HydrateEncoded | src/Sulu/Component/Content/Tests/Unit/Document/Subscriber/SecuritySubscriberTest.php:137-164 | a table holding exactly the roles of a map, each with its encoded list, hydrates to that map completed over the schema |
| Reconcile.PersistThenHydrate | src/Sulu/Component/Content/Tests/Unit/Document/Subscriber/SecuritySubscriberTest.php:151-164 | hydrating the draft node after a persist gives back the document's permission map, completed over the schema |
| Reconcile.PersistThenHydrateLive | src/Sulu/Component/Content/Tests/Unit/Document/Subscriber/SecuritySubscriberTest.php:151-164 | hydrating the live node after a persist gives every document role its permissions, completed over the schema |
| Reconcile.WritesUnique | src/Sulu/Component/Content/Tests/Unit/Document/Subscriber/SecuritySubscriberTest.php:66-69 | any table with one encoded entry per role and nothing else equals the persist's writes |
| Reconcile.WritesInOrderEntries | src/Sulu/Component/Content/Tests/Unit/Document/Subscriber/SecuritySubscriberTest.php:66-69 | writing roles one after another, in any order, leaves one encoded entry per written role and nothing else |
| Reconcile.WritesInOrderComplete | src/Sulu/Component/Content/Tests/Unit/Document/Subscriber/SecuritySubscriberTest.php:66-69 | once every role has been written, in whatever order, the table is the persist's writes |
| Reconcile.HydratedAddProperty | src/Sulu/Component/Content/Tests/Unit/Document/Subscriber/SecuritySubscriberTest.php:146 | reading one more property adds its role's decoded entry when it names a role, and changes nothing otherwise |
| Reconcile.HydratedUnique | src/Sulu/Component/Content/Tests/Unit/Document/Subscriber/SecuritySubscriberTest.php:151-164 | any map with one decoded entry per role property of the table, and nothing else, is the hydration |
| Reconcile.HydratedIgnoresOtherProperties | src/Sulu/Component/Content/Tests/Unit/Document/Subscriber/SecuritySubscriberTest.php:146 | reading only the `sec:*` properties gives the same permissions as reading the whole table |
| Reconcile.HydrateThenEncode | src/Sulu/Component/Content/Tests/Unit/Document/Subscriber/SecuritySubscriberTest.php:137-164 | a stored list in schema order is read into flags that encode back to that very list |
| Subscriber.Node.HasProperty | src/Sulu/Component/Content/Tests/Unit/Document/Subscriber/SecuritySubscriberTest.php:107 | a node has a property exactly when its table holds that name |
| Subscriber.Node.SetProperty | src/Sulu/Component/Content/Tests/Unit/Document/Subscriber/SecuritySubscriberTest.php:66 | setting a property replaces that one entry and leaves the rest of the table alone |
| Subscriber.Node.RemoveProperty | src/Sulu/Component/Content/Tests/Unit/Document/Subscriber/SecuritySubscriberTest.php:122 | removing an existing property drops that one entry |
| Subscriber.Session.GetNode | src/Sulu/Component/Content/Tests/Unit/Document/Subscriber/SecuritySubscriberTest.php:62 | the lookup returns the node stored at the path and records the lookup |
| Subscriber.Document.constructor | src/Sulu/Component/Content/Tests/Unit/Document/Subscriber/SecuritySubscriberTest.php:55-60 | a document holds the permission map and the path it is given, the path being absent for a document without one |
| Subscriber.SecuritySubscriber.constructor | src/Sulu/Component/Content/Tests/Unit/Document/Subscriber/SecuritySubscriberTest.php:39-42 | the subscriber keeps the configured schema, without repeated names, and the live session |
| Subscriber.SecuritySubscriber.HandlePersist | src/Sulu/Component/Content/Tests/Unit/Document/Subscriber/SecuritySubscriberTest.php:45-128 | the draft node ends as `DraftAfter`; with a path the live node at that path ends as `LiveAfter` and exactly one lookup of that path is made; without a path no lookup is made; every role's property on the draft node holds a list without repeated names |
| Subscriber.SecuritySubscriber.WriteRoles | src/Sulu/Component/Content/Tests/Unit/Document/Subscriber/SecuritySubscriberTest.php:121-124 | the role loop adds exactly the persist's writes to the draft node and to the live node, if there is one |
| Subscriber.SecuritySubscriber.WriteBoth | src/Sulu/Component/Content/Tests/Unit/Document/Subscriber/SecuritySubscriberTest.php:66-69 | one role's property is set to the same value on both nodes |
| Subscriber.SecuritySubscriber.RemoveStaleRoles | src/Sulu/Component/Content/Tests/Unit/Document/Subscriber/SecuritySubscriberTest.php:101-125 | the removal loop takes exactly the draft's stale role properties off the draft node, and the same names off the live node |
| Subscriber.SecuritySubscriber.RemoveBoth | src/Sulu/Component/Content/Tests/Unit/Document/Subscriber/SecuritySubscriberTest.php:106-125 | one stale property leaves the draft node, and leaves the live node only if the live node has it |
| Subscriber.SecuritySubscriber.CollectPermissions | src/Sulu/Component/Content/Tests/Unit/Document/Subscriber/SecuritySubscriberTest.php:137-146 | the loop over the `sec:*` properties builds exactly `Hydrated` of the node's table |
| Subscriber.SecuritySubscriber.HandleHydrate | src/Sulu/Component/Content/Tests/Unit/Document/Subscriber/SecuritySubscriberTest.php:130-167 | the document's permission map becomes `Hydrated` of the node's table, and every role property stored in schema order is read into flags that encode back to it |
| Scenarios.TestSchemaDistinct | src/Sulu/Component/Content/Tests/Unit/Document/Subscriber/SecuritySubscriberTest.php:40 | the configured schema names no permission twice |
| Scenarios.EncodeRoleOne | src/Sulu/Component/Content/Tests/Unit/Document/Subscriber/SecuritySubscriberTest.php:58-66 | view, add and edit granted and delete denied encode to `['view', 'add', 'edit']` |
| Scenarios.TestRoleNames | src/Sulu/Component/Content/Tests/Unit/Document/Subscriber/SecuritySubscriberTest.php:48 | roles 1 and 2 are stored under `sec:role-1` and `sec:role-2`, and those names read back as 1 and 2 |
| Scenarios.WritesRoleOne | src/Sulu/Component/Content/Tests/Unit/Document/Subscriber/SecuritySubscriberTest.php:66 | role 1's persist writes exactly `sec:role-1` with `['view', 'add', 'edit']` |
| Scenarios.NothingStale | src/Sulu/Component/Content/Tests/Unit/Document/Subscriber/SecuritySubscriberTest.php:47-67 | a draft holding only `sec:role-1` has nothing to remove |
| Scenarios.RoleTwoStale | src/Sulu/Component/Content/Tests/Unit/Document/Subscriber/SecuritySubscriberTest.php:102-122 | a draft holding `sec:role-2` must lose exactly that property |
| Scenarios.PersistScenario | src/Sulu/Component/Content/Tests/Unit/Document/Subscriber/SecuritySubscriberTest.php:45-73 | the draft ends with only the new `sec:role-1`; the live node keeps its `sec:role-2` and gains the same `sec:role-1` |
| Scenarios.PersistDeletingRolesScenario | src/Sulu/Component/Content/Tests/Unit/Document/Subscriber/SecuritySubscriberTest.php:99-128 | both the draft and the live node lose `sec:role-2` and end with only the new `sec:role-1` |
| Scenarios.DecodeRoleOne | src/Sulu/Component/Content/Tests/Unit/Document/Subscriber/SecuritySubscriberTest.php:139-157 | `['view', 'add', 'edit']` decodes to view, add and edit true, and delete false |
| Scenarios.DecodeRoleTwo | src/Sulu/Component/Content/Tests/Unit/Document/Subscriber/SecuritySubscriberTest.php:144-163 | `['view', 'edit']` decodes to view and edit true, and add and delete false |
| Scenarios.HydrateScenario | src/Sulu/Component/Content/Tests/Unit/Document/Subscriber/SecuritySubscriberTest.php:130-167 | the two stored role properties hydrate to the expected map for roles 1 and 2 |
| Scenarios.NewPersistSetup | src/Sulu/Component/Content/Tests/Unit/Document/Subscriber/SecuritySubscriberTest.php:34-62 | builds fresh objects of a persist case with a path: the draft and live nodes, the live session holding the live node at the path, the subscriber and the document |
| Scenarios.PersistThroughSession | src/Sulu/Component/Content/Tests/Unit/Document/Subscriber/SecuritySubscriberTest.php:45-128 | one `HandlePersist` on those objects leaves the draft table `DraftAfter` and the live table `LiveAfter`, after exactly one lookup of the path |
| Scenarios.PersistWithPath | src/Sulu/Component/Content/Tests/Unit/Document/Subscriber/SecuritySubscriberTest.php:45-73 | calling the subscriber on the first persist case leaves only the new `sec:role-1` on the draft node, both properties on the live node, and one lookup of `/some/path` |
| Scenarios.PersistWithoutPath | src/Sulu/Component/Content/Tests/Unit/Document/Subscriber/SecuritySubscriberTest.php:75-97 | calling the subscriber without a path writes `sec:role-1` on the draft node, removes nothing, and makes no lookup |
| Scenarios.PersistWithDeletingRoles | src/Sulu/Component/Content/Tests/Unit/Document/Subscriber/SecuritySubscriberTest.php:99-128 | calling the subscriber on the deleting-roles case leaves only the new `sec:role-1` on both nodes, after one lookup of `/some/path` |
| Scenarios.HydrateNode | src/Sulu/Component/Content/Tests/Unit/Document/Subscriber/SecuritySubscriberTest.php:130-167 | calling the subscriber's hydrate on the test node sets the document's permissions to the expected map for roles 1 and 2 |

## Left out

- The subscriber's implementation file is not part of this model. The model follows the behaviour the unit test fixes.
- MediaDataProvider.php, MemoryFormStore.js and index.js are framework and UI glue and are not modelled.
- The mocking framework is not modelled. Only the node and session effects the mocks expect are modelled: which properties are set and removed, and which lookups are made.
- Events are not modelled. Each handler takes the document and node that the persist or hydrate event would carry.
- The check of whether a document has security behaviour is not modelled, because every test document has it.
- The permission bit values 64, 32, 16 and 8 are not modelled. Nothing stored or asserted uses them, so the schema is an ordered list of names.
- Subscriber.Session.GetNode: a lookup of a path the live session does not hold is excluded by a precondition of `HandlePersist`, not modelled as an error. No test shows how that failure is handled.
- Subscriber.SecuritySubscriber.HandlePersist: it also requires the live node to be a different object from the draft node, as it is in every persist.
- Subscriber.Node.RemoveProperty: it requires the property to exist, as removing through a property object does. This is why the live removal checks `hasProperty` first.
- The iteration order of roles and properties is not modelled. Each loop picks any remaining element, and its result is proved independent of the order.
- Property values are lists of strings. Other value types are not modelled.
- Role ids are unbounded integers, so PHP's integer range is not modelled. A property name gives a role only when its suffix is the canonical decimal spelling of an id (optional minus sign, no leading zeros). Other `sec:role-*` suffixes count as naming no role.
- Reconcile.Hydrated: `sec:*` properties that are not role properties are skipped. The test has none.
- Every role of the permission map is written, and a role with nothing granted is written as the empty list (`Reconcile.PersistKeepsEmptyRole`). No test case has such a role.
- Live removals are driven by the draft node's stale properties and guarded by a presence check on the live node (`SecuritySubscriberTest.php` lines 50-52, 70, 106-107 and 125). A stale property that only the live node has is left untouched.

