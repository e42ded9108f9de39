/**
 * What persisting and hydrating do to a node's property table, stated as
 * functions of the old table and the document's permissions. The
 * subscriber's methods are proved to produce exactly these tables.
 */
module Reconcile {
  import opened Wrappers
  import opened RoleNames
  import opened PermissionCodec

  /** A node's property table: property name -> stored list of names. */
  type Props = map<string, seq<string>>

  /** A document's permissions: role id -> that role's flags. */
  type RolePermissions = map<int, Flags>

  /** The property table restricted to the names in `names`. */
  function RestrictProps(props: Props, names: set<string>): (part: Props)
    ensures forall n :: n in part <==> n in props && n in names
    ensures forall n :: n in part ==> part[n] == props[n]
  {
    map n | n in props && n in names :: props[n]
  }

  /**
   * A property matched by `sec:role-*` whose role is not a key of the
   * permission map (its suffix names no role of the map).
   */
  predicate IsStale(permissions: RolePermissions, name: string) {
    IsRoleProperty(name) && !(RoleOf(name).Some? && RoleOf(name).value in permissions)
  }

  /** The stale role properties present in a table. */
  function StaleNames(permissions: RolePermissions, props: Props): (stale: set<string>)
    ensures forall n :: n in stale <==> n in props && IsStale(permissions, n)
  {
    set n | n in props && IsStale(permissions, n)
  }

  /** Some role of a non-empty permission map. */
  ghost function AnyRole(permissions: RolePermissions): (r: int)
    requires permissions != map[]
    ensures r in permissions
  {
    RoleExists(permissions);
    var r :| r in permissions; r
  }

  /** Updating a union at one key is updating its right operand there. */
  lemma UnionUpdate<K, V>(a: map<K, V>, b: map<K, V>, k: K, v: V)
    ensures (a + b)[k := v] == a + b[k := v]
  {
  }

  /** Removing names one after another is removing them all at once. */
  lemma RemoveOneMore<K, V>(table: map<K, V>, removed: set<K>, k: K)
    ensures (table - removed) - {k} == table - (removed + {k})
  {
  }

  /** A name that reads as role `q` is the property name of `q` and of no other role. */
  lemma OnlyRoleNamed(name: string, q: int)
    requires RoleOf(name) == Some(q)
    ensures forall r {:trigger RoleProperty(r)} :: RoleProperty(r) == name <==> r == q
  {
    forall r ensures RoleProperty(r) == name <==> r == q {
      RoleOfRoleProperty(r);
    }
  }

  /** A name that reads as no role is no role's property name. */
  lemma NoRoleNamed(name: string)
    requires RoleOf(name).None?
    ensures forall r {:trigger RoleProperty(r)} :: RoleProperty(r) != name
  {
    forall r ensures RoleProperty(r) != name {
      RoleOfRoleProperty(r);
    }
  }

  /** A non-empty set of role ids has a member. */
  lemma SomeRole(roles: set<int>)
    requires roles != {}
    ensures exists r :: r in roles
  {
    if forall r :: r !in roles {
      assert false;
    }
  }

  lemma RoleExists(permissions: RolePermissions)
    requires permissions != map[]
    ensures exists r :: r in permissions
  {
    if forall r :: r !in permissions {
      assert false;
    }
  }

  /** The writes a persist issues: each role's encoded list under that role's property name. */
  ghost function Writes(schema: Schema, permissions: RolePermissions): (writes: Props)
    ensures forall r {:trigger RoleProperty(r)} :: r in permissions ==>
      RoleProperty(r) in writes && writes[RoleProperty(r)] == Encode(schema, permissions[r])
    ensures forall n :: n in writes ==> RoleOf(n).Some? && RoleOf(n).value in permissions
    decreases |permissions|
  {
    if permissions == map[] then map[]
    else
      var r := AnyRole(permissions);
      RoleNamingBijective();
      Writes(schema, permissions - {r})[RoleProperty(r) := Encode(schema, permissions[r])]
  }

  /** The draft node's table after a persist: stale role properties removed, every role written. */
  ghost function DraftAfter(schema: Schema, permissions: RolePermissions, draft: Props): Props {
    (draft - StaleNames(permissions, draft)) + Writes(schema, permissions)
  }

  /**
   * The live node's table after a persist: the draft's stale role properties
   * removed where the live node has them, every role written.
   */
  ghost function LiveAfter(schema: Schema, permissions: RolePermissions, draft: Props, live: Props): Props {
    (live - StaleNames(permissions, draft)) + Writes(schema, permissions)
  }

  /**
   * The permission map hydration builds from a table: one entry per role
   * property, keyed by the role id read from its name, holding the decoded
   * flags of its stored list. Other properties are skipped.
   */
  ghost function Hydrated(schema: Schema, props: Props): (permissions: RolePermissions)
    ensures forall r :: r in permissions <==> RoleProperty(r) in props
    ensures forall r :: r in permissions ==> permissions[r] == Decode(schema, props[RoleProperty(r)])
    decreases |props|
  {
    if props == map[] then map[]
    else
      var n :| n in props;
      var rest := Hydrated(schema, props - {n});
      var role := RoleOf(n);
      if role.Some? then
        OnlyRoleNamed(n, role.value);
        rest[role.value := Decode(schema, props[n])]
      else
        NoRoleNamed(n);
        rest
  }

  // ----- persist on the draft node -----

  /** Every role of the map is written, overwriting whatever the node held under that name. */
  lemma PersistWritesEveryRole(schema: Schema, permissions: RolePermissions, draft: Props)
    ensures forall r :: r in permissions ==>
      var after := DraftAfter(schema, permissions, draft);
      RoleProperty(r) in after && after[RoleProperty(r)] == Encode(schema, permissions[r])
  {
  }

  /** After a persist the role properties on the draft node are exactly those of the map's roles. */
  lemma PersistRoleProperties(schema: Schema, permissions: RolePermissions, draft: Props)
    ensures forall n :: IsRoleProperty(n) ==>
      (n in DraftAfter(schema, permissions, draft) <==> RoleOf(n).Some? && RoleOf(n).value in permissions)
  {
    RoleNamingBijective();
  }

  /** Admitting one more name of the table adds exactly that entry. */
  lemma RestrictPropsAdd(props: Props, names: set<string>, n: string)
    requires n in props
    ensures RestrictProps(props, names + {n}) == RestrictProps(props, names)[n := props[n]]
  {
    assert RestrictProps(props, names + {n}).Keys == RestrictProps(props, names).Keys + {n};
  }

  /** A stale role property that was on the draft node is gone afterwards. */
  lemma PersistRemovesStale(schema: Schema, permissions: RolePermissions, draft: Props)
    ensures forall n :: n in draft && IsStale(permissions, n) ==> n !in DraftAfter(schema, permissions, draft)
  {
  }

  /** Properties outside `sec:role-*` are neither added, removed nor changed. */
  lemma PersistKeepsOtherProperties(schema: Schema, permissions: RolePermissions, draft: Props)
    ensures forall n :: !IsRoleProperty(n) ==>
      var after := DraftAfter(schema, permissions, draft);
      (n in after <==> n in draft) && (n in draft ==> after[n] == draft[n])
  {
  }

  /** A role reduced to no permissions keeps its property, holding the empty list. */
  lemma PersistKeepsEmptyRole(schema: Schema, permissions: RolePermissions, draft: Props, r: int)
    requires r in permissions && forall p :: p in permissions[r] ==> !permissions[r][p]
    ensures RoleProperty(r) in DraftAfter(schema, permissions, draft)
    ensures DraftAfter(schema, permissions, draft)[RoleProperty(r)] == []
  {
    EncodeNothingGranted(schema, permissions[r]);
  }

  /** Persisting the same permissions a second time changes nothing. */
  lemma PersistIdempotent(schema: Schema, permissions: RolePermissions, draft: Props)
    ensures DraftAfter(schema, permissions, DraftAfter(schema, permissions, draft))
         == DraftAfter(schema, permissions, draft)
  {
    var once := DraftAfter(schema, permissions, draft);
    var writes := Writes(schema, permissions);
    forall n | n in once ensures !IsStale(permissions, n) {
    }
    assert StaleNames(permissions, once) == {};
    assert once - {} == once;
    assert once + writes == once;
  }

  /** No name a persist writes is stale, so writing does not change the set of stale names. */
  lemma WritesNeverStale(schema: Schema, permissions: RolePermissions, draft: Props)
    ensures StaleNames(permissions, draft + Writes(schema, permissions)) == StaleNames(permissions, draft)
    ensures StaleNames(permissions, draft) !! Writes(schema, permissions).Keys
  {
  }

  /** Removing names the writes never touch commutes with the writes. */
  lemma RemoveCommutesWithWrites(table: Props, writes: Props, stale: set<string>)
    requires stale !! writes.Keys
    ensures (table + writes) - stale == (table - stale) + writes
  {
  }

  /**
   * Writing first and then removing the stale properties of the written table
   * gives the same tables as removing first.
   */
  lemma WriteThenRemove(schema: Schema, permissions: RolePermissions, draft: Props, live: Props)
    ensures StaleNames(permissions, draft + Writes(schema, permissions)) == StaleNames(permissions, draft)
    ensures (draft + Writes(schema, permissions)) - StaleNames(permissions, draft)
         == DraftAfter(schema, permissions, draft)
    ensures (live + Writes(schema, permissions)) - StaleNames(permissions, draft)
         == LiveAfter(schema, permissions, draft, live)
  {
    WritesNeverStale(schema, permissions, draft);
    RemoveCommutesWithWrites(draft, Writes(schema, permissions), StaleNames(permissions, draft));
    RemoveCommutesWithWrites(live, Writes(schema, permissions), StaleNames(permissions, draft));
  }

  // ----- persist on the live node -----

  /** The live node receives the very same writes as the draft node. */
  lemma LiveGetsSameWrites(schema: Schema, permissions: RolePermissions, draft: Props, live: Props)
    ensures forall r :: r in permissions ==>
      var liveAfter := LiveAfter(schema, permissions, draft, live);
      var draftAfter := DraftAfter(schema, permissions, draft);
      RoleProperty(r) in liveAfter && RoleProperty(r) in draftAfter &&
      liveAfter[RoleProperty(r)] == draftAfter[RoleProperty(r)]
  {
  }

  /** A property the live node has is removed there exactly when the draft node listed it as stale. */
  lemma LiveRemovals(schema: Schema, permissions: RolePermissions, draft: Props, live: Props)
    ensures forall n :: n in live ==>
      (n !in LiveAfter(schema, permissions, draft, live) <==> n in draft && IsStale(permissions, n))
  {
  }

  /** A stale property only the live node has is left as it was. */
  lemma LiveKeepsLiveOnlyStale(schema: Schema, permissions: RolePermissions, draft: Props, live: Props)
    ensures forall n :: n in live && n !in draft && IsStale(permissions, n) ==>
      var after := LiveAfter(schema, permissions, draft, live);
      n in after && after[n] == live[n]
  {
  }

  // ----- hydration -----

  /** Every hydrated role carries a flag for every schema permission, true iff its stored list names it. */
  lemma HydratedFlagsCoverSchema(schema: Schema, props: Props)
    ensures forall r :: RoleProperty(r) in props ==>
      var flags := Hydrated(schema, props)[r];
      (forall p :: p in flags <==> p in schema) &&
      (forall p :: p in flags ==> (flags[p] <==> p in props[RoleProperty(r)]))
  {
  }

  /** A role has a property on the draft node after a persist exactly when it is a role of the map. */
  lemma PersistStoredRoles(schema: Schema, permissions: RolePermissions, draft: Props)
    ensures forall r :: RoleProperty(r) in DraftAfter(schema, permissions, draft) <==> r in permissions
  {
    var after := DraftAfter(schema, permissions, draft);
    var writes := Writes(schema, permissions);
    forall r ensures RoleProperty(r) in after <==> r in permissions {
      var name := RoleProperty(r);
      RoleOfRoleProperty(r);
      assert name in after <==> name in writes;
    }
  }

  /** The permissions read back from a table holding exactly the roles of a map, each as encoded. */
  lemma HydrateEncoded(schema: Schema, permissions: RolePermissions, props: Props)
    requires forall r :: RoleProperty(r) in props <==> r in permissions
    requires forall r :: r in permissions ==> props[RoleProperty(r)] == Encode(schema, permissions[r])
    ensures Hydrated(schema, props) == map r | r in permissions :: Complete(schema, permissions[r])
  {
    var h := Hydrated(schema, props);
    var expected := map r | r in permissions :: Complete(schema, permissions[r]);
    forall r ensures r in h <==> r in expected {
    }
    assert h.Keys == expected.Keys;
    forall r | r in permissions ensures h[r] == expected[r] {
      DecodeEncode(schema, permissions[r]);
    }
  }

  /** Over a schema without repeats, no list a persist writes names a permission twice. */
  lemma PersistWritesDistinct(schema: Schema, permissions: RolePermissions, draft: Props)
    requires Distinct(schema)
    ensures forall r :: r in permissions ==>
      var after := DraftAfter(schema, permissions, draft);
      RoleProperty(r) in after && Distinct(after[RoleProperty(r)])
  {
    forall r | r in permissions
      ensures RoleProperty(r) in DraftAfter(schema, permissions, draft)
      ensures Distinct(DraftAfter(schema, permissions, draft)[RoleProperty(r)])
    {
      EncodeDistinct(schema, permissions[r]);
    }
  }

  /**
   * Over a schema without repeats, re-encoding a hydrated role gives back its
   * stored list whenever that list is in schema order.
   */
  lemma HydrateThenEncode(schema: Schema, props: Props)
    requires Distinct(schema)
    ensures forall r :: RoleProperty(r) in props && IsSubsequence(props[RoleProperty(r)], schema) ==>
      r in Hydrated(schema, props) && Encode(schema, Hydrated(schema, props)[r]) == props[RoleProperty(r)]
  {
    forall r | RoleProperty(r) in props && IsSubsequence(props[RoleProperty(r)], schema)
      ensures r in Hydrated(schema, props) && Encode(schema, Hydrated(schema, props)[r]) == props[RoleProperty(r)]
    {
      EncodeDecode(schema, props[RoleProperty(r)]);
    }
  }

  /** Hydrating a draft node after a persist gives back the document's permissions, completed over the schema. */
  lemma PersistThenHydrate(schema: Schema, permissions: RolePermissions, draft: Props)
    ensures Hydrated(schema, DraftAfter(schema, permissions, draft))
         == map r | r in permissions :: Complete(schema, permissions[r])
  {
    PersistStoredRoles(schema, permissions, draft);
    PersistWritesEveryRole(schema, permissions, draft);
    HydrateEncoded(schema, permissions, DraftAfter(schema, permissions, draft));
  }

  /** Hydrating the live node after a persist gives back every role of the document, completed over the schema. */
  lemma PersistThenHydrateLive(schema: Schema, permissions: RolePermissions, draft: Props, live: Props)
    ensures forall r :: r in permissions ==>
      r in Hydrated(schema, LiveAfter(schema, permissions, draft, live)) &&
      Hydrated(schema, LiveAfter(schema, permissions, draft, live))[r] == Complete(schema, permissions[r])
  {
    var after := LiveAfter(schema, permissions, draft, live);
    forall r | r in permissions
      ensures r in Hydrated(schema, after) && Hydrated(schema, after)[r] == Complete(schema, permissions[r])
    {
      DecodeEncode(schema, permissions[r]);
    }
  }
  // ----- steps of the subscriber's loops -----

  /** A table with one encoded entry per role of the map, and nothing else, is the writes of that map. */
  lemma WritesUnique(schema: Schema, permissions: RolePermissions, table: Props)
    requires forall r :: r in permissions ==>
      RoleProperty(r) in table && table[RoleProperty(r)] == Encode(schema, permissions[r])
    requires forall n :: n in table ==> RoleOf(n).Some? && RoleOf(n).value in permissions
    ensures table == Writes(schema, permissions)
  {
    var writes := Writes(schema, permissions);
    forall n | n in table ensures n in writes && table[n] == writes[n] {
      var q := RoleOf(n).value;
      RolePropertyOfRoleOf(n, q);
    }
    forall n | n in writes ensures n in table {
      var q := RoleOf(n).value;
      RolePropertyOfRoleOf(n, q);
    }
  }

  /** The writes for the roles of `order`, issued one after another. */
  ghost function WritesInOrder(schema: Schema, permissions: RolePermissions, order: seq<int>): Props
    requires forall i :: 0 <= i < |order| ==> order[i] in permissions
    decreases |order|
  {
    if order == [] then map[]
    else
      var last := order[|order| - 1];
      WritesInOrder(schema, permissions, order[..|order| - 1])[RoleProperty(last) := Encode(schema, permissions[last])]
  }

  /** Issuing one more write extends the table by that role's property. */
  lemma WritesInOrderAppend(schema: Schema, permissions: RolePermissions, order: seq<int>, r: int)
    requires forall i :: 0 <= i < |order| ==> order[i] in permissions
    requires r in permissions
    ensures WritesInOrder(schema, permissions, order + [r])
         == WritesInOrder(schema, permissions, order)[RoleProperty(r) := Encode(schema, permissions[r])]
  {
    assert (order + [r])[..|order|] == order;
  }

  /** The writes issued in any order hold one entry per role of the order, and nothing else. */
  lemma {:induction false} WritesInOrderEntries(schema: Schema, permissions: RolePermissions, order: seq<int>)
    requires forall i :: 0 <= i < |order| ==> order[i] in permissions
    ensures forall r {:trigger RoleProperty(r)} :: r in order ==>
      RoleProperty(r) in WritesInOrder(schema, permissions, order)
      && WritesInOrder(schema, permissions, order)[RoleProperty(r)] == Encode(schema, permissions[r])
    ensures forall n :: n in WritesInOrder(schema, permissions, order) ==>
      RoleOf(n).Some? && RoleOf(n).value in order
    decreases |order|
  {
    if order != [] {
      var prefix, last := order[..|order| - 1], order[|order| - 1];
      WritesInOrderEntries(schema, permissions, prefix);
      var table := WritesInOrder(schema, permissions, order);
      forall r | r in order
        ensures RoleProperty(r) in table && table[RoleProperty(r)] == Encode(schema, permissions[r])
      {
        if r != last {
          assert r in prefix;
          if RoleProperty(r) == RoleProperty(last) {
            RolePropertyInjective(r, last);
          }
        }
      }
      forall n | n in table ensures RoleOf(n).Some? && RoleOf(n).value in order {
        if n == RoleProperty(last) {
          RoleOfRoleProperty(last);
        }
      }
    }
  }

  /** Once every role has been written, in whatever order, the table is the writes of the map. */
  lemma WritesInOrderComplete(schema: Schema, permissions: RolePermissions, order: seq<int>)
    requires forall i :: 0 <= i < |order| ==> order[i] in permissions
    requires forall r :: r in permissions ==> r in order
    ensures WritesInOrder(schema, permissions, order) == Writes(schema, permissions)
  {
    WritesInOrderEntries(schema, permissions, order);
    WritesUnique(schema, permissions, WritesInOrder(schema, permissions, order));
  }

  /** Reading one more property extends the hydrated map by its role's entry, if it names a role. */
  lemma HydratedAddProperty(schema: Schema, props: Props, n: string, value: seq<string>)
    requires n !in props
    ensures Hydrated(schema, props[n := value])
         == if RoleOf(n).Some? then Hydrated(schema, props)[RoleOf(n).value := Decode(schema, value)]
            else Hydrated(schema, props)
  {
    var larger := props[n := value];
    var before := Hydrated(schema, props);
    var expected := if RoleOf(n).Some? then before[RoleOf(n).value := Decode(schema, value)] else before;
    forall r ensures r in expected <==> RoleProperty(r) in larger {
      if RoleOf(n).Some? && r == RoleOf(n).value {
        RolePropertyOfRoleOf(n, r);
      } else {
        RoleOfRoleProperty(r);
        assert r in expected <==> r in before;
      }
    }
    forall r | r in expected ensures expected[r] == Decode(schema, larger[RoleProperty(r)]) {
      RoleOfRoleProperty(r);
      if RoleOf(n).Some? && r == RoleOf(n).value {
        RolePropertyOfRoleOf(n, r);
      }
    }
    HydratedUnique(schema, larger, expected);
  }

  /** A map with one decoded entry per role property of the table, and nothing else, is its hydration. */
  lemma HydratedUnique(schema: Schema, props: Props, table: RolePermissions)
    requires forall r :: r in table <==> RoleProperty(r) in props
    requires forall r :: r in table ==> table[r] == Decode(schema, props[RoleProperty(r)])
    ensures table == Hydrated(schema, props)
  {
    var hydrated := Hydrated(schema, props);
    forall r | r in table ensures r in hydrated && table[r] == hydrated[r] {
      assert RoleProperty(r) in props;
    }
    forall r | r in hydrated ensures r in table {
      assert RoleProperty(r) in props;
    }
  }

  /** Hydration only looks at `sec:*` properties; restricting to those changes nothing. */
  lemma HydratedIgnoresOtherProperties(schema: Schema, props: Props, names: set<string>)
    requires names == set n | n in props && SecurityPrefix <= n
    ensures Hydrated(schema, RestrictProps(props, names)) == Hydrated(schema, props)
  {
    var part := RestrictProps(props, names);
    var before, after := Hydrated(schema, props), Hydrated(schema, part);
    forall r ensures r in after <==> r in before {
      assert SecurityPrefix <= RoleProperty(r);
    }
    forall r | r in after ensures after[r] == before[r] {
      assert part[RoleProperty(r)] == props[RoleProperty(r)];
    }
    assert after.Keys == before.Keys;
  }
}
