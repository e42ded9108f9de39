/**
 * The concrete cases the subscriber's unit test fixes: the four-permission
 * schema, role 1 with everything but delete granted, and the draft and live
 * tables of the three persist cases and the hydrate case.
 */
module Scenarios {
  import opened Wrappers
  import opened RoleNames
  import opened PermissionCodec
  import opened Reconcile
  import opened Subscriber

  /** The schema the subscriber is built with, in configured order. */
  const TestSchema: Schema := ["view", "add", "edit", "delete"]

  /** Role 1's flags in every persist case. */
  const RoleOneFlags: Flags := map["view" := true, "add" := true, "edit" := true, "delete" := false]

  const RoleOneGranted: seq<string> := ["view", "add", "edit"]

  lemma TestSchemaDistinct()
    ensures Distinct(TestSchema)
  {
  }

  lemma EncodeRoleOne()
    ensures Encode(TestSchema, RoleOneFlags) == RoleOneGranted
  {
    assert !Granted(RoleOneFlags, "delete");
    assert Encode(["delete"], RoleOneFlags) == [];
    assert Encode(["edit", "delete"], RoleOneFlags) == ["edit"];
    assert Encode(["add", "edit", "delete"], RoleOneFlags) == ["add", "edit"];
  }

  lemma TestRoleNames()
    ensures RoleProperty(1) == "sec:role-1" && RoleProperty(2) == "sec:role-2"
    ensures RoleOf("sec:role-1") == Some(1) && RoleOf("sec:role-2") == Some(2)
  {
    assert NatToDecimal(1) == "1";
    assert NatToDecimal(2) == "2";
    RoleOfRoleProperty(1);
    RoleOfRoleProperty(2);
  }

  /** Persisting role 1 writes exactly one property, `sec:role-1`, holding the granted names. */
  lemma WritesRoleOne()
    ensures Writes(TestSchema, map[1 := RoleOneFlags]) == map["sec:role-1" := RoleOneGranted]
  {
    TestRoleNames();
    EncodeRoleOne();
    WritesUnique(TestSchema, map[1 := RoleOneFlags], map["sec:role-1" := RoleOneGranted]);
  }

  /** A draft holding only role 1's property has nothing stale. */
  lemma NothingStale(old1: seq<string>)
    ensures StaleNames(map[1 := RoleOneFlags], map["sec:role-1" := old1]) == {}
  {
    TestRoleNames();
  }

  /** A draft holding only role 2's property has exactly that property stale. */
  lemma RoleTwoStale(old2: seq<string>)
    ensures StaleNames(map[1 := RoleOneFlags], map["sec:role-2" := old2]) == {"sec:role-2"}
  {
    TestRoleNames();
    assert IsStale(map[1 := RoleOneFlags], "sec:role-2");
  }

  /**
   * Draft holds `sec:role-1`, live holds `sec:role-2`: the draft property is
   * overwritten, the live node gets the same write and keeps its own `sec:role-2`.
   */
  lemma PersistScenario(old1: seq<string>, live2: seq<string>)
    ensures DraftAfter(TestSchema, map[1 := RoleOneFlags], map["sec:role-1" := old1])
         == map["sec:role-1" := RoleOneGranted]
    ensures LiveAfter(TestSchema, map[1 := RoleOneFlags], map["sec:role-1" := old1], map["sec:role-2" := live2])
         == map["sec:role-2" := live2, "sec:role-1" := RoleOneGranted]
  {
    var draft, live := map["sec:role-1" := old1], map["sec:role-2" := live2];
    var granted := map["sec:role-1" := RoleOneGranted];
    assert draft - {} == draft && live - {} == live;
    assert (draft - {}) + granted == granted;
    assert (live - {}) + granted == map["sec:role-2" := live2, "sec:role-1" := RoleOneGranted];
    WritesRoleOne();
    NothingStale(old1);
  }

  /**
   * Draft and live both hold `sec:role-2`, whose role is gone: both lose it and
   * both end with only `sec:role-1`.
   */
  lemma PersistDeletingRolesScenario(old2: seq<string>, live2: seq<string>)
    ensures DraftAfter(TestSchema, map[1 := RoleOneFlags], map["sec:role-2" := old2])
         == map["sec:role-1" := RoleOneGranted]
    ensures LiveAfter(TestSchema, map[1 := RoleOneFlags], map["sec:role-2" := old2], map["sec:role-2" := live2])
         == map["sec:role-1" := RoleOneGranted]
  {
    var draft, live := map["sec:role-2" := old2], map["sec:role-2" := live2];
    var granted := map["sec:role-1" := RoleOneGranted];
    assert draft - {"sec:role-2"} == map[] && live - {"sec:role-2"} == map[];
    assert map[] + granted == granted;
    WritesRoleOne();
    RoleTwoStale(old2);
  }

  lemma DecodeRoleOne()
    ensures Decode(TestSchema, ["view", "add", "edit"])
         == map["view" := true, "add" := true, "edit" := true, "delete" := false]
  {
  }

  lemma DecodeRoleTwo()
    ensures Decode(TestSchema, ["view", "edit"])
         == map["view" := true, "add" := false, "edit" := true, "delete" := false]
  {
  }

  /** The two stored lists of the hydrate case decode to full flag maps. */
  lemma HydrateScenario()
    ensures Hydrated(TestSchema, map["sec:role-1" := ["view", "add", "edit"], "sec:role-2" := ["view", "edit"]])
         == map[1 := map["view" := true, "add" := true, "edit" := true, "delete" := false],
                2 := map["view" := true, "add" := false, "edit" := true, "delete" := false]]
  {
    var props := map["sec:role-1" := ["view", "add", "edit"], "sec:role-2" := ["view", "edit"]];
    var expected := map[1 := map["view" := true, "add" := true, "edit" := true, "delete" := false],
                        2 := map["view" := true, "add" := false, "edit" := true, "delete" := false]];
    TestRoleNames();
    DecodeRoleOne();
    DecodeRoleTwo();
    forall r ensures r in expected <==> RoleProperty(r) in props {
      if RoleProperty(r) == RoleProperty(1) {
        RolePropertyInjective(r, 1);
      }
      if RoleProperty(r) == RoleProperty(2) {
        RolePropertyInjective(r, 2);
      }
    }
    HydratedUnique(TestSchema, props, expected);
  }

  /**
   * The objects of a persist with a path: a draft node holding `draft0`, a
   * live session whose only node, at `path`, holds `live0`, a subscriber over
   * `schema` and a document at `path`.
   */
  method NewPersistSetup(schema: Schema, permissions: RolePermissions, draft0: Props, live0: Props, path: string)
    returns (subscriber: SecuritySubscriber, document: Document, node: Node, live: Node)
    requires Distinct(schema)
    ensures fresh(node) && fresh(live) && fresh(subscriber.liveSession)
    ensures subscriber.Valid() && subscriber.schema == schema
    ensures subscriber.liveSession.nodes == map[path := live] && subscriber.liveSession.lookups == []
    ensures document.permissions == permissions && document.path == Some(path)
    ensures node != live && node.props == draft0 && live.props == live0
    ensures subscriber.LiveTarget(document) == {live}
  {
    live := new Node(live0);
    var session := new Session(map[path := live]);
    subscriber := new SecuritySubscriber(schema, session);
    node := new Node(draft0);
    document := new Document(permissions, Some(path));
  }

  /** One persist of a document with a path, on fresh objects. */
  method PersistThroughSession(schema: Schema, permissions: RolePermissions, draft0: Props, live0: Props, path: string)
    returns (draft: Props, liveProps: Props, ghost lookups: seq<string>)
    requires Distinct(schema)
    ensures draft == DraftAfter(schema, permissions, draft0)
    ensures liveProps == LiveAfter(schema, permissions, draft0, live0)
    ensures lookups == [path]
  {
    var subscriber, document, node, live := NewPersistSetup(schema, permissions, draft0, live0, path);
    subscriber.HandlePersist(document, node);
    draft, liveProps, lookups := node.props, live.props, subscriber.liveSession.lookups;
  }

  /** The first persist case: the draft is overwritten, the live node gains `sec:role-1` and keeps `sec:role-2`. */
  method PersistWithPath(old1: seq<string>, live2: seq<string>)
    returns (draft: Props, liveProps: Props, ghost lookups: seq<string>)
    ensures draft == map["sec:role-1" := RoleOneGranted]
    ensures liveProps == map["sec:role-2" := live2, "sec:role-1" := RoleOneGranted]
    ensures lookups == ["/some/path"]
  {
    TestSchemaDistinct();
    draft, liveProps, lookups :=
      PersistThroughSession(TestSchema, map[1 := RoleOneFlags], map["sec:role-1" := old1], map["sec:role-2" := live2], "/some/path");
    PersistScenario(old1, live2);
  }

  /** The second persist case: without a path the draft is written and the live session is never asked. */
  method PersistWithoutPath(old1: seq<string>) returns (draft: Props, ghost lookups: seq<string>)
    ensures draft == map["sec:role-1" := RoleOneGranted]
    ensures lookups == []
  {
    TestSchemaDistinct();
    PersistScenario(old1, []);
    var session := new Session(map[]);
    var subscriber := new SecuritySubscriber(TestSchema, session);
    var node := new Node(map["sec:role-1" := old1]);
    var document := new Document(map[1 := RoleOneFlags], None);
    subscriber.HandlePersist(document, node);
    draft, lookups := node.props, session.lookups;
  }

  /** The third persist case: both nodes lose `sec:role-2` and end with only `sec:role-1`. */
  method PersistWithDeletingRoles(old2: seq<string>, live2: seq<string>)
    returns (draft: Props, liveProps: Props, ghost lookups: seq<string>)
    ensures draft == map["sec:role-1" := RoleOneGranted]
    ensures liveProps == map["sec:role-1" := RoleOneGranted]
    ensures lookups == ["/some/path"]
  {
    TestSchemaDistinct();
    draft, liveProps, lookups :=
      PersistThroughSession(TestSchema, map[1 := RoleOneFlags], map["sec:role-2" := old2], map["sec:role-2" := live2], "/some/path");
    PersistDeletingRolesScenario(old2, live2);
  }

  /** The hydrate case: the document's permissions become the decoded map of roles 1 and 2. */
  method HydrateNode() returns (permissions: RolePermissions)
    ensures permissions == map[1 := map["view" := true, "add" := true, "edit" := true, "delete" := false],
                               2 := map["view" := true, "add" := false, "edit" := true, "delete" := false]]
  {
    TestSchemaDistinct();
    HydrateScenario();
    var session := new Session(map[]);
    var subscriber := new SecuritySubscriber(TestSchema, session);
    var node := new Node(map["sec:role-1" := ["view", "add", "edit"], "sec:role-2" := ["view", "edit"]]);
    var document := new Document(map[], None);
    subscriber.HandleHydrate(document, node);
    permissions := document.permissions;
  }
}
