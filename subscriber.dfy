/**
 * The security subscriber and the repository objects it works on. A persist
 * writes each role's encoded permissions to the draft node, removes the
 * draft's stale role properties, and, when the document has a path, does the
 * same to the node at that path in the live session. A hydrate reads the
 * role properties of a node back into the document's permission map.
 */
module Subscriber {
  import opened Wrappers
  import opened RoleNames
  import opened PermissionCodec
  import opened Reconcile

  /** A repository node: a table of named multi-valued string properties, changed in place. */
  class Node {
    var props: Props

    constructor (props: Props)
      ensures this.props == props
    {
      this.props := props;
    }

    predicate HasProperty(name: string)
      reads this
    {
      name in props
    }

    method SetProperty(name: string, value: seq<string>)
      modifies this
      ensures props == old(props)[name := value]
    {
      props := props[name := value];
    }

    /** Removing goes through the property object, so the property must exist. */
    method RemoveProperty(name: string)
      requires name in props
      modifies this
      ensures props == old(props) - {name}
    {
      props := props - {name};
    }
  }

  /** The live session: its nodes by path, and the paths looked up in it so far. */
  class Session {
    const nodes: map<string, Node>
    ghost var lookups: seq<string>

    constructor (nodes: map<string, Node>)
      ensures this.nodes == nodes && lookups == []
    {
      this.nodes := nodes;
      lookups := [];
    }

    method GetNode(path: string) returns (node: Node)
      requires path in nodes
      modifies this`lookups
      ensures node == nodes[path] && lookups == old(lookups) + [path]
    {
      node := nodes[path];
      lookups := lookups + [path];
    }
  }

  /** A document with security behaviour: its permission map and its path, if any. */
  class Document {
    var permissions: RolePermissions
    var path: Option<string>

    constructor (permissions: RolePermissions, path: Option<string>)
      ensures this.permissions == permissions && this.path == path
    {
      this.permissions := permissions;
      this.path := path;
    }
  }

  class SecuritySubscriber {
    /** The permission names of the configured schema, in configured order. */
    const schema: Schema
    const liveSession: Session

    /** The schema is given as a name -> bit map, so its names never repeat. */
    predicate Valid() {
      Distinct(schema)
    }

    constructor (schema: Schema, liveSession: Session)
      requires Distinct(schema)
      ensures Valid() && this.schema == schema && this.liveSession == liveSession
    {
      this.schema := schema;
      this.liveSession := liveSession;
    }

    /** The live node a persist of `document` touches: none when the document has no path. */
    function LiveTarget(document: Document): set<object>
      reads document
    {
      if document.path.Some? && document.path.value in liveSession.nodes
      then {liveSession.nodes[document.path.value]} else {}
    }

    method HandlePersist(document: Document, node: Node)
      requires Valid()
      requires document.path.Some? ==> document.path.value in liveSession.nodes
      requires document.path.Some? ==> liveSession.nodes[document.path.value] != node
      modifies node, liveSession`lookups, LiveTarget(document)
      ensures node.props == DraftAfter(schema, document.permissions, old(node.props))
      ensures document.path.None? ==> liveSession.lookups == old(liveSession.lookups)
      ensures document.path.Some? ==>
        liveSession.lookups == old(liveSession.lookups) + [document.path.value]
      ensures document.path.Some? ==>
        var live := liveSession.nodes[document.path.value];
        live.props == LiveAfter(schema, document.permissions, old(node.props), old(live.props))
      ensures forall r {:trigger Distinct(node.props[RoleProperty(r)])} :: r in document.permissions ==>
        RoleProperty(r) in node.props && Distinct(node.props[RoleProperty(r)])
    {
      var permissions := document.permissions;
      var liveNode: Node? := null;
      if document.path.Some? {
        liveNode := liveSession.GetNode(document.path.value);
      }
      ghost var draft0 := node.props;
      ghost var live0 := if liveNode != null then liveNode.props else map[];
      WriteRoles(permissions, node, liveNode);
      RemoveStaleRoles(permissions, node, liveNode);
      WriteThenRemove(schema, permissions, draft0, live0);
      PersistWritesDistinct(schema, permissions, draft0);
    }

    /** Writes every role's encoded permissions to the draft node and, if there is one, the live node. */
    method WriteRoles(permissions: RolePermissions, node: Node, liveNode: Node?)
      requires liveNode != node
      modifies node, liveNode
      ensures node.props == old(node.props) + Writes(schema, permissions)
      ensures liveNode != null ==> liveNode.props == old(liveNode.props) + Writes(schema, permissions)
    {
      ghost var draft0 := node.props;
      ghost var live0 := if liveNode != null then liveNode.props else map[];
      var pending := permissions.Keys;
      ghost var order: seq<int> := [];
      ghost var acc: Props := map[];
      while pending != {}
        invariant pending <= permissions.Keys
        invariant forall i :: 0 <= i < |order| ==> order[i] in permissions
        invariant forall q :: q in permissions && q !in pending ==> q in order
        invariant acc == WritesInOrder(schema, permissions, order)
        invariant node.props == draft0 + acc
        invariant liveNode != null ==> liveNode.props == live0 + acc
        decreases pending
      {
        SomeRole(pending);
        var r :| r in pending;
        var name, value := RoleProperty(r), Encode(schema, permissions[r]);
        WritesInOrderAppend(schema, permissions, order, r);
        UnionUpdate(draft0, acc, name, value);
        UnionUpdate(live0, acc, name, value);
        WriteBoth(node, liveNode, name, value);
        acc := acc[name := value];
        order := order + [r];
        pending := pending - {r};
      }
      WritesInOrderComplete(schema, permissions, order);
    }

    /** Sets one property on the draft node and, if there is one, the live node. */
    method WriteBoth(node: Node, liveNode: Node?, name: string, value: seq<string>)
      requires liveNode != node
      modifies node, liveNode
      ensures node.props == old(node.props)[name := value]
      ensures liveNode != null ==> liveNode.props == old(liveNode.props)[name := value]
    {
      node.SetProperty(name, value);
      if liveNode != null {
        liveNode.SetProperty(name, value);
      }
    }

    /**
     * Removes the draft node's role properties whose role is not in the map,
     * and the same properties from the live node where it has them.
     */
    method RemoveStaleRoles(permissions: RolePermissions, node: Node, liveNode: Node?)
      requires liveNode != node
      modifies node, liveNode
      ensures node.props == old(node.props) - StaleNames(permissions, old(node.props))
      ensures liveNode != null ==>
        liveNode.props == old(liveNode.props) - StaleNames(permissions, old(node.props))
    {
      ghost var stale := StaleNames(permissions, node.props);
      ghost var removed: set<string> := {};
      var candidates := set n | n in node.props && IsRoleProperty(n);
      while candidates != {}
        invariant candidates <= old(node.props).Keys
        invariant forall n :: n in removed <==> n in stale && n !in candidates
        invariant node.props == old(node.props) - removed
        invariant liveNode != null ==> liveNode.props == old(liveNode.props) - removed
        decreases candidates
      {
        var n :| n in candidates;
        var role := RoleOf(n);
        if !(role.Some? && role.value in permissions) {
          RemoveOneMore(old(node.props), removed, n);
          if liveNode != null {
            RemoveOneMore(old(liveNode.props), removed, n);
          }
          RemoveBoth(node, liveNode, n);
          removed := removed + {n};
        }
        candidates := candidates - {n};
      }
      assert removed == stale;
    }

    /**
     * Removes one property from the draft node and, if the live node has it,
     * from the live node.
     */
    method RemoveBoth(node: Node, liveNode: Node?, name: string)
      requires liveNode != node
      requires name in node.props
      modifies node, liveNode
      ensures node.props == old(node.props) - {name}
      ensures liveNode != null ==> liveNode.props == old(liveNode.props) - {name}
    {
      node.RemoveProperty(name);
      if liveNode != null && liveNode.HasProperty(name) {
        liveNode.RemoveProperty(name);
      }
    }

    /** The permission map read from a node's `sec:*` properties. */
    method CollectPermissions(props: Props) returns (permissions: RolePermissions)
      ensures permissions == Hydrated(schema, props)
    {
      var pending := set n | n in props && SecurityPrefix <= n;
      ghost var seen: set<string> := {};
      permissions := map[];
      while pending != {}
        invariant pending + seen == (set n | n in props && SecurityPrefix <= n) && pending !! seen
        invariant permissions == Hydrated(schema, RestrictProps(props, seen))
        decreases pending
      {
        var n :| n in pending;
        var role := RoleOf(n);
        HydratedAddProperty(schema, RestrictProps(props, seen), n, props[n]);
        if role.Some? {
          permissions := permissions[role.value := Decode(schema, props[n])];
        }
        RestrictPropsAdd(props, seen, n);
        pending := pending - {n};
        seen := seen + {n};
      }
      HydratedIgnoresOtherProperties(schema, props, seen);
    }

    method HandleHydrate(document: Document, node: Node)
      requires Valid()
      modifies document`permissions
      ensures document.permissions == Hydrated(schema, node.props)
      ensures forall r :: RoleProperty(r) in node.props && IsSubsequence(node.props[RoleProperty(r)], schema) ==>
        r in document.permissions && Encode(schema, document.permissions[r]) == node.props[RoleProperty(r)]
    {
      var permissions := CollectPermissions(node.props);
      document.permissions := permissions;
      HydrateThenEncode(schema, node.props);
    }
  }
}
