/**
 * The permission codec: a role's flag map (permission name -> granted?) is
 * stored as the list of granted permission names, in the order of the
 * permission schema configured on the subscriber (`view`, `add`, `edit`,
 * `delete`). Reading a stored list back gives a flag for every schema name.
 */
module PermissionCodec {

  /** The configured permission names, in their configured order. */
  type Schema = seq<string>

  /** One role's permissions: permission name -> granted. */
  type Flags = map<string, bool>

  predicate Distinct(s: seq<string>) {
    forall i, j :: 0 <= i < j < |s| ==> s[i] != s[j]
  }

  /** A permission counts as granted only when the flag map holds it as true. */
  predicate Granted(flags: Flags, name: string) {
    name in flags && flags[name]
  }

  /** `ys` can be obtained from `xs` by dropping elements, so `ys` keeps the order of `xs`. */
  predicate IsSubsequence(ys: seq<string>, xs: seq<string>)
    decreases |xs|
  {
    if ys == [] then true
    else if xs == [] then false
    else if ys[0] == xs[0] then IsSubsequence(ys[1..], xs[1..])
    else IsSubsequence(ys, xs[1..])
  }

  lemma {:induction false} SubsequenceMembers(ys: seq<string>, xs: seq<string>)
    requires IsSubsequence(ys, xs)
    ensures forall p :: p in ys ==> p in xs
    decreases |xs|
  {
    if ys != [] {
      if ys[0] == xs[0] {
        SubsequenceMembers(ys[1..], xs[1..]);
        assert forall p :: p in ys ==> p == ys[0] || p in ys[1..];
      } else {
        SubsequenceMembers(ys, xs[1..]);
      }
    }
  }

  lemma {:induction false} SubsequenceOfTail(ys: seq<string>, xs: seq<string>)
    requires xs != [] && IsSubsequence(ys, xs[1..])
    ensures IsSubsequence(ys, xs)
    decreases |xs|, |ys|
  {
    if ys != [] && ys[0] == xs[0] {
      SubsequenceDropHead(ys, xs[1..]);
    }
  }

  lemma {:induction false} SubsequenceDropHead(ys: seq<string>, xs: seq<string>)
    requires ys != [] && IsSubsequence(ys, xs)
    ensures IsSubsequence(ys[1..], xs)
    decreases |xs|, |ys|
  {
    if ys[0] != xs[0] {
      SubsequenceDropHead(ys, xs[1..]);
    }
    SubsequenceOfTail(ys[1..], xs);
  }

  /**
   * The stored value of a role's property: the granted names, in schema order.
   * A role with nothing granted encodes to the empty list.
   */
  function Encode(schema: Schema, flags: Flags): (granted: seq<string>)
    ensures forall p :: p in granted <==> p in schema && Granted(flags, p)
    ensures IsSubsequence(granted, schema)
  {
    if schema == [] then []
    else if Granted(flags, schema[0]) then [schema[0]] + Encode(schema[1..], flags)
    else
      var rest := Encode(schema[1..], flags);
      SubsequenceOfTail(rest, schema);
      rest
  }

  /** The flag map read back from a stored list: every schema name, true iff listed. */
  function Decode(schema: Schema, granted: seq<string>): (flags: Flags)
    ensures flags.Keys == set p | p in schema
    ensures forall p :: p in flags ==> (flags[p] <==> p in granted)
  {
    map p | p in schema :: p in granted
  }

  /** A flag map as the schema sees it: every schema name, absent flags read as false. */
  function Complete(schema: Schema, flags: Flags): (full: Flags)
    ensures full.Keys == set p | p in schema
    ensures forall p :: p in full ==> (full[p] <==> Granted(flags, p))
  {
    map p | p in schema :: Granted(flags, p)
  }

  /** Reading back what was stored recovers the flags, completed over the schema. */
  lemma DecodeEncode(schema: Schema, flags: Flags)
    ensures Decode(schema, Encode(schema, flags)) == Complete(schema, flags)
  {
  }

  /** A flag map that already names exactly the schema permissions survives the round trip unchanged. */
  lemma DecodeEncodeFull(schema: Schema, flags: Flags)
    requires flags.Keys == set p | p in schema
    ensures Decode(schema, Encode(schema, flags)) == flags
  {
    DecodeEncode(schema, flags);
    assert Complete(schema, flags) == flags;
  }

  lemma SameMembersBothEmpty(a: seq<string>, b: seq<string>)
    requires forall p :: p in a <==> p in b
    ensures a == [] <==> b == []
  {
    if a != [] {
      var p := a[0];
      assert p in b;
    }
    if b != [] {
      var p := b[0];
      assert p in a;
    }
  }

  /**
   * Over a schema without repeated names, the list of granted names in schema
   * order is unique: two lists in schema order with the same members are equal.
   */
  lemma {:induction false} SchemaOrderUnique(schema: Schema, a: seq<string>, b: seq<string>)
    requires Distinct(schema)
    requires IsSubsequence(a, schema) && IsSubsequence(b, schema)
    requires forall p :: p in a <==> p in b
    ensures a == b
    decreases |schema|
  {
    if a == [] || b == [] {
      SameMembersBothEmpty(a, b);
    } else {
      var x, tail := schema[0], schema[1..];
      assert Distinct(tail) by {
        forall i, j | 0 <= i < j < |tail| ensures tail[i] != tail[j] {
          assert tail[i] == schema[i + 1] && tail[j] == schema[j + 1];
        }
      }
      assert x !in tail by {
        forall k | 0 <= k < |tail| ensures tail[k] != x { assert tail[k] == schema[k + 1]; }
      }
      if a[0] == x {
        SubsequenceMembers(a[1..], tail);
        assert x in b;
        if b[0] != x {
          SubsequenceMembers(b, tail);
          assert false;
        }
        SubsequenceMembers(b[1..], tail);
        forall p ensures p in a[1..] <==> p in b[1..] {
          assert p in a <==> p == x || p in a[1..];
          assert p in b <==> p == x || p in b[1..];
        }
        SchemaOrderUnique(tail, a[1..], b[1..]);
      } else {
        SubsequenceMembers(a, tail);
        assert x !in a;
        if b[0] == x {
          assert false;
        }
        SchemaOrderUnique(tail, a, b);
      }
    }
  }

  /** Storing what was read back reproduces any list that is in schema order. */
  lemma EncodeDecode(schema: Schema, granted: seq<string>)
    requires Distinct(schema) && IsSubsequence(granted, schema)
    ensures Encode(schema, Decode(schema, granted)) == granted
  {
    SubsequenceMembers(granted, schema);
    SchemaOrderUnique(schema, Encode(schema, Decode(schema, granted)), granted);
  }

  /** A role whose flags are all false is stored as an empty list, not dropped. */
  lemma EncodeNothingGranted(schema: Schema, flags: Flags)
    requires forall p :: p in flags ==> !flags[p]
    ensures Encode(schema, flags) == []
  {
  }

  lemma {:induction false} SubsequenceOfDistinct(ys: seq<string>, xs: seq<string>)
    requires Distinct(xs) && IsSubsequence(ys, xs)
    ensures Distinct(ys)
    decreases |xs|
  {
    if ys != [] {
      var tail := xs[1..];
      assert Distinct(tail) by {
        forall i, j | 0 <= i < j < |tail| ensures tail[i] != tail[j] {
          assert tail[i] == xs[i + 1] && tail[j] == xs[j + 1];
        }
      }
      if ys[0] == xs[0] {
        SubsequenceOfDistinct(ys[1..], tail);
        SubsequenceMembers(ys[1..], tail);
        assert xs[0] !in tail by {
          forall k | 0 <= k < |tail| ensures tail[k] != xs[0] { assert tail[k] == xs[k + 1]; }
        }
        forall i, j | 0 <= i < j < |ys| ensures ys[i] != ys[j] {
          if i > 0 {
            assert ys[i] == ys[1..][i - 1] && ys[j] == ys[1..][j - 1];
          } else {
            assert ys[j] == ys[1..][j - 1];
            assert ys[j] in tail;
          }
        }
      } else {
        SubsequenceOfDistinct(ys, tail);
      }
    }
  }

  /** Over a schema without repeated names, no permission is listed twice. */
  lemma EncodeDistinct(schema: Schema, flags: Flags)
    requires Distinct(schema)
    ensures Distinct(Encode(schema, flags))
  {
    SubsequenceOfDistinct(Encode(schema, flags), schema);
  }
}
