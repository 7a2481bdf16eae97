/**
 The closed-world check of worker task payloads: every key of a payload, at any
 depth and through any array, must be named by the schema of the worker kind.

 The check recurses over value and schema together. Its reference is a set of
 key paths: `HasPath` collects the paths of a value, `InSchema` the paths a
 schema declares, and `AcceptsExactlySchemaPaths` says the check is inclusion.
 */
module PayloadSchema {

  datatype Json =
    | Scalar(text: string)
    | Array(items: seq<Json>)
    | Object(members: seq<Member>)

  datatype Member = Member(key: string, value: Json)

  /** Fields holding plain values, and fields holding an object of a further schema. */
  datatype Schema = Schema(leafFields: set<string>, objectFields: map<string, Schema>) {
    predicate HasField(key: string) {
      key in leafFields || key in objectFields
    }
  }

  // --------------------------------------------------------------- the check

  /** No object with a key may appear below a leaf field. */
  predicate LeafAccepts(v: Json) {
    match v
    case Scalar(_) => true
    case Array(items) => forall i :: 0 <= i < |items| ==> LeafAccepts(items[i])
    case Object(members) => members == []
  }

  predicate Accepts(v: Json, schema: Schema) {
    match v
    case Scalar(_) => true
    case Array(items) => forall i :: 0 <= i < |items| ==> Accepts(items[i], schema)
    case Object(members) => forall i :: 0 <= i < |members| ==> MemberAccepts(members[i], schema)
  }

  /** A key must be declared; the object schema of a field wins over its leaf reading. */
  predicate MemberAccepts(member: Member, schema: Schema) {
    && schema.HasField(member.key)
    && if member.key in schema.objectFields
       then Accepts(member.value, schema.objectFields[member.key])
       else LeafAccepts(member.value)
  }

  // --------------------------------------------------------------- the paths

  /** `path` is a chain of keys that can be followed in `v`, looking through arrays. */
  predicate HasPath(v: Json, path: seq<string>) {
    match v
    case Scalar(_) => path == []
    case Array(items) => path == [] || exists i :: 0 <= i < |items| && HasPath(items[i], path)
    case Object(members) =>
      path == []
      || exists i :: 0 <= i < |members| && members[i].key == path[0] && HasPath(members[i].value, path[1..])
  }

  /** `path` names a declared field through declared object fields. */
  predicate InSchema(path: seq<string>, schema: Schema)
    decreases |path|
  {
    || path == []
    || (|path| == 1 && schema.HasField(path[0]))
    || (path[0] in schema.objectFields && InSchema(path[1..], schema.objectFields[path[0]]))
  }

  lemma {:induction false} LeafAcceptsNoPath(v: Json)
    ensures LeafAccepts(v) <==> forall path :: HasPath(v, path) ==> path == []
  {
    match v
    case Scalar(_) =>
    case Array(items) =>
      forall i | 0 <= i < |items|
        ensures LeafAccepts(items[i]) <==> forall path :: HasPath(items[i], path) ==> path == []
      {
        LeafAcceptsNoPath(items[i]);
      }
      if !LeafAccepts(v) {
        var i :| 0 <= i < |items| && !LeafAccepts(items[i]);
        var path :| HasPath(items[i], path) && path != [];
        assert HasPath(v, path);
      }
    case Object(members) =>
      if members != [] {
        var path := [members[0].key];
        EmptyPath(members[0].value);
        assert path[1..] == [];
        assert HasPath(v, path);
      }
  }

  lemma EmptyPath(v: Json)
    ensures HasPath(v, [])
  {
  }

  /**
   The check accepts a value exactly when each of its key paths belongs to the
   schema's path set, for every schema and every value.
   */
  lemma {:induction false} AcceptsExactlySchemaPaths(v: Json, schema: Schema)
    ensures Accepts(v, schema) <==> forall path :: HasPath(v, path) ==> InSchema(path, schema)
  {
    match v
    case Scalar(_) =>
    case Array(items) =>
      forall i | 0 <= i < |items|
        ensures Accepts(items[i], schema) <==> forall path :: HasPath(items[i], path) ==> InSchema(path, schema)
      {
        AcceptsExactlySchemaPaths(items[i], schema);
      }
      if !Accepts(v, schema) {
        var i :| 0 <= i < |items| && !Accepts(items[i], schema);
        var path :| HasPath(items[i], path) && !InSchema(path, schema);
        assert HasPath(v, path);
      }
    case Object(members) =>
      forall i | 0 <= i < |members|
        ensures MemberAccepts(members[i], schema) <==>
                forall path :: HasPath(members[i].value, path) ==> InSchema([members[i].key] + path, schema)
      {
        MemberAcceptsExactlySchemaPaths(members[i], schema);
      }
      if Accepts(v, schema) {
        forall path | HasPath(v, path) ensures InSchema(path, schema) {
          if path != [] {
            var i :| 0 <= i < |members| && members[i].key == path[0] && HasPath(members[i].value, path[1..]);
            assert MemberAccepts(members[i], schema);
            assert [members[i].key] + path[1..] == path;
          }
        }
      } else {
        var i :| 0 <= i < |members| && !MemberAccepts(members[i], schema);
        var path :| HasPath(members[i].value, path) && !InSchema([members[i].key] + path, schema);
        var whole := [members[i].key] + path;
        assert whole[1..] == path;
        assert HasPath(v, whole);
      }
  }

  lemma {:induction false} MemberAcceptsExactlySchemaPaths(member: Member, schema: Schema)
    ensures MemberAccepts(member, schema) <==>
            forall path :: HasPath(member.value, path) ==> InSchema([member.key] + path, schema)
  {
    var Member(key, value) := member;
    EmptyPath(value);
    assert [key] + [] == [key];
    if key in schema.objectFields {
      var child := schema.objectFields[key];
      AcceptsExactlySchemaPaths(value, child);
      forall path ensures InSchema([key] + path, schema) == InSchema(path, child) {
        assert ([key] + path)[1..] == path;
      }
    } else {
      LeafAcceptsNoPath(value);
      forall path ensures InSchema([key] + path, schema) == (path == [] && schema.HasField(key)) {
        assert path == [] ==> [key] + path == [key];
      }
    }
  }
}
