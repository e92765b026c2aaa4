/**
 * The records of `django_rest_generator/parser/models.py`: endpoint
 * operations, endpoints and resources, the dictionary conversions shared by
 * every dataclass, and the first-match schema lookup of a resource.
 */
module ParserModels {
  import opened Common
  import opened Json
  import opened Text
  import opened Utils

  /** One HTTP operation of an endpoint: the schema name its response decodes to, and its upper-case verb name. */
  datatype EndpointOperation = EndpointOperation(returnType: Option<string>, httpMethod: string)

  /** An endpoint path, relative to its resource, with its operations in document order. */
  datatype Endpoint = Endpoint(path: string, operations: seq<EndpointOperation>)

  /** A resource name with its endpoints in first-seen order. */
  datatype Resource = Resource(name: string, endpoints: seq<Endpoint>)

  /** A dataclass instance: its declared fields, in declaration order, each with its value. */
  datatype Instance = Instance(values: seq<(string, Json)>)

  /** The declared fields that a dictionary lacks. */
  function MissingFields(fieldNames: seq<string>, entries: seq<(string, Json)>): (missing: seq<string>)
    ensures forall f :: f in missing <==> f in fieldNames && !HasKey(entries, f)
  {
    if fieldNames == [] then []
    else (if HasKey(entries, fieldNames[0]) then [] else [fieldNames[0]]) + MissingFields(fieldNames[1..], entries)
  }

  /** The values of the declared fields, in declaration order; every field must be present. */
  function FieldValues(fieldNames: seq<string>, entries: seq<(string, Json)>): (vs: seq<(string, Json)>)
    requires forall f :: f in fieldNames ==> HasKey(entries, f)
    ensures |vs| == |fieldNames|
    ensures forall i :: 0 <= i < |vs| ==> vs[i].0 == fieldNames[i] && Get(entries, fieldNames[i]) == Some(vs[i].1)
  {
    if fieldNames == [] then []
    else [(fieldNames[0], Get(entries, fieldNames[0]).value)] + FieldValues(fieldNames[1..], entries)
  }

  /** One argument name as `repr` quotes it. */
  function Quoted(n: string): string {
    "'" + n + "'"
  }

  /** Names separated by `, `. */
  function CommaSeparated(ns: seq<string>): (r: string)
    requires |ns| >= 1
    ensures |r| >= 2 && r[0] == '\'' && r[|r| - 1] == '\''
  {
    if |ns| == 1 then Quoted(ns[0]) else Quoted(ns[0]) + ", " + CommaSeparated(ns[1..])
  }

  /** How Python lists missing argument names: `'a'`, `'a' and 'b'`, or `'a', 'b', and 'c'`. */
  function NameSeries(ns: seq<string>): (r: string)
    requires |ns| >= 1
    ensures |ns| == 1 ==> r == Quoted(ns[0])
    ensures |ns| == 2 ==> r == Quoted(ns[0]) + " and " + Quoted(ns[1])
    ensures |ns| >= 3 ==> r == CommaSeparated(ns[..|ns| - 1]) + ", and " + Quoted(ns[|ns| - 1])
  {
    if |ns| == 1 then Quoted(ns[0])
    else if |ns| == 2 then Quoted(ns[0]) + " and " + Quoted(ns[1])
    else CommaSeparated(ns[..|ns| - 1]) + ", and " + Quoted(ns[|ns| - 1])
  }

  /** The `TypeError` message of a dataclass `__init__` called without some of its fields. */
  function MissingArgumentsMessage(className: string, missing: seq<string>): string
    requires |missing| >= 1
  {
    className + ".__init__() missing " + NatToString(|missing|)
    + (if |missing| == 1 then " required positional argument: " else " required positional arguments: ")
    + NameSeries(missing)
  }

  /**
   * `CommonDataclass.from_dict`: keep the entries whose key is a declared field
   * and build the instance from them. The input must be a dictionary, and the
   * declared fields it lacks are missing constructor arguments, all named in
   * the `TypeError`.
   */
  function FromDict(className: string, fieldNames: seq<string>, d: Json): (r: Result<Instance, Error>)
    ensures r.Ok? ==> d.JObject? && |r.value.values| == |fieldNames|
    ensures r.Ok? ==> forall i :: 0 <= i < |fieldNames| ==>
              r.value.values[i].0 == fieldNames[i] && Get(d.entries, fieldNames[i]) == Some(r.value.values[i].1)
    ensures d.JObject? ==> (r.Err? <==> exists f :: f in fieldNames && !HasKey(d.entries, f))
    ensures d.JObject? && r.Err? ==>
              |MissingFields(fieldNames, d.entries)| >= 1
              && r.error == TypeError(MissingArgumentsMessage(className, MissingFields(fieldNames, d.entries)))
    ensures !d.JObject? ==> r == Err(AttributeError("'" + TypeName(d) + "' object has no attribute 'items'"))
  {
    match d
    case JObject(entries) =>
      var missing := MissingFields(fieldNames, entries);
      if missing != [] then
        assert missing[0] in missing;
        Err(TypeError(MissingArgumentsMessage(className, missing)))
      else Ok(Instance(FieldValues(fieldNames, entries)))
    case _ => Err(AttributeError("'" + TypeName(d) + "' object has no attribute 'items'"))
  }

  /**
   * A dataclass given neither of its fields `a` and `b` fails with a message
   * that counts two missing arguments and names both, joined by `and`.
   */
  lemma FromDictMissingExample(className: string, fieldNames: seq<string>)
    requires fieldNames == ["a", "b"]
    ensures FromDict(className, fieldNames, JObject([]))
         == Err(TypeError(className + ".__init__() missing " + NatToString(2) + " required positional arguments: "
                          + NameSeries(fieldNames)))
    ensures NatToString(2) == "2" && NameSeries(fieldNames) == "'a' and 'b'"
  {
    MissingFromEmpty(fieldNames);
    assert !HasKey([], "a");
    assert FromDict(className, fieldNames, JObject([])) == Err(TypeError(MissingArgumentsMessage(className, fieldNames)));
  }

  lemma {:induction false} MissingFromEmpty(fieldNames: seq<string>)
    ensures MissingFields(fieldNames, []) == fieldNames
  {
    if fieldNames != [] {
      MissingFromEmpty(fieldNames[1..]);
      assert fieldNames == [fieldNames[0]] + fieldNames[1..];
    }
  }

  /** `as_dict`: the instance's fields as a dictionary. */
  function AsDict(inst: Instance): (d: Json)
    ensures d.JObject? && Keys(d.entries) == Keys(inst.values)
  {
    JObject(inst.values)
  }

  /** Dataclass field names are distinct. */
  predicate DistinctNames(fieldNames: seq<string>) {
    forall i, j :: 0 <= i < j < |fieldNames| ==> fieldNames[i] != fieldNames[j]
  }

  /**
   * `as_dict(from_dict(d))` is `d` restricted to the declared fields: every
   * declared key keeps its value and every other key is dropped.
   */
  lemma {:induction false} AsDictFromDict(className: string, fieldNames: seq<string>, entries: seq<(string, Json)>, key: string)
    requires DistinctNames(fieldNames)
    requires FromDict(className, fieldNames, JObject(entries)).Ok?
    ensures Get(AsDict(FromDict(className, fieldNames, JObject(entries)).value).entries, key)
         == if key in fieldNames then Get(entries, key) else None
  {
    var vs := FromDict(className, fieldNames, JObject(entries)).value.values;
    if key in fieldNames {
      var i :| 0 <= i < |fieldNames| && fieldNames[i] == key;
      GetFirst(vs, key, i);
    } else {
      assert !HasKey(vs, key);
    }
  }

  lemma {:induction false} GetFirst(entries: seq<(string, Json)>, key: string, i: nat)
    requires i < |entries| && entries[i].0 == key
    requires forall j :: 0 <= j < i ==> entries[j].0 != key
    ensures Get(entries, key) == Some(entries[i].1)
  {
    if i > 0 {
      GetFirst(entries[1..], key, i - 1);
    }
  }

  /** The dataclass of the test suite: one `str` field, and the integer 12342 is kept as it is, with no type check. */
  lemma FromDictExample()
    ensures FromDict("TestModel", ["test_field"], JObject([("test_field", JInt(12342)), ("other_field", JStr("hello"))]))
         == Ok(Instance([("test_field", JInt(12342))]))
  {
    var es := [("test_field", JInt(12342)), ("other_field", JStr("hello"))];
    assert es[0].0 == "test_field";
    assert MissingFields(["test_field"], es) == [];
    assert Get(es, "test_field") == Some(JInt(12342));
    assert FieldValues(["test_field"], es) == [("test_field", JInt(12342))];
  }

  /** The operation of `ops` with verb name `httpMethod`, first in order; `Some(rt)` carries its return type. */
  function FirstOperation(ops: seq<EndpointOperation>, httpMethod: string): (r: Option<Option<string>>)
    ensures r.Some? ==> exists j :: 0 <= j < |ops| && ops[j] == EndpointOperation(r.value, httpMethod)
    ensures r.None? <==> forall j :: 0 <= j < |ops| ==> ops[j].httpMethod != httpMethod
  {
    if ops == [] then None
    else if ops[0].httpMethod == httpMethod then Some(ops[0].returnType)
    else FirstOperation(ops[1..], httpMethod)
  }

  /**
   * The search loop of `Resource.get_schema`: the first endpoint, in order,
   * whose template matches the path and which has an operation with the verb
   * decides; an error of the matcher stops the search.
   */
  function SearchEndpoints(endpoints: seq<Endpoint>, path: string, httpMethod: string): (r: Result<Option<string>, Error>)
    ensures r.Ok? && r.value.Some? ==>
              exists i :: 0 <= i < |endpoints| && MatchToOpenapiPathSpec(endpoints[i].path, path) == Ok(true)
                && EndpointOperation(r.value, httpMethod) in endpoints[i].operations
  {
    if endpoints == [] then Ok(None)
    else match MatchToOpenapiPathSpec(endpoints[0].path, path)
      case Err(e) => Err(e)
      case Ok(matched) =>
        if matched && FirstOperation(endpoints[0].operations, httpMethod).Some? then
          Ok(FirstOperation(endpoints[0].operations, httpMethod).value)
        else
          var rest := SearchEndpoints(endpoints[1..], path, httpMethod);
          assert rest.Ok? && rest.value.Some? ==>
            exists i :: 1 <= i < |endpoints| && MatchToOpenapiPathSpec(endpoints[i].path, path) == Ok(true)
              && EndpointOperation(rest.value, httpMethod) in endpoints[i].operations by {
            if rest.Ok? && rest.value.Some? {
              var i :| 0 <= i < |endpoints[1..]| && MatchToOpenapiPathSpec(endpoints[1..][i].path, path) == Ok(true)
                && EndpointOperation(rest.value, httpMethod) in endpoints[1..][i].operations;
              assert endpoints[i + 1] == endpoints[1..][i];
            }
          }
          rest
  }

  /** `Resource.get_schema(path, httpMethod)`: the schema name bound to the first matching (endpoint, verb) pair, or None. */
  function GetSchema(resource: Resource, path: string, httpMethod: string): (r: Result<Option<string>, Error>)
    ensures r.Ok? && r.value.Some? ==>
              exists i :: 0 <= i < |resource.endpoints| && MatchToOpenapiPathSpec(resource.endpoints[i].path, path) == Ok(true)
                && EndpointOperation(r.value, httpMethod) in resource.endpoints[i].operations
  {
    SearchEndpoints(resource.endpoints, path, httpMethod)
  }

  /** One (endpoint template, verb name, return type) row per operation, endpoints and operations in order. */
  function OperationTable(endpoints: seq<Endpoint>): seq<(string, string, Option<string>)> {
    if endpoints == [] then []
    else Rows(endpoints[0].path, endpoints[0].operations) + OperationTable(endpoints[1..])
  }

  function Rows(path: string, ops: seq<EndpointOperation>): seq<(string, string, Option<string>)> {
    if ops == [] then [] else [(path, ops[0].httpMethod, ops[0].returnType)] + Rows(path, ops[1..])
  }

  /** A reference search over the flat table: the first row whose template matches and whose verb is `httpMethod`. */
  function FirstRow(table: seq<(string, string, Option<string>)>, path: string, httpMethod: string): Option<string> {
    if table == [] then None
    else if MatchToOpenapiPathSpec(table[0].0, path) == Ok(true) && table[0].1 == httpMethod then table[0].2
    else FirstRow(table[1..], path, httpMethod)
  }

  /** Every template of the resource can be turned into a pattern. */
  predicate TemplatesCompile(endpoints: seq<Endpoint>, path: string) {
    forall i :: 0 <= i < |endpoints| ==> MatchToOpenapiPathSpec(endpoints[i].path, path).Ok?
  }

  /** The nested search returns the first hit of the flat (endpoint, operation) table, in document order. */
  lemma {:induction false} GetSchemaIsFirstRow(endpoints: seq<Endpoint>, path: string, httpMethod: string)
    requires TemplatesCompile(endpoints, path)
    ensures SearchEndpoints(endpoints, path, httpMethod) == Ok(FirstRow(OperationTable(endpoints), path, httpMethod))
  {
    if endpoints != [] {
      var ep := endpoints[0];
      assert TemplatesCompile(endpoints[1..], path) by {
        forall i | 0 <= i < |endpoints[1..]| ensures MatchToOpenapiPathSpec(endpoints[1..][i].path, path).Ok? {
          assert endpoints[1..][i] == endpoints[i + 1];
        }
      }
      GetSchemaIsFirstRow(endpoints[1..], path, httpMethod);
      assert MatchToOpenapiPathSpec(ep.path, path).Ok?;
      RowsFirst(ep.path, ep.operations, OperationTable(endpoints[1..]), path, httpMethod);
    }
  }

  lemma {:induction false} RowsFirst(
    p: string, ops: seq<EndpointOperation>, rest: seq<(string, string, Option<string>)>, path: string, httpMethod: string)
    ensures FirstRow(Rows(p, ops) + rest, path, httpMethod)
         == if MatchToOpenapiPathSpec(p, path) == Ok(true) && FirstOperation(ops, httpMethod).Some?
            then FirstOperation(ops, httpMethod).value
            else FirstRow(rest, path, httpMethod)
  {
    if ops == [] {
      assert Rows(p, ops) + rest == rest;
    } else {
      assert (Rows(p, ops) + rest)[1..] == Rows(p, ops[1..]) + rest;
      RowsFirst(p, ops[1..], rest, path, httpMethod);
    }
  }

  /** A matching endpoint without the verb does not end the search: the later endpoints are tried. */
  lemma MissingVerbContinues(endpoints: seq<Endpoint>, path: string, httpMethod: string)
    requires endpoints != []
    requires MatchToOpenapiPathSpec(endpoints[0].path, path) == Ok(true)
    requires forall j :: 0 <= j < |endpoints[0].operations| ==> endpoints[0].operations[j].httpMethod != httpMethod
    ensures SearchEndpoints(endpoints, path, httpMethod) == SearchEndpoints(endpoints[1..], path, httpMethod)
  {
  }

  /** When no endpoint has a matching template with the verb, the lookup yields None. */
  lemma {:induction false} NoHitIsNone(endpoints: seq<Endpoint>, path: string, httpMethod: string)
    requires TemplatesCompile(endpoints, path)
    requires forall i :: 0 <= i < |endpoints| && MatchToOpenapiPathSpec(endpoints[i].path, path) == Ok(true)
               ==> forall j :: 0 <= j < |endpoints[i].operations| ==> endpoints[i].operations[j].httpMethod != httpMethod
    ensures SearchEndpoints(endpoints, path, httpMethod) == Ok(None)
  {
    if endpoints != [] {
      assert endpoints[0] == endpoints[0];
      forall i | 0 <= i < |endpoints[1..]|
        ensures MatchToOpenapiPathSpec(endpoints[1..][i].path, path).Ok?
        ensures (MatchToOpenapiPathSpec(endpoints[1..][i].path, path) == Ok(true) ==>
                   forall j :: 0 <= j < |endpoints[1..][i].operations| ==> endpoints[1..][i].operations[j].httpMethod != httpMethod)
      {
        assert endpoints[1..][i] == endpoints[i + 1];
      }
      NoHitIsNone(endpoints[1..], path, httpMethod);
    }
  }
}
