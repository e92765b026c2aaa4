/**
 * The OpenAPI reader of `django_rest_generator/parser/__init__.py`, starting
 * from an already resolved document tree: paths are grouped into resources
 * and endpoints, operations get their return schema names, and schema
 * components become ordered field lists.
 */
module Parser {
  import opened Common
  import opened Json
  import opened Text
  import opened Utils
  import opened ParserModels

  // ================================================ association lists

  /** `d[key]` on an insertion-ordered dictionary. */
  function Lookup<V>(xs: seq<(string, V)>, key: string): (r: Option<V>)
    ensures r.None? <==> key !in Keys(xs)
  {
    if xs == [] then None else if xs[0].0 == key then Some(xs[0].1) else Lookup(xs[1..], key)
  }

  predicate Distinct(ks: seq<string>) {
    forall i, j :: 0 <= i < j < |ks| ==> ks[i] != ks[j]
  }

  /** The position of the first occurrence of `x` in `xs`. */
  function FirstAt(xs: seq<string>, x: string): (k: nat)
    requires x in xs
    ensures k < |xs| && xs[k] == x
    ensures forall j :: 0 <= j < k ==> xs[j] != x
  {
    if xs[0] == x then 0 else 1 + FirstAt(xs[1..], x)
  }

  /** A first occurrence inside a prefix is the first occurrence in the whole sequence. */
  lemma FirstAtPrefix(xs: seq<string>, n: nat, x: string)
    requires n <= |xs| && x in xs[..n]
    ensures FirstAt(xs, x) == FirstAt(xs[..n], x)
  {
    assert xs[FirstAt(xs[..n], x)] == x;
  }

  /** The elements of `d` occur in `xs`, and their first occurrences there come in the order of `d`. */
  predicate FirstSeenOrder(xs: seq<string>, d: seq<string>) {
    forall i, j :: 0 <= i < j < |d| ==> d[i] in xs && d[j] in xs && FirstAt(xs, d[i]) < FirstAt(xs, d[j])
  }

  /** Appending to `xs` keeps the order of `d`; an element new to `xs` may follow it. */
  lemma FirstSeenOrderSnoc(xs: seq<string>, d: seq<string>, x: string)
    requires FirstSeenOrder(xs, d) && forall y :: y in d ==> y in xs
    ensures FirstSeenOrder(xs + [x], d)
    ensures x !in xs ==> FirstSeenOrder(xs + [x], d + [x])
  {
    var ys := xs + [x];
    assert ys[..|xs|] == xs;
    forall y | y in xs ensures FirstAt(ys, y) == FirstAt(xs, y) {
      FirstAtPrefix(ys, |xs|, y);
    }
    if x !in xs {
      assert FirstAt(ys, x) == |xs|;
      var d' := d + [x];
      forall i, j | 0 <= i < j < |d'|
        ensures d'[i] in ys && d'[j] in ys && FirstAt(ys, d'[i]) < FirstAt(ys, d'[j])
      {
        if j < |d| {
          assert d'[i] == d[i] && d'[j] == d[j];
        } else {
          assert d'[i] == d[i] && d[i] in d;
        }
      }
    }
  }

  /**
   * The elements of `xs` in first-seen order, each once: distinct, the same
   * members, and ordered by the position of their first occurrence.
   */
  function Dedup(xs: seq<string>): (d: seq<string>)
    ensures Distinct(d)
    ensures forall x :: x in d <==> x in xs
    ensures FirstSeenOrder(xs, d)
  {
    if xs == [] then []
    else
      var n := |xs| - 1;
      var front := xs[..n];
      var d := Dedup(front);
      assert xs == front + [xs[n]];
      FirstSeenOrderSnoc(front, d, xs[n]);
      if xs[n] in d then d else d + [xs[n]]
  }

  // ====================================================== operations

  /** `set.pop()` on a non-empty set returns one of its elements; which one is not specified. */
  ghost predicate ValidPick(pick: set<Json> -> Json) {
    forall s: set<Json> :: s != {} ==> pick(s) in s
  }

  predicate Hashable(j: Json) {
    !j.JList? && !j.JObject?
  }

  /** The first element that `set(...)` cannot store. */
  function FirstUnhashable(xs: seq<Json>): (r: Option<Json>)
    ensures r.Some? ==> r.value in xs && !Hashable(r.value)
    ensures r.None? ==> forall i :: 0 <= i < |xs| ==> Hashable(xs[i])
  {
    if xs == [] then None
    else if !Hashable(xs[0]) then Some(xs[0])
    else FirstUnhashable(xs[1..])
  }

  /** The last `/`-separated segment: `"#/components/schemas/User"` gives `"User"`. */
  function LastSegment(s: string): (r: string)
    ensures !Contains(r, "/")
    ensures |r| <= |s| && s[|s| - |r|..] == r
    ensures |r| < |s| ==> s[|s| - |r| - 1] == '/'
  {
    var parts := Split(s, "/");
    SplitPartsFree(s, "/");
    SplitLastSuffix(s, "/");
    var r := parts[|parts| - 1];
    assert LastPiece(s, "/", r);
    assert |r| < |s| ==> s[|s| - |r| - 1..|s| - |r|] == "/";
    r
  }

  /** The `$ref` values found under every `schema` key of the responses, in pre-order. */
  function SchemaRefs(responses: Json): seq<Json> {
    FindNestedKeys(JList(FindNestedKeys(responses, "schema")), "$ref")
  }

  /**
   * The return type of one operation: the last segment of one of the
   * distinct `$ref` values under the responses' schemas, or None if there is none.
   */
  function ReturnTypeOf(operation: Json, pick: set<Json> -> Json): (r: Result<Option<string>, Error>)
    requires ValidPick(pick)
    ensures r.Ok? && r.value.None? <==> Subscript(operation, "responses").Ok? && SchemaRefs(Subscript(operation, "responses").value) == []
    ensures r.Ok? ==> Subscript(operation, "responses").Ok?
    ensures r.Ok? && r.value.Some? && Subscript(operation, "responses").Ok? ==>
              (exists ref :: JStr(ref) in SchemaRefs(Subscript(operation, "responses").value) && r.value.value == LastSegment(ref))
  {
    match Subscript(operation, "responses")
    case Err(e) => Err(e)
    case Ok(responses) =>
      var refs := SchemaRefs(responses);
      match FirstUnhashable(refs)
      case Some(bad) => Err(TypeError("unhashable type: '" + TypeName(bad) + "'"))
      case None =>
        if refs == [] then Ok(None)
        else
          var distinct := set x | x in refs;
          assert refs[0] in distinct;
          match pick(distinct)
          case JStr(ref) => Ok(Some(LastSegment(ref)))
          case other => Err(AttributeError("'" + TypeName(other) + "' object has no attribute 'split'"))
  }

  /** One operation of a path: its return type and its upper-cased verb name. */
  function ParseOperation(name: string, operation: Json, pick: set<Json> -> Json): (r: Result<EndpointOperation, Error>)
    requires ValidPick(pick)
    ensures r.Ok? ==> r.value.httpMethod == Upper(name) && ReturnTypeOf(operation, pick) == Ok(r.value.returnType)
    ensures r.Err? <==> ReturnTypeOf(operation, pick).Err?
  {
    match ReturnTypeOf(operation, pick)
    case Err(e) => Err(e)
    case Ok(rt) => Ok(EndpointOperation(rt, Upper(name)))
  }

  /** The operations of a path, in document order; the first failure stops the loop. */
  function ParseOperationList(entries: seq<(string, Json)>, pick: set<Json> -> Json): (r: Result<seq<EndpointOperation>, Error>)
    requires ValidPick(pick)
    ensures r.Ok? ==> |r.value| == |entries|
    ensures r.Ok? ==> forall i :: 0 <= i < |entries| ==> ParseOperation(entries[i].0, entries[i].1, pick) == Ok(r.value[i])
    ensures r.Err? <==> exists i :: 0 <= i < |entries| && ParseOperation(entries[i].0, entries[i].1, pick).Err?
    decreases |entries|
  {
    if entries == [] then Ok([])
    else
      var n := |entries| - 1;
      var front := entries[..n];
      assert forall i :: 0 <= i < n ==> front[i] == entries[i];
      match ParseOperationList(front, pick)
      case Err(e) => Err(e)
      case Ok(ops) =>
        match ParseOperation(entries[n].0, entries[n].1, pick)
        case Err(e) => Err(e)
        case Ok(op) =>
          var r := ops + [op];
          assert forall i :: 0 <= i < n ==> r[i] == ops[i];
          Ok(r)
  }

  /** `operations.items()` followed by the operation loop. */
  function ParseOperationsOf(operations: Json, pick: set<Json> -> Json): Result<seq<EndpointOperation>, Error>
    requires ValidPick(pick)
  {
    match Items(operations)
    case Err(e) => Err(e)
    case Ok(entries) => ParseOperationList(entries, pick)
  }

  /** A failure among all but the last entry is the failure of the whole list. */
  lemma FailureExtends(entries: seq<(string, Json)>, pick: set<Json> -> Json)
    requires ValidPick(pick)
    requires entries != [] && ParseOperationList(entries[..|entries| - 1], pick).Err?
    ensures ParseOperationList(entries, pick) == ParseOperationList(entries[..|entries| - 1], pick)
  {
  }

  lemma {:induction false} OperationListPrefixFails(entries: seq<(string, Json)>, k: nat, pick: set<Json> -> Json)
    requires ValidPick(pick)
    requires k <= |entries| && ParseOperationList(entries[..k], pick).Err?
    ensures ParseOperationList(entries, pick) == ParseOperationList(entries[..k], pick)
    decreases |entries|
  {
    if k < |entries| {
      var init := entries[..|entries| - 1];
      assert init[..k] == entries[..k];
      OperationListPrefixFails(init, k, pick);
      FailureExtends(entries, pick);
    } else {
      assert entries[..k] == entries;
    }
  }

  /** One more operation: the operations so far followed by it, or its failure. */
  lemma OperationListStep(entries: seq<(string, Json)>, j: nat, pick: set<Json> -> Json)
    requires ValidPick(pick)
    requires j < |entries| && ParseOperationList(entries[..j], pick).Ok?
    ensures ParseOperationList(entries[..j + 1], pick)
         == match ParseOperation(entries[j].0, entries[j].1, pick)
            case Err(e) => Err(e)
            case Ok(op) => Ok(ParseOperationList(entries[..j], pick).value + [op])
  {
    assert entries[..j + 1][..j] == entries[..j];
  }

  /** The loop over one path's operations, appending each parsed operation. */
  method ParseOperations(operations: Json, pick: set<Json> -> Json) returns (r: Result<seq<EndpointOperation>, Error>)
    requires ValidPick(pick)
    ensures r == ParseOperationsOf(operations, pick)
  {
    var items := Items(operations);
    if items.Err? {
      return Err(items.error);
    }
    var entries := items.value;
    var pathMethods: seq<EndpointOperation> := [];
    var j := 0;
    while j < |entries|
      invariant 0 <= j <= |entries|
      invariant ParseOperationList(entries[..j], pick) == Ok(pathMethods)
    {
      OperationListStep(entries, j, pick);
      var op := ParseOperation(entries[j].0, entries[j].1, pick);
      if op.Err? {
        OperationListPrefixFails(entries, j + 1, pick);
        return Err(op.error);
      }
      pathMethods := pathMethods + [op.value];
      j := j + 1;
    }
    assert entries[..j] == entries;
    return Ok(pathMethods);
  }

  // =========================================================== paths

  /** The path with surrounding blanks stripped and every `/` + base removed. */
  function PathBase(pathUrl: string, serverBase: string): (r: string)
    ensures |r| <= |Strip(pathUrl)| <= |pathUrl|
    ensures !Contains(Strip(pathUrl), "/" + serverBase) ==> r == Strip(pathUrl)
  {
    var stripped := Strip(pathUrl);
    var target := "/" + serverBase;
    ReplaceLength(stripped, target, "");
    assert !Contains(stripped, target) ==> ReplaceAll(stripped, target, "") == stripped by {
      if !Contains(stripped, target) {
        ReplaceAbsent(stripped, target, "");
      }
    }
    ReplaceAll(stripped, target, "")
  }

  /**
   * A path split at its first `/` into the resource name and the endpoint; an
   * empty endpoint becomes `/`, and a path without `/` cannot be unpacked into
   * two names.
   */
  function SplitPath(pathUrl: string, serverBase: string): (r: Result<(string, string), Error>)
    ensures r.Err? <==> !Contains(PathBase(pathUrl, serverBase), "/")
    ensures r.Err? ==> r.error == ValueError("not enough values to unpack (expected 2, got 1)")
    ensures r.Ok? ==> r.value.1 != [] && !Contains(r.value.0, "/")
    ensures r.Ok? ==> PathBase(pathUrl, serverBase) == r.value.0 + "/" + r.value.1
                      || (r.value.1 == "/" && PathBase(pathUrl, serverBase) == r.value.0 + "/")
  {
    var parts := SplitOnce(PathBase(pathUrl, serverBase), "/");
    if |parts| < 2 then Err(ValueError("not enough values to unpack (expected 2, got 1)"))
    else if parts[1] == "" then Ok((parts[0], "/"))
    else Ok((parts[0], parts[1]))
  }

  /** What one path contributes: (resource name, endpoint, operations). */
  type Row = (string, string, seq<EndpointOperation>)

  /** One path entry: its operations first, then the split of its path. */
  function ParseRow(pathUrl: string, operations: Json, serverBase: string, pick: set<Json> -> Json): Result<Row, Error>
    requires ValidPick(pick)
  {
    match ParseOperationsOf(operations, pick)
    case Err(e) => Err(e)
    case Ok(ops) =>
      match SplitPath(pathUrl, serverBase)
      case Err(e) => Err(e)
      case Ok((resource, endpoint)) => Ok((resource, endpoint, ops))
  }

  /** The rows of all paths, in document order; the first failure stops the loop. */
  function ParseRows(paths: seq<(string, Json)>, serverBase: string, pick: set<Json> -> Json): (r: Result<seq<Row>, Error>)
    requires ValidPick(pick)
    ensures r.Ok? ==> |r.value| == |paths|
    decreases |paths|
  {
    if paths == [] then Ok([])
    else
      var n := |paths| - 1;
      var front := paths[..n];
      assert forall i :: 0 <= i < n ==> front[i] == paths[i];
      match ParseRows(front, serverBase, pick)
      case Err(e) => Err(e)
      case Ok(rows) =>
        match ParseRow(paths[n].0, paths[n].1, serverBase, pick)
        case Err(e) => Err(e)
        case Ok(row) => Ok(rows + [row])
  }

  /** On success, row `i` is what path `i` alone parses to. */
  lemma {:induction false} ParseRowsPointwise(paths: seq<(string, Json)>, serverBase: string, pick: set<Json> -> Json, i: nat)
    requires ValidPick(pick)
    requires ParseRows(paths, serverBase, pick).Ok? && i < |paths|
    ensures ParseRow(paths[i].0, paths[i].1, serverBase, pick) == Ok(ParseRows(paths, serverBase, pick).value[i])
    decreases |paths|
  {
    var n := |paths| - 1;
    var front := paths[..n];
    var rows := ParseRows(front, serverBase, pick).value;
    var last := ParseRow(paths[n].0, paths[n].1, serverBase, pick);
    assert ParseRows(paths, serverBase, pick) == Ok(rows + [last.value]);
    if i < n {
      assert front[i] == paths[i];
      assert (rows + [last.value])[i] == rows[i];
      ParseRowsPointwise(front, serverBase, pick, i);
    } else {
      assert i == n;
      assert (rows + [last.value])[i] == last.value;
    }
  }

  /** The rows of one more path: the rows so far, extended by that path's row or stopped by its failure. */
  lemma RowsStep(paths: seq<(string, Json)>, i: nat, serverBase: string, pick: set<Json> -> Json)
    requires ValidPick(pick)
    requires i < |paths| && ParseRows(paths[..i], serverBase, pick).Ok?
    ensures ParseRows(paths[..i + 1], serverBase, pick)
         == match ParseRow(paths[i].0, paths[i].1, serverBase, pick)
            case Err(e) => Err(e)
            case Ok(row) => Ok(ParseRows(paths[..i], serverBase, pick).value + [row])
  {
    assert paths[..i + 1][..i] == paths[..i];
  }

  /** A failure among all but the last path is the failure of the whole loop. */
  lemma RowsFailureExtends(paths: seq<(string, Json)>, serverBase: string, pick: set<Json> -> Json)
    requires ValidPick(pick)
    requires paths != [] && ParseRows(paths[..|paths| - 1], serverBase, pick).Err?
    ensures ParseRows(paths, serverBase, pick) == ParseRows(paths[..|paths| - 1], serverBase, pick)
  {
  }

  lemma {:induction false} RowsPrefixFails(paths: seq<(string, Json)>, k: nat, serverBase: string, pick: set<Json> -> Json)
    requires ValidPick(pick)
    requires k <= |paths| && ParseRows(paths[..k], serverBase, pick).Err?
    ensures ParseRows(paths, serverBase, pick) == ParseRows(paths[..k], serverBase, pick)
    decreases |paths|
  {
    if k < |paths| {
      var init := paths[..|paths| - 1];
      assert init[..k] == paths[..k];
      RowsPrefixFails(init, k, serverBase, pick);
      RowsFailureExtends(paths, serverBase, pick);
    } else {
      assert paths[..k] == paths;
    }
  }

  // ======================================================== grouping

  /** Resources, each with its endpoints, each with its operations: the nested default dictionary. */
  type Grouped = seq<(string, seq<(string, seq<EndpointOperation>)>)>

  /** `endpoints[endpoint].extend(ops)` on a default dictionary of lists. */
  function ExtendEndpoint(eps: seq<(string, seq<EndpointOperation>)>, endpoint: string, ops: seq<EndpointOperation>)
    : (r: seq<(string, seq<EndpointOperation>)>)
    ensures Keys(r) == if endpoint in Keys(eps) then Keys(eps) else Keys(eps) + [endpoint]
  {
    if eps == [] then
      assert Keys([(endpoint, ops)]) == [endpoint];
      [(endpoint, ops)]
    else if eps[0].0 == endpoint then
      var r := [(endpoint, eps[0].1 + ops)] + eps[1..];
      assert Keys(r) == Keys(eps);
      r
    else
      var rest := ExtendEndpoint(eps[1..], endpoint, ops);
      assert Keys([eps[0]] + rest) == [eps[0].0] + Keys(rest);
      assert Keys(eps) == [eps[0].0] + Keys(eps[1..]);
      [eps[0]] + rest
  }

  /** `resources[resource][endpoint].extend(ops)` on the nested default dictionary. */
  function Extend(g: Grouped, resource: string, endpoint: string, ops: seq<EndpointOperation>): (r: Grouped)
    ensures Keys(r) == if resource in Keys(g) then Keys(g) else Keys(g) + [resource]
  {
    if g == [] then
      assert Keys([(resource, [(endpoint, ops)])]) == [resource];
      [(resource, [(endpoint, ops)])]
    else if g[0].0 == resource then
      var r := [(resource, ExtendEndpoint(g[0].1, endpoint, ops))] + g[1..];
      assert Keys(r) == Keys(g);
      r
    else
      var rest := Extend(g[1..], resource, endpoint, ops);
      assert Keys([g[0]] + rest) == [g[0].0] + Keys(rest);
      assert Keys(g) == [g[0].0] + Keys(g[1..]);
      [g[0]] + rest
  }

  /** The nested dictionary after extending it with every row, in order. */
  function Group(rows: seq<Row>): (r: Grouped)
    ensures |r| <= |rows|
    ensures rows != [] ==> |r| >= 1
  {
    if rows == [] then []
    else
      var last := rows[|rows| - 1];
      Extend(Group(rows[..|rows| - 1]), last.0, last.1, last.2)
  }

  /** The resource names of the rows, in order. */
  function Names(rows: seq<Row>): (ns: seq<string>)
    ensures |ns| == |rows| && forall i :: 0 <= i < |rows| ==> ns[i] == rows[i].0
  {
    seq(|rows|, i requires 0 <= i < |rows| => rows[i].0)
  }

  /** The operations of every row for (`resource`, `endpoint`), concatenated in document order. */
  function Collect(rows: seq<Row>, resource: string, endpoint: string): seq<EndpointOperation> {
    if rows == [] then []
    else
      var last := rows[|rows| - 1];
      Collect(rows[..|rows| - 1], resource, endpoint) + (if last.0 == resource && last.1 == endpoint then last.2 else [])
  }

  /** Some row is about (`resource`, `endpoint`). */
  predicate Mentions(rows: seq<Row>, resource: string, endpoint: string) {
    exists i :: 0 <= i < |rows| && rows[i].0 == resource && rows[i].1 == endpoint
  }

  /** The operations stored under (`resource`, `endpoint`). */
  function LookupOps(g: Grouped, resource: string, endpoint: string): Option<seq<EndpointOperation>> {
    match Lookup(g, resource)
    case None => None
    case Some(eps) => Lookup(eps, endpoint)
  }

  /** Resources keep the order in which their names first appear, each once. */
  lemma {:induction false} GroupKeys(rows: seq<Row>)
    ensures Keys(Group(rows)) == Dedup(Names(rows))
  {
    if rows != [] {
      var front := rows[..|rows| - 1];
      GroupKeys(front);
      assert Names(rows)[..|rows| - 1] == Names(front);
    }
  }

  /** The endpoints of the rows naming `resource`, in document order, repeats included. */
  function EndpointsOf(rows: seq<Row>, resource: string): seq<string> {
    if rows == [] then []
    else
      var last := rows[|rows| - 1];
      EndpointsOf(rows[..|rows| - 1], resource) + (if last.0 == resource then [last.1] else [])
  }

  /** Deduplicating one more element keeps the earlier result and appends the element if it is new. */
  lemma DedupSnoc(xs: seq<string>, x: string)
    ensures Dedup(xs + [x]) == if x in Dedup(xs) then Dedup(xs) else Dedup(xs) + [x]
  {
    assert (xs + [x])[..|xs|] == xs;
  }

  /**
   * Within a resource, endpoints keep the order in which their paths first
   * appear, each once; a resource no path names has no endpoints.
   */
  lemma {:induction false} GroupEndpointKeys(rows: seq<Row>, resource: string)
    ensures Keys(Lookup(Group(rows), resource).GetOr([])) == Dedup(EndpointsOf(rows, resource))
  {
    if rows != [] {
      var front := rows[..|rows| - 1];
      var last := rows[|rows| - 1];
      var eps := Lookup(Group(front), resource).GetOr([]);
      var before := EndpointsOf(front, resource);
      GroupEndpointKeys(front, resource);
      assert Keys(eps) == Dedup(before);
      assert Group(rows) == Extend(Group(front), last.0, last.1, last.2);
      ExtendLookup(Group(front), last.0, last.1, last.2, resource);
      if last.0 == resource {
        assert Lookup(Group(rows), resource).GetOr([]) == ExtendEndpoint(eps, last.1, last.2);
        assert EndpointsOf(rows, resource) == before + [last.1];
        DedupSnoc(before, last.1);
      } else {
        assert Lookup(Group(rows), resource) == Lookup(Group(front), resource);
        assert EndpointsOf(rows, resource) == before + [];
        assert before + [] == before;
      }
    }
  }

  /**
   * Each (resource, endpoint) pair that some path mentions holds the
   * concatenation of those paths' operations, in document order; no other pair
   * exists.
   */
  lemma {:induction false} GroupOps(rows: seq<Row>, resource: string, endpoint: string)
    ensures LookupOps(Group(rows), resource, endpoint)
         == if Mentions(rows, resource, endpoint) then Some(Collect(rows, resource, endpoint)) else None
  {
    if rows != [] {
      var front := rows[..|rows| - 1];
      var last := rows[|rows| - 1];
      var hit := last.0 == resource && last.1 == endpoint;
      var before := LookupOps(Group(front), resource, endpoint);
      var after := LookupOps(Group(rows), resource, endpoint);
      GroupOps(front, resource, endpoint);
      MentionsSnoc(rows, resource, endpoint);
      assert after == if hit then Some(before.GetOr([]) + last.2) else before by {
        LookupOpsExtend(Group(front), last.0, last.1, last.2, resource, endpoint);
      }
      assert Collect(rows, resource, endpoint) == Collect(front, resource, endpoint) + (if hit then last.2 else []);
      if !Mentions(front, resource, endpoint) {
        CollectUnmentioned(front, resource, endpoint);
        assert before == None;
      } else {
        assert before == Some(Collect(front, resource, endpoint));
      }
      if !hit {
        assert Collect(front, resource, endpoint) + [] == Collect(front, resource, endpoint);
      }
    }
  }

  /** Extending one endpoint appends to its list, creating it if needed, and leaves the others alone. */
  lemma {:induction false} ExtendEndpointLookup(eps: seq<(string, seq<EndpointOperation>)>, endpoint: string,
                                                ops: seq<EndpointOperation>, e: string)
    ensures Lookup(ExtendEndpoint(eps, endpoint, ops), e)
         == if e == endpoint then Some(Lookup(eps, e).GetOr([]) + ops) else Lookup(eps, e)
  {
    var r := ExtendEndpoint(eps, endpoint, ops);
    if eps == [] {
      assert r == [(endpoint, ops)];
      assert r[1..] == [];
      assert Lookup(eps, e).GetOr([]) + ops == ops;
    } else {
      if eps[0].0 == endpoint {
        assert r[1..] == eps[1..];
      } else {
        assert r[1..] == ExtendEndpoint(eps[1..], endpoint, ops);
        ExtendEndpointLookup(eps[1..], endpoint, ops, e);
      }
    }
  }

  /** Grouping one more row extends the grouping of the rows before it. */
  lemma GroupSnoc(rows: seq<Row>, row: Row)
    ensures Group(rows + [row]) == Extend(Group(rows), row.0, row.1, row.2)
  {
    assert (rows + [row])[..|rows|] == rows;
  }

  /** Extending one resource changes its endpoint dictionary only. */
  lemma {:induction false} ExtendLookup(g: Grouped, resource: string, endpoint: string, ops: seq<EndpointOperation>, res: string)
    ensures Lookup(Extend(g, resource, endpoint, ops), res)
         == if res == resource then Some(ExtendEndpoint(Lookup(g, res).GetOr([]), endpoint, ops)) else Lookup(g, res)
  {
    var r := Extend(g, resource, endpoint, ops);
    if g == [] {
      assert r[1..] == [];
    } else {
      if g[0].0 == resource {
        assert r[1..] == g[1..];
      } else {
        assert r[1..] == Extend(g[1..], resource, endpoint, ops);
        ExtendLookup(g[1..], resource, endpoint, ops, res);
      }
    }
  }

  /** Extending one (resource, endpoint) pair leaves every other pair as it was. */
  lemma LookupOpsExtend(g: Grouped, res: string, ep: string, ops: seq<EndpointOperation>, resource: string, endpoint: string)
    ensures LookupOps(Extend(g, res, ep, ops), resource, endpoint)
         == if resource == res && endpoint == ep then Some(LookupOps(g, resource, endpoint).GetOr([]) + ops)
            else LookupOps(g, resource, endpoint)
  {
    ExtendLookup(g, res, ep, ops, resource);
    ExtendEndpointLookup(Lookup(g, resource).GetOr([]), ep, ops, endpoint);
  }

  lemma MentionsSnoc(rows: seq<Row>, resource: string, endpoint: string)
    requires rows != []
    ensures Mentions(rows, resource, endpoint)
       <==> Mentions(rows[..|rows| - 1], resource, endpoint)
            || (rows[|rows| - 1].0 == resource && rows[|rows| - 1].1 == endpoint)
  {
    var front := rows[..|rows| - 1];
    assert forall i :: 0 <= i < |front| ==> front[i] == rows[i];
  }

  lemma {:induction false} CollectUnmentioned(rows: seq<Row>, resource: string, endpoint: string)
    requires !Mentions(rows, resource, endpoint)
    ensures Collect(rows, resource, endpoint) == []
  {
    if rows != [] {
      MentionsSnoc(rows, resource, endpoint);
      CollectUnmentioned(rows[..|rows| - 1], resource, endpoint);
    }
  }

  /** The endpoints of every resource are distinct keys. */
  predicate EndpointsDistinct(g: Grouped) {
    forall i :: 0 <= i < |g| ==> Distinct(Keys(g[i].1))
  }

  /** Adding an endpoint to a resource keeps its endpoint keys distinct. */
  lemma ExtendEndpointDistinct(eps: seq<(string, seq<EndpointOperation>)>, endpoint: string, ops: seq<EndpointOperation>)
    requires Distinct(Keys(eps))
    ensures Distinct(Keys(ExtendEndpoint(eps, endpoint, ops)))
  {
    var ks := Keys(eps);
    if endpoint !in ks {
      var ks' := ks + [endpoint];
      forall i, j | 0 <= i < j < |ks'| ensures ks'[i] != ks'[j] {
        if j == |ks| {
          assert ks'[i] == ks[i];
        }
      }
    }
  }

  lemma ConsEndpointsDistinct(head: (string, seq<(string, seq<EndpointOperation>)>), tail: Grouped)
    requires Distinct(Keys(head.1)) && EndpointsDistinct(tail)
    ensures EndpointsDistinct([head] + tail)
  {
    var r := [head] + tail;
    forall i | 0 <= i < |r| ensures Distinct(Keys(r[i].1)) {
      if i > 0 {
        assert r[i] == tail[i - 1];
      }
    }
  }

  lemma TailEndpointsDistinct(g: Grouped)
    requires g != [] && EndpointsDistinct(g)
    ensures Distinct(Keys(g[0].1)) && EndpointsDistinct(g[1..])
  {
    forall i | 0 <= i < |g[1..]| ensures Distinct(Keys(g[1..][i].1)) {
      assert g[1..][i] == g[i + 1];
    }
  }

  lemma {:induction false} ExtendKeepsEndpointsDistinct(g: Grouped, resource: string, endpoint: string, ops: seq<EndpointOperation>)
    requires EndpointsDistinct(g)
    ensures EndpointsDistinct(Extend(g, resource, endpoint, ops))
  {
    var r := Extend(g, resource, endpoint, ops);
    if g == [] {
      assert Keys(r[0].1) == [endpoint];
    } else {
      TailEndpointsDistinct(g);
      if g[0].0 == resource {
        ExtendEndpointDistinct(g[0].1, endpoint, ops);
        ConsEndpointsDistinct((resource, ExtendEndpoint(g[0].1, endpoint, ops)), g[1..]);
      } else {
        ExtendKeepsEndpointsDistinct(g[1..], resource, endpoint, ops);
        ConsEndpointsDistinct(g[0], Extend(g[1..], resource, endpoint, ops));
      }
    }
  }

  /** Within each resource, every endpoint appears once. */
  lemma {:induction false} GroupEndpointsDistinct(rows: seq<Row>)
    ensures EndpointsDistinct(Group(rows))
  {
    if rows != [] {
      var last := rows[|rows| - 1];
      GroupEndpointsDistinct(rows[..|rows| - 1]);
      ExtendKeepsEndpointsDistinct(Group(rows[..|rows| - 1]), last.0, last.1, last.2);
    }
  }

  /** `specification["paths"].items()`. */
  function PathEntries(specification: Json): Result<seq<(string, Json)>, Error> {
    match Subscript(specification, "paths")
    case Err(e) => Err(e)
    case Ok(paths) => Items(paths)
  }

  /** `_parse_resource_objects_from_openapi`: the rows of every path, grouped by resource and endpoint. */
  function ParseResourceObjects(specification: Json, serverBase: string, pick: set<Json> -> Json): Result<Grouped, Error>
    requires ValidPick(pick)
  {
    match PathEntries(specification)
    case Err(e) => Err(e)
    case Ok(paths) =>
      match ParseRows(paths, serverBase, pick)
      case Err(e) => Err(e)
      case Ok(rows) => Ok(Group(rows))
  }

  /** The loop of `_parse_resource_objects_from_openapi`, extending the nested default dictionary path by path. */
  method ParseResourceObjectsFromOpenapi(specification: Json, serverBase: string, pick: set<Json> -> Json)
    returns (r: Result<Grouped, Error>)
    requires ValidPick(pick)
    ensures r == ParseResourceObjects(specification, serverBase, pick)
  {
    var pe := PathEntries(specification);
    if pe.Err? {
      return Err(pe.error);
    }
    var paths := pe.value;
    var resources: Grouped := [];
    ghost var rows: seq<Row> := [];
    var i := 0;
    while i < |paths|
      invariant 0 <= i <= |paths|
      invariant ParseRows(paths[..i], serverBase, pick) == Ok(rows)
      invariant resources == Group(rows)
    {
      var pathUrl := paths[i].0;
      RowsStep(paths, i, serverBase, pick);
      var pathMethods := ParseOperations(paths[i].1, pick);
      if pathMethods.Err? {
        RowsPrefixFails(paths, i + 1, serverBase, pick);
        return Err(pathMethods.error);
      }
      var split := SplitPath(pathUrl, serverBase);
      if split.Err? {
        RowsPrefixFails(paths, i + 1, serverBase, pick);
        return Err(split.error);
      }
      var (resource, endpoint) := split.value;
      resources := Extend(resources, resource, endpoint, pathMethods.value);
      GroupSnoc(rows, (resource, endpoint, pathMethods.value));
      rows := rows + [(resource, endpoint, pathMethods.value)];
      i := i + 1;
    }
    assert paths[..i] == paths;
    return Ok(resources);
  }

  // ======================================================= resources

  /** The endpoints of one resource, in the order their paths first appeared. */
  function BuildEndpoints(eps: seq<(string, seq<EndpointOperation>)>): seq<Endpoint> {
    seq(|eps|, j requires 0 <= j < |eps| => Endpoint(eps[j].0, eps[j].1))
  }

  /** `_build_resource_objects` as a value: one resource per key, one endpoint per inner key. */
  function BuildResources(raw: Grouped): seq<Resource> {
    seq(|raw|, i requires 0 <= i < |raw| => Resource(raw[i].0, BuildEndpoints(raw[i].1)))
  }

  /** The two nested loops of `_build_resource_objects`. */
  method BuildResourceObjects(raw: Grouped) returns (output: seq<Resource>)
    ensures |output| == |raw|
    ensures forall i :: 0 <= i < |raw| ==> output[i].name == raw[i].0 && |output[i].endpoints| == |raw[i].1|
    ensures forall i, j :: 0 <= i < |raw| && 0 <= j < |raw[i].1| ==>
              output[i].endpoints[j] == Endpoint(raw[i].1[j].0, raw[i].1[j].1)
    ensures output == BuildResources(raw)
  {
    output := [];
    var i := 0;
    while i < |raw|
      invariant 0 <= i <= |raw|
      invariant output == BuildResources(raw[..i])
    {
      var endpoints := raw[i].1;
      var resourceEndpoints: seq<Endpoint> := [];
      var j := 0;
      while j < |endpoints|
        invariant 0 <= j <= |endpoints|
        invariant resourceEndpoints == BuildEndpoints(endpoints[..j])
      {
        resourceEndpoints := resourceEndpoints + [Endpoint(endpoints[j].0, endpoints[j].1)];
        j := j + 1;
      }
      assert endpoints[..j] == endpoints;
      output := output + [Resource(raw[i].0, resourceEndpoints)];
      i := i + 1;
    }
    assert raw[..i] == raw;
  }

  /** `_parse_resources_from_openapi`: grouping followed by building. */
  function ParseResourcesOf(specification: Json, serverBase: string, pick: set<Json> -> Json): Result<seq<Resource>, Error>
    requires ValidPick(pick)
  {
    match ParseResourceObjects(specification, serverBase, pick)
    case Err(e) => Err(e)
    case Ok(raw) => Ok(BuildResources(raw))
  }

  method ParseResources(specification: Json, serverBase: string, pick: set<Json> -> Json) returns (r: Result<seq<Resource>, Error>)
    requires ValidPick(pick)
    ensures r == ParseResourcesOf(specification, serverBase, pick)
  {
    var raw := ParseResourceObjectsFromOpenapi(specification, serverBase, pick);
    if raw.Err? {
      return Err(raw.error);
    }
    var built := BuildResourceObjects(raw.value);
    return Ok(built);
  }

  function ResourceNames(rs: seq<Resource>): seq<string> {
    seq(|rs|, i requires 0 <= i < |rs| => rs[i].name)
  }

  function EndpointPaths(eps: seq<Endpoint>): seq<string> {
    seq(|eps|, j requires 0 <= j < |eps| => eps[j].path)
  }

  /** In a dictionary with distinct keys, the `i`-th key finds the `i`-th value. */
  lemma {:induction false} LookupAt<V>(xs: seq<(string, V)>, i: nat)
    requires i < |xs| && Distinct(Keys(xs))
    ensures Lookup(xs, xs[i].0) == Some(xs[i].1)
  {
    if i > 0 {
      assert Keys(xs)[0] == xs[0].0 && Keys(xs)[i] == xs[i].0;
      assert Distinct(Keys(xs[1..])) by {
        forall a, b | 0 <= a < b < |xs[1..]| ensures Keys(xs[1..])[a] != Keys(xs[1..])[b] {
          assert Keys(xs)[a + 1] == Keys(xs[1..])[a] && Keys(xs)[b + 1] == Keys(xs[1..])[b];
        }
      }
      LookupAt(xs[1..], i - 1);
    }
  }

  /** The endpoints of the `i`-th built resource are those of the paths naming it, in first-seen order. */
  lemma ResourceEndpoints(rows: seq<Row>, i: nat)
    requires i < |Group(rows)|
    ensures var res := BuildResources(Group(rows))[i];
            EndpointPaths(res.endpoints) == Dedup(EndpointsOf(rows, res.name))
  {
    var g := Group(rows);
    var res := BuildResources(g)[i];
    assert res == Resource(g[i].0, BuildEndpoints(g[i].1));
    GroupKeys(rows);
    LookupAt(g, i);
    assert Lookup(g, res.name).GetOr([]) == g[i].1;
    GroupEndpointKeys(rows, res.name);
    BuiltEndpointPaths(g[i].1);
  }

  lemma BuiltEndpointPaths(eps: seq<(string, seq<EndpointOperation>)>)
    ensures EndpointPaths(BuildEndpoints(eps)) == Keys(eps)
  {
  }

  /**
   * What the parsed resources hold: resource `i`, endpoint `j` was mentioned by
   * some path, and its operations are those of every path naming that pair, in
   * document order; the names of the resources are the distinct resource names
   * of the paths, and the endpoints of resource `i` the distinct endpoints of
   * the paths naming it, both in order of first appearance.
   */
  lemma ResourcesFromRows(rows: seq<Row>, i: nat, j: nat)
    requires i < |Group(rows)| && j < |Group(rows)[i].1|
    ensures ResourceNames(BuildResources(Group(rows))) == Dedup(Names(rows))
    ensures var res := BuildResources(Group(rows))[i];
            EndpointPaths(res.endpoints) == Dedup(EndpointsOf(rows, res.name))
    ensures var res := BuildResources(Group(rows))[i];
            Mentions(rows, res.name, res.endpoints[j].path)
            && res.endpoints[j].operations == Collect(rows, res.name, res.endpoints[j].path)
  {
    ResourceNamesFirstSeen(rows);
    ResourceEndpoints(rows, i);
    ResourceOperations(rows, i, j);
  }

  /** The built resources are named after the distinct path names, in first-seen order. */
  lemma ResourceNamesFirstSeen(rows: seq<Row>)
    ensures ResourceNames(BuildResources(Group(rows))) == Dedup(Names(rows))
  {
    GroupKeys(rows);
    assert ResourceNames(BuildResources(Group(rows))) == Keys(Group(rows));
  }

  /** Endpoint `j` of resource `i` holds the operations of every path naming that pair. */
  lemma ResourceOperations(rows: seq<Row>, i: nat, j: nat)
    requires i < |Group(rows)| && j < |Group(rows)[i].1|
    ensures var res := BuildResources(Group(rows))[i];
            Mentions(rows, res.name, res.endpoints[j].path)
            && res.endpoints[j].operations == Collect(rows, res.name, res.endpoints[j].path)
  {
    var g := Group(rows);
    var res := BuildResources(g)[i];
    assert res.name == g[i].0 && res.endpoints[j] == Endpoint(g[i].1[j].0, g[i].1[j].1);
    assert LookupOps(g, g[i].0, g[i].1[j].0) == Some(g[i].1[j].1) by {
      GroupKeys(rows);
      GroupEndpointsDistinct(rows);
      LookupAt(g, i);
      LookupAt(g[i].1, j);
    }
    GroupOps(rows, g[i].0, g[i].1[j].0);
  }

  /** Every path contributes: its resource appears, and under it, its endpoint. */
  lemma RowsAreParsed(rows: seq<Row>, k: nat)
    requires k < |rows|
    ensures rows[k].0 in Keys(Group(rows))
    ensures LookupOps(Group(rows), rows[k].0, rows[k].1) == Some(Collect(rows, rows[k].0, rows[k].1))
  {
    GroupKeys(rows);
    assert Names(rows)[k] == rows[k].0;
    GroupOps(rows, rows[k].0, rows[k].1);
  }

  // ========================================================= schemas

  /** The Python types a schema field can be given. */
  datatype PyType = ListType | StrType | BoolType | IntType | FloatType | ObjectType

  /** The OpenAPI type name each Python type is converted from. */
  function TagOf(t: PyType): string {
    match t
    case ListType => "array"
    case StrType => "string"
    case BoolType => "boolean"
    case IntType => "integer"
    case FloatType => "number"
    case ObjectType => "object"
  }

  /** The conversion table: exactly the six OpenAPI type names are known. */
  function ConversionTable(tag: string): (r: Option<PyType>)
    ensures r.Some? ==> TagOf(r.value) == tag
    ensures r.None? <==> tag !in ["array", "string", "boolean", "integer", "number", "object"]
  {
    if tag == "array" then Some(ListType)
    else if tag == "string" then Some(StrType)
    else if tag == "boolean" then Some(BoolType)
    else if tag == "integer" then Some(IntType)
    else if tag == "number" then Some(FloatType)
    else if tag == "object" then Some(ObjectType)
    else None
  }

  lemma ConversionTableComplete(t: PyType)
    ensures ConversionTable(TagOf(t)) == Some(t)
  {
  }

  /** The text of a scalar key as a `KeyError` shows it: a string as itself, anything else by its `repr`. */
  function KeyText(j: Json): string {
    match j
    case JNull => "None"
    case JBool(b) => if b then "True" else "False"
    case JInt(i) => IntToString(i)
    case JFloat(_, text) => text
    case JStr(s) => s
    case _ => TypeName(j)
  }

  /** `conversion_table[tag]`: unknown names are missing keys, lists and dictionaries cannot be keys. */
  function ConvertType(tag: Json): (r: Result<PyType, Error>)
    ensures r.Ok? <==> tag.JStr? && ConversionTable(tag.s).Some?
    ensures r.Ok? ==> TagOf(r.value) == tag.s
    ensures Hashable(tag) && r.Err? ==> r.error == KeyError(KeyText(tag))
    ensures tag.JFloat? ==> r == Err(KeyError(tag.text))
    ensures !Hashable(tag) ==> r == Err(TypeError("unhashable type: '" + TypeName(tag) + "'"))
  {
    match tag
    case JStr(s) =>
      (match ConversionTable(s)
       case Some(t) => Ok(t)
       case None => Err(KeyError(s)))
    case JList(_) => Err(TypeError("unhashable type: '" + TypeName(tag) + "'"))
    case JObject(_) => Err(TypeError("unhashable type: '" + TypeName(tag) + "'"))
    case _ => Err(KeyError(KeyText(tag)))
  }

  /** `conversion_table[field_data["type"]]`. */
  function FieldType(fieldData: Json): Result<PyType, Error> {
    match Subscript(fieldData, "type")
    case Err(e) => Err(e)
    case Ok(tag) => ConvertType(tag)
  }

  /** The field list comprehension, evaluated in order; the first failure is raised. */
  function FieldList(props: seq<(string, Json)>): (r: Result<seq<(string, PyType)>, Error>)
    ensures r.Ok? ==> |r.value| == |props|
    ensures r.Ok? ==> forall i :: 0 <= i < |props| ==> r.value[i].0 == props[i].0 && FieldType(props[i].1) == Ok(r.value[i].1)
    ensures r.Err? <==> exists i :: 0 <= i < |props| && FieldType(props[i].1).Err?
  {
    if props == [] then Ok([])
    else
      match FieldType(props[0].1)
      case Err(e) => Err(e)
      case Ok(t) =>
        match FieldList(props[1..])
        case Err(e) =>
          assert forall i :: 0 <= i < |props[1..]| ==> props[1..][i] == props[i + 1];
          Err(e)
        case Ok(rest) =>
          assert forall i :: 0 < i < |props| ==> props[i] == props[1..][i - 1];
          Ok([(props[0].0, t)] + rest)
  }

  /** The reserved words of Python, which cannot name a field. */
  predicate IsKeyword(s: string) {
    s in ["False", "None", "True", "and", "as", "assert", "async", "await", "break", "class", "continue",
          "def", "del", "elif", "else", "except", "finally", "for", "from", "global", "if", "import", "in",
          "is", "lambda", "nonlocal", "not", "or", "pass", "raise", "return", "try", "while", "with", "yield"]
  }

  /** The field-name checks of `make_dataclass`, field by field. */
  function CheckFieldNames(fields: seq<(string, PyType)>): (r: Option<Error>)
    ensures r.None? <==> forall i :: 0 <= i < |fields| ==> IsIdentifier(fields[i].0) && !IsKeyword(fields[i].0)
  {
    if fields == [] then None
    else if !IsIdentifier(fields[0].0) then Some(TypeError("Field names must be valid identifiers: '" + fields[0].0 + "'"))
    else if IsKeyword(fields[0].0) then Some(TypeError("Field names must not be keywords: '" + fields[0].0 + "'"))
    else
      var r := CheckFieldNames(fields[1..]);
      assert forall i :: 0 < i < |fields| ==> fields[i] == fields[1..][i - 1];
      r
  }

  /** A generated schema class: its name and its typed fields, in declaration order. */
  datatype SchemaClass = SchemaClass(name: string, fields: seq<(string, PyType)>)

  /** The names of a schema class's fields, which is what `from_dict` keeps. */
  function FieldNames(c: SchemaClass): (ns: seq<string>)
    ensures |ns| == |c.fields| && forall i :: 0 <= i < |ns| ==> ns[i] == c.fields[i].0
  {
    seq(|c.fields|, i requires 0 <= i < |c.fields| => c.fields[i].0)
  }

  /** One schema component turned into a class: one field per property, typed through the table. */
  function MakeSchemaClass(name: string, schema: Json): (r: Result<SchemaClass, Error>)
    ensures r.Ok? ==> r.value.name == name
  {
    match Subscript(schema, "properties")
    case Err(e) => Err(e)
    case Ok(props) =>
      match Items(props)
      case Err(e) => Err(e)
      case Ok(entries) =>
        match FieldList(entries)
        case Err(e) => Err(e)
        case Ok(fields) =>
          match CheckFieldNames(fields)
          case Some(e) => Err(e)
          case None => Ok(SchemaClass(name, fields))
  }

  /**
   * A built class has one field per property of the component, in order,
   * each named by a valid non-reserved identifier and typed through the table.
   */
  lemma SchemaClassFields(name: string, schema: Json)
    requires MakeSchemaClass(name, schema).Ok?
    ensures Subscript(schema, "properties").Ok? && Subscript(schema, "properties").value.JObject?
    ensures var props := Subscript(schema, "properties").value.entries;
            var c := MakeSchemaClass(name, schema).value;
            |c.fields| == |props|
            && forall i :: 0 <= i < |props| ==>
                 c.fields[i].0 == props[i].0 && IsIdentifier(props[i].0) && !IsKeyword(props[i].0)
                 && FieldType(props[i].1) == Ok(c.fields[i].1)
  {
    var fields := FieldList(Subscript(schema, "properties").value.entries).value;
    assert CheckFieldNames(fields).None?;
  }

  /** `d.get(key, default)`: only a dictionary has it. */
  function PyGet(d: Json, key: string, default: Json): (r: Result<Json, Error>)
    ensures d.JObject? ==> r == Ok(Get(d.entries, key).GetOr(default))
    ensures !d.JObject? ==> r == Err(AttributeError("'" + TypeName(d) + "' object has no attribute 'get'"))
  {
    if d.JObject? then Ok(Get(d.entries, key).GetOr(default))
    else Err(AttributeError("'" + TypeName(d) + "' object has no attribute 'get'"))
  }

  /** `specification.get("components", {}).get("schemas", {})`. */
  function SchemaComponents(specification: Json): Result<Json, Error> {
    match PyGet(specification, "components", JObject([]))
    case Err(e) => Err(e)
    case Ok(components) => PyGet(components, "schemas", JObject([]))
  }

  /** `len(j)`: strings, lists and dictionaries have a length. */
  function Len(j: Json): (r: Result<nat, Error>)
    ensures r.Ok? <==> j.JStr? || j.JList? || j.JObject?
  {
    match j
    case JStr(s) => Ok(|s|)
    case JList(items) => Ok(|items|)
    case JObject(entries) => Ok(|entries|)
    case _ => Err(TypeError("object of type '" + TypeName(j) + "' has no len()"))
  }

  const NoSchemasMessage: string := "ERROR: No schema components found in OpenAPI definition."

  /** The schema components are present but empty, which is reported and yields no schemas. */
  predicate NoComponents(specification: Json) {
    SchemaComponents(specification).Ok? && Len(SchemaComponents(specification).value) == Ok(0)
  }

  lemma HasKeySnoc(entries: seq<(string, Json)>)
    requires entries != []
    ensures forall k :: HasKey(entries, k) <==> HasKey(entries[..|entries| - 1], k) || k == entries[|entries| - 1].0
  {
    var front := entries[..|entries| - 1];
    forall k | HasKey(entries, k) ensures HasKey(front, k) || k == entries[|entries| - 1].0 {
      var i :| 0 <= i < |entries| && entries[i].0 == k;
      if i < |front| {
        assert front[i].0 == k;
      }
    }
    forall k | HasKey(front, k) ensures HasKey(entries, k) {
      var i :| 0 <= i < |front| && front[i].0 == k;
      assert entries[i].0 == k;
    }
  }

  /** The schema dictionary after assigning every component in order; the first failure stops the loop. */
  function SchemaMap(entries: seq<(string, Json)>): (r: Result<map<string, SchemaClass>, Error>)
    ensures r.Ok? ==> forall k :: k in r.value <==> HasKey(entries, k)
    decreases |entries|
  {
    if entries == [] then Ok(map[])
    else
      var n := |entries| - 1;
      var front := entries[..n];
      match SchemaMap(front)
      case Err(e) => Err(e)
      case Ok(m) =>
        match MakeSchemaClass(entries[n].0, entries[n].1)
        case Err(e) => Err(e)
        case Ok(c) =>
          HasKeySnoc(entries);
          Ok(m[entries[n].0 := c])
  }

  /** `_parse_schemas_from_spec`: the classes and the lines printed on the way. */
  function ParseSchemas(specification: Json): (Result<map<string, SchemaClass>, Error>, seq<string>) {
    match SchemaComponents(specification)
    case Err(e) => (Err(e), [])
    case Ok(components) =>
      match Len(components)
      case Err(e) => (Err(e), [])
      case Ok(n) =>
        if n < 1 then (Ok(map[]), [NoSchemasMessage])
        else
          match Items(components)
          case Err(e) => (Err(e), [])
          case Ok(entries) => (SchemaMap(entries), [])
  }

  /** The loop of `_parse_schemas_from_spec`; printing becomes an output parameter. */
  method ParseSchemasFromSpec(specification: Json) returns (r: Result<map<string, SchemaClass>, Error>, printed: seq<string>)
    ensures (r, printed) == ParseSchemas(specification)
    ensures printed == (if NoComponents(specification) then [NoSchemasMessage] else [])
  {
    printed := [];
    var sc := SchemaComponents(specification);
    if sc.Err? {
      return Err(sc.error), printed;
    }
    var n := Len(sc.value);
    if n.Err? {
      return Err(n.error), printed;
    }
    if n.value < 1 {
      assert NoComponents(specification);
      printed := [NoSchemasMessage];
      return Ok(map[]), printed;
    }
    var items := Items(sc.value);
    if items.Err? {
      return Err(items.error), printed;
    }
    var entries := items.value;
    var schemas: map<string, SchemaClass> := map[];
    var i := 0;
    while i < |entries|
      invariant 0 <= i <= |entries|
      invariant SchemaMap(entries[..i]) == Ok(schemas)
    {
      SchemaMapStep(entries, i);
      var dataClass := MakeSchemaClass(entries[i].0, entries[i].1);
      if dataClass.Err? {
        SchemaMapPrefixFails(entries, i + 1);
        return Err(dataClass.error), printed;
      }
      schemas := schemas[entries[i].0 := dataClass.value];
      i := i + 1;
    }
    assert entries[..i] == entries;
    return Ok(schemas), printed;
  }

  /** One more component: the dictionary so far with that component assigned, or its failure. */
  lemma SchemaMapStep(entries: seq<(string, Json)>, i: nat)
    requires i < |entries| && SchemaMap(entries[..i]).Ok?
    ensures SchemaMap(entries[..i + 1])
         == match MakeSchemaClass(entries[i].0, entries[i].1)
            case Err(e) => Err(e)
            case Ok(c) => Ok(SchemaMap(entries[..i]).value[entries[i].0 := c])
  {
    assert entries[..i + 1][..i] == entries[..i];
  }

  /** A failure among all but the last component is the failure of the whole loop. */
  lemma SchemaMapFailureExtends(entries: seq<(string, Json)>)
    requires entries != [] && SchemaMap(entries[..|entries| - 1]).Err?
    ensures SchemaMap(entries) == SchemaMap(entries[..|entries| - 1])
  {
  }

  lemma {:induction false} SchemaMapPrefixFails(entries: seq<(string, Json)>, k: nat)
    requires k <= |entries| && SchemaMap(entries[..k]).Err?
    ensures SchemaMap(entries) == SchemaMap(entries[..k])
    decreases |entries|
  {
    if k < |entries| {
      var init := entries[..|entries| - 1];
      assert init[..k] == entries[..k];
      SchemaMapPrefixFails(init, k);
      SchemaMapFailureExtends(entries);
    } else {
      assert entries[..k] == entries;
    }
  }

  /** With distinct component names, each name maps to the class built from its own component. */
  lemma {:induction false} SchemaMapLookup(entries: seq<(string, Json)>, i: nat)
    requires DistinctKeys(entries) && SchemaMap(entries).Ok? && i < |entries|
    ensures MakeSchemaClass(entries[i].0, entries[i].1).Ok?
    ensures SchemaMap(entries).value[entries[i].0] == MakeSchemaClass(entries[i].0, entries[i].1).value
    decreases |entries|
  {
    var n := |entries| - 1;
    var front := entries[..n];
    var m := SchemaMap(front).value;
    var c := MakeSchemaClass(entries[n].0, entries[n].1).value;
    assert SchemaMap(entries) == Ok(m[entries[n].0 := c]);
    if i < n {
      assert front[i] == entries[i];
      assert DistinctKeys(front);
      assert entries[i].0 != entries[n].0;
      SchemaMapLookup(front, i);
      assert m[entries[n].0 := c][entries[i].0] == m[entries[i].0];
    } else {
      assert i == n;
    }
  }

  /** An empty `schemas` component is reported once and yields no classes. */
  lemma EmptyComponentsReported()
    ensures ParseSchemas(JObject([("components", JObject([("schemas", JObject([]))]))])) == (Ok(map[]), [NoSchemasMessage])
  {
    var spec := JObject([("components", JObject([("schemas", JObject([]))]))]);
    assert Get(spec.entries, "components") == Some(JObject([("schemas", JObject([]))]));
    assert SchemaComponents(spec) == Ok(JObject([]));
  }

  /** A document with no components at all is reported the same way. */
  lemma MissingComponentsReported(entries: seq<(string, Json)>)
    requires !HasKey(entries, "components")
    ensures ParseSchemas(JObject(entries)) == (Ok(map[]), [NoSchemasMessage])
  {
    assert SchemaComponents(JObject(entries)) == Ok(JObject([]));
  }

  /** A float tag is a missing key too, reported by its `repr`. */
  lemma FloatTagRejected(tag: Json)
    requires tag == JFloat(1.5, "1.5")
    ensures ConvertType(tag) == Err(KeyError("1.5"))
  {
  }

  /** A property whose type the table does not know stops parsing with a missing-key error. */
  lemma UnknownTypeRejected(name: string, field: string, tag: string)
    requires ConversionTable(tag).None?
    ensures MakeSchemaClass(name, JObject([("properties", JObject([(field, JObject([("type", JStr(tag))]))]))]))
         == Err(KeyError(tag))
  {
    var fieldData := JObject([("type", JStr(tag))]);
    assert Get(fieldData.entries, "type") == Some(JStr(tag));
    assert FieldType(fieldData) == Err(KeyError(tag));
    var props := JObject([(field, fieldData)]);
    assert FieldList(props.entries) == Err(KeyError(tag));
  }

  // ====================================================== whole spec

  /** A parsed OpenAPI document: the schema classes by name and the resources. */
  datatype OpenAPISpec = OpenAPISpec(schemas: map<string, SchemaClass>, resources: seq<Resource>)

  /** `OpenAPISpec.parse` on an already resolved document: schemas first, then resources. */
  function ParseSpec(specification: Json, serverBase: string, pick: set<Json> -> Json): (r: Result<OpenAPISpec, Error>)
    requires ValidPick(pick)
    ensures ParseSchemas(specification).0.Err? ==> r == Err(ParseSchemas(specification).0.error)
    ensures ParseSchemas(specification).0.Ok? && ParseResourcesOf(specification, serverBase, pick).Err? ==>
              r == Err(ParseResourcesOf(specification, serverBase, pick).error)
    ensures r.Ok? <==> ParseSchemas(specification).0.Ok? && ParseResourcesOf(specification, serverBase, pick).Ok?
    ensures r.Ok? ==> Ok(r.value.schemas) == ParseSchemas(specification).0
                      && Ok(r.value.resources) == ParseResourcesOf(specification, serverBase, pick)
  {
    match ParseSchemas(specification).0
    case Err(e) => Err(e)
    case Ok(schemas) =>
      match ParseResourcesOf(specification, serverBase, pick)
      case Err(e) => Err(e)
      case Ok(resources) => Ok(OpenAPISpec(schemas, resources))
  }

  method Parse(specification: Json, serverBase: string, pick: set<Json> -> Json) returns (r: Result<OpenAPISpec, Error>, printed: seq<string>)
    requires ValidPick(pick)
    ensures r == ParseSpec(specification, serverBase, pick)
    ensures printed == ParseSchemas(specification).1
  {
    var schemas;
    schemas, printed := ParseSchemasFromSpec(specification);
    if schemas.Err? {
      return Err(schemas.error), printed;
    }
    var resources := ParseResources(specification, serverBase, pick);
    if resources.Err? {
      return Err(resources.error), printed;
    }
    return Ok(OpenAPISpec(schemas.value, resources.value)), printed;
  }
}
