/**
 * `_build_resource_object` of `django_rest_generator/client.py`: each
 * endpoint of a parsed resource is classified as the collection, an
 * instance or a custom action; the first two grant capability mixins
 * through fixed method tables, the last becomes a custom action with its
 * own method name and URL.
 */
module Client {
  import opened Common
  import opened Text
  import opened Utils
  import opened ParserModels
  import opened ApiResource
  import opened Mixins

  // ============================================================ classification

  datatype EndpointKind = Collection | InstanceEndpoint | CustomEndpoint

  /**
   * `re.match(r"{.*}\/$", path)`: a `{` at the start, then the last `}/` of
   * the first line, and that `}/` ends the path or is followed by one final
   * newline.
   */
  predicate IsInstancePath(path: string) {
    |path| > 0 && path[0] == '{'
    && var e := LineEnd(path, 1);
       3 <= e && (e == |path| || e == |path| - 1) && CloseAt(path, e - 2)
  }

  /** `is_detail_action`: `re.match(r"{.*}\/", path)` finds a span at the start. */
  predicate IsDetail(path: string) {
    |path| > 0 && SpanAt(path, 0).Some?
  }

  function Classify(path: string): (k: EndpointKind)
    ensures k == Collection <==> path == "/"
    ensures k == InstanceEndpoint <==> path != "/" && IsInstancePath(path)
  {
    if path == "/" then Collection
    else if IsInstancePath(path) then InstanceEndpoint
    else CustomEndpoint
  }

  /** On one line, an instance path is `{`, anything, then `}/` at the very end. */
  lemma InstancePathSingleLine(path: string)
    requires SingleLine(path)
    ensures IsInstancePath(path) <==> |path| >= 3 && path[0] == '{' && path[|path| - 2..] == "}/"
  {
    if |path| > 0 {
      LineEndSingleLine(path, 1);
    }
  }

  /** On one line, a detail action starts with `{` and has a `}/` somewhere after it. */
  lemma DetailSingleLine(path: string)
    requires SingleLine(path)
    ensures IsDetail(path) <==> |path| > 0 && path[0] == '{' && exists j :: 1 <= j && CloseAt(path, j)
  {
    if |path| > 0 && path[0] == '{' {
      LineEndSingleLine(path, 1);
      if j :| 1 <= j && CloseAt(path, j) {
        assert j < |path|;
      }
    }
  }

  /** Every instance path is a detail path: its `}/` is a span from the first `{`. */
  lemma InstanceIsDetail(path: string)
    requires IsInstancePath(path)
    ensures IsDetail(path)
  {
    var e := LineEnd(path, 1);
    assert 1 <= e - 2 < e;
  }

  // ============================================================ method tables

  datatype MapKind = ObjectMap | InstanceMap

  /**
   * `object_method_map[method]` and `instance_method_map[method]`; a verb
   * the table lacks raises KeyError.
   */
  function MethodMap(kind: MapKind, httpMethod: string): (r: Result<set<Capability>, Error>)
    ensures r.Err? ==> r == Err(KeyError(httpMethod))
    ensures kind == ObjectMap ==> (r.Ok? <==> httpMethod in {"POST", "GET", "DELETE"})
    ensures kind == InstanceMap ==> (r.Ok? <==> httpMethod in {"GET", "PUT", "DELETE", "PATCH"})
    ensures r.Ok? ==> r.value != {}
  {
    match kind
    case ObjectMap =>
      if httpMethod == "POST" then Ok({Createable})
      else if httpMethod == "GET" then Ok({Listable, Pagination})
      else if httpMethod == "DELETE" then Ok({DeletableObject})
      else Err(KeyError(httpMethod))
    case InstanceMap =>
      if httpMethod == "GET" then Ok({Retrievable, Singleton})
      else if httpMethod == "PUT" then Ok({Updateable})
      else if httpMethod == "DELETE" then Ok({Deletable})
      else if httpMethod == "PATCH" then Ok({PartiallyUpdateable})
      else Err(KeyError(httpMethod))
  }

  /** The two tables never grant the same capability: collection and instance endpoints contribute disjoint mixins. */
  lemma TablesDisjoint(m1: string, m2: string)
    requires MethodMap(ObjectMap, m1).Ok? && MethodMap(InstanceMap, m2).Ok?
    ensures MethodMap(ObjectMap, m1).value !! MethodMap(InstanceMap, m2).value
  {
  }

  /** `op` is granted capability `c` by the table. */
  predicate Grants(kind: MapKind, op: EndpointOperation, c: Capability) {
    MethodMap(kind, op.httpMethod).Ok? && c in MethodMap(kind, op.httpMethod).value
  }

  /** `resource_mixins.update(table[op.method])` for each operation in order; the first unknown verb raises. */
  function Lookups(kind: MapKind, ops: seq<EndpointOperation>): (r: Result<set<Capability>, Error>)
    decreases |ops|
  {
    if ops == [] then Ok({})
    else
      match Lookups(kind, ops[..|ops| - 1])
      case Err(e) => Err(e)
      case Ok(before) =>
        match MethodMap(kind, ops[|ops| - 1].httpMethod)
        case Err(e) => Err(e)
        case Ok(granted) => Ok(before + granted)
  }

  /** The lookups succeed exactly when every verb is in the table, and they grant the union of the table's entries. */
  lemma {:induction false} LookupsUnion(kind: MapKind, ops: seq<EndpointOperation>)
    ensures Lookups(kind, ops).Ok? <==> forall op :: op in ops ==> MethodMap(kind, op.httpMethod).Ok?
    ensures Lookups(kind, ops).Ok? ==>
              forall c :: c in Lookups(kind, ops).value <==> exists op :: op in ops && Grants(kind, op, c)
    decreases |ops|
  {
    if ops != [] {
      var init := ops[..|ops| - 1];
      var last := ops[|ops| - 1];
      LookupsUnion(kind, init);
      assert ops == init + [last];
      assert forall op :: op in ops <==> op in init || op == last;
      if Lookups(kind, init).Err? {
        var bad :| bad in init && MethodMap(kind, bad.httpMethod).Err?;
        assert bad in ops;
      } else if MethodMap(kind, last.httpMethod).Err? {
        assert last in ops;
      } else {
        var before := Lookups(kind, init).value;
        assert Lookups(kind, ops).value == before + MethodMap(kind, last.httpMethod).value;
        forall c | c in Lookups(kind, ops).value
          ensures exists op :: op in ops && Grants(kind, op, c)
        {
          if c in before {
            var w :| w in init && Grants(kind, w, c);
            assert w in ops;
          } else {
            assert Grants(kind, last, c);
          }
        }
        forall c | exists op :: op in ops && Grants(kind, op, c)
          ensures c in Lookups(kind, ops).value
        {
          var w :| w in ops && Grants(kind, w, c);
          if w != last {
            assert w in init;
          }
        }
      }
    }
  }

  /** Once an operation's verb is missing, later operations change nothing. */
  lemma {:induction false} LookupsStop(kind: MapKind, ops: seq<EndpointOperation>, i: nat, j: nat)
    requires i <= j <= |ops|
    requires Lookups(kind, ops[..i]).Err?
    ensures Lookups(kind, ops[..j]) == Lookups(kind, ops[..i])
    decreases j
  {
    if i < j {
      LookupsStop(kind, ops, i, j - 1);
      assert ops[..j][..j - 1] == ops[..j - 1];
    }
  }

  // ============================================================ custom actions

  /** One custom action: the endpoint with its detail span removed, its single operation and its detail flag. */
  datatype CustomAction = CustomAction(endpoint: string, operation: EndpointOperation, detail: bool)

  /** The name under which the action's `_run` is installed. */
  function MethodName(action: CustomAction): (name: string)
    ensures forall k :: 0 <= k < |name| ==> name[k] != '/' && !IsUpper(name[k])
  {
    SanitizeEndpointToMethodName(action.endpoint)
  }

  /** `repr` of the list of method names, as the warning shows it. */
  function MethodListRepr(ops: seq<EndpointOperation>): string {
    "[" + QuotedMethods(ops) + "]"
  }

  function QuotedMethods(ops: seq<EndpointOperation>): string {
    if ops == [] then ""
    else if |ops| == 1 then "'" + ops[0].httpMethod + "'"
    else "'" + ops[0].httpMethod + "', " + QuotedMethods(ops[1..])
  }

  function MultiMethodMessage(resourceName: string, endpoint: Endpoint): string {
    "Custom action at " + resourceName + "/" + endpoint.path
    + " has more than the ONE allowed HTTP method: " + MethodListRepr(endpoint.operations) + "."
  }

  /** The capabilities and the custom actions one endpoint adds. */
  datatype Contribution = Contribution(capabilities: set<Capability>, actions: seq<CustomAction>)

  /** What one iteration of the loop adds for an endpoint, or raises. */
  function Contribute(resourceName: string, endpoint: Endpoint): (r: Result<Contribution, Error>)
    ensures Classify(endpoint.path) == Collection ==>
              r.Ok? == Lookups(ObjectMap, endpoint.operations).Ok? && (r.Ok? ==> r.value.actions == [])
    ensures Classify(endpoint.path) == InstanceEndpoint ==>
              r.Ok? == Lookups(InstanceMap, endpoint.operations).Ok? && (r.Ok? ==> r.value.actions == [])
    ensures Classify(endpoint.path) == CustomEndpoint ==>
              (r.Ok? <==> |endpoint.operations| == 1)
              && (|endpoint.operations| > 1 ==> r == Err(Warning(MultiMethodMessage(resourceName, endpoint))))
              && (|endpoint.operations| == 0 ==> r == Err(IndexError("list index out of range")))
              && (r.Ok? ==> r.value.capabilities == {}
                            && r.value.actions == [CustomAction(RemoveSpans(endpoint.path), endpoint.operations[0], IsDetail(endpoint.path))])
  {
    match Classify(endpoint.path)
    case Collection =>
      (match Lookups(ObjectMap, endpoint.operations)
       case Err(e) => Err(e)
       case Ok(granted) => Ok(Contribution(granted, [])))
    case InstanceEndpoint =>
      (match Lookups(InstanceMap, endpoint.operations)
       case Err(e) => Err(e)
       case Ok(granted) => Ok(Contribution(granted, [])))
    case CustomEndpoint =>
      if |endpoint.operations| > 1 then Err(Warning(MultiMethodMessage(resourceName, endpoint)))
      else if |endpoint.operations| == 0 then Err(IndexError("list index out of range"))
      else Ok(Contribution({}, [CustomAction(RemoveSpans(endpoint.path), endpoint.operations[0], IsDetail(endpoint.path))]))
  }

  /** The loop over the endpoints in order, up to the first one that raises. */
  function Accumulate(resourceName: string, endpoints: seq<Endpoint>): (r: Result<Contribution, Error>)
    decreases |endpoints|
  {
    if endpoints == [] then Ok(Contribution({}, []))
    else
      match Accumulate(resourceName, endpoints[..|endpoints| - 1])
      case Err(e) => Err(e)
      case Ok(before) => Then(before, Contribute(resourceName, endpoints[|endpoints| - 1]))
  }

  /** One more endpoint: the outcome so far followed by that endpoint's step. */
  lemma AccumulateStep(resourceName: string, endpoints: seq<Endpoint>, i: nat)
    requires i < |endpoints| && Accumulate(resourceName, endpoints[..i]).Ok?
    ensures Accumulate(resourceName, endpoints[..i + 1])
         == Then(Accumulate(resourceName, endpoints[..i]).value, Contribute(resourceName, endpoints[i]))
  {
    assert endpoints[..i + 1][..i] == endpoints[..i];
  }

  lemma {:induction false} AccumulateStop(resourceName: string, endpoints: seq<Endpoint>, i: nat, j: nat)
    requires i <= j <= |endpoints|
    requires Accumulate(resourceName, endpoints[..i]).Err?
    ensures Accumulate(resourceName, endpoints[..j]) == Accumulate(resourceName, endpoints[..i])
    decreases j
  {
    if i < j {
      AccumulateStop(resourceName, endpoints, i, j - 1);
      assert endpoints[..j][..j - 1] == endpoints[..j - 1];
    }
  }

  /** The generated resource class: its mixins, its custom actions, its `Meta` and its `OBJECT_NAME`. */
  datatype ResourceObject = ResourceObject(
    objectName: string,
    capabilities: set<Capability>,
    customActions: seq<CustomAction>,
    meta: Resource)

  function BuildResource(resource: Resource, serverApiBase: string): (r: Result<ResourceObject, Error>)
    ensures r.Ok? ==> r.value.objectName == serverApiBase + resource.name && r.value.meta == resource
  {
    match Accumulate(resource.name, resource.endpoints)
    case Err(e) => Err(e)
    case Ok(c) => Ok(ResourceObject(serverApiBase + resource.name, c.capabilities, c.actions, resource))
  }

  /** The inner loop: `resource_mixins.update(table[operation.method])` for each operation of one endpoint. */
  method UpdateMixins(mixins: set<Capability>, table: MapKind, ops: seq<EndpointOperation>)
    returns (r: Result<set<Capability>, Error>)
    ensures r.Ok? <==> Lookups(table, ops).Ok?
    ensures r.Ok? ==> r.value == mixins + Lookups(table, ops).value
    ensures r.Err? ==> r.error == Lookups(table, ops).error
  {
    var resourceMixins := mixins;
    var k := 0;
    while k < |ops|
      invariant 0 <= k <= |ops|
      invariant Lookups(table, ops[..k]).Ok?
      invariant resourceMixins == mixins + Lookups(table, ops[..k]).value
    {
      assert ops[..k + 1][..k] == ops[..k];
      var granted := MethodMap(table, ops[k].httpMethod);
      if granted.Err? {
        LookupsStop(table, ops, k + 1, |ops|);
        assert ops[..|ops|] == ops;
        return Err(granted.error);
      }
      resourceMixins := resourceMixins + granted.value;
      k := k + 1;
    }
    assert ops[..|ops|] == ops;
    return Ok(resourceMixins);
  }

  /** The combined outcome of the endpoints seen so far followed by one more step. */
  function Then(before: Contribution, step: Result<Contribution, Error>): Result<Contribution, Error> {
    match step
    case Err(e) => Err(e)
    case Ok(added) => Ok(Contribution(before.capabilities + added.capabilities, before.actions + added.actions))
  }

  /** One iteration of the loop: the endpoint's mixins are added, or its custom action is. */
  method AddEndpoint(resourceName: string, endpoint: Endpoint, resourceMixins: set<Capability>, customActions: seq<CustomAction>)
    returns (r: Result<Contribution, Error>)
    ensures r == Then(Contribution(resourceMixins, customActions), Contribute(resourceName, endpoint))
  {
    var kind := Classify(endpoint.path);
    if kind == CustomEndpoint {
      if |endpoint.operations| > 1 {
        return Err(Warning(MultiMethodMessage(resourceName, endpoint)));
      }
      if |endpoint.operations| == 0 {
        return Err(IndexError("list index out of range"));
      }
      var action := CustomAction(RemoveSpans(endpoint.path), endpoint.operations[0], IsDetail(endpoint.path));
      assert resourceMixins + {} == resourceMixins;
      return Ok(Contribution(resourceMixins, customActions + [action]));
    }
    var table := if kind == Collection then ObjectMap else InstanceMap;
    var updated := UpdateMixins(resourceMixins, table, endpoint.operations);
    if updated.Err? {
      return Err(updated.error);
    }
    assert customActions + [] == customActions;
    return Ok(Contribution(updated.value, customActions));
  }

  /** `_build_resource_object`: the loop over the endpoints, then `OBJECT_NAME`. */
  method BuildResourceObject(resource: Resource, serverApiBase: string) returns (r: Result<ResourceObject, Error>)
    ensures r == BuildResource(resource, serverApiBase)
  {
    var endpoints := resource.endpoints;
    var resourceMixins: set<Capability> := {};
    var customActions: seq<CustomAction> := [];
    var i := 0;
    while i < |endpoints|
      invariant 0 <= i <= |endpoints|
      invariant Accumulate(resource.name, endpoints[..i]) == Ok(Contribution(resourceMixins, customActions))
    {
      AccumulateStep(resource.name, endpoints, i);
      var step := AddEndpoint(resource.name, endpoints[i], resourceMixins, customActions);
      if step.Err? {
        AccumulateStop(resource.name, endpoints, i + 1, |endpoints|);
        assert endpoints[..|endpoints|] == endpoints;
        return Err(step.error);
      }
      resourceMixins, customActions := step.value.capabilities, step.value.actions;
      i := i + 1;
    }
    assert endpoints[..|endpoints|] == endpoints;
    return Ok(ResourceObject(serverApiBase + resource.name, resourceMixins, customActions, resource));
  }

  // ============================================================ properties of the build

  /** Endpoint `endpoint` grants capability `c`: it is the collection or an instance and one of its verbs maps to `c`. */
  predicate Contributes(endpoint: Endpoint, c: Capability) {
    match Classify(endpoint.path)
    case Collection => exists op :: op in endpoint.operations && Grants(ObjectMap, op, c)
    case InstanceEndpoint => exists op :: op in endpoint.operations && Grants(InstanceMap, op, c)
    case CustomEndpoint => false
  }

  lemma ContributeUnion(resourceName: string, endpoint: Endpoint)
    ensures Contribute(resourceName, endpoint).Ok? ==>
              forall c :: c in Contribute(resourceName, endpoint).value.capabilities <==> Contributes(endpoint, c)
  {
    LookupsUnion(ObjectMap, endpoint.operations);
    LookupsUnion(InstanceMap, endpoint.operations);
  }

  /**
   * The build succeeds exactly when every endpoint's step succeeds, and the
   * capability set is the union of what the endpoints grant.
   */
  lemma {:induction false} AccumulateUnion(resourceName: string, endpoints: seq<Endpoint>)
    ensures Accumulate(resourceName, endpoints).Ok? <==>
              forall ep :: ep in endpoints ==> Contribute(resourceName, ep).Ok?
    ensures Accumulate(resourceName, endpoints).Ok? ==>
              forall c :: c in Accumulate(resourceName, endpoints).value.capabilities <==>
                exists ep :: ep in endpoints && Contributes(ep, c)
    decreases |endpoints|
  {
    if endpoints != [] {
      var init := endpoints[..|endpoints| - 1];
      var last := endpoints[|endpoints| - 1];
      AccumulateUnion(resourceName, init);
      ContributeUnion(resourceName, last);
      assert endpoints == init + [last];
      assert forall ep :: ep in endpoints <==> ep in init || ep == last;
    }
  }

  /**
   * The order of the endpoints and repeated endpoints make no difference to
   * whether the build succeeds or to the capability set.
   */
  lemma OrderIrrelevant(resourceName: string, endpoints1: seq<Endpoint>, endpoints2: seq<Endpoint>)
    requires forall ep :: ep in endpoints1 <==> ep in endpoints2
    ensures Accumulate(resourceName, endpoints1).Ok? == Accumulate(resourceName, endpoints2).Ok?
    ensures Accumulate(resourceName, endpoints1).Ok? ==>
              Accumulate(resourceName, endpoints1).value.capabilities == Accumulate(resourceName, endpoints2).value.capabilities
  {
    AccumulateUnion(resourceName, endpoints1);
    AccumulateUnion(resourceName, endpoints2);
  }

  /** The method tables grant capabilities only to names of the `TRequestMethods` literal type. */
  lemma MethodMapVerbs(kind: MapKind, httpMethod: string)
    ensures MethodMap(kind, httpMethod).Ok? ==> ParseVerb(httpMethod).Some?
    ensures ParseVerb(httpMethod).None? ==> MethodMap(kind, httpMethod) == Err(KeyError(httpMethod))
  {
  }

  /** A custom endpoint with several verbs makes the whole build fail, so no resource class is made. */
  lemma MultiVerbActionRejected(resource: Resource, serverApiBase: string, endpoint: Endpoint)
    requires endpoint in resource.endpoints
    requires Classify(endpoint.path) == CustomEndpoint && |endpoint.operations| > 1
    ensures BuildResource(resource, serverApiBase).Err?
  {
    AccumulateUnion(resource.name, resource.endpoints);
  }

  /** The action a custom endpoint with at least one operation stands for. */
  function ActionOf(ep: Endpoint): CustomAction
    requires |ep.operations| >= 1
  {
    CustomAction(RemoveSpans(ep.path), ep.operations[0], IsDetail(ep.path))
  }

  /** The number of custom endpoints. */
  function CustomCount(endpoints: seq<Endpoint>): nat
    decreases |endpoints|
  {
    if endpoints == [] then 0
    else CustomCount(endpoints[..|endpoints| - 1]) + (if Classify(endpoints[|endpoints| - 1].path) == CustomEndpoint then 1 else 0)
  }

  /** The actions of the custom endpoints, in endpoint order; endpoints without an operation add none. */
  function CustomActionsOf(endpoints: seq<Endpoint>): (actions: seq<CustomAction>)
    ensures |actions| <= CustomCount(endpoints)
    decreases |endpoints|
  {
    if endpoints == [] then []
    else
      var last := endpoints[|endpoints| - 1];
      CustomActionsOf(endpoints[..|endpoints| - 1])
      + (if Classify(last.path) == CustomEndpoint && |last.operations| >= 1 then [ActionOf(last)] else [])
  }

  /** Every custom endpoint has exactly one operation. */
  predicate SingleOperationActions(endpoints: seq<Endpoint>) {
    forall ep :: ep in endpoints && Classify(ep.path) == CustomEndpoint ==> |ep.operations| == 1
  }

  /** A successful loop collects exactly the custom endpoints' actions, and each had one operation. */
  lemma {:induction false} AccumulateActions(resourceName: string, endpoints: seq<Endpoint>)
    requires Accumulate(resourceName, endpoints).Ok?
    ensures Accumulate(resourceName, endpoints).value.actions == CustomActionsOf(endpoints)
    ensures SingleOperationActions(endpoints)
    decreases |endpoints|
  {
    if endpoints != [] {
      var init := endpoints[..|endpoints| - 1];
      var last := endpoints[|endpoints| - 1];
      AccumulateActions(resourceName, init);
      assert endpoints == init + [last];
      assert forall ep :: ep in endpoints ==> ep in init || ep == last;
    }
  }

  /** With one operation per custom endpoint, there is one action per custom endpoint, each drawn from it. */
  lemma {:induction false} CustomActionsMembers(endpoints: seq<Endpoint>)
    requires SingleOperationActions(endpoints)
    ensures |CustomActionsOf(endpoints)| == CustomCount(endpoints)
    ensures forall a :: a in CustomActionsOf(endpoints) ==>
              exists ep :: ep in endpoints && Classify(ep.path) == CustomEndpoint
                           && a == CustomAction(RemoveSpans(ep.path), a.operation, IsDetail(ep.path))
                           && ep.operations == [a.operation]
    ensures forall ep :: ep in endpoints && Classify(ep.path) == CustomEndpoint ==> ActionOf(ep) in CustomActionsOf(endpoints)
    decreases |endpoints|
  {
    if endpoints != [] {
      var init := endpoints[..|endpoints| - 1];
      var last := endpoints[|endpoints| - 1];
      assert endpoints == init + [last];
      assert forall ep :: ep in init ==> ep in endpoints;
      CustomActionsMembers(init);
      if Classify(last.path) == CustomEndpoint {
        assert last.operations == [last.operations[0]];
      }
    }
  }

  /**
   * The custom actions are the custom endpoints in order, one each, with their
   * spans removed: every action comes from a custom endpoint with that single
   * operation, and every custom endpoint gives its action.
   */
  lemma ActionsFromCustomEndpoints(resourceName: string, endpoints: seq<Endpoint>)
    requires Accumulate(resourceName, endpoints).Ok?
    ensures Accumulate(resourceName, endpoints).value.actions == CustomActionsOf(endpoints)
    ensures |CustomActionsOf(endpoints)| == CustomCount(endpoints)
    ensures forall a :: a in Accumulate(resourceName, endpoints).value.actions ==>
              exists ep :: ep in endpoints && Classify(ep.path) == CustomEndpoint
                           && a == CustomAction(RemoveSpans(ep.path), a.operation, IsDetail(ep.path))
                           && ep.operations == [a.operation]
    ensures forall ep :: ep in endpoints && Classify(ep.path) == CustomEndpoint ==>
              |ep.operations| == 1 && ActionOf(ep) in Accumulate(resourceName, endpoints).value.actions
  {
    AccumulateActions(resourceName, endpoints);
    CustomActionsMembers(endpoints);
  }

  /** An unknown verb: PUT on the collection and POST on an instance raise KeyError. */
  lemma UnknownVerbExamples(returnType: Option<string>)
    ensures Contribute("silos", Endpoint("/", [EndpointOperation(returnType, "PUT")])) == Err(KeyError("PUT"))
    ensures Contribute("silos", Endpoint("{id}/", [EndpointOperation(returnType, "POST")])) == Err(KeyError("POST"))
  {
    InstancePathExample();
    var put := [EndpointOperation(returnType, "PUT")];
    assert put[..|put| - 1] == [];
    assert Lookups(ObjectMap, put) == Err(KeyError("PUT"));
    var post := [EndpointOperation(returnType, "POST")];
    assert post[..|post| - 1] == [];
    assert Lookups(InstanceMap, post) == Err(KeyError("POST"));
  }

  lemma InstancePathExample()
    ensures Classify("{id}/") == InstanceEndpoint
  {
    assert LineEnd("{id}/", 1) == 5;
  }

  /**
   * A custom action below a detail route, `{n}/a` with a one-line name `a`
   * free of `/`: it contributes one detail action whose endpoint and
   * method name are both `a`.
   */
  lemma {:induction false} DetailActionContribution(resourceName: string, n: string, a: string, op: EndpointOperation)
    requires forall k :: 0 <= k < |n| ==> n[k] != '}' && n[k] != '\n' && !IsUpper(n[k]) && !IsSpace(n[k])
    requires a != [] && a[|a| - 1] != '.'
    requires forall k :: 0 <= k < |a| ==> a[k] != '/' && a[k] != '\n' && a[k] != '{' && !IsUpper(a[k]) && !IsSpace(a[k])
    ensures Contribute(resourceName, Endpoint("{" + n + "}/" + a, [op])) == Ok(Contribution({}, [CustomAction(a, op, true)]))
    ensures MethodName(CustomAction(a, op, true)) == a
  {
    var path := "{" + n + "}/" + a;
    var j := |n| + 1;
    forall k | 0 <= k < |path| ensures path[k] != '\n' {
      if 1 <= k <= |n| {
        assert path[k] == n[k - 1];
      } else if j + 2 <= k {
        assert path[k] == a[k - j - 2];
      }
    }
    assert path[|path| - 1] == a[|a| - 1];
    InstancePathSingleLine(path);
    assert CloseAt(path, j);
    DetailSingleLine(path);
    DetailSpanCut(n, a);
    SanitizeExample(a, a);
  }

  /** `{id}/cancel` is a detail custom action named `cancel`. */
  lemma DetailActionExample(path: string, name: string, op: EndpointOperation)
    requires path == "{id}/cancel" && name == "cancel"
    ensures Contribute("silos", Endpoint(path, [op])) == Ok(Contribution({}, [CustomAction(name, op, true)]))
    ensures MethodName(CustomAction(name, op, true)) == name
  {
    var n := path[1..3];
    assert path == "{" + n + "}/" + name;
    DetailActionContribution("silos", n, name, op);
  }

  // ============================================================ running a custom action

  /**
   * `_run`'s URL: the instance URL followed by the endpoint when the action
   * is a detail action and the id is truthy, otherwise the class URL
   * followed by the endpoint.
   */
  function CustomActionUrl(cls: ResourceClass, action: CustomAction, objectId: ObjectId): (r: Result<string, Error>)
    ensures action.detail && Truthy(objectId) ==>
              (r.Ok? <==> InstanceUrl(cls, objectId).Ok?)
              && (r.Ok? ==> r.value == InstanceUrl(cls, objectId).value + action.endpoint)
              && (r.Err? ==> r.error == InstanceUrl(cls, objectId).error)
    ensures !(action.detail && Truthy(objectId)) ==>
              (r.Ok? <==> ClassUrl(cls).Ok?)
              && (r.Ok? ==> r.value == ClassUrl(cls).value + action.endpoint)
              && (r.Err? ==> r.error == ClassUrl(cls).error)
  {
    var baseUrl := if action.detail && Truthy(objectId) then InstanceUrl(cls, objectId) else ClassUrl(cls);
    match baseUrl
    case Err(e) => Err(e)
    case Ok(base) => Ok(base + action.endpoint)
  }

  /**
   * Calling the installed action: once the URL is computed, `_request` is
   * called without its `return_schema` argument, which raises.
   */
  function RunCustomAction(cls: ResourceClass, action: CustomAction, objectId: ObjectId): (e: Error)
    ensures CustomActionUrl(cls, action, objectId).Err? ==> e == CustomActionUrl(cls, action, objectId).error
    ensures CustomActionUrl(cls, action, objectId).Ok? ==>
              e == TypeError("_request() missing 1 required positional argument: 'return_schema'")
  {
    match CustomActionUrl(cls, action, objectId)
    case Err(e) => e
    case Ok(_) => TypeError("_request() missing 1 required positional argument: 'return_schema'")
  }

  /** The generated class as the URL helpers see it. */
  function AsResourceClass(obj: ResourceObject): (cls: ResourceClass)
    ensures ClassUrl(cls) == Ok(DotsToSlashes(obj.objectName))
  {
    ResourceSubclass("DynamicResource", Some(obj.objectName), Some(obj.meta))
  }

  /** A detail action `cancel` on instance 11 of `api.v2.silos` goes to `api/v2/silos/11/` followed by `cancel`. */
  lemma DetailActionUrlExample(cls: ResourceClass, action: CustomAction, id: ObjectId)
    requires IsSilos(cls) && action.endpoint == "cancel" && action.detail && id == IntId(11)
    ensures CustomActionUrl(cls, action, id) == Ok("api/v2/silos/11/" + action.endpoint)
  {
    assert Truthy(id);
    InstanceUrlExample(cls, id);
  }

  /**
   * With id 0, which is falsy, the same detail action falls back to the
   * class URL `api/v2/silos` followed directly by `cancel`, with no `/` between.
   */
  lemma FalsyIdUrlExample(cls: ResourceClass, action: CustomAction, id: ObjectId)
    requires IsSilos(cls) && action.endpoint == "cancel" && action.detail && id == IntId(0)
    ensures CustomActionUrl(cls, action, id) == Ok("api/v2/silos" + action.endpoint)
  {
    assert !Truthy(id);
    ClassUrlExample(cls);
  }

  /**
   * A non-detail action's URL is the class URL and the endpoint run
   * together, with no `/` between them.
   */
  lemma NonDetailUrlHasNoSeparator(cls: ResourceClass, action: CustomAction, objectId: ObjectId)
    requires !action.detail && ClassUrl(cls).Ok?
    requires |action.endpoint| > 0 && action.endpoint[0] != '/'
    ensures CustomActionUrl(cls, action, objectId).Ok?
    ensures var u := CustomActionUrl(cls, action, objectId).value;
            var base := ClassUrl(cls).value;
            u[..|base|] == base && u[|base|] == action.endpoint[0] && u[|base|] != '/'
  {
  }

  /** An action that resolves its URL still fails: no custom action ever reaches the transport. */
  lemma CustomActionNeverSends(cls: ResourceClass, action: CustomAction, objectId: ObjectId)
    requires CustomActionUrl(cls, action, objectId).Ok?
    ensures RunCustomAction(cls, action, objectId).TypeError?
  {
  }
}
