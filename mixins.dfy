/**
 * The capability mixins of `django_rest_generator/mixins.py`. Every CRUD
 * capability is one choice of verb and URL handed to `make_request`;
 * `all` is the page loop whose bound comes from the first response.
 */
module Mixins {
  import opened Common
  import opened Json
  import opened ApiResource
  import opened Response

  /** Query parameters (`TParams`). */
  type Params = map<string, Json>

  /** The capability mixins a generated resource class can combine. */
  datatype Capability =
    | Retrievable
    | Listable
    | Createable
    | Updateable
    | PartiallyUpdateable
    | DeletableObject
    | Deletable
    | Pagination
    | Singleton

  /**
   * `r` is what a capability returns once it has chosen `verb` and `url`:
   * a URL that could not be computed is raised first, otherwise
   * `make_request` decides, with the query and body passed through.
   */
  predicate Issues(r: Result<Request, Error>, cls: ResourceClass, verb: Verb, url: Result<string, Error>,
                   params: Option<Params>, json: Option<Json>)
  {
    && (url.Err? ==> r == Err(url.error))
    && (url.Ok? ==> r == MakeRequest(cls, verb, url.value, params, json))
    && (r.Ok? ==> url.Ok? && r.value.verb == verb && r.value.url == url.value
                  && r.value.params == params && r.value.json == json)
  }

  function Send(cls: ResourceClass, verb: Verb, url: Result<string, Error>, params: Option<Params>, json: Option<Json>)
    : (r: Result<Request, Error>)
    ensures Issues(r, cls, verb, url, params, json)
  {
    match url
    case Err(e) => Err(e)
    case Ok(u) => MakeRequest(cls, verb, u, params, json)
  }

  /** `RetrievableAPIResourceMixin.retrieve`: GET on the instance URL. */
  function Retrieve(cls: ResourceClass, id: ObjectId, params: Option<Params>): (r: Result<Request, Error>)
    ensures Issues(r, cls, GET, InstanceUrl(cls, id), params, None)
  {
    Send(cls, GET, InstanceUrl(cls, id), params, None)
  }

  /** `ListableAPIResourceMixin.list`: GET on the class URL. */
  function List(cls: ResourceClass, params: Option<Params>): (r: Result<Request, Error>)
    ensures Issues(r, cls, GET, ClassUrl(cls), params, None)
  {
    Send(cls, GET, ClassUrl(cls), params, None)
  }

  /** `CreateableAPIResourceMixin.create`: POST of `data` on the class URL. */
  function Create(cls: ResourceClass, data: Option<Json>, params: Option<Params>): (r: Result<Request, Error>)
    ensures Issues(r, cls, POST, ClassUrl(cls), params, data)
  {
    Send(cls, POST, ClassUrl(cls), params, data)
  }

  /** `UpdateableAPIResourceMixin.update`: PUT of `data` on the instance URL. */
  function Update(cls: ResourceClass, id: ObjectId, data: Option<Json>, params: Option<Params>): (r: Result<Request, Error>)
    ensures Issues(r, cls, PUT, InstanceUrl(cls, id), params, data)
  {
    Send(cls, PUT, InstanceUrl(cls, id), params, data)
  }

  /** `PartiallyUpdateableAPIResourceMixin.partial_update`: PATCH of `data` on the instance URL. */
  function PartialUpdate(cls: ResourceClass, id: ObjectId, data: Option<Json>, params: Option<Params>): (r: Result<Request, Error>)
    ensures Issues(r, cls, PATCH, InstanceUrl(cls, id), params, data)
  {
    Send(cls, PATCH, InstanceUrl(cls, id), params, data)
  }

  /** `DeletableObjectResourceMixin.list`: despite its name, DELETE on the class URL. */
  function DeleteObjects(cls: ResourceClass, params: Option<Params>): (r: Result<Request, Error>)
    ensures Issues(r, cls, DELETE, ClassUrl(cls), params, None)
  {
    Send(cls, DELETE, ClassUrl(cls), params, None)
  }

  /** `DeletableAPIResourceMixin.delete`: DELETE on the instance URL. */
  function Delete(cls: ResourceClass, id: ObjectId, params: Option<Params>): (r: Result<Request, Error>)
    ensures Issues(r, cls, DELETE, InstanceUrl(cls, id), params, None)
  {
    Send(cls, DELETE, InstanceUrl(cls, id), params, None)
  }

  /**
   * `SingletonAPIResourceMixin.get`: GET on the class URL. In a generated
   * resource class `APIResource` comes first, so its `class_url` is the one
   * called.
   */
  function SingletonGet(cls: ResourceClass, params: Option<Params>): (r: Result<Request, Error>)
    ensures Issues(r, cls, GET, ClassUrl(cls), params, None)
  {
    Send(cls, GET, ClassUrl(cls), params, None)
  }

  /** A request `r` that was sent went to the class URL, then `/`, the id and `/`. */
  predicate TargetsInstance(r: Result<Request, Error>, cls: ResourceClass, id: ObjectId) {
    r.Ok? ==> ClassUrl(cls).Ok? && IsValidId(id) && r.value.url == ClassUrl(cls).value + "/" + IdText(id) + "/"
  }

  /** Whatever is sent to the instance URL targets the instance; a refused id is raised as is. */
  lemma IssuedToInstance(r: Result<Request, Error>, cls: ResourceClass, verb: Verb, id: ObjectId,
                         params: Option<Params>, json: Option<Json>)
    requires Issues(r, cls, verb, InstanceUrl(cls, id), params, json)
    ensures TargetsInstance(r, cls, id)
    ensures !IsValidId(id) ==> r == Err(RuntimeError(InvalidIdMessage(id)))
  {
  }

  /** The instance capabilities send to the class URL, then `/`, the id and `/`; the id is checked before anything else. */
  lemma InstanceCapabilitiesTarget(cls: ResourceClass, id: ObjectId, data: Option<Json>, params: Option<Params>)
    ensures TargetsInstance(Retrieve(cls, id, params), cls, id)
    ensures TargetsInstance(Update(cls, id, data, params), cls, id)
    ensures TargetsInstance(PartialUpdate(cls, id, data, params), cls, id)
    ensures TargetsInstance(Delete(cls, id, params), cls, id)
    ensures !IsValidId(id) ==> Retrieve(cls, id, params) == Update(cls, id, data, params)
                               == PartialUpdate(cls, id, data, params) == Delete(cls, id, params)
                               == Err(RuntimeError(InvalidIdMessage(id)))
  {
    IssuedToInstance(Retrieve(cls, id, params), cls, GET, id, params, None);
    IssuedToInstance(Update(cls, id, data, params), cls, PUT, id, params, data);
    IssuedToInstance(PartialUpdate(cls, id, data, params), cls, PATCH, id, params, data);
    IssuedToInstance(Delete(cls, id, params), cls, DELETE, id, params, None);
  }

  /** Singleton `get` sends exactly the request `list` sends. */
  lemma SingletonGetIsList(cls: ResourceClass, params: Option<Params>)
    ensures SingletonGet(cls, params) == List(cls, params)
  {
  }

  /** The class a singleton class method is called on: the mixin itself or a subclass. */
  datatype SingletonClass =
    | SingletonMixin
    | SingletonSubclass(className: string, objectName: Option<string>)

  /** Unlike the base class's message, this one has a space before the advice and before the final period. */
  const SingletonAbstractMessage: string := "SingletonAPIResource is an abstract class." + " " + SubclassAdvice + " ."

  /** `SingletonAPIResourceMixin.class_url`. */
  function SingletonClassUrl(cls: SingletonClass): (r: Result<string, Error>)
    ensures cls.SingletonMixin? ==> r == Err(NotImplementedError(SingletonAbstractMessage))
    ensures cls.SingletonSubclass? && cls.objectName.Some? ==> r == Ok(DotsToSlashes(cls.objectName.value))
    ensures cls.SingletonSubclass? && cls.objectName.None? ==> r == Err(MissingClassAttribute(cls.className, "OBJECT_NAME"))
  {
    match cls
    case SingletonMixin => Err(NotImplementedError(SingletonAbstractMessage))
    case SingletonSubclass(className, objectName) =>
      match objectName
      case None => Err(MissingClassAttribute(className, "OBJECT_NAME"))
      case Some(name) => Ok(DotsToSlashes(name))
  }

  /** `SingletonAPIResourceMixin.instance_url`: a singleton has no id, its one instance lives at the class URL. */
  function SingletonInstanceUrl(cls: SingletonClass): (r: Result<string, Error>)
    ensures cls.SingletonMixin? ==> r == Err(NotImplementedError(SingletonAbstractMessage))
    ensures cls.SingletonSubclass? && cls.objectName.Some? ==> r == Ok(DotsToSlashes(cls.objectName.value))
    ensures cls.SingletonSubclass? && cls.objectName.None? ==> r == Err(MissingClassAttribute(cls.className, "OBJECT_NAME"))
  {
    SingletonClassUrl(cls)
  }

  /**
   * A singleton subclass and a resource subclass with the same object name
   * have the same class URL; the two abstract bases refuse with different
   * messages.
   */
  lemma SingletonClassUrlAgrees(className: string, objectName: Option<string>, meta: Option<ParserModels.Resource>)
    ensures SingletonClassUrl(SingletonSubclass(className, objectName)) == ClassUrl(ResourceSubclass(className, objectName, meta))
    ensures SingletonClassUrl(SingletonMixin).Err? && ClassUrl(AbstractResource).Err?
    ensures SingletonClassUrl(SingletonMixin).error.message != ClassUrl(AbstractResource).error.message
  {
    assert |SingletonAbstractMessage| != |AbstractClassMessage|;
  }

  /** `dict(params or {}, page=page)`: the caller's parameters with `page` set. */
  function PageParams(params: Option<Params>, page: int): (p: Params)
    ensures "page" in p && p["page"] == JInt(page)
    ensures forall k | k != "page" :: k in p <==> params.Some? && k in params.value
    ensures forall k | k != "page" && k in p :: p[k] == params.value[k]
  {
    params.GetOr(map[])["page" := JInt(page)]
  }

  /**
   * `data.get("total_pages", 1) + 1` as `range` sees it: an int or a
   * bool is accepted (a bool is 0 or 1), anything else fails on the `+ 1` or
   * in `range`.
   */
  function PageBound(v: Json): (r: Result<int, Error>)
    ensures r.Ok? <==> v.JInt? || v.JBool?
    ensures v.JInt? ==> r == Ok(v.i)
    ensures v.JBool? ==> r == Ok(if v.b then 1 else 0)
  {
    match v
    case JInt(n) => Ok(n)
    case JBool(b) => Ok(if b then 1 else 0)
    case JFloat(_, _) => Err(TypeError("'float' object cannot be interpreted as an integer"))
    case JStr(_) => Err(TypeError("can only concatenate str (not \"int\") to str"))
    case JList(_) => Err(TypeError("can only concatenate list (not \"int\") to list"))
    case JNull => Err(TypeError("unsupported operand type(s) for +: 'NoneType' and 'int'"))
    case JObject(_) => Err(TypeError("unsupported operand type(s) for +: 'dict' and 'int'"))
  }

  /** `response.data.get("total_pages", 1)` for the first page, as a page bound. */
  function TotalPages(data: Option<Data>): (r: Result<int, Error>)
    ensures data.None? ==> r == Err(AttributeError("'APIResponse' object has no attribute 'data'"))
    ensures r.Ok? <==> data.Some? && data.value.Plain? && data.value.json.JObject?
                       && (Get(data.value.json.entries, "total_pages").Some? ==>
                             PageBound(Get(data.value.json.entries, "total_pages").value).Ok?)
    ensures r.Ok? && Get(data.value.json.entries, "total_pages").None? ==> r.value == 1
    ensures r.Ok? && Get(data.value.json.entries, "total_pages").Some? ==>
              r == PageBound(Get(data.value.json.entries, "total_pages").value)
  {
    match data
    case None => Err(AttributeError("'APIResponse' object has no attribute 'data'"))
    case Some(Typed(className, _)) => Err(AttributeError("'" + className + "' object has no attribute 'get'"))
    case Some(Plain(j)) =>
      if !j.JObject? then Err(AttributeError("'" + TypeName(j) + "' object has no attribute 'get'"))
      else
        match Get(j.entries, "total_pages")
        case None => Ok(1)
        case Some(v) => PageBound(v)
  }

  /** What the transport and the response envelope make of a request: the response's `data`, or the exception raised. */
  type Responder = Request -> Result<Option<Data>, Error>

  /** The request for one page. */
  function PageRequest(cls: ResourceClass, params: Option<Params>, page: int): (r: Result<Request, Error>)
    ensures r.Ok? ==> r.value.verb == GET && Ok(r.value.url) == ClassUrl(cls)
                      && r.value.params == Some(PageParams(params, page)) && r.value.json == None
  {
    List(cls, Some(PageParams(params, page)))
  }

  /** Requesting one page and receiving its response's `data`; an exception in either is raised. */
  function Fetch(cls: ResourceClass, params: Option<Params>, respond: Responder, page: int)
    : (r: Result<(Request, Option<Data>), Error>)
    ensures r.Ok? <==> PageRequest(cls, params, page).Ok? && respond(PageRequest(cls, params, page).value).Ok?
    ensures r.Ok? ==> r.value.0 == PageRequest(cls, params, page).value
                      && r.value.1 == respond(r.value.0).value
  {
    match PageRequest(cls, params, page)
    case Err(e) => Err(e)
    case Ok(request) =>
      match respond(request)
      case Err(e) => Err(e)
      case Ok(data) => Ok((request, data))
  }

  /** What the generator yields before it stops, and the exception it stops with, if any. */
  datatype Pages = Pages(yielded: seq<(Request, int)>, error: Option<Error>)

  /** Pages 2 to `n` in order, up to the first page whose request or response fails. */
  function LaterPages(cls: ResourceClass, params: Option<Params>, respond: Responder, n: int): (p: Pages)
    decreases n
  {
    if n < 2 then Pages([], None)
    else
      var before := LaterPages(cls, params, respond, n - 1);
      if before.error.Some? then before
      else
        match Fetch(cls, params, respond, n)
        case Err(e) => Pages(before.yielded, Some(e))
        case Ok((request, _)) => Pages(before.yielded + [(request, n)], None)
  }

  /**
   * `PaginationAPIResourceMixin.all` run to its end: page 1 is yielded
   * before its `total_pages` is read, then pages 2 to `total_pages` follow;
   * the later responses are not read.
   */
  function AllPages(cls: ResourceClass, params: Option<Params>, respond: Responder): (p: Pages)
  {
    match Fetch(cls, params, respond, 1)
    case Err(e) => Pages([], Some(e))
    case Ok((request, data)) =>
      match TotalPages(data)
      case Err(e) => Pages([(request, 1)], Some(e))
      case Ok(n) =>
        var later := LaterPages(cls, params, respond, n);
        Pages([(request, 1)] + later.yielded, later.error)
  }

  /** `all`: the (request, page) pairs the generator yields, and the exception that ends it early, if any. */
  method All(cls: ResourceClass, params: Option<Params>, respond: Responder)
    returns (yielded: seq<(Request, int)>, error: Option<Error>)
    ensures Pages(yielded, error) == AllPages(cls, params, respond)
  {
    var request := List(cls, Some(PageParams(params, 1)));
    if request.Err? {
      return [], Some(request.error);
    }
    var response := respond(request.value);
    if response.Err? {
      return [], Some(response.error);
    }
    yielded := [(request.value, 1)];
    var totalPages := TotalPages(response.value);
    if totalPages.Err? {
      return yielded, Some(totalPages.error);
    }
    var page := 2;
    while page < totalPages.value + 1
      invariant 2 <= page && (page <= totalPages.value + 1 || page == 2)
      invariant LaterPages(cls, params, respond, page - 1).error.None?
      invariant yielded == [(request.value, 1)] + LaterPages(cls, params, respond, page - 1).yielded
      decreases totalPages.value + 1 - page
    {
      PageRequestAnyPage(cls, params, 1, page);
      var next := List(cls, Some(PageParams(params, page)));
      var nextResponse := respond(next.value);
      if nextResponse.Err? {
        LaterPagesStop(cls, params, respond, page, totalPages.value);
        return yielded, Some(nextResponse.error);
      }
      LaterPagesNext(cls, params, respond, page);
      yielded := yielded + [(next.value, page)];
      page := page + 1;
    }
    assert LaterPages(cls, params, respond, page - 1) == LaterPages(cls, params, respond, totalPages.value);
    error := None;
  }

  /**
   * The page number takes no part in resolving the URL or the schema, so a
   * request that can be made for one page can be made for every page.
   */
  lemma PageRequestAnyPage(cls: ResourceClass, params: Option<Params>, page: int, other: int)
    requires PageRequest(cls, params, page).Ok?
    ensures PageRequest(cls, params, other).Ok?
  {
  }

  /** After pages 2 to `n - 1` went through, page `n` is requested and yielded once its response arrives. */
  lemma LaterPagesNext(cls: ResourceClass, params: Option<Params>, respond: Responder, n: int)
    requires n >= 2 && LaterPages(cls, params, respond, n - 1).error.None?
    requires Fetch(cls, params, respond, n).Ok?
    ensures LaterPages(cls, params, respond, n)
         == Pages(LaterPages(cls, params, respond, n - 1).yielded + [(Fetch(cls, params, respond, n).value.0, n)], None)
  {
  }

  /** Once a page fails, no later page is requested. */
  lemma {:induction false} LaterPagesStop(cls: ResourceClass, params: Option<Params>, respond: Responder, k: int, m: int)
    requires k <= m
    requires LaterPages(cls, params, respond, k).error.Some?
    ensures LaterPages(cls, params, respond, m) == LaterPages(cls, params, respond, k)
    decreases m - k
  {
    if k < m {
      LaterPagesStop(cls, params, respond, k, m - 1);
    }
  }

  function Max(a: int, b: int): int {
    if a < b then b else a
  }

  /** The yielded pages are numbered `first`, `first + 1`, … and each was requested as its page. */
  predicate NumberedFrom(ys: seq<(Request, int)>, first: int, cls: ResourceClass, params: Option<Params>) {
    forall i :: 0 <= i < |ys| ==> ys[i].1 == i + first && Ok(ys[i].0) == PageRequest(cls, params, i + first)
  }

  lemma SnocNumbered(ys: seq<(Request, int)>, first: int, request: Request, cls: ResourceClass, params: Option<Params>)
    requires NumberedFrom(ys, first, cls, params)
    requires Ok(request) == PageRequest(cls, params, |ys| + first)
    ensures NumberedFrom(ys + [(request, |ys| + first)], first, cls, params)
  {
    var zs := ys + [(request, |ys| + first)];
    forall i | 0 <= i < |zs| ensures zs[i].1 == i + first && Ok(zs[i].0) == PageRequest(cls, params, i + first) {
      if i < |ys| {
        assert zs[i] == ys[i];
      }
    }
  }

  lemma ConsNumbered(request: Request, ys: seq<(Request, int)>, first: int, cls: ResourceClass, params: Option<Params>)
    requires NumberedFrom(ys, first + 1, cls, params)
    requires Ok(request) == PageRequest(cls, params, first)
    ensures NumberedFrom([(request, first)] + ys, first, cls, params)
  {
    var zs := [(request, first)] + ys;
    forall i | 0 <= i < |zs| ensures zs[i].1 == i + first && Ok(zs[i].0) == PageRequest(cls, params, i + first) {
      if i > 0 {
        assert zs[i] == ys[i - 1];
      }
    }
  }

  /** Pages 2 to `n`: at most `n - 1` of them, all of them unless one fails, numbered from 2 on and requested as page `i`. */
  lemma {:induction false} LaterPagesShape(cls: ResourceClass, params: Option<Params>, respond: Responder, n: int)
    ensures var p := LaterPages(cls, params, respond, n);
            && |p.yielded| <= Max(0, n - 1)
            && (p.error.None? ==> |p.yielded| == Max(0, n - 1))
            && NumberedFrom(p.yielded, 2, cls, params)
    decreases n
  {
    if n >= 2 {
      LaterPagesShape(cls, params, respond, n - 1);
      var before := LaterPages(cls, params, respond, n - 1);
      if before.error.None? && Fetch(cls, params, respond, n).Ok? {
        SnocNumbered(before.yielded, 2, Fetch(cls, params, respond, n).value.0, cls, params);
      }
    }
  }

  /** `all` yields pages numbered 1, 2, …, each requested as its page. */
  lemma AllPagesNumbered(cls: ResourceClass, params: Option<Params>, respond: Responder)
    ensures NumberedFrom(AllPages(cls, params, respond).yielded, 1, cls, params)
  {
    var first := Fetch(cls, params, respond, 1);
    if first.Ok? && TotalPages(first.value.1).Ok? {
      var n := TotalPages(first.value.1).value;
      LaterPagesShape(cls, params, respond, n);
      ConsNumbered(first.value.0, LaterPages(cls, params, respond, n).yielded, 1, cls, params);
    }
  }

  /**
   * When the first page's `total_pages` is `n`, `all` yields at most
   * max(1, n) pages, exactly that many unless a request fails, numbered
   * 1, 2, … in order.
   */
  lemma AllPageCount(cls: ResourceClass, params: Option<Params>, respond: Responder)
    requires Fetch(cls, params, respond, 1).Ok?
    requires TotalPages(Fetch(cls, params, respond, 1).value.1).Ok?
    ensures var n := TotalPages(Fetch(cls, params, respond, 1).value.1).value;
            var p := AllPages(cls, params, respond);
            && |p.yielded| <= Max(1, n)
            && (p.error.None? ==> |p.yielded| == Max(1, n))
            && forall i :: 0 <= i < |p.yielded| ==> p.yielded[i].1 == i + 1
  {
    var n := TotalPages(Fetch(cls, params, respond, 1).value.1).value;
    LaterPagesShape(cls, params, respond, n);
    AllPagesNumbered(cls, params, respond);
  }

  /**
   * Every page request is `list` on the class URL with the caller's
   * parameters unchanged except `page`, which is set to the page number.
   */
  lemma AllParamsPreserved(cls: ResourceClass, params: Option<Params>, respond: Responder)
    ensures var p := AllPages(cls, params, respond);
            forall i :: 0 <= i < |p.yielded| ==>
              var (request, page) := p.yielded[i];
              && request.verb == GET && Ok(request.url) == ClassUrl(cls)
              && request.params == Some(PageParams(params, page))
  {
    AllPagesNumbered(cls, params, respond);
    var p := AllPages(cls, params, respond);
    forall i | 0 <= i < |p.yielded|
      ensures p.yielded[i].0.verb == GET && Ok(p.yielded[i].0.url) == ClassUrl(cls)
              && p.yielded[i].0.params == Some(PageParams(params, p.yielded[i].1))
    {
      assert Ok(p.yielded[i].0) == PageRequest(cls, params, p.yielded[i].1);
    }
  }

  /** Without a `total_pages` entry, `all` yields the first page and stops. */
  lemma MissingTotalIsOnePage(cls: ResourceClass, params: Option<Params>, respond: Responder)
    requires Fetch(cls, params, respond, 1).Ok?
    requires var data := Fetch(cls, params, respond, 1).value.1;
             data.Some? && data.value.Plain? && data.value.json.JObject?
             && !HasKey(data.value.json.entries, "total_pages")
    ensures AllPages(cls, params, respond) == Pages([(Fetch(cls, params, respond, 1).value.0, 1)], None)
  {
  }
}
