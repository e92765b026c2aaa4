/**
 * `APIResource` of `django_rest_generator/resource.py`: the URL of a resource
 * class, the URL of one of its instances, and the request a capability sends.
 * The transport behind `_request` is not modelled; a request is the record of
 * what would be sent.
 */
module ApiResource {
  import opened Common
  import opened Json
  import opened Text
  import opened Utils
  import opened ParserModels

  /**
   * The class a class method is called on: the abstract base itself, or a
   * subclass, which may lack `OBJECT_NAME` or `Meta`.
   */
  datatype ResourceClass =
    | AbstractResource
    | ResourceSubclass(className: string, objectName: Option<string>, meta: Option<Resource>)

  /** The advice every refusal of an abstract class carries. */
  const SubclassAdvice: string := "You should perform actions on its subclasses"

  /** The two message parts are joined without a space. */
  const AbstractClassMessage: string := "APIResource is an abstract class." + SubclassAdvice + "."

  /** The error Python raises when a class lacks an attribute. */
  function MissingClassAttribute(className: string, attribute: string): Error {
    AttributeError("type object '" + className + "' has no attribute '" + attribute + "'")
  }

  /** The dotted object name with every `.` turned into `/`. */
  function DotsToSlashes(name: string): (r: string)
    ensures |r| == |name|
    ensures forall k :: 0 <= k < |name| ==> r[k] == if name[k] == '.' then '/' else name[k]
    ensures forall k :: 0 <= k < |r| ==> r[k] != '.'
  {
    ReplaceCharPointwise(name, '.', '/');
    ReplaceAll(name, ".", "/")
  }

  /** `class_url`: the object name with namespaces separated by `/`; the abstract base refuses. */
  function ClassUrl(cls: ResourceClass): (r: Result<string, Error>)
    ensures cls.AbstractResource? ==> r == Err(NotImplementedError(AbstractClassMessage))
    ensures cls.ResourceSubclass? && cls.objectName.Some? ==> r == Ok(DotsToSlashes(cls.objectName.value))
    ensures cls.ResourceSubclass? && cls.objectName.None? ==> r == Err(MissingClassAttribute(cls.className, "OBJECT_NAME"))
  {
    match cls
    case AbstractResource => Err(NotImplementedError(AbstractClassMessage))
    case ResourceSubclass(className, objectName, _) =>
      match objectName
      case None => Err(MissingClassAttribute(className, "OBJECT_NAME"))
      case Some(name) => Ok(DotsToSlashes(name))
  }

  /**
   * An object id as Python sees it: strings and integers are accepted (a
   * bool is an integer); anything else comes with its type name, its `repr`
   * and its truth value.
   */
  datatype ObjectId =
    | StrId(s: string)
    | IntId(i: int)
    | BoolId(b: bool)
    | NoneId
    | OtherId(repr: string, truthy: bool)

  predicate IsValidId(id: ObjectId) {
    id.StrId? || id.IntId? || id.BoolId?
  }

  /** `str(id)` for an accepted id, as an f-string shows it. */
  function IdText(id: ObjectId): string
    requires IsValidId(id)
  {
    match id
    case StrId(s) => s
    case IntId(i) => IntToString(i)
    case BoolId(b) => if b then "True" else "False"
  }

  /** `repr(id)` for an id that is refused. */
  function IdRepr(id: ObjectId): string
    requires !IsValidId(id)
  {
    match id
    case NoneId => "None"
    case OtherId(repr, _) => repr
  }

  /** Python's truth value of an id. */
  predicate Truthy(id: ObjectId) {
    match id
    case StrId(s) => s != ""
    case IntId(i) => i != 0
    case BoolId(b) => b
    case NoneId => false
    case OtherId(_, truthy) => truthy
  }

  const UnresolvedUrl: string := "Could not determine which URL to request"

  /** The message for a refused id; it names the metaclass and the builtin `id`, not the resource. */
  function InvalidIdMessage(id: ObjectId): string
    requires !IsValidId(id)
  {
    UnresolvedUrl + InvalidIdDetail(id)
  }

  function InvalidIdDetail(id: ObjectId): string
    requires !IsValidId(id)
  {
    ": ABCMeta instance has invalid ID: " + IdRepr(id)
    + ", <class 'builtin_function_or_method'>. ID should be of type `int` or `str`"
  }

  /**
   * `instance_url`: the id is checked first, then the class URL is followed
   * by `/`, the id and a closing `/`.
   */
  function InstanceUrl(cls: ResourceClass, id: ObjectId): (r: Result<string, Error>)
    ensures !IsValidId(id) ==> r == Err(RuntimeError(InvalidIdMessage(id)))
    ensures IsValidId(id) && ClassUrl(cls).Err? ==> r == Err(ClassUrl(cls).error)
    ensures IsValidId(id) && ClassUrl(cls).Ok? ==> r == Ok(ClassUrl(cls).value + "/" + IdText(id) + "/")
  {
    if !IsValidId(id) then Err(RuntimeError(InvalidIdMessage(id)))
    else
      match ClassUrl(cls)
      case Err(e) => Err(e)
      case Ok(base) => Ok(base + "/" + IdText(id) + "/")
  }

  /** What `_request` is handed: the verb, the URL, the schema name and the optional query and body. */
  datatype Request = Request(
    verb: Verb,
    url: string,
    returnSchema: Option<string>,
    params: Option<map<string, Json>>,
    json: Option<Json>)

  /**
   * `make_request`: the schema name is the one the class's `Meta` resource
   * gives for the full URL and the verb; verb, URL, query and body pass
   * through unchanged.
   */
  function MakeRequest(cls: ResourceClass, verb: Verb, url: string, params: Option<map<string, Json>>, json: Option<Json>)
    : (r: Result<Request, Error>)
    ensures r.Ok? ==> r.value.verb == verb && r.value.url == url && r.value.params == params && r.value.json == json
    ensures r.Ok? <==> cls.ResourceSubclass? && cls.meta.Some? && GetSchema(cls.meta.value, url, VerbName(verb)).Ok?
    ensures r.Ok? ==> Ok(r.value.returnSchema) == GetSchema(cls.meta.value, url, VerbName(verb))
    ensures cls.ResourceSubclass? && cls.meta.None? ==> r == Err(MissingClassAttribute(cls.className, "Meta"))
  {
    match cls
    case AbstractResource => Err(MissingClassAttribute("APIResource", "Meta"))
    case ResourceSubclass(className, _, meta) =>
      match meta
      case None => Err(MissingClassAttribute(className, "Meta"))
      case Some(resource) =>
        match GetSchema(resource, url, VerbName(verb))
        case Err(e) => Err(e)
        case Ok(schema) => Ok(Request(verb, url, schema, params, json))
  }

  /*
   * The examples take the class and the id as parameters fixed by their
   * preconditions, so the verifier reasons from the contracts of the URL
   * functions instead of evaluating them on literals.
   */

  /** A class whose object name is `api.v2.silos`, whatever its name and its `Meta`. */
  predicate IsSilos(cls: ResourceClass) {
    cls.ResourceSubclass? && cls.objectName == Some("api.v2.silos")
  }

  /** The class URL of `api.v2.silos` is `api/v2/silos`. */
  lemma ClassUrlExample(cls: ResourceClass)
    requires IsSilos(cls)
    ensures ClassUrl(cls) == Ok("api/v2/silos")
  {
    var name := cls.objectName.value;
    var r := DotsToSlashes(name);
    assert r == "api/v2/silos";
  }

  /** Instance 11 of `api.v2.silos` lives at `api/v2/silos/11/`. */
  lemma InstanceUrlExample(cls: ResourceClass, id: ObjectId)
    requires IsSilos(cls) && id == IntId(11)
    ensures InstanceUrl(cls, id) == Ok("api/v2/silos/11/")
  {
    ClassUrlExample(cls);
    ElevenText(id);
    assert "api/v2/silos" + "/" + "11" + "/" == "api/v2/silos/11/";
  }

  lemma ElevenText(id: ObjectId)
    requires id == IntId(11)
    ensures IdText(id) == "11"
  {
    assert DigitChar(1) == '1';
    assert NatToString(1) == ['1'];
    assert NatToString(11) == NatToString(1) + [DigitChar(1)] == ['1', '1'];
  }

  /** A refused id is reported before the class is even looked at, with the wording users search for. */
  lemma InvalidIdRefused(cls: ResourceClass, id: ObjectId)
    requires !IsValidId(id)
    ensures InstanceUrl(cls, id).Err? && InstanceUrl(cls, id).error.RuntimeError?
    ensures OccursAt(InstanceUrl(cls, id).error.message, UnresolvedUrl, 0)
  {
    StartsWith(UnresolvedUrl, InvalidIdDetail(id));
  }

  /** The abstract base's message contains the advice users search for. */
  lemma AbstractClassAdvice()
    ensures ClassUrl(AbstractResource).Err?
    ensures Contains(ClassUrl(AbstractResource).error.message, SubclassAdvice)
  {
    ContainsMiddle("APIResource is an abstract class.", SubclassAdvice, ".");
  }

  /** An instance URL extends its class URL: it starts with it, then `/`, and ends with `/`. */
  lemma InstanceUrlExtendsClassUrl(cls: ResourceClass, id: ObjectId)
    requires InstanceUrl(cls, id).Ok?
    ensures ClassUrl(cls).Ok?
    ensures var u := InstanceUrl(cls, id).value;
            var base := ClassUrl(cls).value;
            |u| > |base| + 1 && u[..|base|] == base && u[|base|] == '/' && u[|u| - 1] == '/'
  {
  }

  /**
   * `get_schema` is handed the full URL, namespaces included, so a template
   * with a placeholder matches it as a whole: `{id}/` matches
   * `api/v2/silos/12/`, while the collection template `/` never matches a
   * class URL.
   */
  lemma FullUrlReachesInstanceTemplate(instanceUrl: string, classUrl: string, slash: string)
    requires instanceUrl == "api/v2/silos/12/" && classUrl == "api/v2/silos" && slash == "/"
    ensures MatchToOpenapiPathSpec("{id}/", instanceUrl) == Ok(true)
    ensures MatchToOpenapiPathSpec(slash, classUrl) == Ok(false)
  {
    MatchIdSlash(instanceUrl);
    TokenizeNoOpen(slash);
    MatchWithoutPlaceholders(slash, classUrl);
  }
}
