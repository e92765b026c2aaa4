/**
 * `APIResource` of `django-rest-generator/resource.py`, the older copy: the
 * abstract-class message has a space after the first sentence, and an
 * instance URL has no trailing `/`.
 */
module LegacyResource {
  import opened Common
  import opened Text
  import ApiResource

  const AbstractClassMessage: string := "APIResource is an abstract class. " + ApiResource.SubclassAdvice + "."

  /** `class_url`: dots become slashes; the abstract base refuses. */
  function ClassUrl(cls: ApiResource.ResourceClass): (r: Result<string, Error>)
    ensures cls.AbstractResource? ==> r == Err(NotImplementedError(AbstractClassMessage))
    ensures cls.ResourceSubclass? && cls.objectName.None? ==> r.Err?
    ensures cls.ResourceSubclass? && cls.objectName.Some? ==>
              var name := cls.objectName.value;
              r.Ok? && |r.value| == |name|
              && forall k :: 0 <= k < |name| ==> r.value[k] == if name[k] == '.' then '/' else name[k]
  {
    match cls
    case AbstractResource => Err(NotImplementedError(AbstractClassMessage))
    case ResourceSubclass(className, objectName, _) =>
      match objectName
      case None => Err(ApiResource.MissingClassAttribute(className, "OBJECT_NAME"))
      case Some(name) =>
        ReplaceCharPointwise(name, '.', '/');
        Ok(ReplaceAll(name, ".", "/"))
  }

  /** `instance_url`: the id is checked first, then the class URL, `/` and the id, with nothing after. */
  function InstanceUrl(cls: ApiResource.ResourceClass, id: ApiResource.ObjectId): (r: Result<string, Error>)
    ensures !ApiResource.IsValidId(id) ==> r == Err(RuntimeError(ApiResource.InvalidIdMessage(id)))
    ensures ApiResource.IsValidId(id) && ClassUrl(cls).Ok? ==> r == Ok(ClassUrl(cls).value + "/" + ApiResource.IdText(id))
    ensures ApiResource.IsValidId(id) && ClassUrl(cls).Err? ==> r == Err(ClassUrl(cls).error)
  {
    if !ApiResource.IsValidId(id) then Err(RuntimeError(ApiResource.InvalidIdMessage(id)))
    else
      match ClassUrl(cls)
      case Err(e) => Err(e)
      case Ok(base) => Ok(base + "/" + ApiResource.IdText(id))
  }

  /** Both copies give a subclass the same class URL; only the abstract base's message differs. */
  lemma ClassUrlsAgree(cls: ApiResource.ResourceClass)
    ensures cls.ResourceSubclass? ==> ClassUrl(cls) == ApiResource.ClassUrl(cls)
    ensures cls.AbstractResource? ==> ClassUrl(cls).Err? && ApiResource.ClassUrl(cls).Err?
                                      && ClassUrl(cls).error != ApiResource.ClassUrl(cls).error
  {
    if cls.AbstractResource? {
      assert |AbstractClassMessage| == |ApiResource.AbstractClassMessage| + 1;
    }
  }

  /** The current copy's instance URL is the older one's followed by `/`; errors are the same. */
  lemma InstanceUrlsDifferBySlash(cls: ApiResource.ResourceClass, id: ApiResource.ObjectId)
    requires cls.ResourceSubclass?
    ensures InstanceUrl(cls, id).Ok? <==> ApiResource.InstanceUrl(cls, id).Ok?
    ensures InstanceUrl(cls, id).Ok? ==> ApiResource.InstanceUrl(cls, id).value == InstanceUrl(cls, id).value + "/"
    ensures InstanceUrl(cls, id).Err? ==> ApiResource.InstanceUrl(cls, id) == InstanceUrl(cls, id)
  {
    ClassUrlsAgree(cls);
  }
}
