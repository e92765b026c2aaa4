/**
 * `APIResponse` of `django_rest_generator/response.py`: the envelope around
 * one HTTP response. A body that decodes as JSON becomes `data`, passed
 * through the bound schema's `from_dict` when there is one; otherwise an
 * attachment's file name and raw bytes are kept.
 */
module Response {
  import opened Common
  import opened Json
  import opened Text
  import opened ParserModels
  import Parser

  /** The body as the JSON decoder sees it. */
  datatype Body = Decoded(value: Json) | Undecodable

  /** What the transport hands over. */
  datatype RawResponse = RawResponse(
    url: string,
    statusCode: int,
    headers: seq<(string, string)>,
    body: Body,
    content: seq<bv8>)

  /** The decoded payload: plain JSON, or an instance of the bound schema class. */
  datatype Data = Plain(json: Json) | Typed(className: string, instance: Instance)

  /** The type name Python reports for a payload. */
  function DataTypeName(d: Data): string {
    match d
    case Plain(j) => TypeName(j)
    case Typed(className, _) => className
  }

  /**
   * `headers.get(name, "")` on a case-insensitive header dictionary, which
   * compares lower-cased names; `key` is the name already lower-cased. The
   * first header whose name matches gives the value.
   */
  function HeaderGet(headers: seq<(string, string)>, key: string): (r: string)
    ensures (forall i :: 0 <= i < |headers| ==> Lower(headers[i].0) != key) ==> r == ""
    ensures r != "" ==> exists i :: 0 <= i < |headers| && Lower(headers[i].0) == key && headers[i].1 == r
    ensures forall i :: (0 <= i < |headers| && Lower(headers[i].0) == key
                         && forall j :: 0 <= j < i ==> Lower(headers[j].0) != key) ==> r == headers[i].1
  {
    if headers == [] then ""
    else if Lower(headers[0].0) == key then headers[0].1
    else HeaderGet(headers[1..], key)
  }

  /** `Content-Disposition`, lower-cased. */
  const ContentDisposition: string := "content-disposition"
  const AttachmentSeparator: string := "attachment; filename="

  /**
   * The file name of an attachment: splitting the header on the separator
   * must give exactly two pieces, and the name is the second.
   */
  function AttachmentName(contentDisposition: string): (r: Option<string>)
    ensures r.Some? <==> Contains(contentDisposition, AttachmentSeparator)
                         && !Contains(SplitOnce(contentDisposition, AttachmentSeparator)[1], AttachmentSeparator)
    ensures r.Some? ==> !Contains(r.value, AttachmentSeparator)
                        && contentDisposition == SplitOnce(contentDisposition, AttachmentSeparator)[0] + AttachmentSeparator + r.value
  {
    var parts := Split(contentDisposition, AttachmentSeparator);
    SplitInTwo(contentDisposition, AttachmentSeparator);
    if |parts| == 2 then Some(parts[1]) else None
  }

  /** What `_handle_json_response` leaves in `data`, or the error `from_dict` raises; None when the body does not decode. */
  function DecodedData(body: Body, schema: Option<Parser.SchemaClass>): (r: Option<Result<Data, Error>>)
    ensures r.None? <==> body.Undecodable?
    ensures body.Decoded? && schema.None? ==> r == Some(Ok(Plain(body.value)))
    ensures body.Decoded? && schema.Some? ==>
              r.value.Ok? == FromDict(schema.value.name, Parser.FieldNames(schema.value), body.value).Ok?
    ensures r.Some? && r.value.Ok? && schema.Some? ==>
              r.value.value == Typed(schema.value.name, FromDict(schema.value.name, Parser.FieldNames(schema.value), body.value).value)
  {
    match body
    case Undecodable => None
    case Decoded(j) =>
      match schema
      case None => Some(Ok(Plain(j)))
      case Some(c) =>
        match FromDict(c.name, Parser.FieldNames(c), j)
        case Err(e) => Some(Err(e))
        case Ok(inst) => Some(Ok(Typed(c.name, inst)))
  }

  /** The attachment named by the `Content-Disposition` header, if any. */
  function AttachmentOf(headers: seq<(string, string)>): Option<string> {
    AttachmentName(HeaderGet(headers, ContentDisposition))
  }

  /** The file name kept for an undecodable body, if the header names an attachment. */
  function FileNameOf(response: RawResponse): Option<string> {
    if response.body.Decoded? then None else AttachmentOf(response.headers)
  }

  class APIResponse {
    const response: RawResponse
    const url: string
    const code: int
    const headers: seq<(string, string)>
    const schema: Option<Parser.SchemaClass>
    /** Unset (None) until a body decodes. */
    var data: Option<Data>
    /** Unset (None) unless an attachment is found. */
    var fileName: Option<string>
    var raw: Option<seq<bv8>>

    /** The attribute assignments that precede the handlers. */
    constructor (response: RawResponse, schema: Option<Parser.SchemaClass>)
      ensures this.response == response && url == response.url && code == response.statusCode
      ensures headers == response.headers && this.schema == schema
      ensures data == None && fileName == None && raw == None
    {
      this.response := response;
      url := response.url;
      code := response.statusCode;
      headers := response.headers;
      this.schema := schema;
      data := None;
      fileName := None;
      raw := None;
    }

    /**
     * `_handle_json_response`: Ok(false) stands for the decode error, which
     * leaves everything unset; a `from_dict` failure is raised.
     */
    method HandleJsonResponse() returns (r: Result<bool, Error>)
      modifies this
      ensures fileName == old(fileName) && raw == old(raw)
      ensures response.body.Undecodable? ==> r == Ok(false) && data == old(data)
      ensures response.body.Decoded? ==> DecodedData(response.body, schema).Some?
      ensures response.body.Decoded? && DecodedData(response.body, schema).value.Ok? ==>
                r == Ok(true) && data == Some(DecodedData(response.body, schema).value.value)
      ensures response.body.Decoded? && DecodedData(response.body, schema).value.Err? ==>
                r == Err(DecodedData(response.body, schema).value.error)
    {
      if response.body.Undecodable? {
        return Ok(false);
      }
      data := Some(Plain(response.body.value));
      if schema.Some? {
        var inst := FromDict(schema.value.name, Parser.FieldNames(schema.value), response.body.value);
        if inst.Err? {
          return Err(inst.error);
        }
        data := Some(Typed(schema.value.name, inst.value));
      }
      return Ok(true);
    }

    /** `_handle_generic_response`: an attachment sets the file name and the raw bytes, anything else sets nothing. */
    method HandleGenericResponse()
      modifies this
      ensures data == old(data)
      ensures AttachmentOf(headers).Some? ==> fileName == AttachmentOf(headers) && raw == Some(response.content)
      ensures AttachmentOf(headers).None? ==> fileName == old(fileName) && raw == old(raw)
    {
      var attachment := AttachmentOf(headers);
      if attachment.Some? {
        fileName := attachment;
        raw := Some(response.content);
      }
    }

    /**
     * `APIResponse(response, schema)`: the JSON handler first, the generic
     * one only on a decode error; a `from_dict` failure escapes the constructor.
     */
    static method Create(response: RawResponse, schema: Option<Parser.SchemaClass>) returns (r: Result<APIResponse, Error>)
      ensures r.Err? <==> DecodedData(response.body, schema).Some? && DecodedData(response.body, schema).value.Err?
      ensures r.Ok? ==> fresh(r.value) && r.value.response == response && r.value.schema == schema
      ensures r.Ok? ==> r.value.data == (match DecodedData(response.body, schema)
                                         case None => None
                                         case Some(d) => Some(d.value))
      ensures r.Ok? ==> r.value.fileName == FileNameOf(response)
      ensures r.Ok? ==> (r.value.raw.Some? <==> FileNameOf(response).Some?)
      ensures r.Ok? && r.value.raw.Some? ==> r.value.raw.value == response.content
    {
      var resp := new APIResponse(response, schema);
      var decoded := resp.HandleJsonResponse();
      if decoded.Err? {
        return Err(decoded.error);
      }
      if !decoded.value {
        resp.HandleGenericResponse();
      }
      return Ok(resp);
    }

    /** `data[key]` as the properties read it; an unset `data` is a missing attribute. */
    function Item(key: string): (r: Result<Json, Error>)
      reads this
      ensures data.None? ==> r == Err(AttributeError("'APIResponse' object has no attribute 'data'"))
      ensures r.Ok? <==> data.Some? && data.value.Plain? && data.value.json.JObject? && HasKey(data.value.json.entries, key)
      ensures r.Ok? ==> Get(data.value.json.entries, key) == Some(r.value)
      ensures data.Some? && data.value.Typed? ==> r == Err(TypeError("'" + data.value.className + "' object is not subscriptable"))
    {
      match data
      case None => Err(AttributeError("'APIResponse' object has no attribute 'data'"))
      case Some(Plain(j)) => Subscript(j, key)
      case Some(Typed(className, _)) => Err(TypeError("'" + className + "' object is not subscriptable"))
    }

    /** `results`: the `results` entry of the payload. */
    function Results(): (r: Result<Json, Error>)
      reads this
      ensures r.Ok? ==> data.Some? && data.value.Plain? && data.value.json.JObject?
                        && Get(data.value.json.entries, "results") == Some(r.value)
    {
      Item("results")
    }

    /** `next_url`: the `next` entry of the payload. */
    function NextUrl(): (r: Result<Json, Error>)
      reads this
      ensures r.Ok? ==> data.Some? && data.value.Plain? && data.value.json.JObject?
                        && Get(data.value.json.entries, "next") == Some(r.value)
    {
      Item("next")
    }

    /** `has_next_url`: the `next` entry is present and not null; reading it may fail like `next_url`. */
    function HasNextUrl(): (r: Result<bool, Error>)
      reads this
      ensures r.Ok? <==> NextUrl().Ok?
      ensures r.Ok? ==> (r.value <==> NextUrl().value != JNull)
      ensures r.Err? ==> r.error == NextUrl().error
    {
      match NextUrl()
      case Err(e) => Err(e)
      case Ok(next) => Ok(next != JNull)
    }
  }

  /** A header that names an attachment yields the text after the separator. */
  lemma AttachmentExample()
    ensures AttachmentName("attachment; filename=report.pdf") == Some("report.pdf")
  {
    var cd := "attachment; filename=report.pdf";
    assert cd == "" + AttachmentSeparator + "report.pdf";
    assert OccursAt(cd, AttachmentSeparator, 0);
    assert Find(cd, AttachmentSeparator) == Some(0);
    assert cd[|AttachmentSeparator|..] == "report.pdf";
    assert !Contains("report.pdf", AttachmentSeparator);
  }

  /** Without a `Content-Disposition` header there is no file name. */
  lemma MissingHeaderNoFile(headers: seq<(string, string)>)
    requires forall i :: 0 <= i < |headers| ==> Lower(headers[i].0) != ContentDisposition
    ensures AttachmentName(HeaderGet(headers, ContentDisposition)) == None
  {
    assert !Contains("", AttachmentSeparator);
  }

  /**
   * With a schema bound, undeclared fields of the payload are dropped: the
   * typed data holds exactly the declared fields, with the payload's values.
   */
  lemma TypedDataKeepsDeclaredFields(body: Body, c: Parser.SchemaClass, key: string)
    requires DistinctNames(Parser.FieldNames(c))
    requires body.Decoded? && body.value.JObject?
    requires FromDict(c.name, Parser.FieldNames(c), body.value).Ok?
    ensures var d := DecodedData(body, Some(c)).value.value;
            d.Typed? && d.className == c.name
            && Get(AsDict(d.instance).entries, key)
               == if key in Parser.FieldNames(c) then Get(body.value.entries, key) else None
  {
    AsDictFromDict(c.name, Parser.FieldNames(c), body.value.entries, key);
  }
}
