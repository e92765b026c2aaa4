# django-rest-generator, modelled in Dafny

django-rest-generator reads an OpenAPI document and builds REST client
resource classes from it. This project models and proves the logic between
the resolved document tree and the (verb, URL) pair a resource sends:

- **Path and name utilities** (module `Utils`, plus `LegacyUtils` for the
  older package's copy):
  - the method-name sanitiser;
  - the pre-order key search over JSON trees;
  - the template matcher, which turns `{name}` placeholders into named
    groups and matches the whole string.
- **Document parsing** (modules `ParserModels` and `Parser`):
  - paths are split into (resource, endpoint);
  - operations are grouped per resource and endpoint in document order;
  - `$ref` values are reduced to their last segment;
  - schema components become field lists over the six-entry type table;
  - `from_dict` and `as_dict`, and the first-match `get_schema`.
- **URLs and requests** (modules `ApiResource` and `LegacyResource`):
  - `class_url` and `instance_url` in both package copies;
  - the schema pass-through of `make_request`.
- **Capabilities** (module `Mixins`):
  - the verb and URL of every mixin method;
  - the singleton mixin's URLs;
  - the page loop of `all`.
- **Resource building** (module `Client`):
  - endpoints are classified as collection, instance or custom action;
  - the two method tables are looked up and their results united;
  - custom actions are checked, named and flagged as detail actions;
  - a custom action's URL is chosen;
  - `OBJECT_NAME` is formed.
- **Response envelope** (module `Response`):
  - the JSON-or-attachment decision of `APIResponse.__init__`;
  - the `Content-Disposition` split;
  - `results`, `next_url` and `has_next_url`.

Python is modelled with its own semantics:

- Exceptions are the `Error` datatype of `Common`, carrying the exception's
  class and message. The messages Python composes itself are CPython 3.10's:
  for example, a missing constructor argument is reported with the class's
  qualified name, and a string subscripted by a string gives "string indices
  must be integers" (later versions append the index's type). `KeyError`, `TypeError`, `AttributeError`, `NotImplementedError`,
  `RuntimeError`, `ValueError`, `IndexError` and `Warning` are raised where
  the source raises them.
- Dictionaries are association lists in insertion order (module `Json`).
- The `str` built-ins used here are in module `Text`.
- Regular expressions follow Python's `re` module:
  - `.` does not match a newline;
  - `$` also matches before a final newline;
  - `{.*}\/` is greedy;
  - a placeholder name becomes a group name up to its first `>`, and the rest
    of the name becomes pattern text (see "Left out" for the one
    approximation).
- Where the source mutates state, the model is imperative:
  - `APIResponse` is a class whose methods set `data`, `file_name` and `raw`;
  - the parser's grouping, resource-building and schema loops are methods
    with loop invariants;
  - the capability accumulation of `_build_resource_object` is a method
    proved equal to a specification function.
- Sources outside the model become parameters:
  - `_request` is a `Request` record (verb, URL, return schema, params and
    body) that `make_request` would hand over;
  - in `all`, transport plus decoding is a `respond` function;
  - `set.pop` is an arbitrary choice function `pick` that must return a
    member of a non-empty set.

## Model

| member | source | states |
|---|---|---|
| Common.ParseVerb | django-rest-generator/types.py:5 | exactly the five request-method literals parse, and a parsed verb prints back as the same string |
| Common.ParseVerbName | django-rest-generator/types.py:5 | every verb's name parses back to that verb |
| Json.Get | django_rest_generator/utils.py:33-35 | dictionary lookup succeeds iff the key is present, and returns a value stored under it |
| Json.Subscript | django_rest_generator/response.py:58 | `d[key]` succeeds iff `d` is a dict holding `key`; a missing key raises `KeyError(key)` |
| Json.Items | django_rest_generator/parser/__init__.py:49 | `.items()` succeeds exactly on dicts and yields the entries in insertion order |
| Json.Keys | django_rest_generator/parser/models.py:27 | the keys of a dict, position by position |
| Text.Lower | django_rest_generator/utils.py:20 | same length, each character lower-cased, no upper-case letter left |
| Text.LowerIdempotent | django_rest_generator/utils.py:20 | lower-casing twice is lower-casing once |
| Text.Strip | django_rest_generator/utils.py:20 | the result is the input's slice between its edge spaces, with no space at either end |
| Text.StripIdempotent | django_rest_generator/utils.py:20 | stripping twice is stripping once |
| Text.StripLowerCommute | django_rest_generator/utils.py:20 | stripping and lower-casing commute |
| Text.ReplaceLength | django_rest_generator/parser/__init__.py:50 | replacing by a text no longer than the target never lengthens the string |
| Text.ReplaceAbsent | django_rest_generator/parser/__init__.py:50 | replacing an absent target changes nothing |
| Text.ReplaceCharPointwise | django_rest_generator/utils.py:22 | replacing one character by another is pointwise and keeps the length |
| Text.Split | django_rest_generator/parser/__init__.py:59 | `split` always yields at least one piece |
| Text.SplitJoin | django_rest_generator/parser/__init__.py:59 | joining the pieces with the separator rebuilds the string |
| Text.SplitPartsFree | django_rest_generator/parser/__init__.py:59 | no piece contains the separator |
| Text.SplitLastSuffix | django_rest_generator/parser/__init__.py:59 | the last piece is a separator-free suffix, preceded by the separator unless it is the whole string |
| Utils.SanitizeEndpointToMethodName | django_rest_generator/utils.py:19-25 | the method name never contains `/` or an upper-case letter |
| Utils.SanitizeNormalizesFirst | django_rest_generator/utils.py:20 | lower-casing or stripping the input first changes nothing: normalisation precedes every other step |
| Utils.SanitizeSingleLine | django_rest_generator/utils.py:21 | on single-line input the regex step cuts from the first `{` to the last `}/` |
| Utils.RemoveSpans | django_rest_generator/utils.py:21 | the substitution never lengthens the name |
| Utils.RemoveSpansChanges | django_rest_generator/utils.py:21 | the substitution changes the name iff a `{…}/` span exists, and then strictly shortens it |
| Utils.RemoveSpansSingleLine | django_rest_generator/utils.py:21 | the greedy substitution equals that single cut on any single-line string |
| Utils.RemoveSpansKeepsChars | django_rest_generator/utils.py:21 | the substitution only deletes characters |
| Utils.SanitizePlain | django_rest_generator/utils.py:22-24 | without braces, case or edge spaces the name is the path with `/` turned into `.` and one trailing `.` trimmed |
| Utils.SanitizeExampleLeadingSlash | django_rest_generator/utils.py:22-24 | `/api/v2/bugs/` becomes `.api.v2.bugs`: a leading `/` survives as `.` |
| Utils.SanitizeExampleBugs | tests/test_utils.py:27-30 | `api/v2/bugs` becomes `api.v2.bugs` |
| Utils.SanitizeExampleProjects | tests/test_utils.py:27-30 | `api/v2/projects/` becomes `api.v2.projects` |
| Utils.SanitizeExampleHyphen | tests/test_utils.py:27-30 | `api/v2/hot-bugs/` becomes `api.v2.hot-bugs` |
| Utils.SanitizeDetailAction | django_rest_generator/utils.py:21 | `{name}/action` sanitises to `action` for every placeholder name and action without `/` |
| Utils.FindNestedKeysComplete | django_rest_generator/utils.py:28-38 | a value is yielded iff it is stored under the key somewhere in the tree |
| Utils.FindInItemsComplete | django_rest_generator/utils.py:29-32 | a list yields exactly what its elements yield |
| Utils.FindInValuesComplete | django_rest_generator/utils.py:36-38 | a dict's values yield exactly what is stored beneath them |
| Utils.OwnValueFirst | django_rest_generator/utils.py:33-35 | a dict's own value for the key comes before anything nested deeper |
| Utils.ItemsInOrder | django_rest_generator/utils.py:29-32 | list elements are searched in order: concatenated lists give concatenated results |
| Utils.FindNestedKeys | django_rest_generator/utils.py:28-38 | anything but a list or a dict yields nothing |
| Utils.FindNestedKeysExampleNested | tests/test_utils.py:40 | the nested-dictionary example yields its one nested reference |
| Utils.FindNestedKeysExampleList | tests/test_utils.py:41-51 | the list example yields the references in list order |
| Utils.Tokenize | django_rest_generator/utils.py:61 | the template splits into literals alternating with placeholders whose names contain no brace or newline |
| Utils.TokenizeRender | django_rest_generator/utils.py:61 | printing the tokens back gives the template: the split loses nothing |
| Utils.Groups | django_rest_generator/utils.py:72-77 | a full match yields one non-empty, single-line value per placeholder, and filling them in rebuilds the path |
| Utils.FillMatches | django_rest_generator/utils.py:66-72 | every filling of the placeholders with non-empty single-line values is matched |
| Utils.PatternMatchesOwnTemplate | django_rest_generator/utils.py:66-72 | a template's pattern matches the template text itself |
| Utils.Format | django_rest_generator/utils.py:77-79 | `format(**groups)` fails only when some literal part holds a lone brace |
| Utils.FormatLiteral | django_rest_generator/utils.py:77-79 | formatting a brace-free literal leaves it unchanged, and any brace shortens it or fails |
| Utils.FormatBraceFree | django_rest_generator/utils.py:77-79 | with brace-free literals, `format(**groups)` is the plain filling |
| Utils.MatchToOpenapiPathSpec | django_rest_generator/utils.py:55-79 | equal strings match; any other match has valid, distinct group names and is a whole-string match of the pattern |
| Utils.CompiledWithoutAngles | django_rest_generator/utils.py:66 | placeholder names without `>` compile to groups of the same names |
| Utils.AngledNameNeverMatches | django_rest_generator/utils.py:61-79 | once a placeholder name holds `>`, the result is never `True` for a different path: `False` or an error |
| Utils.MatchAngledOneHole | django_rest_generator/utils.py:61-77 | `{g>t}` plus a brace-free tail compiles to group `g` holding the text `t>` and then a non-empty value: a path of that shape raises `IndexError` for the unknown group `g>t`, any other gives `False` |
| Utils.MatchExamplesAngled | django_rest_generator/utils.py:61-77 | `{a>b}/` does not match `12/`, and on `b>x/` raises `IndexError("no such group")` |
| Utils.MatchIsFullMatch | django_rest_generator/utils.py:55-79 | for well-formed templates, the result is equality or a whole-string match of the pattern |
| Utils.MatchReflexive | django_rest_generator/utils.py:55-57 | a template always matches itself |
| Utils.MatchWithoutPlaceholders | django_rest_generator/utils.py:61-79 | without placeholders, matching is string equality |
| Utils.MatchOneHole | django_rest_generator/utils.py:61-79 | `{id}` plus a brace-free tail matches exactly a non-empty single-line value followed by the tail |
| Utils.MatchOneHoleValue | django_rest_generator/utils.py:61-79 | `{id}` plus a brace-free tail matches any non-empty single-line value followed by that tail |
| Utils.MatchIdSlash | django_rest_generator/utils.py:61-79 | `{id}/` matches every single-line path of length at least 2 that ends in `/` |
| Utils.MatchExamplesIdSlash | tests/test_utils.py:61-75 | `{id}/` matches `12/`, and also `hotbugs/`: the expected failure is in fact a match |
| Utils.MatchCancelFull | tests/test_utils.py:62 | `{id}/cancel` matches `12/cancel` |
| Utils.MatchCancelNotPrefix | django_rest_generator/utils.py:72-74 | `{id}/cancel` does not match `12/`: the match is whole-string, not a prefix search |
| Utils.MatchExamplesPlain | tests/test_utils.py:64-66 | `/` matches `/` but not `12/`; `hotbugs/` does not match `12/` |
| LegacyUtils.SanitizeEndpointToMethodName | django-rest-generator/utils.py:2-8 | the older copy agrees with the current sanitiser on every input and never yields `/` |
| ParserModels.MissingFields | django_rest_generator/parser/models.py:29 | exactly the declared fields absent from the input are missing |
| ParserModels.FieldValues | django_rest_generator/parser/models.py:27-29 | one value per declared field, in declaration order, each the input's value for it |
| ParserModels.FromDict | django_rest_generator/parser/models.py:26-29 | keeps exactly the declared fields with the input's values, unchecked; fails iff a declared field is absent, with the `TypeError` that names the class and lists the missing arguments; a non-dict has no `items` |
| ParserModels.NameSeries | django_rest_generator/parser/models.py:29 | the missing arguments are quoted and listed as `'a'`, `'a' and 'b'`, or `'a', 'b', and 'c'` |
| ParserModels.FromDictMissingExample | django_rest_generator/parser/models.py:26-29 | an empty dict for fields `a` and `b` raises `TypeError` "….__init__() missing 2 required positional arguments: 'a' and 'b'" |
| ParserModels.AsDict | django_rest_generator/parser/models.py:31-32 | the dict has the instance's field names as keys |
| ParserModels.AsDictFromDict | django_rest_generator/parser/models.py:26-32 | `as_dict(from_dict(d))` is `d` restricted to the declared fields |
| ParserModels.FromDictExample | tests/test_parser.py:27-36 | the integer 12342 passes into a `str` field unchanged and the undeclared field is dropped |
| ParserModels.FirstOperation | django_rest_generator/parser/models.py:60-62 | the hit is an operation with the requested method; there is no hit iff no operation has that method |
| ParserModels.SearchEndpoints | django_rest_generator/parser/models.py:58-62 | a found schema belongs to a matching endpoint's operation with that method |
| ParserModels.GetSchema | django_rest_generator/parser/models.py:57-62 | `get_schema` returns the return type of a matching endpoint's operation with that method |
| ParserModels.GetSchemaIsFirstRow | django_rest_generator/parser/models.py:57-62 | the nested search equals the first hit in the flat (endpoint, operation) table, in document order |
| ParserModels.MissingVerbContinues | django_rest_generator/parser/models.py:58-62 | a matching endpoint without the method does not stop the search |
| ParserModels.NoHitIsNone | django_rest_generator/parser/models.py:57-62 | with no matching (endpoint, method) pair the result is None |
| Parser.Dedup | django_rest_generator/parser/__init__.py:47 | distinct keys, exactly the input's members, ordered by the position of their first occurrence in the input |
| Parser.LastSegment | django_rest_generator/parser/__init__.py:59 | the last `/`-segment is a `/`-free suffix of the reference, preceded by a `/` unless it is the whole reference |
| Parser.PathBase | django_rest_generator/parser/__init__.py:50 | the stripped path loses the server base and never grows; without `/base` in it, it is just stripped |
| Parser.ReturnTypeOf | django_rest_generator/parser/__init__.py:53-59 | None iff no `$ref` lies under the responses' schemas; otherwise the last segment of one of them; a missing `responses` is raised |
| Parser.ParseOperation | django_rest_generator/parser/__init__.py:60-62 | the method name is upper-cased and the return type is the operation's |
| Parser.ParseOperationList | django_rest_generator/parser/__init__.py:52-63 | one operation per entry in order; fails iff some entry fails |
| Parser.OperationListPrefixFails | django_rest_generator/parser/__init__.py:52-63 | a failure in a prefix is the failure of the whole loop |
| Parser.ParseOperations | django_rest_generator/parser/__init__.py:51-63 | the append loop computes the operation list of the path |
| Parser.SplitPath | django_rest_generator/parser/__init__.py:50-67 | fails iff no `/` remains after removing the base; else a slash-free name and a non-empty endpoint that rebuild the path, with an empty rest becoming `/` |
| Parser.ParseRows | django_rest_generator/parser/__init__.py:49-65 | one row per path |
| Parser.ParseRowsPointwise | django_rest_generator/parser/__init__.py:49-65 | row `i` is the parse of path `i` |
| Parser.RowsPrefixFails | django_rest_generator/parser/__init__.py:49-65 | the first failing path decides the error |
| Parser.ExtendEndpoint | django_rest_generator/parser/__init__.py:69 | a new endpoint key is appended once; a known one keeps its place |
| Parser.Extend | django_rest_generator/parser/__init__.py:69 | a new resource key is appended once; a known one keeps its place |
| Parser.Group | django_rest_generator/parser/__init__.py:47-69 | never more groups than rows, and at least one for a non-empty list |
| Parser.GroupKeys | django_rest_generator/parser/__init__.py:47-71 | resources appear in first-seen order, each once |
| Parser.GroupEndpointKeys | django_rest_generator/parser/__init__.py:47-69 | within a resource, endpoints appear in the order their paths first name them, each once; an unnamed resource has none |
| Parser.GroupOps | django_rest_generator/parser/__init__.py:69 | each (resource, endpoint) holds the concatenation, in document order, of its rows' operations |
| Parser.GroupEndpointsDistinct | django_rest_generator/parser/__init__.py:47 | within a resource, endpoint keys are distinct |
| Parser.ParseResourceObjectsFromOpenapi | django_rest_generator/parser/__init__.py:44-71 | the loop computes the grouping of the parsed rows, or the first error |
| Parser.BuildResourceObjects | django_rest_generator/parser/__init__.py:31-41 | one `Resource` per key and one `Endpoint` per inner key, names and operations carried over |
| Parser.ParseResources | django_rest_generator/parser/__init__.py:80-85 | resources are the built grouping of the parsed document |
| Parser.ResourceNamesFirstSeen | django_rest_generator/parser/__init__.py:31-41 | the built resources carry the distinct path names, in first-seen order |
| Parser.ResourceOperations | django_rest_generator/parser/__init__.py:31-41 | each built endpoint was named by some path and holds the operations of every path naming it, in document order |
| Parser.ResourceEndpoints | django_rest_generator/parser/__init__.py:31-41 | the endpoints of each built resource are the distinct endpoints of the paths naming it, in first-seen order |
| Parser.ResourcesFromRows | django_rest_generator/parser/__init__.py:31-41 | resource names are the distinct path names and each resource's endpoints the distinct endpoints of its paths, both in first-seen order; each endpoint holds its rows' operations |
| Parser.RowsAreParsed | django_rest_generator/parser/__init__.py:69 | every parsed row is represented in the grouping |
| Parser.ConversionTable | django_rest_generator/parser/__init__.py:90-97 | exactly the six OpenAPI type names are known, each to its own type |
| Parser.ConversionTableComplete | django_rest_generator/parser/__init__.py:90-97 | every type has a name that maps back to it |
| Parser.ConvertType | django_rest_generator/parser/__init__.py:105 | a known name converts; other hashables raise `KeyError` with the tag's text, a float its `repr`; lists and dicts raise `TypeError` |
| Parser.FieldList | django_rest_generator/parser/__init__.py:104-107 | one field per property, in order, with its converted type; fails iff some property's type fails |
| Parser.CheckFieldNames | django_rest_generator/parser/__init__.py:108-110 | field names pass iff all are identifiers and no keyword |
| Parser.FieldNames | django_rest_generator/parser/models.py:27 | the field names of a schema class, in order |
| Parser.MakeSchemaClass | django_rest_generator/parser/__init__.py:104-110 | the class keeps the component's name |
| Parser.SchemaClassFields | django_rest_generator/parser/__init__.py:104-110 | a built class has exactly the component's properties in order, with valid names and converted types |
| Parser.PyGet | django_rest_generator/parser/__init__.py:98 | `.get(key, default)` on dicts, `AttributeError` otherwise |
| Parser.Len | django_rest_generator/parser/__init__.py:99 | `len` is defined exactly on strings, lists and dicts |
| Parser.SchemaMap | django_rest_generator/parser/__init__.py:103-111 | the schema map has exactly the component names as keys |
| Parser.SchemaMapPrefixFails | django_rest_generator/parser/__init__.py:103-111 | the first failing component decides the error |
| Parser.SchemaMapLookup | django_rest_generator/parser/__init__.py:111 | each component name maps to its built class |
| Parser.ParseSchemasFromSpec | django_rest_generator/parser/__init__.py:88-113 | the loop computes the schema map, and the error line is printed iff there are no components |
| Parser.EmptyComponentsReported | tests/test_parser.py:50-54 | empty components give an empty map plus the printed error, not a failure |
| Parser.MissingComponentsReported | django_rest_generator/parser/__init__.py:98-101 | a document without `components` is reported the same way |
| Parser.FloatTagRejected | django_rest_generator/parser/__init__.py:105 | the float tag `1.5` raises `KeyError` shown as `1.5` |
| Parser.UnknownTypeRejected | django_rest_generator/parser/__init__.py:105 | an unknown type name raises `KeyError` with that name |
| Parser.ParseSpec | django_rest_generator/parser/__init__.py:119-121 | a schema error wins over a resource error; the document parses iff both steps do, and keeps both results |
| Parser.Parse | django_rest_generator/parser/__init__.py:116-121 | schemas are parsed before resources, and the printed lines are the schema step's |
| ApiResource.DotsToSlashes | django_rest_generator/resource.py:60 | every `.` becomes `/`, every other character is kept, and no `.` remains |
| ApiResource.ClassUrl | django_rest_generator/resource.py:49-61 | the abstract base raises `NotImplementedError`, a subclass without `OBJECT_NAME` raises `AttributeError`, otherwise dots become slashes |
| ApiResource.InstanceUrl | django_rest_generator/resource.py:64-77 | a non-str, non-int id raises `RuntimeError` before the class is consulted; otherwise class URL, `/`, id, `/` |
| ApiResource.MakeRequest | django_rest_generator/resource.py:44-46 | verb, URL, params and body pass through unchanged; the return schema is `Meta.get_schema(url, verb)`, whose failure is raised |
| ApiResource.ClassUrlExample | tests/test_resources.py:19-21 | `api.v2.silos` has class URL `api/v2/silos` |
| ApiResource.InstanceUrlExample | tests/test_resources.py:24-30 | instance 11 lives at `api/v2/silos/11/` |
| ApiResource.InvalidIdRefused | tests/test_resources.py:33-39 | a refused id gives a `RuntimeError` starting "Could not determine which URL to request" |
| ApiResource.AbstractClassAdvice | tests/test_resources.py:42-46 | the abstract base's error carries the advice to use subclasses |
| ApiResource.InstanceUrlExtendsClassUrl | django_rest_generator/resource.py:76-77 | an instance URL starts with its class URL and a `/`, and ends with `/` |
| ApiResource.FullUrlReachesInstanceTemplate | django_rest_generator/resource.py:45 | the full URL matches `{id}/` templates, but the `/` template never matches a class URL |
| LegacyResource.ClassUrl | django-rest-generator/resource.py:14-26 | the abstract base is refused; otherwise dots become slashes |
| LegacyResource.InstanceUrl | django-rest-generator/resource.py:29-42 | bad ids are refused; otherwise class URL, `/`, id, with no trailing `/` |
| LegacyResource.ClassUrlsAgree | django-rest-generator/resource.py:14-26 | both copies give the same class URL for every subclass and both refuse the base |
| LegacyResource.InstanceUrlsDifferBySlash | django-rest-generator/resource.py:41-42 | the current instance URL is the older one plus `/`, and errors agree |
| Mixins.Send | django_rest_generator/resource.py:44-46 | a URL error propagates; otherwise the request is `make_request`'s |
| Mixins.Retrieve | django_rest_generator/mixins.py:22-30 | GET on the instance URL |
| Mixins.List | django_rest_generator/mixins.py:33-40 | GET on the class URL |
| Mixins.Create | django_rest_generator/mixins.py:43-51 | POST on the class URL with `data` as body |
| Mixins.Update | django_rest_generator/mixins.py:54-63 | PUT on the instance URL with `data` as body |
| Mixins.PartialUpdate | django_rest_generator/mixins.py:66-75 | PATCH on the instance URL with `data` as body |
| Mixins.DeleteObjects | django_rest_generator/mixins.py:78-85 | the deletable-object `list` issues DELETE on the class URL |
| Mixins.Delete | django_rest_generator/mixins.py:88-96 | DELETE on the instance URL |
| Mixins.SingletonGet | django_rest_generator/mixins.py:119-125 | GET on the class URL |
| Mixins.InstanceCapabilitiesTarget | django_rest_generator/mixins.py:22-96 | all four instance methods target `class_url/id/` and refuse a bad id identically |
| Mixins.SingletonGetIsList | django_rest_generator/mixins.py:119-125 | the singleton `get` sends what `list` sends |
| Mixins.SingletonClassUrl | django_rest_generator/mixins.py:127-137 | the mixin itself raises `NotImplementedError`; a subclass gets dots as slashes |
| Mixins.SingletonInstanceUrl | django_rest_generator/mixins.py:139-141 | the singleton instance URL is the class URL |
| Mixins.SingletonClassUrlAgrees | django_rest_generator/mixins.py:127-137 | subclasses get the same URL as from `APIResource`; the two abstract messages differ |
| Mixins.PageParams | django_rest_generator/mixins.py:109-114 | `page` is overridden and every other parameter is kept unchanged |
| Mixins.PageBound | django_rest_generator/mixins.py:113 | `range` accepts ints and bools only |
| Mixins.TotalPages | django_rest_generator/mixins.py:112 | `total_pages` defaults to 1; unset data or data without `.get` raises `AttributeError` |
| Mixins.PageRequest | django_rest_generator/mixins.py:110-114 | each page is a GET on the class URL with the page parameters |
| Mixins.Fetch | django_rest_generator/mixins.py:110-114 | a page is fetched iff its request is formed and answered |
| Mixins.All | django_rest_generator/mixins.py:104-115 | the generator loop yields exactly the pages of the page specification |
| Mixins.LaterPagesStop | django_rest_generator/mixins.py:113-115 | a failing page ends the loop |
| Mixins.LaterPagesShape | django_rest_generator/mixins.py:113-115 | pages after the first are numbered 2, 3, … up to the bound, each with its request |
| Mixins.AllPagesNumbered | django_rest_generator/mixins.py:109-115 | the yielded pages are numbered 1, 2, … in order, and each was requested as that page |
| Mixins.AllPageCount | django_rest_generator/mixins.py:111-115 | at most max(1, total_pages) pages, exactly that many without error, numbered 1, 2, … |
| Mixins.AllParamsPreserved | django_rest_generator/mixins.py:109-115 | every page request keeps the caller's parameters and sets its own page |
| Mixins.MissingTotalIsOnePage | django_rest_generator/mixins.py:112 | without `total_pages` only page 1 is yielded |
| Client.Classify | django_rest_generator/client.py:227-236 | collection iff the path is `/`; instance iff it matches `{.*}\/$`; otherwise a custom action |
| Client.InstancePathSingleLine | django_rest_generator/client.py:231 | on single-line paths, instance means starting with `{` and ending with `}/` |
| Client.DetailSingleLine | django_rest_generator/client.py:211 | on single-line paths, detail means starting with `{` and containing `}/` |
| Client.InstanceIsDetail | django_rest_generator/client.py:211-231 | every instance path would also be a detail path |
| Client.MethodMap | django_rest_generator/client.py:212-234 | each table knows exactly its verbs, grants a non-empty set, and raises `KeyError(verb)` otherwise |
| Client.TablesDisjoint | django_rest_generator/client.py:212-222 | the two tables grant disjoint capabilities |
| Client.LookupsUnion | django_rest_generator/client.py:229-234 | lookups over an endpoint succeed iff every verb is known, and give the union of the grants |
| Client.LookupsStop | django_rest_generator/client.py:229-234 | the first unknown verb decides the error |
| Client.MethodName | django_rest_generator/client.py:198-202 | the custom method name contains no `/` and no upper-case letter |
| Client.Contribute | django_rest_generator/client.py:227-250 | per endpoint kind: the table lookup, or exactly one action with the cut name and detail flag; `Warning` for several operations, `IndexError` for none |
| Client.AccumulateStop | django_rest_generator/client.py:226-250 | the first failing endpoint decides the error |
| Client.BuildResource | django_rest_generator/client.py:206-256 | `OBJECT_NAME` is the API base plus the resource name, and `Meta` is the resource |
| Client.UpdateMixins | django_rest_generator/client.py:229-234 | the inner loop adds exactly the lookups' union, or raises the first `KeyError` |
| Client.AddEndpoint | django_rest_generator/client.py:227-250 | one loop step adds the endpoint's contribution |
| Client.BuildResourceObject | django_rest_generator/client.py:206-256 | the loop computes the resource specification |
| Client.ContributeUnion | django_rest_generator/client.py:229-234 | an endpoint grants exactly what its kind's table gives its verbs |
| Client.AccumulateUnion | django_rest_generator/client.py:224-250 | building succeeds iff every endpoint does; capabilities are the union of all grants |
| Client.OrderIrrelevant | django_rest_generator/client.py:224-253 | endpoint order and duplicates do not change the capability set |
| Client.MultiVerbActionRejected | django_rest_generator/client.py:239-242 | a multi-verb custom action aborts the whole build |
| Client.MethodMapVerbs | django_rest_generator/client.py:212-234 | a table lookup succeeds only on one of the five request methods; any other name raises `KeyError` with that name |
| Client.AccumulateActions | django_rest_generator/client.py:236-250 | the loop collects exactly the actions of the custom endpoints, each from a single-operation endpoint |
| Client.CustomActionsMembers | django_rest_generator/client.py:236-250 | one action per custom endpoint, and an action is present iff a custom endpoint yields it |
| Client.ActionsFromCustomEndpoints | django_rest_generator/client.py:243-250 | in both directions: every action comes from a single-operation custom endpoint, named by the cut path and flagged by the detail test, and every custom endpoint contributes its action |
| Client.UnknownVerbExamples | django_rest_generator/client.py:227-234 | PUT on `/` and POST on `{id}/` raise `KeyError` |
| Client.InstancePathExample | django_rest_generator/client.py:231 | `{id}/` is an instance endpoint |
| Client.DetailActionExample | django_rest_generator/client.py:243-248 | `{id}/cancel` contributes the detail action `cancel`, whose method is named `cancel` |
| Client.DetailActionContribution | django_rest_generator/client.py:243-248 | `{n}/a`, with a one-line action name `a` free of `/`, contributes exactly one detail action with endpoint `a`, and its method is named `a` |
| Client.CustomActionUrl | django_rest_generator/client.py:190-195 | instance URL plus endpoint iff detail and a truthy id, else class URL plus endpoint; errors propagate |
| Client.RunCustomAction | django_rest_generator/client.py:196 | once the URL is formed, `_run` raises `TypeError` because `return_schema` is not passed |
| Client.AsResourceClass | django_rest_generator/client.py:251-255 | the built class's URL is the object name with dots as slashes |
| Client.DetailActionUrlExample | django_rest_generator/client.py:190-195 | `cancel` on silo 11 is `api/v2/silos/11/cancel` |
| Client.FalsyIdUrlExample | django_rest_generator/client.py:190 | id 0 is falsy and falls back to `api/v2/siloscancel` |
| Client.NonDetailUrlHasNoSeparator | django_rest_generator/client.py:193-195 | a non-detail URL puts the endpoint right after the class URL, with no `/` between |
| Client.CustomActionNeverSends | django_rest_generator/client.py:196 | every custom action with a valid URL fails with `TypeError` |
| Response.HeaderGet | django_rest_generator/response.py:49 | a missing header reads as `""`; otherwise the value of the first header whose lower-cased name is the key |
| Response.AttachmentName | django_rest_generator/response.py:50-53 | a name iff the header splits into exactly two parts; it is the second part and rebuilds the header |
| Response.DecodedData | django_rest_generator/response.py:43-46 | undecodable gives nothing; without a schema the JSON itself; with one, `from_dict`'s result or error |
| Response.APIResponse.constructor | django_rest_generator/response.py:32-37 | the attributes copied from the response; `data`, `file_name` and `raw` unset |
| Response.APIResponse.HandleJsonResponse | django_rest_generator/response.py:43-46 | a decoded body sets `data`, typed through `from_dict` when a schema is bound; a decode error sets nothing |
| Response.APIResponse.HandleGenericResponse | django_rest_generator/response.py:48-54 | an attachment sets `file_name` and `raw`; anything else changes nothing |
| Response.APIResponse.Create | django_rest_generator/response.py:32-41 | the generic handler runs only on a decode error; a `from_dict` error escapes the constructor |
| Response.APIResponse.Item | django_rest_generator/response.py:56-62 | unset `data` raises `AttributeError`; a schema instance is not subscriptable; a dict is subscripted |
| Response.APIResponse.Results | django_rest_generator/response.py:56-58 | `results` is the `results` entry of the payload |
| Response.APIResponse.NextUrl | django_rest_generator/response.py:60-62 | `next_url` is the `next` entry of the payload |
| Response.APIResponse.HasNextUrl | django_rest_generator/response.py:64-66 | true iff `next` is not None; fails iff `next_url` fails |
| Response.AttachmentExample | django_rest_generator/response.py:50-53 | `attachment; filename=report.pdf` names `report.pdf` |
| Response.MissingHeaderNoFile | django_rest_generator/response.py:49-51 | without the header no file name is found |
| Response.TypedDataKeepsDeclaredFields | django_rest_generator/response.py:45-46 | with a schema bound, `data` holds exactly the declared fields with the payload's values |

## Left out

- HTTP transport, sessions and `raise_for_status`: `_request` is represented by the `Request` record `make_request` would pass it.
- Headers: header construction in `client.py` is not modelled.
- Document loading and `$ref` resolution with prance's `ResolvingParser`: the model starts from the resolved document tree.
- The JSON decoder: a body is given as decoded or undecodable. A decoded float carries the text its `repr` gives; that text is not computed from the value.
- Printing: the printed error line of `_parse_schemas_from_spec` is an output parameter.
- Reflection and class synthesis:
  - `register_resource` and `_get_resources_map` are not modelled;
  - `make_dataclass` is represented by its name checks and a field list;
  - `_make_resource_class` is represented by `Client.AsResourceClass`.
- Method resolution order is not modelled. For example, it would decide which `list` wins when the listable and deletable-object mixins are both present. Capabilities are a set of tags.
- Set iteration order:
  - Custom-action classes are kept in endpoint order, not in Python's arbitrary `set` order.
  - `set.pop` in `$ref` selection is the choice function `pick`.
- Mixins.All: records the requests it issues and the page numbers, not the response objects; a responder function stands for transport and decoding.
- `GenericApiClient` property plumbing, logging and `__repr__` are not modelled.
- `exceptions.py` of the older package is not modelled. Of its `types.py` only the request-method literal is modelled, as the `Verb` datatype; the other type aliases carry no behaviour.
- Case mapping: `lower` and `upper` map ASCII letters only. `strip` removes Python's full `str.isspace` set. Identifiers are ASCII.
- Utils.FormatLiteral: a lone brace in a literal fails with `ValueError`. Python raises `ValueError` or `KeyError` depending on what follows the brace.
- Parser.ConvertType: the `KeyError` carries text, not the key object. A non-string tag is shown by its `repr` (`None`, `True`, `12`, `1.5`), so the message matches Python's, but the exception's argument is a string.
- Client.MultiVerbActionRejected: the `Warning` text quotes each verb with `'`, as `repr` does for verbs without quote characters.
- ApiResource.InstanceUrl: the `RuntimeError`'s second argument `"id"` is not kept; the message is.
- Client.RunCustomAction: the `TypeError` message omits the qualified name that Python prefixes to `_request`.
- JSON objects with duplicate keys are not modelled; the lookup lemmas assume distinct keys.
- Response codes and headers are carried over unread.
- Utils.MatchToOpenapiPathSpec: a placeholder name holding regular-expression metacharacters after its first `>` is taken as a pattern error. Python would compile that text into the pattern and might instead return `False` or raise `IndexError`.
- Response.HeaderGet: the header list stands for requests' case-insensitive dictionary. With several headers of the same lower-cased name the model returns the first; requests would hold their values joined into one entry.
