/**
 * The path and name utilities of `django_rest_generator/utils.py`:
 * the method-name sanitiser, the pre-order key search over decoded JSON and
 * the matcher of OpenAPI path templates against request paths.
 *
 * The two regular expressions involved are modelled exactly, including the
 * rule that `.` does not match a newline.
 */
module Utils {
  import opened Common
  import opened Json
  import opened Text

  // ===================================================== the pattern {.*}/

  /** The first newline at or after `k`, or the end of `s`: no `.` in a pattern matches past it. */
  function LineEnd(s: string, k: nat): (e: nat)
    requires k <= |s|
    ensures k <= e <= |s|
    ensures e < |s| ==> s[e] == '\n'
    ensures forall m :: k <= m < e ==> s[m] != '\n'
    decreases |s| - k
  {
    if k == |s| || s[k] == '\n' then k else LineEnd(s, k + 1)
  }

  /** `}/` starts at position `j`. */
  predicate CloseAt(s: string, j: nat) {
    j + 1 < |s| && s[j] == '}' && s[j + 1] == '/'
  }

  /** The last position in `[lo, hi)` where `}/` starts. */
  function LastClose(s: string, lo: nat, hi: nat): (r: Option<nat>)
    requires hi <= |s|
    ensures r.Some? ==> lo <= r.value < hi && CloseAt(s, r.value)
    ensures r.Some? ==> forall j :: r.value < j < hi ==> !CloseAt(s, j)
    ensures r.None? ==> forall j :: lo <= j < hi ==> !CloseAt(s, j)
    decreases hi
  {
    if hi <= lo then None
    else if CloseAt(s, hi - 1) then Some(hi - 1)
    else LastClose(s, lo, hi - 1)
  }

  /**
   * Whether `{.*}/` matches at position `i`, and if so where its `}` is:
   * the greedy `.*` runs to the last `}/` before the end of the line.
   */
  function SpanAt(s: string, i: nat): Option<nat>
    requires i < |s|
  {
    if s[i] == '{' then LastClose(s, i + 1, LineEnd(s, i + 1)) else None
  }

  /** The leftmost match of `{.*}/` that starts at or after `from`: its start and the position of its `}`. */
  function FirstSpan(s: string, from: nat): (r: Option<(nat, nat)>)
    requires from <= |s|
    ensures r.Some? ==> from <= r.value.0 < r.value.1 && CloseAt(s, r.value.1)
    ensures r.Some? ==> SpanAt(s, r.value.0) == Some(r.value.1)
    ensures r.Some? ==> forall i :: from <= i < r.value.0 ==> SpanAt(s, i).None?
    ensures r.None? ==> forall i :: from <= i < |s| ==> SpanAt(s, i).None?
    decreases |s| - from
  {
    if from == |s| then None
    else match SpanAt(s, from)
      case Some(j) => Some((from, j))
      case None => FirstSpan(s, from + 1)
  }

  /**
   * `re.sub(r"{.*}\/", "", s)`: every match, left to right, is removed, so
   * the string never grows.
   */
  function RemoveSpans(s: string): (r: string)
    ensures |r| <= |s|
    decreases |s|
  {
    match FirstSpan(s, 0)
    case None => s
    case Some((i, j)) => s[..i] + RemoveSpans(s[j + 2..])
  }

  /** The substitution changes the string exactly when the pattern occurs, and then shortens it. */
  lemma RemoveSpansChanges(s: string)
    ensures RemoveSpans(s) == s <==> FirstSpan(s, 0).None?
    ensures FirstSpan(s, 0).Some? ==> |RemoveSpans(s)| < |s|
  {
  }

  /** The first `{` of `s`. */
  function FirstOpen(s: string): (r: Option<nat>)
    ensures r.Some? ==> r.value < |s| && s[r.value] == '{'
    ensures r.Some? ==> forall k :: 0 <= k < r.value ==> s[k] != '{'
    ensures r.None? ==> forall k :: 0 <= k < |s| ==> s[k] != '{'
  {
    if s == [] then None
    else if s[0] == '{' then Some(0)
    else match FirstOpen(s[1..])
      case Some(i) => Some(i + 1)
      case None => None
  }

  /**
   * On one line, the substitution removes a single span: from the first `{`
   * through the last `}/`, provided that `}/` comes after that `{`.
   */
  function GreedyCut(s: string): string {
    match (FirstOpen(s), LastClose(s, 0, |s|))
    case (Some(i), Some(j)) => if i < j then s[..i] + s[j + 2..] else s
    case _ => s
  }

  predicate SingleLine(s: string) {
    forall k :: 0 <= k < |s| ==> s[k] != '\n'
  }

  lemma {:induction false} LineEndSingleLine(s: string, k: nat)
    requires SingleLine(s) && k <= |s|
    ensures LineEnd(s, k) == |s|
  {
  }

  lemma {:induction false} LastCloseNarrowed(s: string, lo: nat, hi: nat, j: nat)
    requires hi <= |s|
    requires LastClose(s, 0, hi) == Some(j) && lo <= j
    ensures LastClose(s, lo, hi) == Some(j)
    decreases hi
  {
    if hi > 0 && !CloseAt(s, hi - 1) {
      LastCloseNarrowed(s, lo, hi - 1, j);
    }
  }

  lemma {:induction false} LastCloseAt(s: string, lo: nat, hi: nat, j: nat)
    requires lo <= j < hi <= |s| && CloseAt(s, j)
    requires forall m :: j < m < hi ==> !CloseAt(s, m)
    ensures LastClose(s, lo, hi) == Some(j)
    decreases hi
  {
    if hi - 1 > j {
      LastCloseAt(s, lo, hi - 1, j);
    }
  }

  lemma {:induction false} NoSpanWithoutClose(s: string)
    requires forall j :: 0 <= j < |s| ==> !CloseAt(s, j)
    ensures RemoveSpans(s) == s
  {
  }

  /** On one line, the substitution cuts from the first `{` through the last `}/` when that `}/` comes later. */
  lemma {:induction false} RemoveSpansSingleLine(s: string)
    requires SingleLine(s)
    ensures RemoveSpans(s) == GreedyCut(s)
  {
    match FirstOpen(s)
    case None =>
      NoOpenNoSpan(s);
    case Some(i) =>
      match LastClose(s, 0, |s|)
      case Some(j) =>
        if i < j {
          RemoveSpansCut(s, i, j);
        } else {
          NoSpanAfterLastClose(s, j);
        }
      case None =>
        NoSpanAfterLastClose(s, 0);
  }

  lemma {:induction false} RemoveSpansCut(s: string, i: nat, j: nat)
    requires SingleLine(s)
    requires FirstOpen(s) == Some(i) && LastClose(s, 0, |s|) == Some(j) && i < j
    ensures RemoveSpans(s) == s[..i] + s[j + 2..]
  {
    LineEndSingleLine(s, i + 1);
    LastCloseNarrowed(s, i + 1, |s|, j);
    assert SpanAt(s, i) == Some(j);
    FirstSpanAt(s, i, j);
    var tail := s[j + 2..];
    forall m | 0 <= m < |tail| ensures !CloseAt(tail, m) {
      assert !CloseAt(s, j + 2 + m);
      if m + 1 < |tail| {
        assert tail[m] == s[j + 2 + m] && tail[m + 1] == s[j + 3 + m];
      }
    }
    NoSpanWithoutClose(tail);
  }

  lemma {:induction false} NoOpenNoSpan(s: string)
    requires forall k :: 0 <= k < |s| ==> s[k] != '{'
    ensures RemoveSpans(s) == s
  {
  }

  lemma {:induction false} FirstSpanAt(s: string, i: nat, j: nat)
    requires i < |s|
    requires forall k :: 0 <= k < i ==> s[k] != '{'
    requires SpanAt(s, i) == Some(j)
    ensures FirstSpan(s, 0) == Some((i, j))
  {
  }

  /**
   * On one line, when every `}/` starts at or before `bound` and every `{`
   * lies at or after it, nothing matches.
   */
  lemma {:induction false} NoSpanAfterLastClose(s: string, bound: nat)
    requires SingleLine(s)
    requires forall j :: 0 <= j < |s| && CloseAt(s, j) ==> j <= bound
    requires forall k :: 0 <= k < |s| && s[k] == '{' ==> bound <= k
    ensures RemoveSpans(s) == s
    ensures GreedyCut(s) == s
  {
  }

  // ======================================================== the sanitiser

  /** `s.endswith(".")` then `s[:-1]`: at most one trailing dot is cut. */
  function TrimOneDot(s: string): string {
    if |s| > 0 && s[|s| - 1] == '.' then s[..|s| - 1] else s
  }

  /**
   * `sanitize_endpoint_to_method_name`: lower-case, strip, remove every
   * `{.*}/` match, turn each `/` into `.`, cut one trailing `.`.
   */
  function SanitizeEndpointToMethodName(endpoint: string): (r: string)
    ensures forall k :: 0 <= k < |r| ==> r[k] != '/' && !IsUpper(r[k])
  {
    var cut := RemoveSpans(Strip(Lower(endpoint)));
    NormalizedCutHasNoUpper(endpoint, cut);
    var r := TrimOneDot(ReplaceAll(cut, "/", "."));
    DottedChars(cut, r);
    r
  }

  /** After lower-casing, stripping and the substitution, no upper-case letter is left. */
  lemma {:induction false} NormalizedCutHasNoUpper(endpoint: string, cut: string)
    requires cut == RemoveSpans(Strip(Lower(endpoint)))
    ensures forall k :: 0 <= k < |cut| ==> !IsUpper(cut[k])
  {
    var low := Lower(endpoint);
    var s := Strip(low);
    var a := LeadingSpaces(low);
    forall i | 0 <= i < |s| ensures !IsUpper(s[i]) {
      assert s[i] == low[a + i];
    }
    RemoveSpansKeepsChars(s);
    forall k | 0 <= k < |cut| ensures !IsUpper(cut[k]) {
      assert cut[k] in s;
      var i :| 0 <= i < |s| && s[i] == cut[k];
    }
  }

  /** Turning slashes into dots and cutting one trailing dot leaves neither a slash nor a new upper-case letter. */
  lemma {:induction false} DottedChars(cut: string, r: string)
    requires forall k :: 0 <= k < |cut| ==> !IsUpper(cut[k])
    requires r == TrimOneDot(ReplaceAll(cut, "/", "."))
    ensures forall k :: 0 <= k < |r| ==> r[k] != '/' && !IsUpper(r[k])
  {
    assert "/" == ['/'] && "." == ['.'];
    ReplaceCharPointwise(cut, '/', '.');
    var d := ReplaceAll(cut, "/", ".");
    forall k | 0 <= k < |d| ensures d[k] != '/' && !IsUpper(d[k]) {
      assert d[k] == if cut[k] == '/' then '.' else cut[k];
    }
    forall k | 0 <= k < |r| ensures r[k] == d[k] {
    }
  }

  /** The substitution only deletes characters: whatever it leaves was in its input. */
  lemma {:induction false} RemoveSpansKeepsChars(s: string)
    ensures forall k :: 0 <= k < |RemoveSpans(s)| ==> RemoveSpans(s)[k] in s
    decreases |s|
  {
    match FirstSpan(s, 0)
    case None =>
    case Some((i, j)) =>
      RemoveSpansKeepsChars(s[j + 2..]);
      var r := RemoveSpans(s);
      forall k | 0 <= k < |r| ensures r[k] in s {
        if k < i {
          assert r[k] == s[k];
        } else {
          assert r[k] == RemoveSpans(s[j + 2..])[k - i];
        }
      }
  }

  /** Case and surrounding whitespace of the endpoint make no difference: they are normalised first. */
  lemma SanitizeNormalizesFirst(endpoint: string)
    ensures SanitizeEndpointToMethodName(Lower(endpoint)) == SanitizeEndpointToMethodName(endpoint)
    ensures SanitizeEndpointToMethodName(Strip(endpoint)) == SanitizeEndpointToMethodName(endpoint)
  {
    LowerIdempotent(endpoint);
    StripLowerCommute(endpoint);
    StripIdempotent(Lower(endpoint));
  }

  /** On a single line, the sanitiser cuts from the first `{` through the last `}/`. */
  lemma SanitizeSingleLine(endpoint: string)
    requires SingleLine(Strip(Lower(endpoint)))
    ensures SanitizeEndpointToMethodName(endpoint)
         == TrimOneDot(ReplaceAll(GreedyCut(Strip(Lower(endpoint))), "/", "."))
  {
    RemoveSpansSingleLine(Strip(Lower(endpoint)));
  }

  /** Text already lower-case, stripped and free of `{` only has its slashes turned into dots (and one trailing dot cut). */
  lemma {:induction false} SanitizePlain(e: string)
    requires forall k :: 0 <= k < |e| ==> !IsUpper(e[k]) && e[k] != '{'
    requires e != [] ==> !IsSpace(e[0]) && !IsSpace(e[|e| - 1])
    ensures SanitizeEndpointToMethodName(e) == TrimOneDot(ReplaceAll(e, "/", "."))
  {
    assert Lower(e) == e;
    NoEdgeSpaces(e);
    StripUnfold(e, 0, |e|);
    assert e[0..][..|e|] == e;
    NoOpenNoSpan(e);
  }

  /**
   * The endpoint names of the test suite. Each example takes its endpoint as
   * a parameter fixed by its precondition, so the verifier reasons from
   * `SanitizeExample` instead of evaluating the sanitiser on the literal.
   */
  lemma SanitizeExampleBugs(e: string)
    requires e == "api/v2/bugs"
    ensures SanitizeEndpointToMethodName(e) == "api.v2.bugs"
  {
    SanitizeExample(e, "api.v2.bugs");
  }

  /** With a trailing `/`, the one trailing `.` goes. */
  lemma SanitizeExampleProjects(e: string)
    requires e == "api/v2/projects/"
    ensures SanitizeEndpointToMethodName(e) == "api.v2.projects"
  {
    SanitizeTrailingSlash(e, "api.v2.projects.");
  }

  /** A leading `/` survives as `.`. */
  lemma SanitizeExampleLeadingSlash(e: string)
    requires e == "/api/v2/bugs/"
    ensures SanitizeEndpointToMethodName(e) == ".api.v2.bugs"
  {
    SanitizeTrailingSlash(e, ".api.v2.bugs.");
  }

  /** A hyphen is kept. */
  lemma SanitizeExampleHyphen(e: string)
    requires e == "api/v2/hot-bugs/"
    ensures SanitizeEndpointToMethodName(e) == "api.v2.hot-bugs"
  {
    SanitizeTrailingSlash(e, "api.v2.hot-bugs.");
  }

  /** A path of lower-case text ending in `/`: slashes become dots and the final dot goes. */
  lemma SanitizeTrailingSlash(e: string, dotted: string)
    requires forall k :: 0 <= k < |e| ==> !IsUpper(e[k]) && e[k] != '{' && !IsSpace(e[k])
    requires |dotted| == |e| && |e| > 0 && dotted[|e| - 1] == '.'
    requires forall k :: 0 <= k < |e| ==> dotted[k] == if e[k] == '/' then '.' else e[k]
    ensures SanitizeEndpointToMethodName(e) == dotted[..|dotted| - 1]
  {
    SanitizeExample(e, dotted);
  }

  lemma {:induction false} SanitizeExample(e: string, dotted: string)
    requires forall k :: 0 <= k < |e| ==> !IsUpper(e[k]) && e[k] != '{' && !IsSpace(e[k])
    requires |dotted| == |e|
    requires forall k :: 0 <= k < |e| ==> dotted[k] == if e[k] == '/' then '.' else e[k]
    ensures SanitizeEndpointToMethodName(e) == TrimOneDot(dotted)
  {
    SanitizePlain(e);
    ReplaceCharPointwise(e, '/', '.');
    assert ReplaceAll(e, "/", ".") == dotted;
  }

  /**
   * A custom action below a detail route keeps only its own name: for
   * `{id}/cancel` that is `cancel`, whatever the placeholder is called.
   */
  lemma {:induction false} SanitizeDetailAction(n: string, a: string)
    requires forall k :: 0 <= k < |n| ==> n[k] != '}' && n[k] != '\n' && !IsUpper(n[k]) && !IsSpace(n[k])
    requires forall k :: 0 <= k < |a| ==> a[k] != '/' && a[k] != '\n' && !IsUpper(a[k]) && !IsSpace(a[k])
    requires a == [] || a[|a| - 1] != '.'
    ensures SanitizeEndpointToMethodName("{" + n + "}/" + a) == a
  {
    DetailSpan(n, a);
    CharAbsent(a, '/');
    SanitizeOfNormalized("{" + n + "}/" + a, a);
  }

  lemma {:induction false} SanitizeOfNormalized(e: string, cut: string)
    requires Strip(Lower(e)) == e && RemoveSpans(e) == cut
    requires !Contains(cut, "/") && (cut == [] || cut[|cut| - 1] != '.')
    ensures SanitizeEndpointToMethodName(e) == cut
  {
    ReplaceAbsent(cut, "/", ".");
  }

  lemma {:induction false} DetailSpan(n: string, a: string)
    requires forall k :: 0 <= k < |n| ==> n[k] != '}' && n[k] != '\n' && !IsUpper(n[k]) && !IsSpace(n[k])
    requires forall k :: 0 <= k < |a| ==> a[k] != '/' && a[k] != '\n' && !IsUpper(a[k]) && !IsSpace(a[k])
    ensures Strip(Lower("{" + n + "}/" + a)) == "{" + n + "}/" + a
    ensures RemoveSpans("{" + n + "}/" + a) == a
  {
    DetailSpanNormal(n, a);
    DetailSpanCut(n, a);
  }

  lemma {:induction false} DetailSpanNormal(n: string, a: string)
    requires forall k :: 0 <= k < |n| ==> !IsUpper(n[k]) && !IsSpace(n[k])
    requires forall k :: 0 <= k < |a| ==> !IsUpper(a[k]) && !IsSpace(a[k])
    ensures Strip(Lower("{" + n + "}/" + a)) == "{" + n + "}/" + a
  {
    var e := "{" + n + "}/" + a;
    forall k | 0 <= k < |e| ensures !IsUpper(e[k]) && !IsSpace(e[k]) {
      if 1 <= k <= |n| {
        assert e[k] == n[k - 1];
      } else if |n| + 3 <= k {
        assert e[k] == a[k - |n| - 3];
      }
    }
    SanitizeStrip(e);
  }

  lemma {:induction false} DetailSpanCut(n: string, a: string)
    requires forall k :: 0 <= k < |n| ==> n[k] != '}' && n[k] != '\n'
    requires forall k :: 0 <= k < |a| ==> a[k] != '/' && a[k] != '\n'
    ensures RemoveSpans("{" + n + "}/" + a) == a
  {
    var e := "{" + n + "}/" + a;
    var j := |n| + 1;
    forall k | 0 <= k < |e| ensures e[k] != '\n' && (j + 2 <= k ==> e[k] != '/') {
      if 1 <= k <= |n| {
        assert e[k] == n[k - 1];
      } else if j + 2 <= k {
        assert e[k] == a[k - j - 2];
      }
    }
    assert FirstOpen(e) == Some(0);
    assert CloseAt(e, j);
    LastCloseAt(e, 0, |e|, j);
    RemoveSpansCut(e, 0, j);
    assert e[j + 2..] == a;
  }

  lemma {:induction false} CharAbsent(s: string, c: char)
    requires forall k :: 0 <= k < |s| ==> s[k] != c
    ensures !Contains(s, [c])
  {
    forall i | 0 <= i <= |s| ensures !OccursAt(s, [c], i) {
      if i < |s| {
        assert s[i..i + 1] == [s[i]];
      }
    }
  }

  lemma {:induction false} SanitizeStrip(e: string)
    requires forall k :: 0 <= k < |e| ==> !IsUpper(e[k]) && !IsSpace(e[k])
    ensures Strip(Lower(e)) == e
  {
    assert Lower(e) == e;
    NoEdgeSpaces(e);
    StripUnfold(e, 0, |e|);
    assert e[0..][..|e|] == e;
  }

  // ========================================== pre-order search for a key

  /**
   * `find_nested_keys(node, key)`: the values stored under `key`, in
   * pre-order. Scalars hold no keys.
   */
  function FindNestedKeys(node: Json, key: string): (r: seq<Json>)
    ensures !node.JList? && !node.JObject? ==> r == []
    decreases node
  {
    match node
    case JList(items) => FindInItems(items, key)
    case JObject(entries) =>
      (match Get(entries, key) case Some(v) => [v] case None => []) + FindInValues(entries, key)
    case _ => []
  }

  function FindInItems(items: seq<Json>, key: string): seq<Json>
    decreases items
  {
    if items == [] then [] else FindNestedKeys(items[0], key) + FindInItems(items[1..], key)
  }

  function FindInValues(entries: seq<(string, Json)>, key: string): seq<Json>
    decreases entries
  {
    if entries == [] then []
    else
      assert entries[0].1 < entries[0];
      FindNestedKeys(entries[0].1, key) + FindInValues(entries[1..], key)
  }

  /** `v` is stored under `key` in some dictionary nested in `node` (an independent description of the search). */
  predicate StoredUnder(node: Json, key: string, v: Json)
    decreases node
  {
    match node
    case JList(items) => exists i :: 0 <= i < |items| && StoredUnder(items[i], key, v)
    case JObject(entries) =>
      Get(entries, key) == Some(v) || exists i :: 0 <= i < |entries| && StoredUnder(entries[i].1, key, v)
    case _ => false
  }

  /** A dictionary's own value for the key comes before anything found deeper. */
  lemma OwnValueFirst(entries: seq<(string, Json)>, key: string)
    requires HasKey(entries, key)
    ensures FindNestedKeys(JObject(entries), key)[0] == Get(entries, key).value
  {
  }

  /** The elements of a list are searched one after the other, in order. */
  lemma {:induction false} ItemsInOrder(xs: seq<Json>, ys: seq<Json>, key: string)
    ensures FindNestedKeys(JList(xs + ys), key)
         == FindNestedKeys(JList(xs), key) + FindNestedKeys(JList(ys), key)
    decreases |xs|
  {
    if xs != [] {
      assert (xs + ys)[1..] == xs[1..] + ys;
      ItemsInOrder(xs[1..], ys, key);
    } else {
      assert xs + ys == ys;
    }
  }

  /** The search finds exactly the values stored under the key somewhere in the tree. */
  lemma {:induction false} FindNestedKeysComplete(node: Json, key: string, v: Json)
    ensures v in FindNestedKeys(node, key) <==> StoredUnder(node, key, v)
    decreases node, 2
  {
    match node
    case JList(items) => FindInItemsComplete(items, key, v);
    case JObject(entries) => FindInValuesComplete(entries, key, v);
    case _ =>
  }

  lemma {:induction false} FindInItemsComplete(items: seq<Json>, key: string, v: Json)
    ensures v in FindInItems(items, key) <==> exists i :: 0 <= i < |items| && StoredUnder(items[i], key, v)
    decreases items, 1
  {
    if items != [] {
      FindNestedKeysComplete(items[0], key, v);
      FindInItemsComplete(items[1..], key, v);
      if exists i :: 0 <= i < |items| && StoredUnder(items[i], key, v) {
        var i :| 0 <= i < |items| && StoredUnder(items[i], key, v);
        if i > 0 {
          assert items[1..][i - 1] == items[i];
        }
      }
      if exists i :: 0 <= i < |items[1..]| && StoredUnder(items[1..][i], key, v) {
        var i :| 0 <= i < |items[1..]| && StoredUnder(items[1..][i], key, v);
        assert items[i + 1] == items[1..][i];
      }
    }
  }

  lemma {:induction false} FindInValuesComplete(entries: seq<(string, Json)>, key: string, v: Json)
    ensures v in FindInValues(entries, key) <==> exists i :: 0 <= i < |entries| && StoredUnder(entries[i].1, key, v)
    decreases entries, 1
  {
    if entries != [] {
      assert entries[0].1 < entries[0];
      FindNestedKeysComplete(entries[0].1, key, v);
      FindInValuesComplete(entries[1..], key, v);
      if exists i :: 0 <= i < |entries| && StoredUnder(entries[i].1, key, v) {
        var i :| 0 <= i < |entries| && StoredUnder(entries[i].1, key, v);
        if i > 0 {
          assert entries[1..][i - 1] == entries[i];
        }
      }
      if exists i :: 0 <= i < |entries[1..]| && StoredUnder(entries[1..][i].1, key, v) {
        var i :| 0 <= i < |entries[1..]| && StoredUnder(entries[1..][i].1, key, v);
        assert entries[i + 1] == entries[1..][i];
      }
    }
  }

  /** The nested dictionary of the test suite: one reference, one level down. */
  lemma FindNestedKeysExampleNested(node: Json)
    requires node == JObject([("id", JStr("12")), ("item1", JObject([("ref", JStr("itemref"))]))])
    ensures FindNestedKeys(node, "ref") == [JStr("itemref")]
  {
    var entries := node.entries;
    var inner := entries[1].1;
    assert Get(entries, "ref") == None;
    assert FindNestedKeys(inner, "ref") == [JStr("itemref")];
    assert FindInValues(entries[1..], "ref") == FindNestedKeys(inner, "ref") + FindInValues(entries[1..][1..], "ref");
    assert FindInValues(entries, "ref") == FindNestedKeys(entries[0].1, "ref") + FindInValues(entries[1..], "ref");
  }

  /** The list of the test suite: references come out in list order. */
  lemma FindNestedKeysExampleList(node: Json)
    requires node == JObject([("id", JStr("13")),
                              ("items", JList([JObject([("id", JStr("item1")), ("ref", JStr("item1ref"))]),
                                               JObject([("id", JStr("item2")), ("ref", JStr("item2ref"))])]))])
    ensures FindNestedKeys(node, "ref") == [JStr("item1ref"), JStr("item2ref")]
  {
    var items := node.entries[1].1.items;
    IdAndRef(items[0], "ref");
    IdAndRef(items[1], "ref");
    ItemsInOrder([items[0]], [items[1]], "ref");
    assert [items[0]] + [items[1]] == items;
    IdAndList(node, "ref");
  }

  /** A dictionary `{"id": .., key: r}` yields `r` alone. */
  lemma IdAndRef(o: Json, key: string)
    requires o.JObject? && |o.entries| == 2 && o.entries[0].0 != key && o.entries[1].0 == key
    requires o.entries[0].1.JStr? && o.entries[1].1.JStr?
    ensures FindNestedKeys(o, key) == [o.entries[1].1]
  {
    var entries := o.entries;
    assert Get(entries, key) == Some(entries[1].1);
    assert FindInValues(entries[1..], key) == FindNestedKeys(entries[1].1, key) + FindInValues(entries[1..][1..], key);
    assert FindInValues(entries, key) == FindNestedKeys(entries[0].1, key) + FindInValues(entries[1..], key) == [];
  }

  /** A dictionary `{"id": .., "items": xs}` without the key yields what the list `xs` yields. */
  lemma IdAndList(o: Json, key: string)
    requires o.JObject? && |o.entries| == 2 && o.entries[0].0 != key && o.entries[1].0 != key
    requires o.entries[0].1.JStr? && o.entries[1].1.JList?
    ensures FindNestedKeys(o, key) == FindNestedKeys(o.entries[1].1, key)
  {
    var entries := o.entries;
    assert Get(entries, key) == None;
    assert FindInValues(entries[1..], key) == FindNestedKeys(entries[1].1, key) + FindInValues(entries[1..][1..], key);
    assert FindInValues(entries, key) == FindNestedKeys(entries[0].1, key) + FindInValues(entries[1..], key);
  }

  // ==================================================== template matching

  /** A piece of a path template: literal text, or a `{name}` placeholder. */
  datatype Token = Lit(text: string) | Hole(name: string)

  /** The first `}` in `[lo, hi)`. */
  function FirstCloseBrace(s: string, lo: nat, hi: nat): (r: Option<nat>)
    requires lo <= hi <= |s|
    ensures r.Some? ==> lo <= r.value < hi && s[r.value] == '}'
    ensures r.Some? ==> forall m :: lo <= m < r.value ==> s[m] != '}'
    decreases hi - lo
  {
    if lo == hi then None
    else if s[lo] == '}' then Some(lo)
    else FirstCloseBrace(s, lo + 1, hi)
  }

  /** Whether `\{(.*?)\}` matches at `i`, and if so where its `}` is: the lazy `.*?` stops at the first `}` of the line. */
  function HoleAt(s: string, i: nat): Option<nat>
    requires i < |s|
  {
    if s[i] == '{' then FirstCloseBrace(s, i + 1, LineEnd(s, i + 1)) else None
  }

  /** The leftmost placeholder at or after `from`: the positions of its `{` and `}`. */
  function FirstHole(s: string, from: nat): (r: Option<(nat, nat)>)
    requires from <= |s|
    ensures r.Some? ==> from <= r.value.0 < r.value.1 < |s|
    ensures r.Some? ==> s[r.value.0] == '{' && s[r.value.1] == '}'
    ensures r.Some? ==> SingleLine(s[r.value.0 + 1..r.value.1])
    ensures r.Some? ==> forall m :: r.value.0 < m < r.value.1 ==> s[m] != '}'
    ensures r.None? ==> forall i :: from <= i < |s| ==> HoleAt(s, i).None?
    decreases |s| - from
  {
    if from == |s| then None
    else match HoleAt(s, from)
      case Some(k) => Some((from, k))
      case None => FirstHole(s, from + 1)
  }

  /** Literal text and placeholders alternate, starting and ending with (possibly empty) text. */
  predicate Alternating(ts: seq<Token>) {
    |ts| % 2 == 1 && forall i :: 0 <= i < |ts| ==> (ts[i].Lit? <==> i % 2 == 0)
  }

  /** A placeholder name holds no newline and no `}`. */
  predicate PlainName(n: string) {
    forall k :: 0 <= k < |n| ==> n[k] != '\n' && n[k] != '}'
  }

  /** `re.split(r"\{(.*?)\}", template)`: text and placeholder names, alternating. */
  function Tokenize(s: string): (ts: seq<Token>)
    ensures Alternating(ts)
    ensures forall i :: 0 <= i < |ts| && ts[i].Hole? ==> PlainName(ts[i].name)
    decreases |s|
  {
    match FirstHole(s, 0)
    case None => [Lit(s)]
    case Some((i, k)) =>
      var rest := Tokenize(s[k + 1..]);
      assert forall m :: i + 1 <= m < k ==> s[m] != '}';
      assert PlainName(s[i + 1..k]);
      [Lit(s[..i]), Hole(s[i + 1..k])] + rest
  }

  /** The template text a token sequence stands for. */
  function Render(ts: seq<Token>): string {
    if ts == [] then []
    else match ts[0]
      case Lit(t) => t + Render(ts[1..])
      case Hole(n) => "{" + n + "}" + Render(ts[1..])
  }

  lemma RenderAppend(a: seq<Token>, b: seq<Token>)
    ensures Render(a + b) == Render(a) + Render(b)
  {
    if a != [] {
      assert (a + b)[1..] == a[1..] + b;
      RenderAppend(a[1..], b);
    } else {
      assert a + b == b;
    }
  }

  /** Splitting a template loses nothing: rendering the pieces gives the template back. */
  lemma {:induction false} TokenizeRender(s: string)
    ensures Render(Tokenize(s)) == s
    decreases |s|
  {
    match FirstHole(s, 0)
    case None =>
      assert Render([Lit(s)]) == s + Render([]);
    case Some((i, k)) =>
      TokenizeRender(s[k + 1..]);
      TokenizeRenderStep(s, i, k);
  }

  lemma {:induction false} TokenizeRenderStep(s: string, i: nat, k: nat)
    requires FirstHole(s, 0) == Some((i, k))
    requires Render(Tokenize(s[k + 1..])) == s[k + 1..]
    ensures Render(Tokenize(s)) == s
  {
    var rest := s[k + 1..];
    var head := [Lit(s[..i]), Hole(s[i + 1..k])];
    assert Tokenize(s) == head + Tokenize(rest);
    RenderAppend(head, Tokenize(rest));
    RenderHead(s[..i], s[i + 1..k]);
    SplitAroundHole(s, i, k);
  }

  lemma RenderHead(text: string, name: string)
    ensures Render([Lit(text), Hole(name)]) == text + "{" + name + "}"
  {
    assert [Lit(text), Hole(name)][1..] == [Hole(name)];
    assert Render([Hole(name)]) == "{" + name + "}" + Render([]);
  }

  lemma SplitAroundHole(s: string, i: nat, k: nat)
    requires i < k < |s| && s[i] == '{' && s[k] == '}'
    ensures s == s[..i] + "{" + s[i + 1..k] + "}" + s[k + 1..]
  {
    assert s == s[..i] + [s[i]] + s[i + 1..k] + [s[k]] + s[k + 1..];
  }

  /** What `.+` matches: one or more characters, none a newline. */
  predicate PlaceholderValue(v: string) {
    |v| >= 1 && SingleLine(v)
  }

  /** `re.fullmatch` of the pattern built from the tokens: literals escaped, each placeholder `(?P<name>.+)`. */
  function FullMatch(ts: seq<Token>, p: string): bool
    decreases |ts|
  {
    if ts == [] then p == []
    else match ts[0]
      case Lit(t) => |t| <= |p| && p[..|t|] == t && FullMatch(ts[1..], p[|t|..])
      case Hole(_) => exists k :: 1 <= k <= |p| && PlaceholderValue(p[..k]) && FullMatch(ts[1..], p[k..])
  }

  function HoleCount(ts: seq<Token>): nat {
    if ts == [] then 0 else (if ts[0].Hole? then 1 else 0) + HoleCount(ts[1..])
  }

  function HoleNames(ts: seq<Token>): (ns: seq<string>)
    ensures |ns| == HoleCount(ts)
  {
    if ts == [] then []
    else if ts[0].Hole? then [ts[0].name] + HoleNames(ts[1..])
    else HoleNames(ts[1..])
  }

  /** The template with the given placeholder values substituted, in order. */
  function Fill(ts: seq<Token>, vs: seq<string>): string
    requires |vs| == HoleCount(ts)
  {
    if ts == [] then []
    else match ts[0]
      case Lit(t) => t + Fill(ts[1..], vs)
      case Hole(_) => vs[0] + Fill(ts[1..], vs[1..])
  }

  /** The greedy choice for a placeholder: the longest value after which the rest still matches. */
  function LongestSplit(rest: seq<Token>, p: string, hi: nat): (k: nat)
    requires hi <= |p|
    requires exists k :: 1 <= k <= hi && PlaceholderValue(p[..k]) && FullMatch(rest, p[k..])
    ensures 1 <= k <= hi && PlaceholderValue(p[..k]) && FullMatch(rest, p[k..])
    decreases hi
  {
    if PlaceholderValue(p[..hi]) && FullMatch(rest, p[hi..]) then hi else LongestSplit(rest, p, hi - 1)
  }

  /** The groups of a successful full match, each placeholder as greedy as the rest allows. */
  function Groups(ts: seq<Token>, p: string): (vs: seq<string>)
    requires FullMatch(ts, p)
    ensures |vs| == HoleCount(ts)
    ensures forall i :: 0 <= i < |vs| ==> PlaceholderValue(vs[i])
    ensures Fill(ts, vs) == p
    decreases |ts|
  {
    if ts == [] then []
    else match ts[0]
      case Lit(t) =>
        assert p == t + p[|t|..];
        Groups(ts[1..], p[|t|..])
      case Hole(_) =>
        var k := LongestSplit(ts[1..], p, |p|);
        assert p == p[..k] + p[k..];
        [p[..k]] + Groups(ts[1..], p[k..])
  }

  /** Substituting placeholder values gives a path the template's pattern matches in full. */
  lemma {:induction false} FillMatches(ts: seq<Token>, vs: seq<string>)
    requires |vs| == HoleCount(ts)
    requires forall i :: 0 <= i < |vs| ==> PlaceholderValue(vs[i])
    ensures FullMatch(ts, Fill(ts, vs))
    decreases |ts|
  {
    if ts != [] {
      var p := Fill(ts, vs);
      match ts[0]
      case Lit(t) =>
        FillMatches(ts[1..], vs);
        assert p[..|t|] == t && p[|t|..] == Fill(ts[1..], vs);
      case Hole(_) =>
        FillMatches(ts[1..], vs[1..]);
        var k := |vs[0]|;
        assert p[..k] == vs[0] && p[k..] == Fill(ts[1..], vs[1..]);
    }
  }

  /** The pattern built from a template's tokens matches the template text itself. */
  lemma PatternMatchesOwnTemplate(template: string)
    ensures FullMatch(Tokenize(template), template)
  {
    var ts := Tokenize(template);
    var vs := Renderings(ts);
    FillRenderings(ts);
    TokenizeRender(template);
    FillMatches(ts, vs);
  }

  /** Each placeholder written back as `{name}`. */
  function Renderings(ts: seq<Token>): (vs: seq<string>)
    ensures |vs| == HoleCount(ts)
    ensures forall i :: 0 <= i < |vs| ==> |vs[i]| >= 2
  {
    if ts == [] then []
    else if ts[0].Hole? then ["{" + ts[0].name + "}"] + Renderings(ts[1..])
    else Renderings(ts[1..])
  }

  lemma {:induction false} FillRenderings(ts: seq<Token>)
    requires forall i :: 0 <= i < |ts| && ts[i].Hole? ==> PlainName(ts[i].name)
    ensures Fill(ts, Renderings(ts)) == Render(ts)
    ensures forall i :: 0 <= i < |Renderings(ts)| ==> PlaceholderValue(Renderings(ts)[i])
  {
    if ts != [] {
      FillRenderings(ts[1..]);
      if ts[0].Hole? {
        var n := ts[0].name;
        assert PlainName(n);
        assert SingleLine("{" + n + "}") by {
          forall m | 0 <= m < |n| + 2 ensures ("{" + n + "}")[m] != '\n' {
            if 0 < m <= |n| {
              assert ("{" + n + "}")[m] == n[m - 1];
            }
          }
        }
      }
    }
  }

  predicate IsIdStart(c: char) { IsUpper(c) || IsLowerLetter(c) || c == '_' }

  predicate IsIdChar(c: char) { IsIdStart(c) || IsDigit(c) }

  /** A valid regular-expression group name: a Python identifier. */
  predicate IsIdentifier(n: string) {
    |n| >= 1 && IsIdStart(n[0]) && forall k :: 1 <= k < |n| ==> IsIdChar(n[k])
  }

  /** Group names the regular-expression compiler accepts: each an identifier, none used twice. */
  predicate ValidNames(ns: seq<string>) {
    (forall i :: 0 <= i < |ns| ==> IsIdentifier(ns[i]))
    && (forall i, j :: 0 <= i < j < |ns| ==> ns[i] != ns[j])
  }

  /** The named groups compile with the placeholder names as written. */
  predicate ValidGroupNames(ts: seq<Token>) {
    ValidNames(HoleNames(ts))
  }

  /**
   * Where the compiler stops reading the group name in `(?P<name>.+)`: at the
   * first `>` of the placeholder name, or after the whole name.
   */
  function NameEnd(n: string): (j: nat)
    ensures j <= |n|
    ensures forall m :: 0 <= m < j ==> n[m] != '>'
    ensures j < |n| ==> n[j] == '>'
  {
    if n == [] || n[0] == '>' then 0 else 1 + NameEnd(n[1..])
  }

  /** The name the compiled group actually gets: the placeholder name up to its first `>`. */
  function GroupNames(ns: seq<string>): (gs: seq<string>)
    ensures |gs| == |ns|
    ensures forall i :: 0 <= i < |ns| ==> gs[i] == ns[i][..NameEnd(ns[i])]
  {
    if ns == [] then [] else [ns[0][..NameEnd(ns[0])]] + GroupNames(ns[1..])
  }

  predicate IsRegexSpecial(c: char) {
    c in ".^$*+?{}[]\\|()"
  }

  /** What follows the first `>` of every placeholder name holds no regular-expression metacharacter. */
  predicate PlainGroupText(ts: seq<Token>) {
    forall i :: 0 <= i < |ts| && ts[i].Hole? ==>
      forall k :: NameEnd(ts[i].name) <= k < |ts[i].name| ==> !IsRegexSpecial(ts[i].name[k])
  }

  /**
   * The pattern as compiled. A placeholder `{g>t}` becomes `(?P<g>t>.+)`: a
   * group `g` that matches the text `t>` followed by `.+`. For whether the
   * whole path matches, that is the literal `t>` followed by a placeholder `g`.
   */
  function Compiled(ts: seq<Token>): seq<Token>
  {
    if ts == [] then []
    else match ts[0]
      case Lit(_) => [ts[0]] + Compiled(ts[1..])
      case Hole(n) =>
        var j := NameEnd(n);
        if j == |n| then [ts[0]] + Compiled(ts[1..])
        else [Lit(n[j + 1..] + ">"), Hole(n[..j])] + Compiled(ts[1..])
  }

  predicate IsBrace(c: char) { c == '{' || c == '}' }

  /**
   * `str.format` on literal text: `{{` and `}}` stand for one brace; a brace
   * on its own is an error.
   */
  function FormatLiteral(t: string): (r: Result<string, Error>)
    ensures r.Ok? ==> |r.value| <= |t|
    ensures r.Ok? ==> (|r.value| == |t| <==> forall k :: 0 <= k < |t| ==> !IsBrace(t[k]))
    ensures (forall k :: 0 <= k < |t| ==> !IsBrace(t[k])) ==> r == Ok(t)
    decreases |t|
  {
    if t == [] then Ok([])
    else if IsBrace(t[0]) then
      if |t| >= 2 && t[1] == t[0] then
        match FormatLiteral(t[2..])
        case Ok(u) => Ok([t[0]] + u)
        case Err(e) => Err(e)
      else Err(ValueError("Single brace encountered in format string"))
    else
      match FormatLiteral(t[1..])
      case Ok(u) =>
        assert t == [t[0]] + t[1..];
        Ok([t[0]] + u)
      case Err(e) => Err(e)
  }

  /**
   * `template.format(**substitutions)`: literals unescaped, each placeholder
   * replaced by its group. Only a literal with a lone brace can make it fail.
   */
  function Format(ts: seq<Token>, vs: seq<string>): (r: Result<string, Error>)
    requires |vs| == HoleCount(ts)
    ensures r.Err? ==> exists i :: 0 <= i < |ts| && ts[i].Lit? && FormatLiteral(ts[i].text).Err?
  {
    if ts == [] then Ok([])
    else match ts[0]
      case Lit(t) =>
        (match FormatLiteral(t)
         case Err(e) => Err(e)
         case Ok(u) =>
           match Format(ts[1..], vs)
           case Err(e) => Err(e)
           case Ok(rest) => Ok(u + rest))
      case Hole(_) =>
        match Format(ts[1..], vs[1..])
        case Err(e) => Err(e)
        case Ok(rest) => Ok(vs[0] + rest)
  }

  /**
   * `match_to_openapi_path_spec(template, path)`: equal strings match at once;
   * otherwise the template's pattern must match the whole path and the
   * template formatted with the matched groups must give the path back.
   *
   * When a placeholder name holds `>`, the compiled group is named by the
   * part before it and the rest is pattern text. The pattern may then compile
   * and match, but looking up the group by the whole placeholder name raises
   * `IndexError`.
   */
  function MatchToOpenapiPathSpec(template: string, path: string): (r: Result<bool, Error>)
    ensures template == path ==> r == Ok(true)
    ensures r == Ok(true) && template != path ==>
      ValidGroupNames(Tokenize(template)) && FullMatch(Tokenize(template), path)
  {
    if template == path then Ok(true)
    else
      var ts := Tokenize(template);
      if ValidGroupNames(ts) then
        if !FullMatch(ts, path) then Ok(false)
        else match Format(ts, Groups(ts, path))
          case Err(e) => Err(e)
          case Ok(model) => Ok(model == path)
      else MatchMisnamed(ts, path)
  }

  /** The outcome when some placeholder name is not, as written, the name of a compiled group. */
  function MatchMisnamed(ts: seq<Token>, path: string): Result<bool, Error> {
    if !ValidNames(GroupNames(HoleNames(ts))) then Err(RegexError("bad or repeated group name"))
    else if !PlainGroupText(ts) then Err(RegexError("pattern text in a placeholder name"))
    else if !FullMatch(Compiled(ts), path) then Ok(false)
    else Err(IndexError("no such group"))
  }

  /** Every literal piece is free of braces. */
  predicate BraceFreeLiterals(ts: seq<Token>) {
    forall i :: 0 <= i < |ts| && ts[i].Lit? ==> forall k :: 0 <= k < |ts[i].text| ==> !IsBrace(ts[i].text[k])
  }

  lemma {:induction false} FormatBraceFree(ts: seq<Token>, vs: seq<string>)
    requires |vs| == HoleCount(ts)
    requires BraceFreeLiterals(ts)
    ensures Format(ts, vs) == Ok(Fill(ts, vs))
  {
    if ts != [] {
      match ts[0]
      case Lit(t) =>
        assert ts[0].Lit?;
        FormatBraceFree(ts[1..], vs);
      case Hole(_) =>
        FormatBraceFree(ts[1..], vs[1..]);
    }
  }

  /** Without `>` in any placeholder name the compiled pattern is the template's own tokens. */
  lemma {:induction false} CompiledWithoutAngles(ts: seq<Token>)
    requires forall i :: 0 <= i < |ts| && ts[i].Hole? ==> NameEnd(ts[i].name) == |ts[i].name|
    ensures Compiled(ts) == ts
  {
    if ts != [] {
      CompiledWithoutAngles(ts[1..]);
      assert ts == [ts[0]] + ts[1..];
    }
  }

  /** A name holding `>` is never an identifier. */
  lemma AngledNameInvalid(n: string)
    requires NameEnd(n) < |n|
    ensures !IsIdentifier(n)
  {
    var j := NameEnd(n);
    assert n[j] == '>';
    if j == 0 {
      assert !IsIdStart(n[0]);
    } else {
      assert !IsIdChar(n[j]);
    }
  }

  /**
   * A placeholder name holding `>` can never make two different strings
   * match: the pattern fails to compile, does not match, or its group lookup
   * fails.
   */
  lemma AngledNameNeverMatches(template: string, path: string, i: nat)
    requires template != path
    requires i < |HoleNames(Tokenize(template))|
    requires NameEnd(HoleNames(Tokenize(template))[i]) < |HoleNames(Tokenize(template))[i]|
    ensures MatchToOpenapiPathSpec(template, path) == Ok(false) || MatchToOpenapiPathSpec(template, path).Err?
  {
    AngledNameInvalid(HoleNames(Tokenize(template))[i]);
    assert !ValidGroupNames(Tokenize(template));
  }

  /** The template's pattern and the format round trip agree when no literal holds a brace. */
  lemma MatchIsFullMatch(template: string, path: string)
    requires ValidGroupNames(Tokenize(template))
    requires BraceFreeLiterals(Tokenize(template))
    ensures MatchToOpenapiPathSpec(template, path) == Ok(template == path || FullMatch(Tokenize(template), path))
  {
    var ts := Tokenize(template);
    if template != path && FullMatch(ts, path) {
      FormatBraceFree(ts, Groups(ts, path));
    }
  }

  /**
   * Matching is reflexive, and a template's own pattern accepts the template,
   * so the early equality test only saves work.
   */
  lemma MatchReflexive(template: string)
    ensures MatchToOpenapiPathSpec(template, template) == Ok(true)
    ensures FullMatch(Tokenize(template), template)
  {
    PatternMatchesOwnTemplate(template);
  }

  /** A template without placeholders matches exactly the identical path. */
  lemma MatchWithoutPlaceholders(template: string, path: string)
    requires HoleCount(Tokenize(template)) == 0
    ensures MatchToOpenapiPathSpec(template, path) == Ok(template == path)
  {
    var ts := Tokenize(template);
    TokenizeRender(template);
    if |ts| > 1 {
      assert ts[1].Hole?;
      HoleCountPositive(ts, 1);
    }
    assert ts == [Lit(template)];
  }

  lemma {:induction false} HoleCountPositive(ts: seq<Token>, i: nat)
    requires i < |ts| && ts[i].Hole?
    ensures HoleCount(ts) > 0
  {
    if i > 0 {
      HoleCountPositive(ts[1..], i - 1);
    }
  }

  /** Text without `{` is one literal piece. */
  lemma TokenizeNoOpen(s: string)
    requires forall k :: 0 <= k < |s| ==> s[k] != '{'
    ensures Tokenize(s) == [Lit(s)]
  {
  }

  lemma {:induction false} FirstCloseBraceAt(s: string, lo: nat, hi: nat, k: nat)
    requires lo <= k < hi <= |s| && s[k] == '}'
    requires forall m :: lo <= m < k ==> s[m] != '}'
    ensures FirstCloseBrace(s, lo, hi) == Some(k)
    decreases k - lo
  {
    if lo < k {
      FirstCloseBraceAt(s, lo + 1, hi, k);
    }
  }

  /** A template that opens with a placeholder: an empty literal, the placeholder, then the rest. */
  lemma {:induction false} TokenizeLeadingHole(n: string, rest: string)
    requires PlainName(n)
    ensures Tokenize("{" + n + "}" + rest) == [Lit(""), Hole(n)] + Tokenize(rest)
  {
    var s := "{" + n + "}" + rest;
    var k := |n| + 1;
    assert s[k] == '}';
    assert forall m :: 1 <= m < k ==> s[m] == n[m - 1];
    var e := LineEnd(s, 1);
    assert k < e;
    FirstCloseBraceAt(s, 1, e, k);
    assert FirstHole(s, 0) == Some((0, k));
    assert s[..0] == "" && s[1..k] == n && s[k + 1..] == rest;
  }



  /** The pattern of `{id}` followed by literal text `tail`: what it accepts. */
  predicate OneHoleAccepts(tail: string, p: string) {
    |tail| < |p| && p[|p| - |tail|..] == tail && PlaceholderValue(p[..|p| - |tail|])
  }

  lemma {:induction false} OneHoleTokens(tail: string)
    requires forall k :: 0 <= k < |tail| ==> !IsBrace(tail[k])
    ensures Tokenize("{id}" + tail) == [Lit(""), Hole("id"), Lit(tail)]
    ensures ValidGroupNames(Tokenize("{id}" + tail))
    ensures BraceFreeLiterals(Tokenize("{id}" + tail))
  {
    assert "{id}" + tail == "{" + "id" + "}" + tail;
    TokenizeLeadingHole("id", tail);
    TokenizeNoOpen(tail);
    ThreeTokens("", "id", tail);
    assert IsIdentifier("id");
  }

  lemma {:induction false} OneHoleFullMatch(tail: string, p: string)
    ensures FullMatch([Lit(""), Hole("id"), Lit(tail)], p) <==> OneHoleAccepts(tail, p)
  {
    var ts := [Lit(""), Hole("id"), Lit(tail)];
    assert ts[1..] == [Hole("id"), Lit(tail)];
    assert ts[2..] == [Lit(tail)];
    assert FullMatch(ts, p) == FullMatch(ts[1..], p);
    var cut := |p| - |tail|;
    if FullMatch(ts[1..], p) {
      var k :| 1 <= k <= |p| && PlaceholderValue(p[..k]) && FullMatch(ts[2..], p[k..]);
      FullMatchLit(tail, p[k..]);
      assert k == cut;
    }
    if OneHoleAccepts(tail, p) {
      FullMatchLit(tail, p[cut..]);
      assert FullMatch(ts[2..], p[cut..]);
    }
  }

  /** The template `{id}` followed by brace-free text `tail`: it accepts a non-empty single-line prefix and then `tail`. */
  lemma {:induction false} MatchOneHole(tail: string, p: string)
    requires forall k :: 0 <= k < |tail| ==> !IsBrace(tail[k])
    ensures MatchToOpenapiPathSpec("{id}" + tail, p) == Ok("{id}" + tail == p || OneHoleAccepts(tail, p))
  {
    OneHoleTokens(tail);
    MatchIsFullMatch("{id}" + tail, p);
    OneHoleFullMatch(tail, p);
  }

  lemma ThreeTokens(a: string, n: string, b: string)
    ensures HoleNames([Lit(a), Hole(n), Lit(b)]) == [n]
  {
    var ts := [Lit(a), Hole(n), Lit(b)];
    assert ts[1..] == [Hole(n), Lit(b)];
    assert ts[1..][1..] == [Lit(b)];
    assert HoleNames([Lit(b)]) == [];
  }

  lemma FullMatchLit(t: string, q: string)
    ensures FullMatch([Lit(t)], q) <==> q == t
  {
    assert [Lit(t)][1..] == [];
  }

  /*
   * The examples below take their template and path as parameters fixed by
   * their preconditions, so the verifier reasons from the general lemmas
   * instead of evaluating the matcher on literals.
   */

  /**
   * `{id}/` matches `12/`, as the test suite expects, and also `hotbugs/`:
   * the known false positive the test suite marks as expected to fail.
   */
  lemma MatchExamplesIdSlash(template: string, number: string, word: string)
    requires template == "{id}/" && number == "12/" && word == "hotbugs/"
    ensures MatchToOpenapiPathSpec(template, number) == Ok(true)
    ensures MatchToOpenapiPathSpec(template, word) == Ok(true)
  {
    MatchIdSlash(number);
    MatchIdSlash(word);
  }

  /** `{id}/` matches every single-line path of at least two characters that ends in `/`. */
  lemma MatchIdSlash(p: string)
    requires |p| >= 2 && p[|p| - 1] == '/' && SingleLine(p)
    ensures MatchToOpenapiPathSpec("{id}/", p) == Ok(true)
  {
    MatchOneHole("/", p);
    assert "{id}" + "/" == "{id}/";
    assert p[|p| - 1..] == "/";
  }

  /** `{id}` followed by brace-free text accepts any placeholder value followed by that text. */
  lemma MatchOneHoleValue(tail: string, v: string)
    requires forall k :: 0 <= k < |tail| ==> !IsBrace(tail[k])
    requires PlaceholderValue(v)
    ensures MatchToOpenapiPathSpec("{id}" + tail, v + tail) == Ok(true)
  {
    var p := v + tail;
    MatchOneHole(tail, p);
    assert p[|p| - |tail|..] == tail;
    assert p[..|p| - |tail|] == v;
  }

  /** `{id}/cancel` matches `12/cancel`. */
  lemma MatchCancelFull(template: string, path: string)
    requires template == "{id}/cancel" && path == "12/cancel"
    ensures MatchToOpenapiPathSpec(template, path) == Ok(true)
  {
    var tail := path[2..];
    var value := path[..2];
    assert template == "{id}" + tail;
    assert path == value + tail;
    assert SingleLine(value);
    MatchOneHoleValue(tail, value);
  }

  /** `{id}/cancel` does not match its prefix `12/`: the match is whole-string. */
  lemma MatchCancelNotPrefix(template: string, path: string)
    requires template == "{id}/cancel" && path == "12/"
    ensures MatchToOpenapiPathSpec(template, path) == Ok(false)
  {
    var tail := template[4..];
    MatchOneHole(tail, path);
    assert template == "{id}" + tail;
    assert !OneHoleAccepts(tail, path);
  }

  lemma {:induction false} NameEndAt(g: string, t: string)
    requires forall m :: 0 <= m < |g| ==> g[m] != '>'
    ensures NameEnd(g + ">" + t) == |g|
    decreases |g|
  {
    if g != [] {
      NameEndAt(g[1..], t);
      assert (g + ">" + t)[1..] == g[1..] + ">" + t;
    }
  }

  /** A name `g>t` with `g` an identifier: the group is `g`, and `t` is the text after the `>`. */
  lemma AngledName(g: string, t: string)
    requires IsIdentifier(g) && PlainName(t)
    ensures NameEnd(g + ">" + t) == |g|
    ensures PlainName(g + ">" + t)
    ensures (g + ">" + t)[..|g|] == g && (g + ">" + t)[|g| + 1..] == t
  {
    var n := g + ">" + t;
    assert forall m :: 0 <= m < |g| ==> g[m] != '>' by {
      assert forall m :: 0 <= m < |g| ==> IsIdChar(g[m]);
    }
    NameEndAt(g, t);
    assert forall m :: 0 <= m < |g| ==> n[m] == g[m];
    assert forall m :: |g| < m < |n| ==> n[m] == t[m - |g| - 1];
  }

  /** The tokens of `{g>t}` followed by text: the names compile once cut at the `>`. */
  lemma AngledNames(g: string, t: string, tail: string)
    requires IsIdentifier(g) && PlainName(t)
    requires forall m :: 0 <= m < |t| ==> !IsRegexSpecial(t[m])
    ensures var ts := [Lit(""), Hole(g + ">" + t), Lit(tail)];
      && !ValidGroupNames(ts)
      && ValidNames(GroupNames(HoleNames(ts)))
      && PlainGroupText(ts)
  {
    var n := g + ">" + t;
    var ts := [Lit(""), Hole(n), Lit(tail)];
    AngledName(g, t);
    ThreeTokens("", n, tail);
    AngledNameInvalid(n);
    assert !ValidNames([n]) by {
      assert !IsIdentifier([n][0]);
    }
    AngledGroupName(g, t);
    AngledPlainText(g, t, tail);
  }

  lemma AngledGroupName(g: string, t: string)
    requires IsIdentifier(g) && PlainName(t)
    ensures ValidNames(GroupNames([g + ">" + t]))
  {
    AngledName(g, t);
    assert GroupNames([g + ">" + t]) == [g];
  }

  lemma AngledPlainText(g: string, t: string, tail: string)
    requires IsIdentifier(g) && PlainName(t)
    requires forall m :: 0 <= m < |t| ==> !IsRegexSpecial(t[m])
    ensures PlainGroupText([Lit(""), Hole(g + ">" + t), Lit(tail)])
  {
    var n := g + ">" + t;
    AngledName(g, t);
    assert forall k :: |g| < k < |n| ==> n[k] == t[k - |g| - 1];
  }

  /** The compiled pattern of `{g>t}` followed by text: the text `t>` before the group's `.+`. */
  lemma AngledCompiled(g: string, t: string, tail: string)
    requires IsIdentifier(g) && PlainName(t)
    ensures Compiled([Lit(""), Hole(g + ">" + t), Lit(tail)]) == [Lit(""), Lit(t + ">"), Hole(g), Lit(tail)]
  {
    var n := g + ">" + t;
    var ts := [Lit(""), Hole(n), Lit(tail)];
    AngledName(g, t);
    assert ts[1..] == [Hole(n), Lit(tail)];
    assert ts[1..][1..] == [Lit(tail)];
    assert Compiled([Lit(tail)]) == [Lit(tail)] by {
      assert [Lit(tail)][1..] == [];
    }
    assert Compiled(ts[1..]) == [Lit(t + ">"), Hole(g), Lit(tail)];
  }

  /** What the compiled pattern of `{g>t}` followed by `tail` accepts: `t>`, then a value, then `tail`. */
  predicate AngledAccepts(t: string, tail: string, p: string) {
    |t| + 1 <= |p| && p[..|t| + 1] == t + ">" && OneHoleAccepts(tail, p[|t| + 1..])
  }

  /** The template `{g>t}` followed by text without `{` splits into three tokens. */
  lemma AngledTemplateTokens(g: string, t: string, tail: string)
    requires IsIdentifier(g) && PlainName(t)
    requires forall m :: 0 <= m < |tail| ==> tail[m] != '{'
    ensures Tokenize("{" + (g + ">" + t) + "}" + tail) == [Lit(""), Hole(g + ">" + t), Lit(tail)]
  {
    AngledName(g, t);
    TokenizeLeadingHole(g + ">" + t, tail);
    TokenizeNoOpen(tail);
  }

  /** The outcome for the tokens of `{g>t}` followed by text: no match, or a match whose group lookup fails. */
  lemma MisnamedAngled(g: string, t: string, tail: string, p: string)
    requires IsIdentifier(g) && PlainName(t)
    requires forall m :: 0 <= m < |t| ==> !IsRegexSpecial(t[m])
    ensures MatchMisnamed([Lit(""), Hole(g + ">" + t), Lit(tail)], p)
         == if AngledAccepts(t, tail, p) then Err(IndexError("no such group")) else Ok(false)
  {
    AngledNames(g, t, tail);
    AngledCompiled(g, t, tail);
    AngledFullMatch(t + ">", g, tail, p);
  }

  /**
   * A template `{g>t}` followed by brace-free text: the compiled group `g`
   * matches `t>` and then `.+`, and a match ends in `IndexError`.
   */
  lemma {:induction false} MatchAngledOneHole(g: string, t: string, tail: string, p: string)
    requires IsIdentifier(g) && PlainName(t)
    requires forall m :: 0 <= m < |t| ==> !IsRegexSpecial(t[m])
    requires forall m :: 0 <= m < |tail| ==> tail[m] != '{'
    requires "{" + (g + ">" + t) + "}" + tail != p
    ensures MatchToOpenapiPathSpec("{" + (g + ">" + t) + "}" + tail, p)
         == if AngledAccepts(t, tail, p) then Err(IndexError("no such group")) else Ok(false)
  {
    var ts := [Lit(""), Hole(g + ">" + t), Lit(tail)];
    AngledTemplateTokens(g, t, tail);
    AngledNames(g, t, tail);
    assert !ValidGroupNames(ts);
    MisnamedAngled(g, t, tail, p);
  }

  /**
   * `{a>b}/` compiles to `(?P<a>b>.+)/`: the path `12/` does not match it,
   * and `b>x/` matches it but has no group named `a>b`.
   */
  lemma MatchExamplesAngled(template: string, miss: string, hit: string)
    requires template == "{a>b}/" && miss == "12/" && hit == "b>x/"
    ensures MatchToOpenapiPathSpec(template, miss) == Ok(false)
    ensures MatchToOpenapiPathSpec(template, hit) == Err(IndexError("no such group"))
  {
    var g, t, tail := AngledExampleParts(template);
    MatchAngledOneHole(g, t, tail, miss);
    MatchAngledOneHole(g, t, tail, hit);
    assert miss[0] == '1';
    assert hit[..2] == t + ">";
    assert OneHoleAccepts(tail, hit[2..]);
  }

  /** `{a>b}/` taken apart: group name `a`, text `b`, then `/`. */
  lemma AngledExampleParts(template: string) returns (g: string, t: string, tail: string)
    requires template == "{a>b}/"
    ensures template == "{" + (g + ">" + t) + "}" + tail
    ensures g == "a" && t == "b" && tail == "/"
    ensures IsIdentifier(g) && PlainName(t)
    ensures forall m :: 0 <= m < |t| ==> !IsRegexSpecial(t[m])
    ensures forall m :: 0 <= m < |tail| ==> tail[m] != '{'
  {
    g, t, tail := template[1..2], template[3..4], template[5..];
    assert template == "{" + (g + ">" + t) + "}" + tail;
  }

  lemma AngledFullMatch(text: string, g: string, tail: string, p: string)
    ensures FullMatch([Lit(""), Lit(text), Hole(g), Lit(tail)], p)
        <==> |text| <= |p| && p[..|text|] == text && OneHoleAccepts(tail, p[|text|..])
  {
    var cs := [Lit(""), Lit(text), Hole(g), Lit(tail)];
    assert cs[1..] == [Lit(text), Hole(g), Lit(tail)];
    assert cs[1..][1..] == [Hole(g), Lit(tail)];
    if |text| <= |p| && p[..|text|] == text {
      HoleTailFullMatch(g, tail, p[|text|..]);
    }
  }

  lemma {:induction false} HoleTailFullMatch(g: string, tail: string, p: string)
    ensures FullMatch([Hole(g), Lit(tail)], p) <==> OneHoleAccepts(tail, p)
  {
    var ts := [Hole(g), Lit(tail)];
    assert ts[1..] == [Lit(tail)];
    var cut := |p| - |tail|;
    if FullMatch(ts, p) {
      var k :| 1 <= k <= |p| && PlaceholderValue(p[..k]) && FullMatch(ts[1..], p[k..]);
      FullMatchLit(tail, p[k..]);
      assert k == cut;
    }
    if OneHoleAccepts(tail, p) {
      FullMatchLit(tail, p[cut..]);
      assert FullMatch(ts[1..], p[cut..]);
    }
  }

  /** The cases of the test suite without a placeholder: `/` matches only itself, `hotbugs/` does not match `12/`. */
  lemma MatchExamplesPlain(slash: string, hotbugs: string, path: string)
    requires slash == "/" && hotbugs == "hotbugs/" && path == "12/"
    ensures MatchToOpenapiPathSpec(slash, path) == Ok(false)
    ensures MatchToOpenapiPathSpec(slash, slash) == Ok(true)
    ensures MatchToOpenapiPathSpec(hotbugs, path) == Ok(false)
  {
    TokenizeNoOpen(slash);
    TokenizeNoOpen(hotbugs);
    MatchWithoutPlaceholders(slash, path);
    MatchWithoutPlaceholders(hotbugs, path);
    MatchReflexive(slash);
  }
}
