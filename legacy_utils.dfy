/**
 * `django-rest-generator/utils.py`, the older copy of the method-name
 * sanitiser. Its steps are the same as those of the current one, and it
 * agrees with it on every input.
 */
module LegacyUtils {
  import opened Text
  import Utils

  /** Lower-case and strip, drop every `{.*}/` match, turn `/` into `.`, cut one trailing `.`. */
  function SanitizeEndpointToMethodName(endpoint: string): (r: string)
    ensures r == Utils.SanitizeEndpointToMethodName(endpoint)
    ensures forall k :: 0 <= k < |r| ==> r[k] != '/'
  {
    var normalized := Strip(Lower(endpoint));
    var substituted := Utils.RemoveSpans(normalized);
    var dotted := ReplaceAll(substituted, "/", ".");
    if |dotted| > 0 && dotted[|dotted| - 1] == '.' then dotted[..|dotted| - 1] else dotted
  }
}
