/**
 * `config/EmptyFriendlyURLConverter.java`: turns a stored form value into a
 * URL when binding a site's configuration, and never fails.
 */
module UrlConverter {
  import opened Wrappers
  import opened Platform

  /**
   * `convert`: `null`, the empty string and the literal "null" give `null`;
   * any other value is parsed from its string form, and a malformed one
   * gives `null` as well (it is only logged). URL syntax is the abstract
   * `syntax` predicate.
   */
  function Convert(o: Option<string>, syntax: UrlSyntax): (r: Option<Url>)
    ensures o.None? || o == Some("") || o == Some("null") ==> r.None?
    ensures o.Some? && o.value != "" && o.value != "null" ==> (r.Some? <==> syntax(o.value))
    ensures r.Some? ==> r.value.spec == o.value
  {
    if o.None? || o.value == "" || o.value == "null" then None
    else if syntax(o.value) then Some(Url(o.value))
    else None
  }

  /**
   * Saving and reloading a site keeps its URL: converting the string form of
   * a well-formed URL gives the URL back, unless that form is empty or the
   * literal "null".
   */
  lemma ConvertRoundTrip(u: Url, syntax: UrlSyntax)
    requires syntax(u.spec) && u.spec != "" && u.spec != "null"
    ensures Convert(Some(u.spec), syntax) == Some(u)
  {
  }
}
