/** The values of the HTTP framework that the authentication inset reads
    (the request URI, its query and its cookies) and the two objects it
    writes into: the page being rendered and the response builder. Only the
    behaviour the inset relies on is modelled: a URI is a location plus an
    ordered query, a cookie is a name, an optional value, the temporary flag
    and the base URI its builder was created with. */
module Web {
  import opened Wrappers

  /** One `name=value` pair of a query string. */
  datatype Param = Param(name: string, value: string)

  /** A URI: everything before the query, and the query parameters in order. */
  datatype Uri = Uri(location: string, query: seq<Param>)

  /** `UriBuilder.replaceQuery("")`: the same URI with its query emptied. */
  function WithoutQuery(u: Uri): Uri
  {
    Uri(u.location, [])
  }

  /** `UriBuilder.queryParam(name, value)`: one more parameter at the end. */
  function WithParam(u: Uri, name: string, value: string): Uri
  {
    Uri(u.location, u.query + [Param(name, value)])
  }

  /** `getQueryParameters().containsKey(name)`: the value does not matter. */
  predicate HasParam(u: Uri, name: string)
  {
    exists i :: 0 <= i < |u.query| && u.query[i].name == name
  }

  /** The parameter just added is there. */
  lemma WithParamHasParam(u: Uri, name: string, value: string)
    ensures HasParam(WithParam(u, name, value), name)
  {
    var w := WithParam(u, name, value);
    assert w.query[|u.query|].name == name;
  }

  /** A link of the page: its relation and its target. */
  datatype Link = Link(rel: string, href: Uri)

  datatype Field = Field(name: string, value: string)

  /** What a page accumulates: links, and named bundles of fields. */
  datatype PageItem = LinkItem(link: Link) | Bundle(name: string, fields: seq<Field>)

  /** A cookie as `CookieBuilder` produces it; `value == None` when no value was set. */
  datatype Cookie = Cookie(name: string, value: Option<string>, temporary: bool, base: string)

  /** What a response builder accumulates: cookies and headers, in order. */
  datatype Directive = CookieSet(cookie: Cookie) | HeaderSet(name: string, value: string)

  /** The parts of the current request the inset reads: the full request URI,
      the base URI of the application, the cookies by name, the remote
      address and the request path (the last two only for the log). */
  datatype Request = Request(
    uri: Uri,
    baseUri: string,
    cookies: map<string, string>,
    remoteAddr: string,
    path: string)

  /** The page under construction; `link` and `append` add to its end. */
  class Page {
    var items: seq<PageItem>

    constructor ()
      ensures items == []
    {
      items := [];
    }

    method AddLink(link: Link)
      modifies this
      ensures items == old(items) + [LinkItem(link)]
    {
      items := items + [LinkItem(link)];
    }

    method Append(bundle: PageItem)
      requires bundle.Bundle?
      modifies this
      ensures items == old(items) + [bundle]
    {
      items := items + [bundle];
    }
  }

  /** The response under construction; `cookie` and `header` add to its end. */
  class ResponseBuilder {
    var directives: seq<Directive>

    constructor ()
      ensures directives == []
    {
      directives := [];
    }

    method AddCookie(cookie: Cookie)
      modifies this
      ensures directives == old(directives) + [CookieSet(cookie)]
    {
      directives := directives + [CookieSet(cookie)];
    }

    method AddHeader(name: string, value: string)
      modifies this
      ensures directives == old(directives) + [HeaderSet(name, value)]
    {
      directives := directives + [HeaderSet(name, value)];
    }
  }
}
