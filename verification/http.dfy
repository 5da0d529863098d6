/**
 * The slice of HTTP the controller speaks: request methods, resource shapes,
 * response statuses, header maps and the response entity. Header names are
 * compared exactly; a header maps to the list of its values, in order.
 */
module Http {
  import opened Options

  datatype HttpMethod = GET | HEAD | POST | PUT | PATCH | DELETE | OPTIONS | TRACE

  /** The order in which the methods of an `Allow` header are listed. */
  const METHOD_ORDER: seq<HttpMethod> := [GET, HEAD, POST, PUT, PATCH, DELETE, OPTIONS, TRACE]

  /** Whether a request addresses a whole collection or a single item of it. */
  datatype ResourceType = COLLECTION | ITEM

  datatype Status =
    | OK
    | CREATED
    | NO_CONTENT
    | NOT_MODIFIED
    | NOT_FOUND
    | METHOD_NOT_ALLOWED
    | PRECONDITION_FAILED
    | INTERNAL_SERVER_ERROR
  {
    /** The numeric status code sent on the wire. */
    function Code(): (code: nat)
      ensures 200 <= code < 600
      ensures code < 300 <==> (OK? || CREATED? || NO_CONTENT?)
    {
      match this
      case OK => 200
      case CREATED => 201
      case NO_CONTENT => 204
      case NOT_MODIFIED => 304
      case NOT_FOUND => 404
      case METHOD_NOT_ALLOWED => 405
      case PRECONDITION_FAILED => 412
      case INTERNAL_SERVER_ERROR => 500
    }
  }

  type Headers = map<string, seq<string>>

  const EMPTY: Headers := map[]

  const ALLOW := "Allow"
  const ACCEPT_PATCH := "Accept-Patch"
  const LINK := "Link"
  const LOCATION := "Location"
  const IF_NONE_MATCH := "If-None-Match"

  /** The media types a PATCH request body may use. */
  const MERGE_PATCH_JSON := "application/merge-patch+json"
  const JSON_PATCH_JSON := "application/json-patch+json"
  const APPLICATION_JSON := "application/json"

  /** A response: status, headers and an optional body. */
  datatype Response<+B> = Response(status: Status, headers: Headers, body: Option<B>)

  /** The values recorded for `name`, empty when the header is absent. */
  function Values(h: Headers, name: string): seq<string>
  {
    if name in h then h[name] else []
  }

  /** `HttpHeaders.add`: append one value to the header, leaving the other headers alone. */
  function AddValue(h: Headers, name: string, value: string): (r: Headers)
    ensures Values(r, name) == Values(h, name) + [value]
    ensures r.Keys == h.Keys + {name}
    ensures forall n :: n in h && n != name ==> r[n] == h[n]
  {
    h[name := Values(h, name) + [value]]
  }

  /** `HttpHeaders.put`/`set`: replace the header's values, leaving the other headers alone. */
  function SetValues(h: Headers, name: string, values: seq<string>): (r: Headers)
    ensures Values(r, name) == values
    ensures r.Keys == h.Keys + {name}
    ensures forall n :: n in h && n != name ==> r[n] == h[n]
  {
    h[name := values]
  }

  function MethodName(m: HttpMethod): string
  {
    match m
    case GET => "GET"
    case HEAD => "HEAD"
    case POST => "POST"
    case PUT => "PUT"
    case PATCH => "PATCH"
    case DELETE => "DELETE"
    case OPTIONS => "OPTIONS"
    case TRACE => "TRACE"
  }

  /** `HttpMethod.resolve`: the method a token names, if any. */
  function ResolveMethod(token: string): (r: Option<HttpMethod>)
    ensures r.Some? ==> MethodName(r.value) == token
  {
    if token == "GET" then Some(GET)
    else if token == "HEAD" then Some(HEAD)
    else if token == "POST" then Some(POST)
    else if token == "PUT" then Some(PUT)
    else if token == "PATCH" then Some(PATCH)
    else if token == "DELETE" then Some(DELETE)
    else if token == "OPTIONS" then Some(OPTIONS)
    else if token == "TRACE" then Some(TRACE)
    else None
  }

  lemma ResolveName(m: HttpMethod)
    ensures ResolveMethod(MethodName(m)) == Some(m)
  {
  }

  /** The tokens `HttpHeaders.setAllow` writes for a set of methods, listed in `order`. */
  function AllowTokens(order: seq<HttpMethod>, methods: set<HttpMethod>): seq<string>
  {
    if order == [] then []
    else (if order[0] in methods then [MethodName(order[0])] else []) + AllowTokens(order[1..], methods)
  }

  /** The value of an `Allow` header announcing exactly `methods`. */
  function AllowValue(methods: set<HttpMethod>): seq<string>
  {
    AllowTokens(METHOD_ORDER, methods)
  }

  /** `HttpHeaders.getAllow`: the methods an `Allow` header's tokens name; unknown tokens are skipped. */
  function ParseAllow(tokens: seq<string>): set<HttpMethod>
  {
    if tokens == [] then {}
    else
      (match ResolveMethod(tokens[0]) case Some(m) => {m} case None => {}) + ParseAllow(tokens[1..])
  }

  lemma {:induction false} ParseAllowAppend(a: seq<string>, b: seq<string>)
    ensures ParseAllow(a + b) == ParseAllow(a) + ParseAllow(b)
    decreases |a|
  {
    if a == [] {
      assert a + b == b;
    } else {
      assert (a + b)[0] == a[0];
      assert (a + b)[1..] == a[1..] + b;
      ParseAllowAppend(a[1..], b);
    }
  }

  /** Reading the tokens written for `order` back gives the methods of `order` that are in the set. */
  lemma {:induction false} ParseAllowTokens(order: seq<HttpMethod>, methods: set<HttpMethod>)
    ensures ParseAllow(AllowTokens(order, methods)) == methods * set m | m in order
    decreases |order|
  {
    if order != [] {
      var head := if order[0] in methods then [MethodName(order[0])] else [];
      ParseAllowAppend(head, AllowTokens(order[1..], methods));
      ParseAllowTokens(order[1..], methods);
      ResolveName(order[0]);
      if order[0] in methods {
        assert head[1..] == [];
      }
      assert (set m | m in order) == {order[0]} + set m | m in order[1..];
    }
  }

  /** An `Allow` header written for a method set reads back as exactly that set. */
  lemma AllowRoundTrip(methods: set<HttpMethod>)
    ensures ParseAllow(AllowValue(methods)) == methods
  {
    ParseAllowTokens(METHOD_ORDER, methods);
    forall m | m in methods
      ensures m in METHOD_ORDER
    {
      match m
      case GET => assert METHOD_ORDER[0] == m;
      case HEAD => assert METHOD_ORDER[1] == m;
      case POST => assert METHOD_ORDER[2] == m;
      case PUT => assert METHOD_ORDER[3] == m;
      case PATCH => assert METHOD_ORDER[4] == m;
      case DELETE => assert METHOD_ORDER[5] == m;
      case OPTIONS => assert METHOD_ORDER[6] == m;
      case TRACE => assert METHOD_ORDER[7] == m;
    }
  }
}
