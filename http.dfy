/** The HTTP values the service builds and receives, and the transport it
    sends them through. Foundation's `URLRequest` and `URLComponents` are
    Swift value types, so they are datatypes here. */
module Http {
  import opened Wrappers

  type Bytes = seq<bv8>

  datatype HttpMethod = Get | Post

  const JsonMediaType := "application/json"

  datatype QueryItem = QueryItem(name: string, value: string)

  /** A URL as `URLComponents` holds it: the address it was parsed from and
      its query items (`nil` unless they were assigned). */
  datatype Url = Url(address: string, queryItems: Option<seq<QueryItem>>)

  /** `URLRequest`: method, URL, header fields and body. */
  datatype Request = Request(httpMethod: HttpMethod, url: Url, headers: map<string, string>, body: Option<Bytes>)

  /** `URLRequest(url:)`: a GET with no header fields and no body. */
  function NewRequest(url: Url): Request {
    Request(Get, url, map[], None)
  }

  /** `request.setValue(value, forHTTPHeaderField: field)`. */
  function SetValue(r: Request, value: string, field: string): (result: Request)
    ensures result.httpMethod == r.httpMethod && result.url == r.url && result.body == r.body
    ensures result.headers.Keys == r.headers.Keys + {field} && result.headers[field] == value
    ensures forall f :: f in r.headers && f != field ==> result.headers[f] == r.headers[f]
  {
    r.(headers := r.headers[field := value])
  }

  /** `URLResponse`: either an `HTTPURLResponse` with its status code or
      some other kind of response. */
  datatype UrlResponse = HttpResponse(statusCode: int) | OtherResponse

  /** The `URLError.Code`s the model names; `OtherCode` is every other one. */
  datatype URLErrorCode =
    | NetworkConnectionLost
    | TimedOut
    | CannotFindHost
    | NotConnectedToInternet
    | Cancelled
    | OtherCode(raw: int)

  /** What one `session.data(for:)` gives back: data and a response, or a
      thrown `URLError`. */
  datatype SendOutcome = Received(data: Bytes, response: UrlResponse) | Failed(code: URLErrorCode)

  /** The network: the outcome of sending `request` as the k-th attempt. */
  type Transport = (Request, nat) -> SendOutcome

  /** The successful class of status codes, 200 to 299 (section 15.3 of
      RFC 9110). */
  predicate IsSuccessStatus(statusCode: int) {
    200 <= statusCode <= 299
  }

  /** `items` lists every entry of `params` exactly once, in some order. */
  ghost predicate ListsEntries(items: seq<QueryItem>, params: map<string, string>) {
    && |items| == |params|
    && (forall i :: 0 <= i < |items| ==> items[i].name in params && items[i].value == params[items[i].name])
    && (forall i, j :: 0 <= i < j < |items| ==> items[i].name != items[j].name)
    && (forall name :: name in params ==> exists i :: 0 <= i < |items| && items[i].name == name)
  }

  /** `params.map { URLQueryItem(name: $0.key, value: $0.value) }`: one query
      item per dictionary entry. A Swift dictionary is visited in an
      unspecified order, so each step here takes any entry not yet visited. */
  method QueryItems(params: map<string, string>) returns (items: seq<QueryItem>)
    ensures ListsEntries(items, params)
  {
    items := [];
    var pending := params.Keys;
    while pending != {}
      invariant pending <= params.Keys
      invariant |items| + |pending| == |params|
      invariant forall i :: 0 <= i < |items| ==>
        items[i].name in params && items[i].name !in pending && items[i].value == params[items[i].name]
      invariant forall i, j :: 0 <= i < j < |items| ==> items[i].name != items[j].name
      invariant forall name :: name in params && name !in pending ==>
        exists i :: 0 <= i < |items| && items[i].name == name
      decreases pending
    {
      var name :| name in pending;
      ghost var before := items;
      items := items + [QueryItem(name, params[name])];
      pending := pending - {name};
      forall other | other in params && other !in pending
        ensures exists i :: 0 <= i < |items| && items[i].name == other
      {
        if other == name {
          assert items[|before|].name == other;
        } else {
          var i :| 0 <= i < |before| && before[i].name == other;
          assert items[i].name == other;
        }
      }
    }
  }
}
