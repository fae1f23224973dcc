/** The seven operations of `APIService`. Each builds its `URLRequest`,
    hands it to the shared retry loop (`Executor.Execute`) and unwraps the
    decoded envelope into its payload. Foundation's URL parsing and JSON
    coding, which the model cannot see, are the oracles of `Foundation`;
    the network is the transport `net`.

    Each operation states its result twice: first on its own, then together
    with the ghost trace of sends and delays. The first clause is implied by
    the second; it is kept so that what the caller can observe is stated
    without reference to ghost state. */
module ApiService {
  import opened Wrappers
  import opened Decimal
  import opened Records
  import opened Http
  import opened ApiErrors
  import opened Executor

  const BaseUrl := "https://learnify-api.zeabur.app"

  /** What the operations use of Foundation. */
  datatype Foundation = Foundation(
    /** `URL(string:)` and `URLComponents(string:)` accept the string. */
    parses: string -> bool,
    /** `URLComponents.url` forms a URL from the address and query items. */
    resolves: Url -> bool,
    /** `JSONEncoder().encode` of the two request bodies. */
    encodeCheckIn: CheckInRequest -> Bytes,
    encodeReview: ReviewRequest -> Bytes,
    /** `JSONDecoder().decode(T.self, from:)`: `None` when it throws. */
    decodeCheckIn: Bytes -> Option<CheckInResponse>,
    decodeStudents: Bytes -> Option<StudentsResponse>,
    decodeCheckIns: Bytes -> Option<CheckInsResponse>,
    decodeReview: Bytes -> Option<ReviewResponse>,
    decodeReviews: Bytes -> Option<ReviewsResponse>,
    decodeLeaderboard: Bytes -> Option<LeaderboardResponse>,
    decodeStudentReviews: Bytes -> Option<StudentReviewsResponse>)

  /** `URL(string: address)!` and `URLComponents(string: address)!`: the
      force unwrap traps unless Foundation accepts the address. */
  function ParseUrl(lib: Foundation, address: string): Url
    requires lib.parses(address)
  {
    Url(address, None)
  }

  /** The request every GET operation sends: `URLRequest(url:)` with only
      `Accept` set to JSON. */
  function GetRequest(url: Url): Request {
    Request(Get, url, map["Accept" := JsonMediaType], None)
  }

  /** The request both POST operations send: `Content-Type` and `Accept`
      set to JSON, and the encoded body. */
  function PostRequest(url: Url, body: Bytes): Request {
    Request(Post, url, map["Content-Type" := JsonMediaType, "Accept" := JsonMediaType], Some(body))
  }

  /** Every request accepts JSON; only the POSTs, which carry a body,
      declare a JSON content type. */
  lemma JsonHeaders(url: Url, body: Bytes)
    ensures forall request :: request == GetRequest(url) || request == PostRequest(url, body) ==>
      && "Accept" in request.headers && request.headers["Accept"] == JsonMediaType
      && ("Content-Type" in request.headers <==> request.httpMethod == Post)
      && ("Content-Type" in request.headers ==> request.headers["Content-Type"] == JsonMediaType)
      && (request.body.Some? <==> request.httpMethod == Post)
  {
  }

  /** What an operation returns of a call: the payload of the decoded
      envelope, or the error unchanged. */
  function Unwrap<E, P>(r: Result<E, Thrown>, payload: E -> P): Result<P, Thrown> {
    match r
    case Success(envelope) => Success(payload(envelope))
    case Failure(error) => Failure(error)
  }

  function StudentsOf(response: StudentsResponse): seq<Student> {
    response.data.students
  }

  function CheckInsOf(response: CheckInsResponse): seq<StudentCheckIn> {
    response.data.checkIns
  }

  function ReviewsOf(response: ReviewsResponse): seq<StudentReview> {
    response.data.reviews
  }

  function LeaderboardOf(response: LeaderboardResponse): seq<LeaderboardEntry> {
    response.data.leaderboard
  }

  /** The query a reviews request carries for `params`: none for an empty
      dictionary, otherwise one item per entry in some order. */
  ghost predicate QueryFor(query: Option<seq<QueryItem>>, params: map<string, string>) {
    if |params| == 0 then query == None else query.Some? && ListsEntries(query.value, params)
  }

  /** The two query items of the leaderboard, rendered with `String(_:)`. */
  function LeaderboardQuery(limit: int, offset: int): seq<QueryItem> {
    [QueryItem("limit", IntToString(limit)), QueryItem("offset", IntToString(offset))]
  }

  /** The server reads back exactly the `limit` and `offset` it was sent. */
  lemma LeaderboardQueryRoundTrip(limit: int, offset: int)
    ensures var query := LeaderboardQuery(limit, offset);
      && |query| == 2
      && query[0].name == "limit" && ParseInt(query[0].value) == Some(limit)
      && query[1].name == "offset" && ParseInt(query[1].value) == Some(offset)
  {
    IntToStringRoundTrip(limit);
    IntToStringRoundTrip(offset);
  }

  /** POST /api/auto/check-in; returns the whole envelope. */
  method CheckIn(lib: Foundation, net: Transport, studentId: string, fullName: string)
    returns (r: Result<CheckInResponse, Thrown>, ghost sends: nat, ghost delays: seq<nat>)
    requires lib.parses(BaseUrl + "/api/auto/check-in")
    ensures var request := PostRequest(Url(BaseUrl + "/api/auto/check-in", None),
                                       lib.encodeCheckIn(CheckInRequest(studentId, fullName)));
      r == Run(request, net, lib.decodeCheckIn, 1).result
    ensures var request := PostRequest(Url(BaseUrl + "/api/auto/check-in", None),
                                       lib.encodeCheckIn(CheckInRequest(studentId, fullName)));
      Execution(r, sends, delays) == Run(request, net, lib.decodeCheckIn, 1)
  {
    var url := ParseUrl(lib, BaseUrl + "/api/auto/check-in");
    var request := NewRequest(url);
    request := request.(httpMethod := Post);
    request := SetValue(request, JsonMediaType, "Content-Type");
    request := SetValue(request, JsonMediaType, "Accept");
    request := request.(body := Some(lib.encodeCheckIn(CheckInRequest(studentId, fullName))));
    r, sends, delays := Execute(request, net, lib.decodeCheckIn,
      "The operation failed after multiple retries.");
  }

  /** GET /api/auto/students; returns `data.students`. */
  method GetAllStudents(lib: Foundation, net: Transport)
    returns (r: Result<seq<Student>, Thrown>, ghost sends: nat, ghost delays: seq<nat>)
    requires lib.parses(BaseUrl + "/api/auto/students")
    ensures var x := Run(GetRequest(Url(BaseUrl + "/api/auto/students", None)), net, lib.decodeStudents, 1);
      r == Unwrap(x.result, StudentsOf)
    ensures var x := Run(GetRequest(Url(BaseUrl + "/api/auto/students", None)), net, lib.decodeStudents, 1);
      sends == x.sends && delays == x.delays
  {
    var url := ParseUrl(lib, BaseUrl + "/api/auto/students");
    var request := NewRequest(url);
    request := request.(httpMethod := Get);
    request := SetValue(request, JsonMediaType, "Accept");
    var envelope;
    envelope, sends, delays := Execute(request, net, lib.decodeStudents,
      "Failed to fetch students after multiple retries.");
    r := Unwrap(envelope, StudentsOf);
  }

  /** GET /api/auto/check-ins/{studentId}; returns `data.check_ins`. The
      student id is pasted into the path unescaped, and an address
      Foundation rejects traps on the force unwrap. */
  method GetStudentCheckIns(lib: Foundation, net: Transport, studentId: string)
    returns (r: Result<seq<StudentCheckIn>, Thrown>, ghost sends: nat, ghost delays: seq<nat>)
    requires lib.parses(BaseUrl + "/api/auto/check-ins/" + studentId)
    ensures var x := Run(GetRequest(Url(BaseUrl + "/api/auto/check-ins/" + studentId, None)), net, lib.decodeCheckIns, 1);
      r == Unwrap(x.result, CheckInsOf)
    ensures var x := Run(GetRequest(Url(BaseUrl + "/api/auto/check-ins/" + studentId, None)), net, lib.decodeCheckIns, 1);
      sends == x.sends && delays == x.delays
  {
    var url := ParseUrl(lib, BaseUrl + "/api/auto/check-ins/" + studentId);
    var request := NewRequest(url);
    request := request.(httpMethod := Get);
    request := SetValue(request, JsonMediaType, "Accept");
    var envelope;
    envelope, sends, delays := Execute(request, net, lib.decodeCheckIns,
      "Failed to fetch check-ins after multiple retries.");
    r := Unwrap(envelope, CheckInsOf);
  }

  /** POST /api/reviews; returns the whole envelope. APIService.swift encodes the
      body again at the start of every attempt; the encoder is a function
      of the unchanged `ReviewRequest`, so every attempt sends these bytes. */
  method SubmitReview(lib: Foundation, net: Transport, studentId: string, mobileAppName: string, reviewText: string)
    returns (r: Result<ReviewResponse, Thrown>, ghost sends: nat, ghost delays: seq<nat>)
    requires lib.parses(BaseUrl + "/api/reviews")
    ensures var request := PostRequest(Url(BaseUrl + "/api/reviews", None),
                                       lib.encodeReview(ReviewRequest(studentId, mobileAppName, reviewText)));
      r == Run(request, net, lib.decodeReview, 1).result
    ensures var request := PostRequest(Url(BaseUrl + "/api/reviews", None),
                                       lib.encodeReview(ReviewRequest(studentId, mobileAppName, reviewText)));
      Execution(r, sends, delays) == Run(request, net, lib.decodeReview, 1)
  {
    var url := ParseUrl(lib, BaseUrl + "/api/reviews");
    var request := NewRequest(url);
    request := request.(httpMethod := Post);
    request := SetValue(request, JsonMediaType, "Content-Type");
    request := SetValue(request, JsonMediaType, "Accept");
    var reviewData := ReviewRequest(studentId, mobileAppName, reviewText);
    request := request.(body := Some(lib.encodeReview(reviewData)));
    r, sends, delays := Execute(request, net, lib.decodeReview,
      "Failed to submit review after multiple retries.");
  }

  /** GET /api/reviews[?params]; returns `data.reviews`. Query items are
      attached only for a non-empty `params`; `invalidURL` is thrown, before
      any send, when no URL can be formed. */
  method GetAllReviews(lib: Foundation, net: Transport, params: map<string, string> := map[])
    returns (r: Result<seq<StudentReview>, Thrown>, ghost sends: nat, ghost delays: seq<nat>)
    requires lib.parses(BaseUrl + "/api/reviews")
    ensures exists query :: QueryFor(query, params) && (
                var url := Url(BaseUrl + "/api/reviews", query);
                if lib.resolves(url) then r == Unwrap(Run(GetRequest(url), net, lib.decodeReviews, 1).result, ReviewsOf)
                else r == Failure(ApiFailure(InvalidUrl)))
    ensures exists query :: QueryFor(query, params) && (
                var url := Url(BaseUrl + "/api/reviews", query);
                var x := Run(GetRequest(url), net, lib.decodeReviews, 1);
                if lib.resolves(url) then r == Unwrap(x.result, ReviewsOf) && sends == x.sends && delays == x.delays
                else r == Failure(ApiFailure(InvalidUrl)) && sends == 0 && delays == [])
  {
    var components := ParseUrl(lib, BaseUrl + "/api/reviews");
    if |params| != 0 {
      var items := QueryItems(params);
      components := components.(queryItems := Some(items));
    }
    if !lib.resolves(components) {
      return Failure(ApiFailure(InvalidUrl)), 0, [];
    }
    var request := NewRequest(components);
    request := request.(httpMethod := Get);
    request := SetValue(request, JsonMediaType, "Accept");
    var envelope;
    envelope, sends, delays := Execute(request, net, lib.decodeReviews,
      "Failed to fetch reviews after multiple retries.");
    r := Unwrap(envelope, ReviewsOf);
  }

  /** GET /api/leaderboard?limit&offset; returns `data.leaderboard`. Both
      items are always sent, with defaults 50 and 0. */
  method GetLeaderboard(lib: Foundation, net: Transport, limit: int := 50, offset: int := 0)
    returns (r: Result<seq<LeaderboardEntry>, Thrown>, ghost sends: nat, ghost delays: seq<nat>)
    requires lib.parses(BaseUrl + "/api/leaderboard")
    ensures var url := Url(BaseUrl + "/api/leaderboard", Some(LeaderboardQuery(limit, offset)));
      if lib.resolves(url) then r == Unwrap(Run(GetRequest(url), net, lib.decodeLeaderboard, 1).result, LeaderboardOf)
      else r == Failure(ApiFailure(InvalidUrl))
    ensures var url := Url(BaseUrl + "/api/leaderboard", Some(LeaderboardQuery(limit, offset)));
      var x := Run(GetRequest(url), net, lib.decodeLeaderboard, 1);
      if lib.resolves(url) then sends == x.sends && delays == x.delays else sends == 0 && delays == []
  {
    var components := ParseUrl(lib, BaseUrl + "/api/leaderboard");
    components := components.(queryItems := Some([
      QueryItem("limit", IntToString(limit)),
      QueryItem("offset", IntToString(offset))]));
    if !lib.resolves(components) {
      return Failure(ApiFailure(InvalidUrl)), 0, [];
    }
    var request := NewRequest(components);
    request := request.(httpMethod := Get);
    request := SetValue(request, JsonMediaType, "Accept");
    var envelope;
    envelope, sends, delays := Execute(request, net, lib.decodeLeaderboard,
      "Failed to fetch leaderboard after multiple retries.");
    r := Unwrap(envelope, LeaderboardOf);
  }

  /** GET /api/reviews/{studentId}[?params]; returns the whole envelope.
      The query rule and the `invalidURL` guard are those of
      `GetAllReviews`; the student id is pasted into the path unescaped. */
  method GetStudentReviews(lib: Foundation, net: Transport, studentId: string, params: map<string, string> := map[])
    returns (r: Result<StudentReviewsResponse, Thrown>, ghost sends: nat, ghost delays: seq<nat>)
    requires lib.parses(BaseUrl + "/api/reviews/" + studentId)
    ensures exists query :: QueryFor(query, params) && (
                var url := Url(BaseUrl + "/api/reviews/" + studentId, query);
                if lib.resolves(url) then r == Run(GetRequest(url), net, lib.decodeStudentReviews, 1).result
                else r == Failure(ApiFailure(InvalidUrl)))
    ensures exists query :: QueryFor(query, params) && (
                var url := Url(BaseUrl + "/api/reviews/" + studentId, query);
                if lib.resolves(url) then Execution(r, sends, delays) == Run(GetRequest(url), net, lib.decodeStudentReviews, 1)
                else r == Failure(ApiFailure(InvalidUrl)) && sends == 0 && delays == [])
  {
    var components := ParseUrl(lib, BaseUrl + "/api/reviews/" + studentId);
    if |params| != 0 {
      var items := QueryItems(params);
      components := components.(queryItems := Some(items));
    }
    if !lib.resolves(components) {
      return Failure(ApiFailure(InvalidUrl)), 0, [];
    }
    var request := NewRequest(components);
    request := request.(httpMethod := Get);
    request := SetValue(request, JsonMediaType, "Accept");
    r, sends, delays := Execute(request, net, lib.decodeStudentReviews,
      "Failed to fetch student reviews after multiple retries.");
  }
}
