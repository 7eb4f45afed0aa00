/**
 * The HTTP vocabulary the clients use: a request they fill in step by step, what the
 * transport gives back, and the calling thread's interrupt flag. The transport itself
 * (URI syntax, bearer-token syntax, the network) is an oracle.
 */
module Http {
  import opened Results
  import opened JsonValues

  datatype Header = Header(name: string, value: string)

  /** A request as the HTTP library holds it (verb is its method); None is a field that was never set. */
  datatype Request = Request(uri: Option<string>, verb: Option<string>, headers: seq<Header>, entity: Json)

  /** new Request(): nothing set yet. */
  const NewRequest := Request(None, None, [], JNull)

  /** addHeaders(h): headers are kept in the order they were added. */
  function AddHeader(r: Request, h: Header): Request {
    r.(headers := r.headers + [h])
  }

  /** A response entity: its text, and its JSON reading (None when the text is not JSON). */
  datatype Entity = Entity(text: string, json: Option<Json>)

  /** handler.handle(...).getOrThrow(): an interrupted wait, or a response with a status. */
  datatype Exchange = Interrupted | Received(status: int, entity: Entity)

  /**
   * What the core cannot see: whether URI.create accepts a text, whether the header
   * library accepts a bearer token, and what the server answers to a request.
   */
  datatype Transport = Transport(
    acceptsUri: string -> bool,
    acceptsBearer: string -> bool,
    send: Request -> Exchange)

  /** The thread that runs the node; only its interrupt flag matters here. */
  class CallingThread {
    var interrupted: bool

    constructor (interrupted: bool)
      ensures this.interrupted == interrupted
    {
      this.interrupted := interrupted;
    }
  }

  const BearerPrefix := "Bearer "

  /** The three headers both AuthorizeClient and PingOneAuthorizeClient add, in their order. */
  function JsonBearerHeaders(credential: string): seq<Header> {
    [Header("Authorization", BearerPrefix + credential),
     Header("Accept", "application/json"),
     Header("Content-Type", "application/json")]
  }

  /** The value of the first header with the given name. */
  function HeaderValue(headers: seq<Header>, name: string): (r: Option<string>)
    ensures r.Some? <==> exists i :: 0 <= i < |headers| && headers[i].name == name
    ensures r.Some? ==> exists i :: 0 <= i < |headers| && headers[i] == Header(name, r.value)
                                    && forall j :: 0 <= j < i ==> headers[j].name != name
  {
    if headers == [] then None
    else if headers[0].name == name then Some(headers[0].value)
    else (
      var r := HeaderValue(headers[1..], name);
      assert forall i :: 1 <= i < |headers| ==> headers[i] == headers[1..][i - 1];
      r)
  }

  /** The credential a server reads from the Authorization header: its value after "Bearer ". */
  function BearerCredential(headers: seq<Header>): Option<string> {
    match HeaderValue(headers, "Authorization")
    case Some(v) =>
      if |v| >= |BearerPrefix| && v[..|BearerPrefix|] == BearerPrefix then Some(v[|BearerPrefix|..]) else None
    case None => None
  }

  /** A server reading the headers gets back exactly the credential the client put in, and JSON both ways. */
  lemma JsonBearerHeadersRoundTrip(credential: string)
    ensures BearerCredential(JsonBearerHeaders(credential)) == Some(credential)
    ensures HeaderValue(JsonBearerHeaders(credential), "Accept") == Some("application/json")
    ensures HeaderValue(JsonBearerHeaders(credential), "Content-Type") == Some("application/json")
  {
    var v := BearerPrefix + credential;
    assert v[..|BearerPrefix|] == BearerPrefix;
    assert v[|BearerPrefix|..] == credential;
    var hs := JsonBearerHeaders(credential);
    assert hs[1..][1..] == [Header("Content-Type", "application/json")];
    assert "Content-Type"[0] != "Authorization"[0] && "Content-Type"[0] != "Accept"[0];
    assert HeaderValue(hs[1..][1..], "Content-Type") == Some("application/json");
    assert HeaderValue(hs[1..], "Content-Type") == Some("application/json");
  }

  /** The '/'-separated segments of a text: "a/b" has segments "a" and "b", "" has one empty segment. */
  function Segments(s: string): (r: seq<string>)
    ensures |r| >= 1
    decreases |s|
  {
    if s == [] then [""]
    else if s[0] == '/' then [""] + Segments(s[1..])
    else
      var t := Segments(s[1..]);
      [[s[0]] + t[0]] + t[1..]
  }

  /** A text without '/' is a single segment. */
  lemma {:induction false} SegmentsOfPlain(s: string)
    requires '/' !in s
    ensures Segments(s) == [s]
    decreases |s|
  {
    if s != [] {
      assert s[0] in s;
      assert forall c :: c in s[1..] ==> c in s;
      SegmentsOfPlain(s[1..]);
      assert [s[0]] + s[1..] == s;
    }
  }

  /** Joining two texts with '/' joins their segment lists. */
  lemma {:induction false} SegmentsOfJoin(a: string, b: string)
    ensures Segments(a + "/" + b) == Segments(a) + Segments(b)
    decreases |a|
  {
    var s := a + "/" + b;
    if a == [] {
      assert s == "/" + b;
      assert s[1..] == b;
    } else {
      assert s[0] == a[0];
      assert s[1..] == a[1..] + "/" + b;
      SegmentsOfJoin(a[1..], b);
    }
  }

  /** Joining a text without '/' adds it as one last segment. */
  lemma SegmentsOfJoinPlain(a: string, p: string)
    requires '/' !in p
    ensures Segments(a + "/" + p) == Segments(a) + [p]
  {
    SegmentsOfJoin(a, p);
    SegmentsOfPlain(p);
  }

  /** Concatenation is associative; stated for the terms a proof names, so no proof searches for it. */
  lemma Assoc(a: string, b: string, c: string)
    ensures a + b + c == a + (b + c)
  {
  }
}
