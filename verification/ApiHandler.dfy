/**
 * The shared HTTP hook (src/hooks/api-handler.js). Each of getData, postData, putData, patchData
 * and deleteData moves the hook's five state fields through the same steps: mark loading and
 * clear the error, send the request, record the body or the failure message, clear loading.
 * The transport is abstract: a call either succeeds with a body or fails with the server's
 * message and the error's own message, each possibly missing.
 */
module ApiHandler {
  import opened Wrappers
  import opened Js
  import Text

  /** A request payload: JSON data, or a FormData (multipart) object. */
  datatype Body = Json(value: Value) | FormData

  /** One invocation of a hook method with its arguments. */
  datatype Call =
    | GetCall(endpoint: string, params: seq<Entry>)
    | PostCall(url: string, form: Body, isFullUrl: bool, skipAuth: bool)
    | PutCall(url: string, payload: Value, isFullUrl: bool)
    | PatchCall(url: string, payload: Value, isFullUrl: bool)
    | DeleteCall(url: string, payload: Value, isFullUrl: bool)

  datatype Verb = GET | POST | PUT | PATCH | DELETE

  datatype Header = Header(name: string, value: string)

  /** What the hook hands to axios. */
  datatype Request = Request(verb: Verb, url: string, headers: seq<Header>, params: seq<Entry>, body: Body)

  /** A thrown error: `err.response.data.message` and `err.message`. */
  datatype Failure = Failure(serverMessage: Option<string>, message: Option<string>)

  /** What the transport answers. */
  datatype Outcome = Succeeded(body: Value) | Failed(failure: Failure)

  /** How the hook method's promise settles: with a value, or by rethrowing the error. */
  datatype Completion = Resolved(value: Value) | Rejected(failure: Failure)

  const ConfigErrorMessage := "BASE_URL is not defined. Please check your environment variables."

  /** The error postData throws itself when a relative URL meets an undefined base URL. */
  const ConfigError := Failure(None, Some(ConfigErrorMessage))

  /** A template literal `${x}` of an environment value: undefined prints as "undefined". */
  function EnvText(base: Option<string>): string {
    if base.Some? then base.value else "undefined"
  }

  /** A template literal `${token}` of the session token: null prints as "null". */
  function TokenText(token: Option<string>): string {
    if token.Some? then token.value else "null"
  }

  predicate TokenPresent(token: Option<string>) { token.Some? && token.value != "" }

  predicate BaseDefined(base: Option<string>) { base.Some? && base.value != "" }

  /** `Authorization: Bearer ${token}` */
  function BearerHeader(token: Option<string>): Header {
    Header("Authorization", "Bearer " + TokenText(token))
  }

  const JsonContentType := Header("Content-Type", "application/json")

  predicate HasHeader(hs: seq<Header>, name: string) {
    exists h :: h in hs && h.name == name
  }

  function VerbOf(call: Call): Verb {
    match call
    case GetCall(_, _) => GET
    case PostCall(_, _, _, _) => POST
    case PutCall(_, _, _) => PUT
    case PatchCall(_, _, _) => PATCH
    case DeleteCall(_, _, _) => DELETE
  }

  function PathOf(call: Call): string {
    match call
    case GetCall(endpoint, _) => endpoint
    case PostCall(url, _, _, _) => url
    case PutCall(url, _, _) => url
    case PatchCall(url, _, _) => url
    case DeleteCall(url, _, _) => url
  }

  /** getData always prefixes the base URL; the other methods do unless isFullUrl is set. */
  predicate UsesFullUrl(call: Call) {
    match call
    case GetCall(_, _) => false
    case PostCall(_, _, isFullUrl, _) => isFullUrl
    case PutCall(_, _, isFullUrl) => isFullUrl
    case PatchCall(_, _, isFullUrl) => isFullUrl
    case DeleteCall(_, _, isFullUrl) => isFullUrl
  }

  function FullUrl(call: Call, base: Option<string>): (r: string)
    ensures UsesFullUrl(call) ==> r == PathOf(call)
    ensures !UsesFullUrl(call) ==> r == EnvText(base) + PathOf(call)
  {
    if UsesFullUrl(call) then PathOf(call) else EnvText(base) + PathOf(call)
  }

  function Headers(call: Call, token: Option<string>): (r: seq<Header>)
    ensures call.PostCall? ==> (HasHeader(r, "Content-Type") <==> !call.form.FormData?)
    ensures call.PostCall? ==> (HasHeader(r, "Authorization") <==> TokenPresent(token) && !call.skipAuth)
    ensures HasHeader(r, "Authorization") ==> BearerHeader(token) in r
    ensures !call.PostCall? ==> BearerHeader(token) in r
    ensures !call.PostCall? && !call.GetCall? ==> JsonContentType in r
    ensures forall h :: h in r ==> h == BearerHeader(token) || h == JsonContentType
  {
    match call
    case GetCall(_, _) => [BearerHeader(token)]
    case PostCall(_, form, _, skipAuth) =>
      (if form.FormData? then [] else [JsonContentType]) +
      (if TokenPresent(token) && !skipAuth then [BearerHeader(token)] else [])
    case _ => [BearerHeader(token), JsonContentType]
  }

  function BodyOf(call: Call): Body {
    match call
    case GetCall(_, _) => Json(Undefined)
    case PostCall(_, form, _, _) => form
    case PutCall(_, payload, _) => Json(payload)
    case PatchCall(_, payload, _) => Json(payload)
    case DeleteCall(_, payload, _) => Json(payload)
  }

  /** The request the method sends, or the configuration error postData throws before sending. */
  function Dispatch(call: Call, token: Option<string>, base: Option<string>): (r: Result<Request, Failure>)
    ensures r.Err? <==> call.PostCall? && !call.isFullUrl && !BaseDefined(base)
    ensures r.Err? ==> r.error == ConfigError
    ensures r.Ok? ==> r.value.verb == VerbOf(call) && r.value.url == FullUrl(call, base)
    ensures r.Ok? ==> r.value.headers == Headers(call, token) && r.value.body == BodyOf(call)
    ensures r.Ok? ==> r.value.params == if call.GetCall? then call.params else []
  {
    if call.PostCall? && !call.isFullUrl && !BaseDefined(base) then Err(ConfigError)
    else
      Ok(Request(VerbOf(call), FullUrl(call, base), Headers(call, token),
                 if call.GetCall? then call.params else [], BodyOf(call)))
  }

  /** `a || b` on a message that may be missing or empty. */
  function OrText(message: Option<string>, fallback: string): (r: string)
    ensures message.Some? && message.value != "" ==> r == message.value
    ensures message.None? || message.value == "" ==> r == fallback
  {
    if message.Some? && message.value != "" then message.value else fallback
  }

  /** The message each method stores in apiMessage when it fails. */
  function FailureMessage(call: Call, f: Failure): (r: string)
    ensures r != ""
    ensures f.serverMessage.Some? && f.serverMessage.value != "" ==> r == f.serverMessage.value
    ensures (f.serverMessage.None? || f.serverMessage.value == "") ==>
      r == match call
           case GetCall(_, _) => "Failed to fetch data"
           case PostCall(_, _, _, _) => OrText(f.message, "POST request failed")
           case PutCall(_, _, _) => "PUT request failed"
           case PatchCall(_, _, _) => "PUT request failed"
           case DeleteCall(_, _, _) => "DELETE request failed"
  {
    match call
    case GetCall(_, _) => OrText(f.serverMessage, "Failed to fetch data")
    case PostCall(_, _, _, _) => OrText(f.serverMessage, OrText(f.message, "POST request failed"))
    case PutCall(_, _, _) => OrText(f.serverMessage, "PUT request failed")
    case PatchCall(_, _, _) => OrText(f.serverMessage, "PUT request failed")
    case DeleteCall(_, _, _) => OrText(f.serverMessage, "DELETE request failed")
  }

  /** postData, putData and patchData rethrow; getData and deleteData swallow the error. */
  predicate Rethrows(call: Call) {
    call.PostCall? || call.PutCall? || call.PatchCall?
  }

  function CompletionOf(call: Call, o: Outcome): (c: Completion)
    ensures c.Rejected? <==> o.Failed? && Rethrows(call)
    ensures c.Rejected? ==> c.failure == o.failure
    ensures o.Succeeded? ==> c == Resolved(o.body)
    ensures o.Failed? && !Rethrows(call) ==> c == Resolved(Undefined)
  {
    match o
    case Succeeded(body) => Resolved(body)
    case Failed(f) => if Rethrows(call) then Rejected(f) else Resolved(Undefined)
  }

  /** The outcome the method acts on: its own configuration error, or the transport's answer. */
  function Effective(d: Result<Request, Failure>, o: Outcome): (r: Outcome)
    ensures d.Ok? ==> r == o
    ensures d.Err? ==> r == Failed(d.error)
  {
    if d.Err? then Failed(d.error) else o
  }

  /** The hook's state fields. */
  datatype State = State(loading: bool, data: Value, error: Value, apiMessage: string, totalPages: Value)

  const Initial := State(false, Null, Null, "", Num(0))

  /** The state while the request is outstanding. */
  function Started(s: State, call: Call): (r: State)
    ensures r.loading && r.error == Null
    ensures r.apiMessage == if call.PostCall? then "" else s.apiMessage
    ensures r.data == s.data && r.totalPages == s.totalPages
  {
    s.(loading := true, error := Null, apiMessage := if call.PostCall? then "" else s.apiMessage)
  }

  /** The state once the call has settled, on success and on failure alike. */
  function Settled(s: State, call: Call, o: Outcome): (r: State)
    ensures !r.loading
    ensures o.Succeeded? ==> r.data == o.body && r.error == s.error && r.apiMessage == s.apiMessage
    ensures o.Succeeded? && call.GetCall? ==> r.totalPages == Or(Member(o.body, "totalPages"), Num(0))
    ensures o.Failed? ==> r.data == s.data && r.error == Bool(true) && r.apiMessage == FailureMessage(call, o.failure)
    ensures o.Failed? ==> r.apiMessage != ""
    ensures o.Failed? || !call.GetCall? ==> r.totalPages == s.totalPages
  {
    match o
    case Succeeded(body) =>
      s.(loading := false, data := body,
         totalPages := if call.GetCall? then Or(Member(body, "totalPages"), Num(0)) else s.totalPages)
    case Failed(f) =>
      s.(loading := false, error := Bool(true), apiMessage := FailureMessage(call, f))
  }

  /** The characters RFC 6750 (section 2.1) allows in a b64token before its '=' padding. */
  predicate IsB64Char(c: char) {
    Text.IsAsciiUpper(c) || Text.IsAsciiLower(c) || Text.IsDigit(c) ||
    c == '-' || c == '.' || c == '_' || c == '~' || c == '+' || c == '/'
  }

  predicate AllPadding(s: string) { forall i :: 0 <= i < |s| ==> s[i] == '=' }

  predicate B64Rest(s: string) decreases |s| {
    AllPadding(s) || (IsB64Char(s[0]) && B64Rest(s[1..]))
  }

  /** b64token = 1*( ALPHA / DIGIT / "-" / "." / "_" / "~" / "+" / "/" ) *"=" */
  predicate IsB64Token(s: string) {
    |s| > 0 && IsB64Char(s[0]) && B64Rest(s[1..])
  }

  function DropSpaces(s: string): (r: string)
    ensures |r| <= |s|
  {
    if |s| > 0 && s[0] == ' ' then DropSpaces(s[1..]) else s
  }

  /**
   * Reads an Authorization value as RFC 6750 credentials, `"Bearer" 1*SP b64token`,
   * and yields the token.
   */
  function ParseBearer(v: string): Option<string> {
    if |v| > 7 && v[..7] == "Bearer " then
      var t := DropSpaces(v[7..]);
      if IsB64Token(t) then Some(t) else None
    else None
  }

  /**
   * The header the hook builds is well-formed bearer credentials carrying the session token;
   * with no session token it carries the literal token "null".
   */
  lemma BearerHeaderCarriesToken(token: Option<string>)
    requires token.Some? ==> IsB64Token(token.value)
    ensures ParseBearer(BearerHeader(token).value) == Some(TokenText(token))
  {
    var t := TokenText(token);
    var v := BearerHeader(token).value;
    assert v[7..] == t;
    if token.None? {
      assert IsB64Token(t) by {
        assert t[1..] == "ull";
        assert B64Rest("ull") by { assert B64Rest("ll") by { assert B64Rest("l") by { assert B64Rest(""); } } }
      }
    }
    assert v[..7] == "Bearer ";
  }

  /** An empty session token gives an Authorization value that is not valid bearer credentials. */
  lemma EmptyTokenIsMalformed()
    ensures ParseBearer(BearerHeader(Some("")).value) == None
  {
    var v := BearerHeader(Some("")).value;
    assert v == "Bearer ";
  }

  class Handler {
    /** The session token the hook was created with (`useApiHandler(token)`). */
    const token: Option<string>
    /** import.meta.env.VITE_API_URL */
    const baseUrl: Option<string>

    var loading: bool
    var data: Value
    var error: Value
    var apiMessage: string
    var totalPages: Value

    /** Every request handed to the transport, oldest first. */
    var sent: seq<Request>

    function Current(): State
      reads this
    {
      State(loading, data, error, apiMessage, totalPages)
    }

    constructor (token: Option<string>, baseUrl: Option<string>)
      ensures this.token == token && this.baseUrl == baseUrl
      ensures Current() == Initial && sent == []
    {
      this.token := token;
      this.baseUrl := baseUrl;
      loading := false;
      data := Null;
      error := Null;
      apiMessage := "";
      totalPages := Num(0);
      sent := [];
    }

    /** The synchronous part of a hook method, up to the await on the transport. */
    method Begin(call: Call) returns (d: Result<Request, Failure>)
      modifies this
      ensures d == Dispatch(call, token, baseUrl)
      ensures Current() == Started(old(Current()), call)
      ensures sent == old(sent) + if d.Ok? then [d.value] else []
    {
      loading := true;
      error := Null;
      if call.PostCall? {
        apiMessage := "";
      }
      d := Dispatch(call, token, baseUrl);
      if d.Ok? {
        sent := sent + [d.value];
      }
    }

    /** The part after the await: the try block's tail or the catch block, then finally. */
    method Settle(call: Call, d: Result<Request, Failure>, o: Outcome) returns (c: Completion)
      modifies this
      ensures Current() == Settled(old(Current()), call, Effective(d, o))
      ensures sent == old(sent)
      ensures c == CompletionOf(call, Effective(d, o))
    {
      var outcome := Effective(d, o);
      match outcome {
        case Succeeded(body) =>
          data := body;
          if call.GetCall? {
            totalPages := Or(Member(body, "totalPages"), Num(0));
          }
          c := Resolved(body);
        case Failed(f) =>
          error := Bool(true);
          apiMessage := FailureMessage(call, f);
          c := if Rethrows(call) then Rejected(f) else Resolved(Undefined);
      }
      loading := false;
    }

    /** A whole hook method call, awaited with no other call in between. */
    method Perform(call: Call, o: Outcome) returns (c: Completion)
      modifies this
      ensures var d := Dispatch(call, token, baseUrl);
        && Current() == Settled(Started(old(Current()), call), call, Effective(d, o))
        && sent == old(sent) + (if d.Ok? then [d.value] else [])
        && c == CompletionOf(call, Effective(d, o))
    {
      var d := Begin(call);
      c := Settle(call, d, o);
    }
  }
}
