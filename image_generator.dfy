/**
 * The image-generation component of the browser client
 * (frontend/src/components/ImageGenerator.tsx).
 *
 * The component keeps four independent state slots (`prompt`, `image`,
 * `loading`, `error`) and changes them in `generateImage`: before the request
 * it raises `loading` and clears `error`; when the request settles it stores
 * the returned image or an error text; and in its `finally` clause it lowers
 * `loading`. The slots are NOT one tagged variant: an old image stays next to
 * a new error, and a response whose `image` is missing leaves neither an
 * image nor an error.
 *
 * The class `Generator` holds the slots as fields; its methods are specified
 * by the pure functions `Began` and `Settled` on the value `Slots`. The
 * network exchange is an input (`Outcome`), and the token kept in browser
 * storage is an `Option<string>` argument.
 */
module ImageGenerator {
  import opened Wrappers

  /** The component's four state slots; `None` stands for JavaScript's `null`/`undefined`. */
  datatype Slots = Slots(prompt: string, image: Option<string>, loading: bool, error: Option<string>)

  /** The slots as the component's `useState` calls initialise them. */
  const Initial: Slots := Slots("", None, false, None)

  /** The text of the `Error` thrown for a response that is not ok. */
  const FailedMessage: string := "Failed to generate image"

  /** The text shown when the caught value is not an `Error`. */
  const FallbackMessage: string := "An error occurred"

  /** The fixed endpoint the request is posted to. */
  const Endpoint: string := "http://0.0.0.0:8000/generate"

  // ---------------------------------------------------------------------
  // The outgoing request
  // ---------------------------------------------------------------------

  /**
   * A `POST` to `Endpoint` with `Content-Type: application/json`, the given
   * `Authorization` header and the JSON body `{"prompt": prompt}`.
   */
  datatype Request = Request(url: string, httpMethod: string, contentType: string,
                             authorization: string, prompt: string)

  /** How a template literal renders the result of `localStorage.getItem`: `null` becomes "null". */
  function TokenText(stored: Option<string>): string
  {
    match stored
    case None => "null"
    case Some(token) => token
  }

  /** The `Authorization` header value: the scheme "Bearer", one space, the stored token. */
  function AuthorizationHeader(stored: Option<string>): (header: string)
    ensures |header| == |BearerPrefix| + |TokenText(stored)|
    ensures header[..|BearerPrefix|] == BearerPrefix && header[|BearerPrefix|..] == TokenText(stored)
  {
    BearerPrefix + TokenText(stored)
  }

  /** The request `generateImage` issues, with the prompt and token read at call time. */
  function MakeRequest(prompt: string, stored: Option<string>): (request: Request)
    ensures request.url == Endpoint && request.httpMethod == "POST"
    ensures request.contentType == "application/json"
    ensures request.prompt == prompt
    ensures request.authorization == BearerPrefix + TokenText(stored)
    ensures CredentialOf(request.authorization) == Some(TokenText(stored)) <==> IsB64Token(TokenText(stored))
  {
    Request(Endpoint, "POST", "application/json", AuthorizationHeader(stored), prompt)
  }

  // ---------------------------------------------------------------------
  // Bearer credentials as section 2.1 of RFC 6750 defines them:
  //   credentials = "Bearer" 1*SP b64token
  //   b64token    = 1*( ALPHA / DIGIT / "-" / "." / "_" / "~" / "+" / "/" ) *"="
  // (only the single-space form the client sends is recognised here)
  // ---------------------------------------------------------------------

  const BearerPrefix: string := "Bearer "

  predicate IsTokenChar(c: char)
  {
    ('A' <= c <= 'Z') || ('a' <= c <= 'z') || ('0' <= c <= '9')
    || c == '-' || c == '.' || c == '_' || c == '~' || c == '+' || c == '/'
  }

  /** The number of trailing `=` characters of `s`. */
  function PaddingLength(s: string): (n: nat)
    ensures n <= |s|
    ensures forall i :: |s| - n <= i < |s| ==> s[i] == '='
    ensures n < |s| ==> s[|s| - n - 1] != '='
  {
    if |s| > 0 && s[|s| - 1] == '=' then 1 + PaddingLength(s[..|s| - 1]) else 0
  }

  /** `s` is a b64token: at least one token character followed only by `=` padding. */
  predicate IsB64Token(s: string)
  {
    var n := PaddingLength(s);
    n < |s| && forall i :: 0 <= i < |s| - n ==> IsTokenChar(s[i])
  }

  /** The token carried by an `Authorization` header value, if it is well-formed bearer credentials. */
  function CredentialOf(header: string): Option<string>
  {
    if |header| > |BearerPrefix| && header[..|BearerPrefix|] == BearerPrefix
       && IsB64Token(header[|BearerPrefix|..])
    then Some(header[|BearerPrefix|..])
    else None
  }

  /**
   * Reading the credentials back out of the header the client builds gives
   * the stored token exactly when that token is a b64token; an empty token
   * yields a header with no credentials at all.
   */
  lemma BearerRoundTrip(stored: Option<string>)
    ensures CredentialOf(AuthorizationHeader(stored))
            == if IsB64Token(TokenText(stored)) then Some(TokenText(stored)) else None
    ensures TokenText(stored) == "" ==> CredentialOf(AuthorizationHeader(stored)) == None
  {
  }

  /**
   * With no token stored the header is "Bearer null", and "null" is a
   * well-formed b64token: the request goes out carrying the credential
   * "null" instead of being held back.
   */
  lemma MissingTokenSendsNull()
    ensures AuthorizationHeader(None) == "Bearer null"
    ensures CredentialOf(AuthorizationHeader(None)) == Some("null")
  {
  }

  // ---------------------------------------------------------------------
  // How the request settles
  // ---------------------------------------------------------------------

  /** The fields of the decoded response body; each may be absent from the JSON. */
  datatype Body = Body(success: Option<bool>, image: Option<string>, prompt: Option<string>)

  /**
   * What `await response.json()` and the read of `data.image` produce: a
   * decoded body, or an `Error` with its message (a body that is not JSON,
   * or the JSON document `null`, whose `image` cannot be read).
   */
  datatype Json = Decoded(body: Body) | JsonThrew(message: string)

  /** A value thrown inside the `try`: an `Error` object with its message, or any other value. */
  datatype Thrown = ErrorObject(message: string) | OtherValue

  /** How the network exchange ends: a response (status and body), or a rejected `fetch`. */
  datatype Outcome = Response(status: int, json: Json) | Rejected(thrown: Thrown)

  /** `response.ok`: the status is in the range 200-299. */
  predicate IsOk(status: int)
  {
    200 <= status <= 299
  }

  /** The `try` block after `fetch`: the image it stores, or the value it throws. */
  function Attempt(o: Outcome): (r: Result<Option<string>, Thrown>)
    // only an ok response whose body decodes completes the `try`, storing its `image` field
    ensures r.Success? <==> o.Response? && IsOk(o.status) && o.json.Decoded?
    ensures r.Success? ==> r.value == o.json.body.image
    // a response that is not ok throws the fixed `Error`, before its body is read
    ensures o.Response? && !IsOk(o.status) ==> r == Failure(ErrorObject(FailedMessage))
    // anything thrown by `fetch` or while reading the body reaches the `catch` unchanged
    ensures o.Rejected? ==> r == Failure(o.thrown)
    ensures o.Response? && IsOk(o.status) && o.json.JsonThrew? ==> r == Failure(ErrorObject(o.json.message))
  {
    match o
    case Rejected(thrown) => Failure(thrown)
    case Response(status, json) =>
      if !IsOk(status) then Failure(ErrorObject(FailedMessage))
      else
        match json
        case Decoded(body) => Success(body.image)
        case JsonThrew(message) => Failure(ErrorObject(message))
  }

  /** The `catch` clause: an `Error`'s own message, otherwise the fallback text. */
  function CaughtMessage(thrown: Thrown): (message: string)
    ensures thrown.ErrorObject? ==> message == thrown.message
    ensures thrown.OtherValue? ==> message == FallbackMessage
    // the text is empty only for an `Error` whose own message is empty
    ensures message == "" <==> thrown == ErrorObject("")
  {
    match thrown
    case ErrorObject(message) => message
    case OtherValue => FallbackMessage
  }

  /** The slots once `setLoading(true)` and `setError(null)` have run. */
  function Began(s: Slots): (r: Slots)
    ensures r.loading && r.error == None
    ensures r.prompt == s.prompt && r.image == s.image
  {
    s.(loading := true, error := None)
  }

  /** The slots once the request has settled and the `finally` clause has run. */
  function Settled(s: Slots, o: Outcome): (r: Slots)
    // every path ends with loading lowered; the prompt is never touched
    ensures !r.loading && r.prompt == s.prompt
    // a response that is not ok: the fixed text, whatever its body, and the old image
    ensures o.Response? && !IsOk(o.status) ==> r.error == Some(FailedMessage) && r.image == s.image
    // an ok, decodable response: its `image` field (absent or not), error untouched;
    // neither `success` nor the echoed prompt is looked at
    ensures o.Response? && IsOk(o.status) && o.json.Decoded?
            ==> r.image == o.json.body.image && r.error == s.error
    // an `Error` while reading the body, or from `fetch` itself: its message, old image
    ensures o.Response? && IsOk(o.status) && o.json.JsonThrew?
            ==> r.error == Some(o.json.message) && r.image == s.image
    ensures o.Rejected? && o.thrown.ErrorObject?
            ==> r.error == Some(o.thrown.message) && r.image == s.image
    // any other thrown value: the fallback text, old image
    ensures o.Rejected? && o.thrown.OtherValue?
            ==> r.error == Some(FallbackMessage) && r.image == s.image
  {
    var afterTry :=
      match Attempt(o)
      case Success(image) => s.(image := image)
      case Failure(thrown) => s.(error := Some(CaughtMessage(thrown)));
    afterTry.(loading := false)
  }

  // ---------------------------------------------------------------------
  // What is rendered
  // ---------------------------------------------------------------------

  /** The error region: rendered when `error` is truthy (non-null and non-empty). */
  function ErrorShown(s: Slots): (shown: bool)
    ensures s.error == None ==> !shown
    ensures s.error == Some("") ==> !shown
    ensures s.error.Some? && s.error.value != "" ==> shown
  {
    Truthy(s.error)
  }

  /** The image region: rendered when `image` is truthy. */
  function ImageShown(s: Slots): (shown: bool)
    ensures s.image == None ==> !shown
    ensures s.image == Some("") ==> !shown
    ensures s.image.Some? && s.image.value != "" ==> shown
  {
    Truthy(s.image)
  }

  /** The Generate button is enabled unless the prompt is empty or a request is in flight. */
  function ButtonEnabled(s: Slots): (enabled: bool)
    ensures s.prompt == "" ==> !enabled
    ensures s.loading ==> !enabled
    ensures s.prompt != "" && !s.loading ==> enabled
  {
    s.prompt != "" && !s.loading
  }

  /** The prompt input is disabled while a request is in flight. */
  function InputEnabled(s: Slots): (enabled: bool)
    ensures enabled <==> !s.loading
  {
    !s.loading
  }

  /**
   * A failed request after a successful one shows the old image and the new
   * error together: the two regions depend on independent slots.
   */
  lemma FailureKeepsImageShown(s: Slots, o: Outcome)
    requires ImageShown(s)
    requires Attempt(o).Failure? && CaughtMessage(Attempt(o).error) != ""
    ensures var r := Settled(Began(s), o);
            ImageShown(r) && ErrorShown(r) && r.image == s.image
  {
  }

  /**
   * An ok response whose body has no `image` field ends with neither region
   * shown (no image, no error), from the state any submission starts in.
   */
  lemma MissingImageShowsNothing(s: Slots, status: int, success: Option<bool>, echoed: Option<string>)
    requires IsOk(status)
    ensures var r := Settled(Began(s), Response(status, Decoded(Body(success, None, echoed))));
            !ImageShown(r) && !ErrorShown(r) && !r.loading
  {
  }

  /** Only the `image` field of an ok body matters: `success` and the echoed prompt do not. */
  lemma OnlyImageFieldMatters(s: Slots, status: int, b1: Body, b2: Body)
    requires b1.image == b2.image
    ensures Settled(s, Response(status, Decoded(b1))) == Settled(s, Response(status, Decoded(b2)))
  {
  }

  /** A response that is not ok settles the same way whatever its body holds. */
  lemma NotOkIgnoresBody(s: Slots, status: int, j1: Json, j2: Json)
    requires !IsOk(status)
    ensures Settled(s, Response(status, j1)) == Settled(s, Response(status, j2))
    ensures ErrorShown(Settled(s, Response(status, j1)))
  {
  }

  // ---------------------------------------------------------------------
  // Reachable states
  // ---------------------------------------------------------------------

  /**
   * What can happen to the component, one step at a time: the user types,
   * the user clicks Generate, or the request in flight settles. A disabled
   * control delivers no event, and a request settles only while it is in
   * flight (requests are sequential in this model).
   */
  datatype Event = Typed(text: string) | Clicked | Settles(outcome: Outcome)

  /** While a request is in flight no error is held. */
  predicate InFlightClean(s: Slots)
  {
    s.loading ==> s.error == None
  }

  function Step(s: Slots, e: Event): (r: Slots)
    ensures InFlightClean(s) ==> InFlightClean(r)
    // typing changes only the prompt, and only while the input is enabled
    ensures e.Typed? ==> r == (if InputEnabled(s) then s.(prompt := e.text) else s)
    // a click starts a request only while the button is enabled
    ensures e.Clicked? && ButtonEnabled(s) ==> r == Began(s)
    ensures e.Clicked? && !ButtonEnabled(s) ==> r == s
    // a settlement applies the request's outcome, and only while it is in flight
    ensures e.Settles? && s.loading ==> r == Settled(s, e.outcome) && !r.loading
    ensures e.Settles? && !s.loading ==> r == s
  {
    match e
    case Typed(text) => if InputEnabled(s) then s.(prompt := text) else s
    case Clicked => if ButtonEnabled(s) then Began(s) else s
    case Settles(o) => if s.loading then Settled(s, o) else s
  }

  function Run(s: Slots, events: seq<Event>): Slots
    decreases |events|
  {
    if events == [] then s else Run(Step(s, events[0]), events[1..])
  }

  /** Every sequence of events keeps the in-flight invariant. */
  lemma {:induction false} RunKeepsInFlightClean(s: Slots, events: seq<Event>)
    requires InFlightClean(s)
    ensures InFlightClean(Run(s, events))
    decreases |events|
  {
    if events != [] {
      RunKeepsInFlightClean(Step(s, events[0]), events[1..]);
    }
  }

  /** In every state reachable from the initial one, `error` is null while a request is in flight. */
  lemma ReachableInFlightClean(events: seq<Event>)
    ensures var s := Run(Initial, events);
            s.loading ==> s.error == None && !ErrorShown(s)
  {
    RunKeepsInFlightClean(Initial, events);
  }

  // ---------------------------------------------------------------------
  // The component itself
  // ---------------------------------------------------------------------

  class Generator {
    var prompt: string
    var image: Option<string>
    var loading: bool
    var error: Option<string>

    /** The current values of the four slots. */
    function State(): Slots
      reads this
    {
      Slots(prompt, image, loading, error)
    }

    /** The component as first rendered: empty prompt, no image, not loading, no error. */
    constructor ()
      ensures State() == Initial
    {
      prompt, image, loading, error := "", None, false, None;
    }

    /** The input's `onChange` handler. */
    method SetPrompt(text: string)
      modifies this
      ensures State() == old(State()).(prompt := text)
    {
      prompt := text;
    }

    /** The start of `generateImage`, up to and including the issue of the request. */
    method Begin(stored: Option<string>) returns (request: Request)
      modifies this
      ensures State() == Began(old(State()))
      ensures loading && error == None && image == old(image) && prompt == old(prompt)
      ensures request == MakeRequest(prompt, stored)
    {
      loading := true;
      error := None;
      request := MakeRequest(prompt, stored);
    }

    /** The rest of `generateImage`, once the request has settled with outcome `o`. */
    method Settle(o: Outcome)
      modifies this
      ensures State() == Settled(old(State()), o)
      ensures !loading
      ensures Attempt(o).Failure? ==> image == old(image)
    {
      match Attempt(o) {
        case Success(img) =>
          image := img;
        case Failure(thrown) =>
          error := Some(CaughtMessage(thrown));
      }
      loading := false;
    }

    /** The whole of `generateImage`, run without interleaving. */
    method GenerateImage(stored: Option<string>, o: Outcome) returns (request: Request)
      modifies this
      ensures State() == Settled(Began(old(State())), o)
      ensures request == MakeRequest(old(prompt), stored)
      ensures !loading && prompt == old(prompt)
      ensures Attempt(o).Success? ==> error == None
    {
      request := Begin(stored);
      Settle(o);
    }
  }
}
