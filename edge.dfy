/** What the two edge functions share: the request and response they exchange, the environment
    they run in, and how they read the model's output out of whatever `generateContent`
    resolves to. */
module Edge {
  import opened Js

  /** An incoming request: its HTTP method, and what `await req.json()` gives or throws. */
  datatype Request = Request(verb: string, body: Outcome<Value>)

  datatype Body = PlainText(text: string) | Json(value: Value)

  /** A response; the CORS headers, the same on every response, are not modelled. */
  datatype Response = Response(status: nat, body: Body)

  /** The environment: the `GEMINI_API_KEY` secret, the module `import("npm:@google/generative-ai")`
      gives or throws, what `generateContent` resolves to or throws, and `JSON.parse`. */
  datatype Backend = Backend(
    apiKey: Option<string>,
    sdk: Outcome<Value>,
    reply: Outcome<Value>,
    parse: string -> Outcome<Value>)

  /** `if (!apiKey)`: a missing or empty secret does not count. */
  predicate KeyConfigured(apiKey: Option<string>) {
    apiKey.Some? && apiKey.value != []
  }

  const Preflight: Response := Response(200, PlainText("ok"))

  function JsonError(message: string): Value {
    Obj([("error", Str(message))])
  }

  /** `response.response || response`, for a response that is neither undefined nor null. */
  function Actual(response: Value): Value
    requires !Nullish(response)
  {
    var wrapped := Lookup(response, "response");
    if Truthy(wrapped) then wrapped else response
  }

  /** `actualResponse?.candidates?.[0]?.content?.parts?.[0]?.text`. */
  function CandidateText(a: Value): Value {
    OptGet(OptGet(OptGet(OptGet(OptGet(OptGet(a, "candidates"), "0"), "content"), "parts"), "0"), "text")
  }

  /** `typeof text === 'string' ? JSON.parse(text) : text`. */
  function Decode(text: Value, parse: string -> Outcome<Value>): Outcome<Value> {
    if text.Str? then parse(text.s) else Done(text)
  }

  /** The model's output: the response is unwrapped, the text is taken from the first source that
      applies (a `text()` method, a `text` string, the first candidate's first part), and a
      string is parsed as JSON. When no source applies, the error carries `missing(actual)`. */
  function ModelOutput(response: Value, parse: string -> Outcome<Value>, missing: Value -> string): Outcome<Value> {
    if Nullish(response) then
      Threw(ErrorObj(ReadError(response, "response")))
    else
      var a := Actual(response);
      var getter := OptGet(a, "text");
      if getter.Fn? then
        if getter.call.Threw? then getter.call else Decode(getter.call.value, parse)
      else if getter.Str? then
        parse(getter.s)
      else if Truthy(CandidateText(a)) then
        Decode(CandidateText(a), parse)
      else
        Threw(ErrorObj(missing(a)))
  }

  /** A `text()` method is tried first: what it throws propagates, a string it returns is parsed,
      any other value is taken as the output. */
  lemma TextMethodFirst(props: seq<(string, Value)>, call: Outcome<Value>,
                        parse: string -> Outcome<Value>, missing: Value -> string)
    requires !Truthy(FindProp(props, "response")) && FindProp(props, "text") == Fn(call)
    ensures call.Threw? ==> ModelOutput(Obj(props), parse, missing) == call
    ensures call.Done? && call.value.Str? ==> ModelOutput(Obj(props), parse, missing) == parse(call.value.s)
    ensures call.Done? && !call.value.Str? ==> ModelOutput(Obj(props), parse, missing) == Done(call.value)
  {
  }

  /** A `text` string is parsed as JSON, whatever candidates the response also holds. */
  lemma TextStringParsed(props: seq<(string, Value)>, s: string,
                         parse: string -> Outcome<Value>, missing: Value -> string)
    requires !Truthy(FindProp(props, "response")) && FindProp(props, "text") == Str(s)
    ensures ModelOutput(Obj(props), parse, missing) == parse(s)
  {
  }

  /** Without a `text` property, the first candidate's first part supplies the text. */
  lemma CandidateTextParsed(s: string, parse: string -> Outcome<Value>, missing: Value -> string)
    requires s != []
    ensures ModelOutput(Obj([("candidates", Arr([Obj([("content", Obj([("parts", Arr([Obj([("text", Str(s))])]))]))])]))]),
                        parse, missing) == parse(s)
  {
    var part := Obj([("text", Str(s))]);
    var parts := Obj([("parts", Arr([part]))]);
    var candidate := Obj([("content", parts)]);
    var response := Obj([("candidates", Arr([candidate]))]);
    LookupSingle("candidates", Arr([candidate]), "response");
    LookupSingle("candidates", Arr([candidate]), "text");
    LookupSingle("candidates", Arr([candidate]), "candidates");
    LookupSingle("content", parts, "content");
    LookupSingle("parts", Arr([part]), "parts");
    LookupSingle("text", Str(s), "text");
    IndexIsArrayIndex(0);
    assert Strings.NatToString(0) == "0";
  }

  /** A truthy `response` property is read in place of the response itself. */
  lemma WrappedIsUnwrapped(inner: Value, parse: string -> Outcome<Value>, missing: Value -> string)
    requires Truthy(inner) && !Truthy(Lookup(inner, "response"))
    ensures ModelOutput(Obj([("response", inner)]), parse, missing) == ModelOutput(inner, parse, missing)
  {
  }

  /** With none of the three sources, the error is the one `missing` names for the response. */
  lemma NoSourceFails(props: seq<(string, Value)>, parse: string -> Outcome<Value>, missing: Value -> string)
    requires !Truthy(FindProp(props, "response"))
    requires FindProp(props, "text") == Undefined && FindProp(props, "candidates") == Undefined
    ensures ModelOutput(Obj(props), parse, missing) == Threw(ErrorObj(missing(Obj(props))))
  {
  }

  /** The extraction as the handlers write it, reassigning `text` and `eventData` across
      branches. */
  method ReadModelOutput(response: Value, parse: string -> Outcome<Value>, missing: Value -> string)
    returns (r: Outcome<Value>)
    ensures r == ModelOutput(response, parse, missing)
  {
    if Nullish(response) {
      return Threw(ErrorObj(ReadError(response, "response")));
    }
    var actual := Actual(response);
    var text: Value;
    var getter := OptGet(actual, "text");
    if getter.Fn? {
      if getter.call.Threw? {
        return getter.call;
      }
      text := getter.call.value;
    } else if getter.Str? {
      text := getter;
    } else if Truthy(CandidateText(actual)) {
      text := CandidateText(actual);
    } else {
      return Threw(ErrorObj(missing(actual)));
    }
    var eventData: Value;
    if text.Str? {
      var parsed := parse(text.s);
      if parsed.Threw? {
        return parsed;
      }
      eventData := parsed.value;
    } else {
      eventData := text;
    }
    return Done(eventData);
  }

  const ImportFailed: string := "Cannot import GoogleGenerativeAI from @google/generative-ai"

  /** The SDK's `GoogleGenerativeAI` export, or what loading it throws. */
  function LoadSdk(sdk: Outcome<Value>): (r: Outcome<Value>)
    ensures r.Done? ==> Truthy(r.value)
    ensures sdk.Threw? ==> r == sdk
    ensures sdk.Done? && !Nullish(sdk.value) && Truthy(Lookup(sdk.value, "GoogleGenerativeAI")) ==>
              r == Done(Lookup(sdk.value, "GoogleGenerativeAI"))
    ensures sdk.Done? && !Nullish(sdk.value) && !Truthy(Lookup(sdk.value, "GoogleGenerativeAI")) ==>
              r == Threw(ErrorObj(ImportFailed))
  {
    match sdk
    case Threw(t) => Threw(t)
    case Done(m) =>
      match Get(m, "GoogleGenerativeAI")
      case Threw(t) => Threw(t)
      case Done(ctor) => if Truthy(ctor) then Done(ctor) else Threw(ErrorObj(ImportFailed))
  }
}
