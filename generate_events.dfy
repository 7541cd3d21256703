/** The `generateEvents` edge function: it validates the request, builds the model request (an
    optional screenshot, then a text part that is always present), reads the model's output,
    insists on an `events` array and gives every event a fresh identifier. Every error it throws
    becomes a 500 whose body names the error and its type. */
module GenerateEvents {
  import opened Strings
  import opened Js
  import opened Ids
  import opened Types
  import opened Stamping
  import opened Edge

  const InputRequired: string := "Description or image is required"
  const KeyMissing: string := "API key not configured in Supabase Vault"

  /** The TypeError of `const { description, imageBase64 } = body` on a null body. */
  function DestructureError(body: Value): string {
    "Cannot destructure property 'description' of 'body' as it is " + ToString(body) + "."
  }

  /** The text part; an absent description reads as "undefined". */
  function PromptText(description: Value): string {
    "Feature Description: " + ToString(description) + "\n\nGenerate appropriate Amplitude events for tracking this feature."
  }

  /** The request's parts: the image, as given, first when it is truthy; the text part always. */
  function Parts(description: Value, image: Value): (r: seq<Part>)
    ensures |r| == if Truthy(image) then 2 else 1
    ensures Truthy(image) ==> r[0] == InlineData("image/png", image)
    ensures r[|r| - 1] == TextPart(PromptText(description))
  {
    (if Truthy(image) then [InlineData("image/png", image)] else []) + [TextPart(PromptText(description))]
  }

  /** The parts, pushed one by one. */
  method BuildParts(description: Value, image: Value) returns (parts: seq<Part>)
    ensures parts == Parts(description, image)
  {
    parts := [];
    if Truthy(image) {
      parts := parts + [InlineData("image/png", image)];
    }
    parts := parts + [TextPart(PromptText(description))];
  }

  /** The error when no text can be found: it lists the keys of the unwrapped response. */
  function MissingText(a: Value): string {
    "Cannot extract text. Keys: " + Join(Keys(if Truthy(a) then a else Obj([])), ", ")
  }

  function InvalidEvents(data: string): string {
    "Response does not contain valid 'events' array. Got: " + Prefix(data, 200)
  }

  /** `eventData.events`, which must be an array; anything else is an error, never a partial
      result. `JSON.stringify` of a function is undefined, so for a function-valued output the
      error quoting it is never built: `.substring` is read off undefined instead. */
  function CheckEvents(data: Value, stringify: Value -> string): (r: Outcome<seq<Value>>)
    ensures r.Done? <==> !Nullish(data) && Lookup(data, "events").Arr?
    ensures r.Done? ==> r.value == Lookup(data, "events").elems
    ensures data.Fn? ==> r == Threw(ErrorObj(ReadError(Undefined, "substring")))
    ensures !Nullish(data) && !data.Fn? && !Lookup(data, "events").Arr? ==>
              r == Threw(ErrorObj(InvalidEvents(stringify(data))))
  {
    match Get(data, "events")
    case Threw(t) => Threw(t)
    case Done(events) =>
      if Truthy(events) && events.Arr? then Done(events.elems)
      else if data.Fn? then Threw(ErrorObj(ReadError(Undefined, "substring")))
      else Threw(ErrorObj(InvalidEvents(stringify(data))))
  }

  /** The events the handler answers with, from the model's reply on. */
  function Answer(reply: Outcome<Value>, parse: string -> Outcome<Value>, stringify: Value -> string, seed: nat): Outcome<seq<Value>> {
    match reply
    case Threw(t) => Threw(t)
    case Done(response) =>
      match ModelOutput(response, parse, MissingText)
      case Threw(t) => Threw(t)
      case Done(data) =>
        match CheckEvents(data, stringify)
        case Threw(t) => Threw(t)
        case Done(events) => Done(StampFresh(events, seed))
  }

  /** A `text()` that returns a function gives a function-valued output, which `JSON.stringify`
      turns into undefined: the answer is the error from reading `.substring` off undefined. */
  lemma FunctionOutputFails(props: seq<(string, Value)>, f: Outcome<Value>, parse: string -> Outcome<Value>,
                            stringify: Value -> string, seed: nat)
    requires !Truthy(FindProp(props, "response")) && FindProp(props, "text") == Fn(Done(Fn(f)))
    ensures Answer(Done(Obj(props)), parse, stringify, seed) == Threw(ErrorObj(ReadError(Undefined, "substring")))
    ensures ReadError(Undefined, "substring") == "Cannot read properties of undefined (reading 'substring')"
  {
    TextMethodFirst(props, Done(Fn(f)), parse, MissingText);
    SubstringOfUndefined();
  }

  /** The V8 message for `undefined.substring`. */
  lemma SubstringOfUndefined()
    ensures ReadError(Undefined, "substring") == "Cannot read properties of undefined (reading 'substring')"
  {
  }

  /** The catch block: status 500, with the message and "Error" for an Error, else the value's
      string and type. */
  function ErrorResponse(t: Thrown): (r: Response)
    ensures r.status == 500 && r.body.Json? && Keys(r.body.value) == ["error", "type"]
    ensures Lookup(r.body.value, "error") == Str(if t.ErrorObj? then t.message else t.text)
    ensures Lookup(r.body.value, "type") == Str(if t.ErrorObj? then "Error" else t.typeName)
  {
    var (message, name) := match t
      case ErrorObj(m) => (m, "Error")
      case NonError(text, typeName) => (text, typeName);
    var props := [("error", Str(message)), ("type", Str(name))];
    assert props[0].0 != "type" && FindProp(props[1..], "type") == Str(name);
    Response(500, Json(Obj(props)))
  }

  function Reply(events: Outcome<seq<Value>>): Response {
    match events
    case Threw(t) => ErrorResponse(t)
    case Done(xs) => Response(200, Json(Obj([("events", Arr(xs))])))
  }

  /** The handler, as one expression: the parts sent to the model (if it is reached) and the
      response. */
  function Respond(req: Request, env: Backend, stringify: Value -> string, seed: nat): (Option<seq<Part>>, Response) {
    if req.verb == "OPTIONS" then
      (None, Preflight)
    else
      match req.body
      case Threw(t) => (None, ErrorResponse(t))
      case Done(body) =>
        if Nullish(body) then
          (None, ErrorResponse(ErrorObj(DestructureError(body))))
        else
          var description := Lookup(body, "description");
          var image := Lookup(body, "imageBase64");
          if !Truthy(description) && !Truthy(image) then
            (None, Response(400, Json(JsonError(InputRequired))))
          else if !KeyConfigured(env.apiKey) then
            (None, Response(500, Json(JsonError(KeyMissing))))
          else
            match LoadSdk(env.sdk)
            case Threw(t) => (None, ErrorResponse(t))
            case Done(_) =>
              (Some(Parts(description, image)), Reply(Answer(env.reply, env.parse, stringify, seed)))
  }

  /** 200 answers a preflight or a request whose events came back well-formed. */
  lemma SuccessStatus(req: Request, env: Backend, stringify: Value -> string, seed: nat)
    ensures Respond(req, env, stringify, seed).1.status == 200 <==>
      req.verb == "OPTIONS"
      || (Respond(req, env, stringify, seed).0.Some? && Answer(env.reply, env.parse, stringify, seed).Done?)
  {
  }

  /** 400 answers exactly a request in which neither a description nor an image is truthy. */
  lemma BadRequestStatus(req: Request, env: Backend, stringify: Value -> string, seed: nat)
    ensures Respond(req, env, stringify, seed).1.status == 400 <==>
      req.verb != "OPTIONS" && req.body.Done? && !Nullish(req.body.value)
      && !Truthy(Lookup(req.body.value, "description")) && !Truthy(Lookup(req.body.value, "imageBase64"))
  {
  }

  /** Every other answer is a 500 with a JSON body. */
  lemma ServerErrorStatus(req: Request, env: Backend, stringify: Value -> string, seed: nat)
    requires Respond(req, env, stringify, seed).1.status !in {200, 400}
    ensures Respond(req, env, stringify, seed).1.status == 500
    ensures Respond(req, env, stringify, seed).1.body.Json?
  {
  }

  /** The input check comes first: a request rejected for missing input is rejected the same
      way whatever the environment (key, SDK, model). */
  lemma InputCheckedFirst(req: Request, env: Backend, env': Backend, stringify: Value -> string, seed: nat)
    requires Respond(req, env, stringify, seed).1.status == 400
    ensures Respond(req, env', stringify, seed) == Respond(req, env, stringify, seed)
    ensures Respond(req, env, stringify, seed) == (None, Response(400, Json(JsonError(InputRequired))))
  {
    BadRequestStatus(req, env, stringify, seed);
  }

  /** With valid input and no key, the answer is the key error, and the model is not reached. */
  lemma KeyCheckedSecond(req: Request, env: Backend, stringify: Value -> string, seed: nat)
    requires req.verb != "OPTIONS" && req.body.Done? && !Nullish(req.body.value)
    requires Truthy(Lookup(req.body.value, "description")) || Truthy(Lookup(req.body.value, "imageBase64"))
    requires !KeyConfigured(env.apiKey)
    ensures Respond(req, env, stringify, seed) == (None, Response(500, Json(JsonError(KeyMissing))))
  {
  }

  /** The model is reached only with valid input, a key and the SDK, and then always with a text
      part after the optional image. */
  lemma SentOnlyWhenValid(req: Request, env: Backend, stringify: Value -> string, seed: nat)
    requires Respond(req, env, stringify, seed).0.Some?
    ensures req.verb != "OPTIONS" && req.body.Done? && !Nullish(req.body.value)
    ensures Truthy(Lookup(req.body.value, "description")) || Truthy(Lookup(req.body.value, "imageBase64"))
    ensures KeyConfigured(env.apiKey) && LoadSdk(env.sdk).Done?
    ensures Respond(req, env, stringify, seed).0.value
         == Parts(Lookup(req.body.value, "description"), Lookup(req.body.value, "imageBase64"))
  {
  }

  /** A success answers with the model's events, each with a fresh identifier in place of any
      it had, in the same order and with the same other properties. */
  lemma FreshIdsOnSuccess(req: Request, env: Backend, stringify: Value -> string, seed: nat)
    requires req.verb != "OPTIONS" && Respond(req, env, stringify, seed).1.status == 200
    ensures env.reply.Done?
    ensures var out := ModelOutput(env.reply.value, env.parse, MissingText);
      out.Done? && !Nullish(out.value) && Lookup(out.value, "events").Arr?
      && Respond(req, env, stringify, seed).1.body
         == Json(Obj([("events", Arr(StampFresh(Lookup(out.value, "events").elems, seed)))]))
  {
    SuccessStatus(req, env, stringify, seed);
  }

  /** The converse of `SentOnlyWhenValid`: a valid request with a key and a loadable client
      library reaches the model with the built parts and is answered from the model's reply;
      an answer that succeeds is a 200. */
  lemma ReachesModel(req: Request, env: Backend, stringify: Value -> string, seed: nat)
    requires req.verb != "OPTIONS" && req.body.Done? && !Nullish(req.body.value)
    requires Truthy(Lookup(req.body.value, "description")) || Truthy(Lookup(req.body.value, "imageBase64"))
    requires KeyConfigured(env.apiKey) && LoadSdk(env.sdk).Done?
    ensures Respond(req, env, stringify, seed).0
         == Some(Parts(Lookup(req.body.value, "description"), Lookup(req.body.value, "imageBase64")))
    ensures Respond(req, env, stringify, seed).1 == Reply(Answer(env.reply, env.parse, stringify, seed))
    ensures Answer(env.reply, env.parse, stringify, seed).Done? ==> Respond(req, env, stringify, seed).1.status == 200
  {
  }

  /** The `serve` handler as written: early returns, `push`, and the reassigned `text`. */
  method Handle(req: Request, env: Backend, stringify: Value -> string, seed: nat)
    returns (sent: Option<seq<Part>>, resp: Response)
    ensures (sent, resp) == Respond(req, env, stringify, seed)
  {
    if req.verb == "OPTIONS" {
      return None, Preflight;
    }
    if req.body.Threw? {
      return None, ErrorResponse(req.body.thrown);
    }
    var body := req.body.value;
    if Nullish(body) {
      return None, ErrorResponse(ErrorObj(DestructureError(body)));
    }
    var description := Lookup(body, "description");
    var image := Lookup(body, "imageBase64");
    if !Truthy(description) && !Truthy(image) {
      return None, Response(400, Json(JsonError(InputRequired)));
    }
    if !KeyConfigured(env.apiKey) {
      return None, Response(500, Json(JsonError(KeyMissing)));
    }
    var ctor := LoadSdk(env.sdk);
    if ctor.Threw? {
      return None, ErrorResponse(ctor.thrown);
    }
    var parts := BuildParts(description, image);
    sent := Some(parts);
    if env.reply.Threw? {
      return sent, ErrorResponse(env.reply.thrown);
    }
    var eventData := ReadModelOutput(env.reply.value, env.parse, MissingText);
    if eventData.Threw? {
      return sent, ErrorResponse(eventData.thrown);
    }
    var events := CheckEvents(eventData.value, stringify);
    if events.Threw? {
      return sent, ErrorResponse(events.thrown);
    }
    resp := Response(200, Json(Obj([("events", Arr(StampFresh(events.value, seed)))])));
  }
}
