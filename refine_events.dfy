/** The `refineEvents` edge function: it validates the request, sends the current events as
    given (identifiers included) together with the instruction, reads the model's output,
    fills in an empty list and an empty message where they are missing, and keeps every truthy
    identifier, drawing a fresh one only where it is missing. */
module RefineEvents {
  import opened Js
  import opened Types
  import opened Stamping
  import opened Edge

  const InputRequired: string := "Events and instruction are required"
  const KeyMissing: string := "API key not configured"
  const NoText: string := "Cannot extract text from response"
  const UnknownError: string := "Unknown error"

  /** The TypeError of `const { events, instruction } = await req.json()` on a null body. */
  function DestructureError(body: Value): string {
    "Cannot destructure property 'events' of '(intermediate value)' as it is " + ToString(body) + "."
  }

  /** What reaches the model: the events exactly as the request gave them, serialised into the
      system instruction, and the user part that quotes the instruction. */
  datatype Prompt = Prompt(currentEvents: Value, instruction: Value, parts: seq<Part>)

  function MakePrompt(events: Value, instruction: Value): Prompt {
    Prompt(events, instruction, [TextPart("Please refine these Amplitude events according to: " + ToString(instruction))])
  }

  /** `eventData.events || []` and `eventData.message || ""`: missing fields are filled in, not
      reported. */
  function Defaults(data: Value): (r: Outcome<(Value, Value)>)
    ensures r.Done? <==> !Nullish(data)
    ensures r.Threw? ==> r == Threw(ErrorObj(ReadError(data, "events")))
    ensures r.Done? && Truthy(Lookup(data, "events")) ==> r.value.0 == Lookup(data, "events")
    ensures r.Done? && !Truthy(Lookup(data, "events")) ==> r.value.0 == Arr([])
    ensures r.Done? && Truthy(Lookup(data, "message")) ==> r.value.1 == Lookup(data, "message")
    ensures r.Done? && !Truthy(Lookup(data, "message")) ==> r.value.1 == Str([])
  {
    match Get(data, "events")
    case Threw(t) => Threw(t)
    case Done(events) =>
      var message := Lookup(data, "message");
      Done((if Truthy(events) then events else Arr([]), if Truthy(message) then message else Str([])))
  }

  /** The body of a successful answer, from the model's reply on. */
  function Answer(reply: Outcome<Value>, parse: string -> Outcome<Value>, seed: nat): Outcome<Value> {
    match reply
    case Threw(t) => Threw(t)
    case Done(response) =>
      match ModelOutput(response, parse, _ => NoText)
      case Threw(t) => Threw(t)
      case Done(data) =>
        match Defaults(data)
        case Threw(t) => Threw(t)
        case Done((events, message)) =>
          match Elements(events, "events")
          case Threw(t) => Threw(t)
          case Done(xs) =>
            match StampMissing(xs, seed)
            case Threw(t) => Threw(t)
            case Done(ys) => Done(Obj([("events", Arr(ys)), ("message", message)]))
  }

  /** The catch block: status 500 with the error's message, or "Unknown error" for a thrown
      value that is not an Error. */
  function ErrorResponse(t: Thrown): (r: Response)
    ensures r.status == 500 && r.body.Json? && Keys(r.body.value) == ["error"]
    ensures Lookup(r.body.value, "error") == Str(if t.ErrorObj? then t.message else UnknownError)
  {
    match t
    case ErrorObj(m) => Response(500, Json(JsonError(m)))
    case NonError(_, _) => Response(500, Json(JsonError(UnknownError)))
  }

  function Reply(result: Outcome<Value>): Response {
    match result
    case Threw(t) => ErrorResponse(t)
    case Done(v) => Response(200, Json(v))
  }

  /** The handler, as one expression: the prompt sent to the model (if it is reached) and the
      response. */
  function Respond(req: Request, env: Backend, seed: nat): (Option<Prompt>, Response) {
    if req.verb == "OPTIONS" then
      (None, Preflight)
    else
      match req.body
      case Threw(t) => (None, ErrorResponse(t))
      case Done(body) =>
        if Nullish(body) then
          (None, ErrorResponse(ErrorObj(DestructureError(body))))
        else
          var events := Lookup(body, "events");
          var instruction := Lookup(body, "instruction");
          if !Truthy(events) || !Truthy(instruction) then
            (None, Response(400, Json(JsonError(InputRequired))))
          else if !KeyConfigured(env.apiKey) then
            (None, Response(500, Json(JsonError(KeyMissing))))
          else
            match LoadSdk(env.sdk)
            case Threw(t) => (None, ErrorResponse(t))
            case Done(_) =>
              (Some(MakePrompt(events, instruction)), Reply(Answer(env.reply, env.parse, seed)))
  }

  /** 400 answers exactly a request whose `events` or `instruction` is falsy. */
  lemma BadRequestStatus(req: Request, env: Backend, seed: nat)
    ensures Respond(req, env, seed).1.status == 400 <==>
      req.verb != "OPTIONS" && req.body.Done? && !Nullish(req.body.value)
      && (!Truthy(Lookup(req.body.value, "events")) || !Truthy(Lookup(req.body.value, "instruction")))
  {
  }

  /** An empty event list is truthy and passes the input check; an empty instruction fails it. */
  lemma EmptyListPasses(req: Request, env: Backend, seed: nat)
    requires req.verb != "OPTIONS" && req.body.Done? && !Nullish(req.body.value)
    requires Lookup(req.body.value, "events") == Arr([])
    ensures Respond(req, env, seed).1.status == 400 <==> !Truthy(Lookup(req.body.value, "instruction"))
    ensures Lookup(req.body.value, "instruction") == Str([]) ==> Respond(req, env, seed).1.status == 400
  {
    BadRequestStatus(req, env, seed);
  }

  /** With valid input and no key, the answer is the key error, and the model is not reached. */
  lemma KeyCheckedSecond(req: Request, env: Backend, seed: nat)
    requires req.verb != "OPTIONS" && req.body.Done? && !Nullish(req.body.value)
    requires Truthy(Lookup(req.body.value, "events")) && Truthy(Lookup(req.body.value, "instruction"))
    requires !KeyConfigured(env.apiKey)
    ensures Respond(req, env, seed) == (None, Response(500, Json(JsonError(KeyMissing))))
  {
  }

  /** The events reach the model exactly as the request gave them, identifiers included. */
  lemma PromptCarriesEventsVerbatim(req: Request, env: Backend, seed: nat)
    requires Respond(req, env, seed).0.Some?
    ensures req.body.Done? && !Nullish(req.body.value)
    ensures Respond(req, env, seed).0.value.currentEvents == Lookup(req.body.value, "events")
    ensures Respond(req, env, seed).0.value.instruction == Lookup(req.body.value, "instruction")
    ensures KeyConfigured(env.apiKey)
  {
  }

  /** Output whose `events` and `message` are missing (or falsy) is answered with an empty list
      and an empty message, not an error. */
  lemma MissingFieldsDefault(response: Value, parse: string -> Outcome<Value>, seed: nat)
    requires ModelOutput(response, parse, _ => NoText).Done?
    requires var data := ModelOutput(response, parse, _ => NoText).value;
      !Nullish(data) && !Truthy(Lookup(data, "events")) && !Truthy(Lookup(data, "message"))
    ensures Answer(Done(response), parse, seed) == Done(Obj([("events", Arr([])), ("message", Str([]))]))
  {
  }

  /** A success answers with the model's events (or none), each keeping a truthy identifier
      and otherwise given a fresh one, in the same order, with the model's message or "". */
  lemma KeepsIdsOnSuccess(req: Request, env: Backend, seed: nat)
    requires req.verb != "OPTIONS" && Respond(req, env, seed).1.status == 200
    ensures env.reply.Done?
    ensures var out := ModelOutput(env.reply.value, env.parse, _ => NoText);
      out.Done? && Defaults(out.value).Done?
      && var (events, message) := Defaults(out.value).value;
      events.Arr? && StampMissing(events.elems, seed).Done?
      && Respond(req, env, seed).1.body
         == Json(Obj([("events", Arr(StampMissing(events.elems, seed).value)), ("message", message)]))
  {
  }

  // ---------------------------------------------------------------------------------------
  // Loading the module. A block whose lexical declarations repeat a name is an early error
  // (section 14.2.1 of ECMA-262, "It is a Syntax Error if the LexicallyDeclaredNames of
  // StatementList contains any duplicate entries"): the module is refused before it serves
  // any request.

  /** Some name is declared twice. */
  predicate DuplicateLexical(names: seq<string>) {
    exists i, j :: 0 <= i < j < |names| && names[i] == names[j]
  }

  /** The lexical declarations of the handler's `try` block, in source order: the destructured
      request fields, then every `const` and `let` down to `result`. `events` occurs twice. */
  const TryBlockAsWritten: seq<string> :=
    ["events", "instruction", "apiKey", "genaiModule", "GoogleGenerativeAI", "client", "model",
     "EVENT_SCHEMA", "SYSTEM_INSTRUCTION", "response", "actualResponse", "text", "eventData",
     "events", "message", "result"]

  /** The same block with the model's events bound under their own name, as `Respond` reads
      them. */
  const TryBlockIntended: seq<string> := TryBlockAsWritten[13 := "refinedEvents"]

  /** What the deployed function answers: nothing at all when its module fails to load, and
      otherwise the handler's response. */
  function Serve(tryBlock: seq<string>, req: Request, env: Backend, seed: nat): (r: Option<Response>)
    ensures r.None? <==> DuplicateLexical(tryBlock)
    ensures r.Some? ==> r.value == Respond(req, env, seed).1
  {
    if DuplicateLexical(tryBlock) then None else Some(Respond(req, env, seed).1)
  }

  /** As written, the module never loads, so no request is answered, not even a preflight. */
  lemma AsWrittenAnswersNothing(req: Request, env: Backend, seed: nat)
    ensures Serve(TryBlockAsWritten, req, env, seed) == None
  {
    assert TryBlockAsWritten[0] == TryBlockAsWritten[13];
  }

  /** With the second `events` renamed, every name is declared once and every request gets the
      handler's response. */
  lemma IntendedAnswers(req: Request, env: Backend, seed: nat)
    ensures Serve(TryBlockIntended, req, env, seed) == Some(Respond(req, env, seed).1)
  {
    var names := TryBlockIntended;
    forall i, j | 0 <= i < j < |names| ensures names[i] != names[j] {
      assert |names[i]| != |names[j]| || names[i][0] != names[j][0] || names[i][1] != names[j][1]
          || names[i][|names[i]| - 1] != names[j][|names[j]| - 1];
    }
  }

  /** The converse of `PromptCarriesEventsVerbatim`: a valid request with a key and a loadable
      client library reaches the model with the request's events and instruction and is answered
      from the model's reply; an answer that succeeds is a 200. */
  lemma ReachesModel(req: Request, env: Backend, seed: nat)
    requires req.verb != "OPTIONS" && req.body.Done? && !Nullish(req.body.value)
    requires Truthy(Lookup(req.body.value, "events")) && Truthy(Lookup(req.body.value, "instruction"))
    requires KeyConfigured(env.apiKey) && LoadSdk(env.sdk).Done?
    ensures Respond(req, env, seed).0
         == Some(MakePrompt(Lookup(req.body.value, "events"), Lookup(req.body.value, "instruction")))
    ensures Respond(req, env, seed).1 == Reply(Answer(env.reply, env.parse, seed))
    ensures Answer(env.reply, env.parse, seed).Done? ==> Respond(req, env, seed).1.status == 200
  {
  }

  /** The `serve` handler as written: early returns, the reassigned `text`, and the defaults. */
  method Handle(req: Request, env: Backend, seed: nat) returns (sent: Option<Prompt>, resp: Response)
    ensures (sent, resp) == Respond(req, env, seed)
  {
    if req.verb == "OPTIONS" {
      return None, Preflight;
    }
    if req.body.Threw? {
      return None, ErrorResponse(req.body.thrown);
    }
    var body := req.body.value;
    if Nullish(body) {
      return None, ErrorResponse(ErrorObj(DestructureError(body)));
    }
    var events := Lookup(body, "events");
    var instruction := Lookup(body, "instruction");
    if !Truthy(events) || !Truthy(instruction) {
      return None, Response(400, Json(JsonError(InputRequired)));
    }
    if !KeyConfigured(env.apiKey) {
      return None, Response(500, Json(JsonError(KeyMissing)));
    }
    var ctor := LoadSdk(env.sdk);
    if ctor.Threw? {
      return None, ErrorResponse(ctor.thrown);
    }
    sent := Some(MakePrompt(events, instruction));
    if env.reply.Threw? {
      return sent, ErrorResponse(env.reply.thrown);
    }
    var eventData := ReadModelOutput(env.reply.value, env.parse, _ => NoText);
    if eventData.Threw? {
      return sent, ErrorResponse(eventData.thrown);
    }
    var filled := Defaults(eventData.value);
    if filled.Threw? {
      return sent, ErrorResponse(filled.thrown);
    }
    var (newEvents, message) := filled.value;
    var xs := Elements(newEvents, "events");
    if xs.Threw? {
      return sent, ErrorResponse(xs.thrown);
    }
    var ys := StampMissing(xs.value, seed);
    if ys.Threw? {
      return sent, ErrorResponse(ys.thrown);
    }
    resp := Response(200, Json(Obj([("events", Arr(ys.value)), ("message", message)])));
  }
}
