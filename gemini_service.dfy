/** The browser's client for the model: it builds the request for a generation (an optional
    screenshot, then one text part), strips identifiers from the events it sends for a
    refinement, and gives every event that comes back a fresh identifier. The model call and
    `JSON.parse` are parameters: `reply` is the text of the model's response (empty when it
    carries none) or what the call threw, and `parse` is `JSON.parse`. */
module GeminiService {
  import opened Strings
  import opened Js
  import opened Types
  import opened Stamping

  /** The image types the data-URI header may name, in the order the pattern lists them. */
  const ImageTypes: seq<string> := ["png", "jpeg", "jpg", "webp"]

  /** The data-URI header `data:image/<type>;base64,`. */
  function Header(t: string): string {
    "data:image/" + t + ";base64,"
  }

  /** `s.replace(/^data:image\/(png|jpeg|jpg|webp);base64,/, '')`: a header for one of the image
      types is removed when it opens the string, once; any other string is kept. */
  function StripDataUriHeader(s: string): (r: string)
    ensures |r| <= |s| && s[|s| - |r|..] == r
    ensures (forall t :: t in ImageTypes ==> !StartsWith(s, Header(t))) ==> r == s
    ensures r != s ==> exists t :: t in ImageTypes && s == Header(t) + r
  {
    if StartsWith(s, Header("png")) then
      assert s == Header("png") + s[|Header("png")|..];
      s[|Header("png")|..]
    else if StartsWith(s, Header("jpeg")) then
      assert s == Header("jpeg") + s[|Header("jpeg")|..];
      s[|Header("jpeg")|..]
    else if StartsWith(s, Header("jpg")) then
      assert s == Header("jpg") + s[|Header("jpg")|..];
      s[|Header("jpg")|..]
    else if StartsWith(s, Header("webp")) then
      assert s == Header("webp") + s[|Header("webp")|..];
      s[|Header("webp")|..]
    else
      s
  }

  /** The headers of two different image types differ at a position inside both. */
  lemma HeadersDiffer(t: string, u: string, rest: string)
    requires t in ImageTypes && u in ImageTypes && t != u
    ensures !StartsWith(Header(t) + rest, Header(u))
  {
    var k := if t[0] != u[0] then 0 else 2;
    assert t[k] != u[k];
    assert (Header(t) + rest)[11 + k] == t[k];
    assert Header(u)[11 + k] == u[k];
  }

  /** A header for any of the image types is removed, whatever follows it. */
  lemma StripsHeader(t: string, rest: string)
    requires t in ImageTypes
    ensures StripDataUriHeader(Header(t) + rest) == rest
  {
    var s := Header(t) + rest;
    assert StartsWith(s, Header(t));
    forall u | u in ImageTypes && u != t ensures !StartsWith(s, Header(u)) {
      HeadersDiffer(t, u, rest);
    }
  }

  /** The header is removed once: a doubled header leaves one behind. */
  lemma StripsOnce(t: string, rest: string)
    requires t in ImageTypes
    ensures StripDataUriHeader(Header(t) + Header(t) + rest) == Header(t) + rest
  {
    assert Header(t) + Header(t) + rest == Header(t) + (Header(t) + rest);
    StripsHeader(t, Header(t) + rest);
  }

  /** `if (imageBase64)`: an image is present when it is given and not empty. */
  predicate HasImage(image: Option<string>) {
    image.Some? && image.value != []
  }

  function DescriptionPrompt(description: string): string {
    "Feature Description: " + description + "\n\nPlease generate a list of Amplitude events for this feature."
  }

  const ScreenshotPrompt: string := "Generate a list of Amplitude events based on this UI screenshot."

  const NoInput: string := "No input provided"

  /** What a generation request carries: the cleaned screenshot first when there is one, then
      one text part, which quotes the description when there is one. */
  predicate RequestParts(description: string, image: Option<string>, parts: seq<Part>) {
    1 <= |parts| <= 2
    && (|parts| == 2 <==> HasImage(image))
    && (HasImage(image) ==> parts[0] == InlineData("image/png", Str(StripDataUriHeader(image.value))))
    && parts[|parts| - 1] == TextPart(if description != [] then DescriptionPrompt(description) else ScreenshotPrompt)
  }

  /** The parts of a generation request, pushed one by one; with neither a description nor an
      image it throws before anything is sent. */
  method BuildParts(description: string, image: Option<string>) returns (r: Outcome<seq<Part>>)
    ensures r.Threw? <==> description == [] && !HasImage(image)
    ensures r.Threw? ==> r.thrown == ErrorObj(NoInput)
    ensures r.Done? ==> RequestParts(description, image, r.value)
  {
    var parts: seq<Part> := [];
    if HasImage(image) {
      var clean := StripDataUriHeader(image.value);
      parts := parts + [InlineData("image/png", Str(clean))];
    }
    if description != [] {
      parts := parts + [TextPart(DescriptionPrompt(description))];
    } else if |parts| > 0 {
      parts := parts + [TextPart(ScreenshotPrompt)];
    } else {
      return Threw(ErrorObj(NoInput));
    }
    return Done(parts);
  }

  /** `JSON.parse(text)` followed by `rawEvents.map(e => ({...e, id: crypto.randomUUID()}))`. */
  function FreshEvents(parsed: Outcome<Value>, seed: nat): (r: Outcome<seq<Value>>)
    ensures r.Done? <==> parsed.Done? && parsed.value.Arr?
    ensures r.Done? ==> r.value == StampFresh(parsed.value.elems, seed)
    ensures parsed.Threw? ==> r == Threw(parsed.thrown)
  {
    match parsed
    case Threw(t) => Threw(t)
    case Done(v) =>
      match Elements(v, "rawEvents")
      case Threw(t) => Threw(t)
      case Done(xs) => Done(StampFresh(xs, seed))
  }

  /** `generateEventsFromInput`: `sent` is the request that reaches the model, if any. An empty
      reply is an empty list; otherwise every returned event gets a fresh identifier. */
  method GenerateEventsFromInput(description: string, image: Option<string>, reply: Outcome<string>,
                                 parse: string -> Outcome<Value>, seed: nat)
    returns (sent: Option<seq<Part>>, result: Outcome<seq<Value>>)
    ensures sent.None? <==> description == [] && !HasImage(image)
    ensures sent.None? ==> result == Threw(ErrorObj(NoInput))
    ensures sent.Some? ==> RequestParts(description, image, sent.value)
    ensures sent.Some? && reply.Threw? ==> result == Threw(reply.thrown)
    ensures sent.Some? && reply == Done([]) ==> result == Done([])
    ensures sent.Some? && reply.Done? && reply.value != [] ==> result == FreshEvents(parse(reply.value), seed)
  {
    var parts := BuildParts(description, image);
    if parts.Threw? {
      return None, Threw(parts.thrown);
    }
    sent := Some(parts.value);
    if reply.Threw? {
      return sent, Threw(reply.thrown);
    }
    var text := reply.value;
    if text == [] {
      return sent, Done([]);
    }
    result := FreshEvents(parse(text), seed);
  }

  /** An event as sent for refinement: everything but its identifier. */
  datatype EventFields = EventFields(
    action: string,
    view: string,
    click: string,
    eventName: string,
    eventProperties: string)

  function AddId(f: EventFields, id: string): Event {
    Event(id, f.action, f.view, f.click, f.eventName, f.eventProperties)
  }

  /** `({id, ...rest}) => rest`: giving the identifier back restores the event. */
  function StripId(e: Event): (r: EventFields)
    ensures AddId(r, e.id) == e
  {
    EventFields(e.action, e.view, e.click, e.eventName, e.eventProperties)
  }

  function StripIds(events: seq<Event>): (r: seq<EventFields>)
    ensures |r| == |events|
    ensures forall i :: 0 <= i < |r| ==> AddId(r[i], events[i].id) == events[i]
  {
    seq(|events|, i requires 0 <= i < |events| => StripId(events[i]))
  }

  /** What a refinement sends: the current events without identifiers, and the instruction. */
  datatype RefinePrompt = RefinePrompt(events: seq<EventFields>, instruction: string)

  datatype Refined = Refined(events: seq<Value>, message: string)

  const RefinedMessage: string := "I've updated the event list based on your feedback."

  const NoResponse: string := "No response from AI"

  /** `refineEventsWithChat`: the prompt it sends and what it returns. An empty reply is an error
      here; a successful result always carries the fixed message. */
  function RefineEventsWithChat(current: seq<Event>, instruction: string, reply: Outcome<string>,
                                parse: string -> Outcome<Value>, seed: nat): (r: (RefinePrompt, Outcome<Refined>))
    ensures r.0 == RefinePrompt(StripIds(current), instruction)
    ensures reply.Threw? ==> r.1 == Threw(reply.thrown)
    ensures reply == Done([]) ==> r.1 == Threw(ErrorObj(NoResponse))
    ensures r.1.Done? ==> r.1.value.message == RefinedMessage
    ensures r.1.Done? <==> reply.Done? && reply.value != [] && FreshEvents(parse(reply.value), seed).Done?
    ensures r.1.Done? ==> r.1.value.events == FreshEvents(parse(reply.value), seed).value
  {
    var prompt := RefinePrompt(StripIds(current), instruction);
    match reply
    case Threw(t) => (prompt, Threw(t))
    case Done(text) =>
      if text == [] then (prompt, Threw(ErrorObj(NoResponse)))
      else
        match FreshEvents(parse(text), seed)
        case Threw(t) => (prompt, Threw(t))
        case Done(events) => (prompt, Done(Refined(events, RefinedMessage)))
  }
}
