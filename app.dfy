/** The application's session: the event list, the conversation, the processing state and
    whether a generation has happened, updated by the two handlers `handleGenerate` and
    `handleChat`. Each handler is split at its `await`: the first half runs the guard and the
    optimistic updates, the second half receives the backend's outcome (a parameter) and always
    ends idle. `now` stands for `Date.now()`; message identifiers come from the `Ids` oracle. */
module App {
  import opened Strings
  import opened Js
  import opened Ids
  import opened Types

  const FailedToGenerate: string := "Failed to generate events. Please check your API key and try again."
  const RefineFailed: string := "Sorry, I encountered an error updating the events."

  const GeneratedOpening: string := "I've analyzed your input and generated "
  const GeneratedClosing: string := " events. Review the table below. You can chat with me to refine them."

  /** The model's greeting after a generation of `n` events. */
  function GeneratedText(n: nat): string {
    GeneratedOpening + NatToString(n) + GeneratedClosing
  }

  /** The greeting names the number of events: different counts give different texts. */
  lemma GeneratedTextInjective(m: nat, n: nat)
    ensures GeneratedText(m) == GeneratedText(n) ==> m == n
  {
    if GeneratedText(m) == GeneratedText(n) {
      var a, b := NatToString(m), NatToString(n);
      var lo := |GeneratedOpening|;
      assert |a| == |b|;
      assert GeneratedText(m)[lo..lo + |a|] == a;
      assert GeneratedText(n)[lo..lo + |b|] == b;
      NatToStringInjective(m, n);
    }
  }

  /** `!inputDescription.trim() && !inputImage` fails: there is something to generate from. */
  predicate CanGenerate(description: string, image: Option<string>) {
    Trim(description) != [] || (image.Some? && image.value != [])
  }

  /** `inputImage || undefined`: an empty image is sent as no image at all. */
  function SentImage(image: Option<string>): (r: Option<string>)
    ensures r.Some? <==> image.Some? && image.value != []
    ensures r.Some? ==> r == image
  {
    if image.Some? && image.value != [] then image else None
  }

  /** Each message carries the identifier the oracle issued on its call `nums[i]`, every such
      call was made before `issued`, and later messages were numbered later. */
  ghost predicate Numbered(chat: seq<ChatMessage>, nums: seq<nat>, issued: nat) {
    |nums| == |chat|
    && (forall i :: 0 <= i < |chat| ==> chat[i].id == FreshId(nums[i]) && nums[i] < issued)
    && (forall i, j :: 0 <= i < j < |nums| ==> nums[i] < nums[j])
  }

  /** No two messages of a numbered conversation share an identifier. */
  lemma NumberedDistinct(chat: seq<ChatMessage>, nums: seq<nat>, issued: nat)
    requires Numbered(chat, nums, issued)
    ensures forall i, j :: 0 <= i < j < |chat| ==> chat[i].id != chat[j].id
  {
    forall i, j | 0 <= i < j < |chat| ensures chat[i].id != chat[j].id {
      FreshIdInjective(nums[i], nums[j]);
    }
  }

  /** A message with the next identifier keeps the conversation numbered. */
  lemma NumberedSnoc(chat: seq<ChatMessage>, nums: seq<nat>, issued: nat, m: ChatMessage)
    requires Numbered(chat, nums, issued) && m.id == FreshId(issued)
    ensures Numbered(chat + [m], nums + [issued], issued + 1)
  {
  }

  class Session {
    var events: seq<Event>
    var chatHistory: seq<ChatMessage>
    var appState: AppState
    var hasGenerated: bool
    var inputDescription: string
    var inputImage: Option<string>
    /** The `alert` calls made so far. */
    var alerts: seq<string>
    /** How many identifiers the oracle has issued. */
    var issued: nat
    ghost var idNumbers: seq<nat>

    /** The conversation is numbered, and the `ERROR` state is never entered. */
    ghost predicate Valid()
      reads this
    {
      Numbered(chatHistory, idNumbers, issued) && appState != Error
    }

    /** The initial state of every `useState`. */
    constructor()
      ensures Valid()
      ensures events == [] && chatHistory == [] && appState == Idle && !hasGenerated
      ensures inputDescription == [] && inputImage == None && alerts == []
    {
      events := [];
      chatHistory := [];
      appState := Idle;
      hasGenerated := false;
      inputDescription := [];
      inputImage := None;
      alerts := [];
      issued := 0;
      idNumbers := [];
    }

    /** `setInputDescription` and `setInputImage`: the input survives across generations. */
    method SetInput(description: string, image: Option<string>)
      requires Valid()
      modifies this
      ensures Valid()
      ensures inputDescription == description && inputImage == image
      ensures events == old(events) && chatHistory == old(chatHistory) && appState == old(appState)
      ensures hasGenerated == old(hasGenerated) && alerts == old(alerts) && issued == old(issued)
    {
      inputDescription := description;
      inputImage := image;
    }

    /** The part of `handleGenerate` before the backend call: without input it returns at once
        and changes nothing; otherwise it marks the session as generated and generating. */
    method BeginGenerate() returns (started: bool)
      requires Valid()
      modifies this
      ensures Valid()
      ensures started == CanGenerate(old(inputDescription), old(inputImage))
      ensures !started ==> unchanged(this)
      ensures started ==> hasGenerated && appState == Generating
      ensures events == old(events) && chatHistory == old(chatHistory) && alerts == old(alerts)
      ensures inputDescription == old(inputDescription) && inputImage == old(inputImage) && issued == old(issued)
    {
      if !CanGenerate(inputDescription, inputImage) {
        return false;
      }
      hasGenerated := true;
      appState := Generating;
      return true;
    }

    /** The part of `handleGenerate` after the backend call. A success replaces the events
        with the returned list and the conversation with one greeting that counts them; a
        failure raises an alert and keeps both. Either way the session ends idle. */
    method FinishGenerate(outcome: Outcome<seq<Event>>, now: int)
      requires Valid()
      modifies this
      ensures Valid() && appState == Idle
      ensures outcome.Done? ==> events == outcome.value && alerts == old(alerts) && issued == old(issued) + 1
      ensures outcome.Done? ==>
        chatHistory == [ChatMessage(FreshId(old(issued)), Model, GeneratedText(|outcome.value|), now, None)]
      ensures outcome.Threw? ==> events == old(events) && chatHistory == old(chatHistory) && issued == old(issued)
      ensures outcome.Threw? ==> alerts == old(alerts) + [FailedToGenerate]
      ensures hasGenerated == old(hasGenerated)
      ensures inputDescription == old(inputDescription) && inputImage == old(inputImage)
    {
      if outcome.Done? {
        var generated := outcome.value;
        events := generated;
        chatHistory := [ChatMessage(FreshId(issued), Model, GeneratedText(|generated|), now, None)];
        idNumbers := [issued];
        issued := issued + 1;
      } else {
        alerts := alerts + [FailedToGenerate];
      }
      appState := Idle;
    }

    /** `handleGenerate` with the backend's outcome given: `sent` is the description and image
        the backend received, or None when the guard returned first. */
    method HandleGenerate(outcome: Outcome<seq<Event>>, now: int) returns (sent: Option<(string, Option<string>)>)
      requires Valid()
      modifies this
      ensures Valid()
      ensures sent.None? <==> !CanGenerate(old(inputDescription), old(inputImage))
      ensures sent.None? ==> unchanged(this)
      ensures sent.Some? ==> sent.value == (old(inputDescription), SentImage(old(inputImage)))
      ensures sent.Some? ==> hasGenerated && appState == Idle
      ensures inputDescription == old(inputDescription) && inputImage == old(inputImage)
      ensures sent.Some? && outcome.Done? ==> events == outcome.value && alerts == old(alerts)
      ensures sent.Some? && outcome.Done? ==> issued == old(issued) + 1
      ensures sent.Some? && outcome.Threw? ==> issued == old(issued)
      ensures sent.Some? && outcome.Done? ==>
        chatHistory == [ChatMessage(FreshId(old(issued)), Model, GeneratedText(|outcome.value|), now, None)]
      ensures sent.Some? && outcome.Threw? ==> events == old(events) && chatHistory == old(chatHistory)
      ensures sent.Some? && outcome.Threw? ==> alerts == old(alerts) + [FailedToGenerate]
    {
      var started := BeginGenerate();
      if !started {
        return None;
      }
      sent := Some((inputDescription, SentImage(inputImage)));
      FinishGenerate(outcome, now);
    }

    /** The part of `handleChat` before the backend call: the user's message is appended and
        the session is refining. The chat box sends only a trimmed, non-empty message, and only
        while no refinement is in progress. */
    method BeginChat(message: string, now: int)
      requires Valid()
      requires message != [] && Trim(message) == message && appState != Refining
      modifies this
      ensures Valid() && appState == Refining
      ensures chatHistory == old(chatHistory) + [ChatMessage(FreshId(old(issued)), User, message, now, None)]
      ensures issued == old(issued) + 1
      ensures events == old(events) && hasGenerated == old(hasGenerated) && alerts == old(alerts)
      ensures inputDescription == old(inputDescription) && inputImage == old(inputImage)
    {
      var userMsg := ChatMessage(FreshId(issued), User, message, now, None);
      NumberedSnoc(chatHistory, idNumbers, issued, userMsg);
      chatHistory := chatHistory + [userMsg];
      idNumbers := idNumbers + [issued];
      issued := issued + 1;
      appState := Refining;
    }

    /** The part of `handleChat` after the backend call: a success replaces the events and
        appends the model's text; a failure keeps the events and appends the apology. Exactly
        one message is appended, and the session ends idle. */
    method FinishChat(outcome: Outcome<(seq<Event>, string)>, now: int)
      requires Valid()
      modifies this
      ensures Valid() && appState == Idle && issued == old(issued) + 1
      ensures outcome.Done? ==> events == outcome.value.0
      ensures outcome.Done? ==>
        chatHistory == old(chatHistory) + [ChatMessage(FreshId(old(issued)), Model, outcome.value.1, now, None)]
      ensures outcome.Threw? ==> events == old(events)
      ensures outcome.Threw? ==>
        chatHistory == old(chatHistory) + [ChatMessage(FreshId(old(issued)), Model, RefineFailed, now, None)]
      ensures hasGenerated == old(hasGenerated) && alerts == old(alerts)
      ensures inputDescription == old(inputDescription) && inputImage == old(inputImage)
    {
      var text := RefineFailed;
      if outcome.Done? {
        events := outcome.value.0;
        text := outcome.value.1;
      }
      var reply := ChatMessage(FreshId(issued), Model, text, now, None);
      NumberedSnoc(chatHistory, idNumbers, issued, reply);
      chatHistory := chatHistory + [reply];
      idNumbers := idNumbers + [issued];
      issued := issued + 1;
      appState := Idle;
    }

    /** `handleChat` with the backend's outcome given: `sent` is the event list the backend
        received, the one in place when the message was sent. */
    method HandleChat(message: string, outcome: Outcome<(seq<Event>, string)>, sentAt: int, now: int)
      returns (sent: seq<Event>)
      requires Valid()
      requires message != [] && Trim(message) == message && appState != Refining
      modifies this
      ensures Valid() && appState == Idle && sent == old(events)
      ensures |chatHistory| == |old(chatHistory)| + 2 && chatHistory[..|old(chatHistory)|] == old(chatHistory)
      ensures chatHistory[|old(chatHistory)|] == ChatMessage(FreshId(old(issued)), User, message, sentAt, None)
      ensures chatHistory[|old(chatHistory)| + 1].role == Model
      ensures chatHistory[|old(chatHistory)| + 1].id == FreshId(old(issued) + 1)
      ensures chatHistory[|old(chatHistory)| + 1].timestamp == now
      ensures chatHistory[|old(chatHistory)| + 1].imageData == None
      ensures issued == old(issued) + 2
      ensures inputDescription == old(inputDescription) && inputImage == old(inputImage)
      ensures outcome.Done? ==> events == outcome.value.0 && chatHistory[|old(chatHistory)| + 1].text == outcome.value.1
      ensures outcome.Threw? ==> events == old(events) && chatHistory[|old(chatHistory)| + 1].text == RefineFailed
      ensures hasGenerated == old(hasGenerated) && alerts == old(alerts)
    {
      BeginChat(message, sentAt);
      sent := events;
      FinishChat(outcome, now);
    }
  }
}
