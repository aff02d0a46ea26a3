/**
 * The chat screen: its message list, input box, loading flag and selected
 * model, and the send discipline. The network round trip is an input: the
 * outcome of the request, and the clock readings taken before and after it.
 */
module ChatInterface {
  import opened Wrappers
  import opened Strings
  import opened ChatTypes
  import opened ChatRoute

  // ---------------------------------------------------------------- message ids

  /** The digit character for `d`. */
  function Digit(d: nat): char
    requires d < 10
  {
    ('0' as int + d) as char
  }

  predicate IsDigit(c: char)
  {
    '0' <= c <= '9'
  }

  /** `n.toString()` for a non-negative integer: decimal digits without leading zeros. */
  function DecimalString(n: nat): (r: string)
    ensures |r| >= 1
    ensures forall i :: 0 <= i < |r| ==> IsDigit(r[i])
    ensures r[0] == '0' ==> n == 0 && r == "0"
    decreases n
  {
    if n < 10 then [Digit(n)] else DecimalString(n / 10) + [Digit(n % 10)]
  }

  /** The number a string of decimal digits denotes. */
  function DecimalValue(s: string): nat
    requires forall i :: 0 <= i < |s| ==> IsDigit(s[i])
  {
    if s == [] then 0
    else
      assert IsDigit(s[|s| - 1]);
      DecimalValue(s[..|s| - 1]) * 10 + (s[|s| - 1] as int - '0' as int)
  }

  /** Reading the decimal string back gives the number. */
  lemma {:induction false} DecimalRoundTrip(n: nat)
    ensures DecimalValue(DecimalString(n)) == n
    decreases n
  {
    if n >= 10 {
      var s := DecimalString(n);
      assert s[..|s| - 1] == DecimalString(n / 10);
      DecimalRoundTrip(n / 10);
    }
  }

  /** Different clock readings give different message ids. */
  lemma DistinctIds(a: nat, b: nat)
    requires a != b
    ensures DecimalString(a) != DecimalString(b)
  {
    DecimalRoundTrip(a);
    DecimalRoundTrip(b);
  }

  // ---------------------------------------------------------------- the request

  const InitialModel: string := "gpt-4o"
  const ErrorText: string := "Sorry, I encountered an error. Please try again."

  /** The JSON body posted to the chat endpoint. */
  datatype ChatRequest = ChatRequest(message: string, model: string, history: seq<Message>)

  /** How the request ended: a reply to show, or a non-OK status or a thrown error. */
  datatype FetchOutcome = Replied(message: string) | RequestFailed

  /** The content of the assistant message appended once the request has ended. */
  function ReplyText(outcome: FetchOutcome): (r: string)
    ensures outcome.Replied? ==> r == outcome.message
    ensures outcome.RequestFailed? ==> r == ErrorText
  {
    match outcome
    case Replied(m) => m
    case RequestFailed => ErrorText
  }

  class ChatInterfaceState {
    var messages: seq<Message>
    var input: string
    var isLoading: bool
    var selectedModel: string

    constructor()
      ensures messages == [] && input == [] && !isLoading && selectedModel == InitialModel
    {
      messages := [];
      input := [];
      isLoading := false;
      selectedModel := InitialModel;
    }

    /**
     * `sendMessage`. Nothing happens for a blank input or while a request is
     * pending. Otherwise the user message (the input as typed) is appended,
     * the input cleared and loading set; the request carries the input, the
     * model and the list as it was before the append; then one assistant
     * message is appended (the reply, or the error text) and loading ends.
     * `sentAt` and `repliedAt` are the clock readings in milliseconds.
     */
    method SendMessage(sentAt: nat, outcome: FetchOutcome, repliedAt: nat) returns (request: Option<ChatRequest>)
      modifies this
      ensures IsBlank(old(input)) || old(isLoading) ==>
        request == None && messages == old(messages) && input == old(input) && isLoading == old(isLoading)
      ensures !(IsBlank(old(input)) || old(isLoading)) ==>
        && request == Some(ChatRequest(old(input), old(selectedModel), old(messages)))
        && messages == old(messages) + [
             Message(DecimalString(sentAt), old(input), User, sentAt),
             Message(DecimalString(repliedAt + 1), ReplyText(outcome), Assistant, repliedAt)]
        && input == [] && !isLoading
      ensures selectedModel == old(selectedModel)
    {
      var text, loading, history, model := input, isLoading, messages, selectedModel;
      if Trim(text) == [] || loading {
        return None;
      }
      var userMessage := Message(DecimalString(sentAt), text, User, sentAt);
      messages := history + [userMessage];
      input := [];
      isLoading := true;
      request := Some(ChatRequest(text, model, history));
      var content := if outcome.Replied? then outcome.message else ErrorText;
      var reply := Message(DecimalString(repliedAt + 1), content, Assistant, repliedAt);
      messages := messages + [reply];
      isLoading := false;
    }

    /** `handleKeyPress`: Enter without Shift sends; any other key does nothing. */
    method HandleKeyPress(key: string, shiftKey: bool, sentAt: nat, outcome: FetchOutcome, repliedAt: nat)
      returns (request: Option<ChatRequest>)
      modifies this
      ensures !(key == "Enter" && !shiftKey) ==>
        request == None && messages == old(messages) && input == old(input) && isLoading == old(isLoading)
      ensures key == "Enter" && !shiftKey && (IsBlank(old(input)) || old(isLoading)) ==>
        request == None && messages == old(messages) && input == old(input) && isLoading == old(isLoading)
      ensures key == "Enter" && !shiftKey && !IsBlank(old(input)) && !old(isLoading) ==>
        && request == Some(ChatRequest(old(input), old(selectedModel), old(messages)))
        && messages == old(messages) + [
             Message(DecimalString(sentAt), old(input), User, sentAt),
             Message(DecimalString(repliedAt + 1), ReplyText(outcome), Assistant, repliedAt)]
        && input == [] && !isLoading
      ensures selectedModel == old(selectedModel)
    {
      request := None;
      if key == "Enter" && !shiftKey {
        request := SendMessage(sentAt, outcome, repliedAt);
      }
    }

    /** `startNewChat`: the list is emptied; nothing else changes. */
    method StartNewChat()
      modifies this
      ensures messages == []
      ensures input == old(input) && isLoading == old(isLoading) && selectedModel == old(selectedModel)
    {
      messages := [];
    }
  }

  // ---------------------------------------------------------------- meeting the endpoint

  /** The parsed body the chat endpoint receives for a request. */
  function BodyOf(request: ChatRequest): RequestBody
  {
    RequestBody(Some(request.message), Some(request.history), Some(request.model))
  }

  /** What `sendMessage` makes of the endpoint's response: only a 2xx with a message is a reply. */
  function OutcomeOf(response: Response): (outcome: FetchOutcome)
    ensures outcome.Replied? <==> 200 <= response.status < 300 && response.body.Reply?
    ensures outcome.Replied? ==> outcome.message == response.body.message
  {
    if 200 <= response.status < 300 && response.body.Reply? then Replied(response.body.message) else RequestFailed
  }

  /**
   * A request sent from the screen reaches the inference endpoint with the
   * selected model, the system preamble, every earlier message's role and
   * content in order, and the typed input last.
   */
  lemma SentHistoryReachesUpstream(request: ChatRequest, upstream: Upstream, pick: nat)
    requires pick < 4
    requires !IsBlank(request.message)
    ensures var h := Post(true, Success(BodyOf(request)), upstream, pick);
      && h.call.Some?
      && h.call.value.model == request.model
      && h.call.value.messages[0] == Turn("system", SystemPrompt(request.model))
      && |h.call.value.messages| == |request.history| + 2
      && (forall i :: 0 <= i < |request.history| ==>
            h.call.value.messages[i + 1] == Turn(RoleName(request.history[i].role), request.history[i].content))
      && h.call.value.messages[|request.history| + 1] == Turn("user", request.message)
  {
  }

  /** Whatever the endpoint answers, the assistant message the screen appends is not empty. */
  lemma AssistantMessageNonEmpty(hasSession: bool, request: ChatRequest, upstream: Upstream, pick: nat)
    requires pick < 4
    ensures ReplyText(OutcomeOf(Post(hasSession, Success(BodyOf(request)), upstream, pick).response)) != []
  {
    ResponsesAreWellFormed(hasSession, Success(BodyOf(request)), upstream, pick);
  }

  /** Signed out, the screen shows the error text, and no upstream call is made. */
  lemma SignedOutShowsErrorText(request: ChatRequest, upstream: Upstream, pick: nat)
    requires pick < 4
    ensures var h := Post(false, Success(BodyOf(request)), upstream, pick);
      ReplyText(OutcomeOf(h.response)) == ErrorText && h.call.None?
  {
  }
}
