/**
 * The English conversation practice page: how the grammar check's errors
 * become a feedback badge, which conversation context each practice type
 * opens, and the page state changed by its handlers (choosing a practice
 * type, sending a message, expanding a message's suggestions, and turning
 * speech recognition on and off).
 *
 * Calls to the conversation service are parameters: `None` stands for a call
 * that threw, `Some(r)` for the response `r`.
 */
module EnglishPractice {
  import opened Wrappers
  import opened Text

  datatype Role = User | Assistant

  datatype FeedbackType = Perfect | Error | Suggestion

  datatype Feedback = Feedback(kind: FeedbackType, suggestions: seq<string>)

  /** One entry of the chat transcript. */
  datatype Message = Message(role: Role, content: string, feedback: Option<Feedback>)

  /** One error reported by the grammar check; `kind` is its `type`. */
  datatype GrammarError = GrammarError(kind: string, message: string, suggestion: string)

  datatype GrammarCheck = GrammarCheck(correctedText: string, suggestions: seq<string>, errors: seq<GrammarError>)

  /** One turn of a generated conversation. */
  datatype Turn = Turn(role: string, content: string)

  /** A generated conversation; the page guards against a missing one. */
  datatype ConversationResponse = ConversationResponse(conversation: Option<seq<Turn>>)

  datatype PracticeType = Interview | Grammar | Vocabulary | Pronunciation | Business

  /** A call made on the browser's speech recogniser. */
  datatype RecognizerCall = Start | Stop

  /** `errors.some(error => error.type === 'grammar')`. */
  function HasGrammarError(errors: seq<GrammarError>): (r: bool)
    ensures r <==> exists i :: 0 <= i < |errors| && errors[i].kind == "grammar"
    decreases |errors|
  {
    if errors == [] then false
    else if errors[0].kind == "grammar" then true
    else
      var rest := HasGrammarError(errors[1..]);
      assert forall i :: 1 <= i < |errors| ==> errors[i] == errors[1..][i - 1];
      rest
  }

  /** The badge of a checked message: perfect exactly when no error was
      found, an error when some error is a grammar error, a suggestion when
      all errors are of other kinds. */
  function FeedbackTypeOf(errors: seq<GrammarError>): (t: FeedbackType)
    ensures t == Perfect <==> errors == []
    ensures t == Error <==> errors != [] && exists i :: 0 <= i < |errors| && errors[i].kind == "grammar"
    ensures t == Suggestion <==> errors != [] && forall i :: 0 <= i < |errors| ==> errors[i].kind != "grammar"
  {
    if |errors| == 0 then Perfect
    else if HasGrammarError(errors) then Error
    else Suggestion
  }

  /** The conversation context each practice type asks for: a fixed,
      non-empty phrase per type, never the switch's initial empty string. */
  function PracticeContext(t: PracticeType): (context: string)
    ensures context != ""
  {
    match t
    case Interview => "software development job interview"
    case Grammar => "grammar practice"
    case Vocabulary => "vocabulary building"
    case Pronunciation => "pronunciation tips"
    case Business => "business English"
  }

  /** Different practice types ask for different contexts. */
  lemma PracticeContextInjective(a: PracticeType, b: PracticeType)
    ensures PracticeContext(a) == PracticeContext(b) ==> a == b
  {
  }

  /** The assistant's opening line: the last turn of the generated
      conversation, or a fixed invitation when none came back. */
  function OpeningMessage(conversation: Option<seq<Turn>>, context: string): (m: string)
    ensures conversation.Some? && |conversation.value| > 0 ==>
              m == conversation.value[|conversation.value| - 1].content
    ensures conversation.None? || conversation.value == [] ==>
              m == "I'll help you practice " + context + ". Let's get started!"
  {
    if conversation.Some? && |conversation.value| > 0 then
      conversation.value[|conversation.value| - 1].content
    else
      "I'll help you practice " + context + ". Let's get started!"
  }

  const Greeting: Message := Message(Assistant, "Hello! I'm your English practice assistant. I'll help you improve your English through conversation. What would you like to practice today? We can work on:", None)

  const RetryFeedback: Option<Feedback> := Some(Feedback(Error, ["Intenta de nuevo en unos momentos."]))

  const StartFailed: Message := Message(Assistant, "Lo siento, hubo un error al iniciar la conversación. Por favor, intenta de nuevo.", RetryFeedback)

  const SubmitFailed: Message := Message(Assistant, "Lo siento, hubo un error al procesar tu mensaje. Por favor, intenta de nuevo.", RetryFeedback)

  /** The messages appended once a practice type has been chosen. */
  function StartMessages(t: PracticeType, response: Option<ConversationResponse>): (ms: seq<Message>)
    ensures response.None? ==> ms == [StartFailed]
    ensures response.Some? ==>
              && |ms| == 2
              && ms[0] == Message(User, "I want to practice " + PracticeContext(t) + ".", None)
              && ms[1].role == Assistant && ms[1].feedback.None?
              && ms[1].content == OpeningMessage(response.value.conversation, PracticeContext(t))
  {
    var context := PracticeContext(t);
    if response.None? then
      [StartFailed]
    else
      [Message(User, "I want to practice " + context + ".", None),
       Message(Assistant, OpeningMessage(response.value.conversation, context), None)]
  }

  /** The assistant's answer to a sent message: the generated conversation's
      last turn with the grammar badge and suggestions, or the apology when
      either call threw or the conversation came back missing or empty
      (reading its last turn then throws). */
  function SubmitReply(grammar: Option<GrammarCheck>, response: Option<ConversationResponse>): (m: Message)
    ensures m.role == Assistant
    ensures (|| grammar.None? || response.None? || response.value.conversation.None?
             || response.value.conversation.value == []) ==> m == SubmitFailed
    ensures grammar.Some? && response.Some? && response.value.conversation.Some?
            && response.value.conversation.value != [] ==>
              var turns := response.value.conversation.value;
              && m.content == turns[|turns| - 1].content
              && m.feedback == Some(Feedback(FeedbackTypeOf(grammar.value.errors), grammar.value.suggestions))
  {
    if grammar.None? || response.None? || response.value.conversation.None? then
      SubmitFailed
    else
      var turns := response.value.conversation.value;
      if |turns| == 0 then
        SubmitFailed
      else
        var feedback := Feedback(FeedbackTypeOf(grammar.value.errors), grammar.value.suggestions);
        Message(Assistant, turns[|turns| - 1].content, Some(feedback))
  }

  /** Whether the suggestions of message `index` are shown; an index never
      toggled counts as collapsed. */
  function IsExpanded(expanded: map<int, bool>, index: int): bool {
    index in expanded && expanded[index]
  }

  /** `toggleSuggestions(index)` on the map of expanded messages. */
  function ToggleSuggestions(expanded: map<int, bool>, index: int): (r: map<int, bool>)
    ensures index in r && IsExpanded(r, index) == !IsExpanded(expanded, index)
    ensures forall j :: j != index ==> (j in r <==> j in expanded)
    ensures forall j :: j != index && j in expanded ==> r[j] == expanded[j]
  {
    expanded[index := !IsExpanded(expanded, index)]
  }

  /** Toggling the same message twice shows every message as before. */
  lemma ToggleTwice(expanded: map<int, bool>, index: int)
    ensures forall j :: IsExpanded(ToggleSuggestions(ToggleSuggestions(expanded, index), index), j)
                        == IsExpanded(expanded, j)
  {
  }

  /** Everything on the page that the handlers change. */
  datatype PageState = PageState(
    messages: seq<Message>,
    expandedSuggestions: map<int, bool>,
    input: string,
    loading: bool,
    isListening: bool,
    selectedPracticeType: Option<PracticeType>,
    conversationStarted: bool,
    recognizerCalls: seq<RecognizerCall>)

  /** The page component. `recognitionSupported` says whether the browser
      offers a speech recogniser; `recognizerCalls` records the start and
      stop calls made on it. */
  class PracticePage {
    const recognitionSupported: bool
    var messages: seq<Message>
    var expandedSuggestions: map<int, bool>
    var input: string
    var loading: bool
    var isListening: bool
    var selectedPracticeType: Option<PracticeType>
    var conversationStarted: bool
    var recognizerCalls: seq<RecognizerCall>

    ghost function State(): PageState
      reads this
    {
      PageState(messages, expandedSuggestions, input, loading, isListening,
                selectedPracticeType, conversationStarted, recognizerCalls)
    }

    /** The page only listens when the browser has a recogniser. */
    ghost predicate Valid()
      reads this
    {
      isListening ==> recognitionSupported
    }

    constructor (recognitionSupported: bool)
      ensures Valid() && this.recognitionSupported == recognitionSupported
      ensures State() == PageState([Greeting], map[], "", false, false, None, false, [])
    {
      this.recognitionSupported := recognitionSupported;
      messages := [Greeting];
      expandedSuggestions := map[];
      input := "";
      loading := false;
      isListening := false;
      selectedPracticeType := None;
      conversationStarted := false;
      recognizerCalls := [];
    }

    /** `toggleListening()`: without a recogniser it only raises the alert;
        otherwise it stops a running recogniser, or clears the input and
        starts it, and flips `isListening`. */
    method ToggleListening() returns (alert: Option<string>)
      requires Valid()
      modifies this
      ensures Valid()
      ensures !recognitionSupported ==>
                alert == Some("Speech recognition is not supported in your browser")
                && State() == old(State())
      ensures recognitionSupported ==>
                && alert == None
                && State() == old(State()).(
                     isListening := !old(isListening),
                     input := if old(isListening) then old(input) else "",
                     recognizerCalls := old(recognizerCalls) + [if old(isListening) then Stop else Start])
    {
      if !recognitionSupported {
        return Some("Speech recognition is not supported in your browser");
      }
      if isListening {
        recognizerCalls := recognizerCalls + [Stop];
      } else {
        input := "";
        recognizerCalls := recognizerCalls + [Start];
      }
      isListening := !isListening;
      return None;
    }

    /** `handlePracticeTypeSelection(t)` once the conversation service has
        answered with `response`. */
    method SelectPracticeType(t: PracticeType, response: Option<ConversationResponse>)
      requires Valid()
      modifies this
      ensures Valid()
      ensures State() == old(State()).(
                selectedPracticeType := Some(t),
                messages := old(messages) + StartMessages(t, response),
                conversationStarted := old(conversationStarted) || response.Some?,
                loading := false)
    {
      selectedPracticeType := Some(t);
      loading := true;
      messages := messages + StartMessages(t, response);
      if response.Some? {
        conversationStarted := true;
      }
      loading := false;
    }

    /** `handleSubmit()` once the grammar check and the conversation service
        have answered: nothing happens for blank input or while a request is
        loading; otherwise listening stops, the trimmed input is sent as the
        user's message, the input is cleared and the reply is appended. */
    method HandleSubmit(grammar: Option<GrammarCheck>, response: Option<ConversationResponse>)
      returns (sent: bool)
      requires Valid()
      modifies this
      ensures Valid()
      ensures sent <==> Trim(old(input)) != "" && !old(loading)
      ensures !sent ==> State() == old(State())
      ensures sent ==>
                State() == old(State()).(
                  messages := old(messages) + [Message(User, Trim(old(input)), None),
                                               SubmitReply(grammar, response)],
                  input := "",
                  isListening := false,
                  recognizerCalls := old(recognizerCalls) + (if old(isListening) then [Stop] else []),
                  loading := false)
    {
      if Trim(input) == "" || loading {
        return false;
      }
      ghost var before := State();
      if isListening {
        if recognitionSupported {
          recognizerCalls := recognizerCalls + [Stop];
        }
        isListening := false;
      }
      var userMessage := Trim(input);
      input := "";
      messages := messages + [Message(User, userMessage, None)];
      loading := true;
      messages := messages + [SubmitReply(grammar, response)];
      loading := false;
      assert messages == before.messages + [Message(User, userMessage, None), SubmitReply(grammar, response)];
      return true;
    }

    /** `toggleSuggestions(index)` on the page. */
    method ToggleSuggestion(index: int)
      modifies this
      ensures State() == old(State()).(
                expandedSuggestions := ToggleSuggestions(old(expandedSuggestions), index))
    {
      expandedSuggestions := ToggleSuggestions(expandedSuggestions, index);
    }
  }
}
