/**
 * The conversation thread and its reply box: which messages the thread shows,
 * how the suggested replies are labelled, and the draft that typing, clicking a
 * suggestion and sending update.
 */
module ConversationView {
  import opened Wrappers
  import opened Text
  import opened Seqs
  import opened MockData

  /** The messages the thread renders: every message that is not an AI suggestion. */
  function Thread(messages: seq<Message>): (shown: seq<Message>)
    ensures forall m :: m in shown ==> m in messages && !IsAiSuggestion(m)
    ensures forall i :: 0 <= i < |messages| && !IsAiSuggestion(messages[i]) ==> messages[i] in shown
  {
    Keep(messages, m => !IsAiSuggestion(m))
  }

  /** The thread keeps the original order and every ordinary message as often as it occurs. */
  lemma ThreadIsOrderedSelection(messages: seq<Message>, m: Message)
    ensures IsSubsequence(Thread(messages), messages)
    ensures multiset(Thread(messages))[m] == if IsAiSuggestion(m) then 0 else multiset(messages)[m]
  {
    KeepIsSubsequence(messages, m => !IsAiSuggestion(m));
    KeepCount(messages, m => !IsAiSuggestion(m), m);
  }

  /** A thread without AI suggestions is shown whole. */
  lemma ThreadWithoutSuggestions(messages: seq<Message>)
    requires forall m :: m in messages ==> !IsAiSuggestion(m)
    ensures Thread(messages) == messages
  {
    KeepAllPass(messages, m => !IsAiSuggestion(m));
  }

  /**
   * A thread of ordinary messages followed by AI suggestions shows exactly
   * the ordinary ones.
   */
  lemma ThreadOfOpeningThenSuggestions(opening: seq<Message>, suggestions: seq<Message>)
    requires forall m :: m in opening ==> !IsAiSuggestion(m)
    requires forall m :: m in suggestions ==> IsAiSuggestion(m)
    ensures Thread(opening + suggestions) == opening
  {
    var p := (m: Message) => !IsAiSuggestion(m);
    KeepAppend(opening, suggestions, p);
    KeepAllPass(opening, p);
    KeepNonePass(suggestions, p);
  }

  /** The longest suggestion shown in full on its button. */
  const MaxLabelLength := 70

  /** How much of a longer suggestion is kept before the ellipsis. */
  const TruncatedPrefixLength := 67

  /** The text on a suggestion button: the suggestion, or its first 67 characters and "...". */
  function SuggestionLabel(suggestion: string): (caption: string)
    ensures |caption| <= MaxLabelLength
    ensures |suggestion| <= MaxLabelLength ==> caption == suggestion
    ensures |suggestion| > MaxLabelLength ==>
              && |caption| == MaxLabelLength
              && caption[..TruncatedPrefixLength] == suggestion[..TruncatedPrefixLength]
              && caption[TruncatedPrefixLength..] == "..."
  {
    if |suggestion| > MaxLabelLength then suggestion[..TruncatedPrefixLength] + "..." else suggestion
  }

  /** The suggestion block renders only for a conversation with an entry in the suggestion table. */
  predicate ShowsSuggestions(conversationId: string): (shows: bool)
    ensures shows <==> conversationId in {"conv-1", "conv-2", "conv-3", "conv-4", "conv-5"}
  {
    conversationId in MockAiSuggestions
  }

  /** The suggestions offered for a conversation (none without an entry). */
  function SuggestionsFor(conversationId: string): (suggestions: seq<string>)
    ensures !ShowsSuggestions(conversationId) ==> suggestions == []
    ensures ShowsSuggestions(conversationId) ==> suggestions == MockAiSuggestions[conversationId]
  {
    if conversationId in MockAiSuggestions then MockAiSuggestions[conversationId] else []
  }

  /** The reply box of the thread: the draft text `newMessage`. */
  class ReplyBox {
    var draft: string

    /** The draft starts empty. */
    constructor ()
      ensures draft == ""
    {
      draft := "";
    }

    /** The Send button is disabled exactly when the draft is blank after trimming. */
    function SendDisabled(): (disabled: bool)
      reads this
      ensures disabled <==> AllWhitespace(draft)
    {
      Trim(draft) == ""
    }

    /** Typing in the text area replaces the draft with the area's text. */
    method Edit(text: string)
      modifies this
      ensures draft == text
    {
      draft := text;
    }

    /** Clicking a suggestion button puts the whole suggestion, not its label, in the draft. */
    method ClickSuggestion(conversationId: string, index: nat)
      requires index < |SuggestionsFor(conversationId)|
      modifies this
      ensures ShowsSuggestions(conversationId)
      ensures draft == SuggestionsFor(conversationId)[index]
    {
      draft := SuggestionsFor(conversationId)[index];
    }

    /**
     * Sending: a draft with some non-whitespace character is handed over
     * (as `sent`) and cleared; a blank draft is left as it is and nothing is sent.
     * So sending does something exactly when the button is enabled.
     */
    method SendMessage() returns (sent: Option<string>)
      modifies this
      ensures old(SendDisabled()) ==> sent == None && draft == old(draft)
      ensures !old(SendDisabled()) ==> sent == Some(old(draft)) && draft == ""
    {
      if Trim(draft) != "" {
        sent := Some(draft);
        draft := "";
      } else {
        sent := None;
      }
    }

    /**
     * A key press in the text area: Enter without Shift suppresses the newline
     * and sends; every other key, Shift+Enter included, leaves the draft to the
     * text area and sends nothing.
     */
    method KeyDown(key: string, shiftKey: bool) returns (sent: Option<string>, preventDefault: bool)
      modifies this
      ensures preventDefault <==> key == "Enter" && !shiftKey
      ensures !preventDefault ==> sent == None && draft == old(draft)
      ensures preventDefault && old(SendDisabled()) ==> sent == None && draft == old(draft)
      ensures preventDefault && !old(SendDisabled()) ==> sent == Some(old(draft)) && draft == ""
    {
      if key == "Enter" && !shiftKey {
        preventDefault := true;
        sent := SendMessage();
      } else {
        preventDefault := false;
        sent := None;
      }
    }
  }
}
