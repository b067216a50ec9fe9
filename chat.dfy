/**
 * The text chat page (frontend/src/pages/Chat.jsx): the message list, the
 * send handler with its blank guard, crisis detection and flag stripping,
 * and the keyboard and button paths that lead to a send.
 *
 * A send is one atomic step here: the user message, the service outcome and
 * the reply message. `Date.now()` readings are the parameters `sentAt` and
 * `repliedAt`, the API key is a constant of the page, and what the model
 * service returns is the parameter `answer`.
 */
module Chat {
  import opened Wrappers
  import opened Text
  import opened Gemini
  import AuthContext
  import Seqs

  const CrisisFlag := "[CRISIS_FLAG]"
  const GreetingId := 1

  /** `user?.name || 'there'`. */
  function GreetingName(user: Option<AuthContext.User>): string {
    if user.Some? && user.value.name != "" then user.value.name else "there"
  }

  /** The opening message, the only one with id 1. */
  function Greeting(user: Option<AuthContext.User>): (m: Message)
    ensures m.id == GreetingId && m.sender == "ai"
  {
    Message(GreetingId, "Hi " + GreetingName(user) + ". I'm here to listen. How are you feeling right now?", "ai")
  }

  /** The reply carries the flag, or mentions a help line or 988 in any ASCII case. */
  predicate CrisisReply(reply: string) {
    Includes(reply, CrisisFlag) || Includes(ToLower(reply), "help line") || Includes(ToLower(reply), "988")
  }

  /** The reply as displayed: the first flag removed, then trimmed. */
  function CleanReply(reply: string): string {
    Trim(ReplaceFirst(reply, CrisisFlag, ""))
  }

  /** Only the first flag goes, and what is left is trimmed. */
  lemma CleanReplyRemovesFirstFlag(reply: string)
    ensures !Includes(reply, CrisisFlag) ==> CleanReply(reply) == Trim(reply)
    ensures forall i: nat :: FirstOccurrence(reply, CrisisFlag, i) ==>
      CleanReply(reply) == Trim(reply[..i] + reply[i + |CrisisFlag|..])
    ensures var r := CleanReply(reply); r != [] ==> !IsSpace(r[0]) && !IsSpace(r[|r| - 1])
  {
    var stripped := ReplaceFirst(reply, CrisisFlag, "");
    assert forall i: nat :: FirstOccurrence(reply, CrisisFlag, i) ==>
      stripped == reply[..i] + reply[i + |CrisisFlag|..];
  }

  /** A reply made of the flag and a sentence shows just the sentence. */
  lemma FlagIsStripped(sentence: string)
    requires !IsBlank(sentence) && !IsSpace(sentence[0]) && !IsSpace(sentence[|sentence| - 1])
    ensures CleanReply(CrisisFlag + sentence) == sentence
    ensures CrisisReply(CrisisFlag + sentence)
  {
    var reply := CrisisFlag + sentence;
    assert OccursAt(reply, CrisisFlag, 0);
    assert FirstOccurrence(reply, CrisisFlag, 0);
    assert reply[..0] + reply[|CrisisFlag|..] == sentence;
    CleanReplyRemovesFirstFlag(reply);
    TrimOfUnpadded(sentence);
  }

  lemma TrimOfUnpadded(s: string)
    requires s != [] && !IsSpace(s[0]) && !IsSpace(s[|s| - 1])
    ensures Trim(s) == s
  {
    assert LeadingSpaces(s) == 0;
    assert TrailingSpaces(s) == 0;
  }

  /** `messages.filter(m => m.id !== 1)`. */
  function HistoryFor(messages: seq<Message>): (h: seq<Message>)
    ensures forall m :: m in h <==> m in messages && m.id != GreetingId
    ensures Seqs.IsSubsequence(h, messages)
  {
    Seqs.FilterIsSubsequence(messages, (m: Message) => m.id != GreetingId);
    Seqs.Filter(messages, (m: Message) => m.id != GreetingId)
  }

  /** What `handleSend` was given: nothing, a string, or the button's click event. */
  datatype Override = NoOverride | Text(s: string) | ClickEvent

  /**
   * `textOverride || input`, then `.trim()`: `None` when that throws, which
   * is what happens for a click event.
   */
  function TextToSend(o: Override, input: string): (t: Option<string>)
    ensures t.None? <==> o.ClickEvent?
    ensures o.NoOverride? ==> t == Some(input)
    ensures o.Text? ==> t == Some(if o.s == "" then input else o.s)
  {
    match o
    case NoOverride => Some(input)
    case Text(s) => Some(if s == "" then input else s)
    case ClickEvent => None
  }

  /** The send button as written hands its click event to `handleSend`, which then throws: nothing is sent. */
  lemma SendButtonAsWrittenNeverSends(input: string)
    ensures TextToSend(ClickEvent, input).None?
    ensures !IsBlank(input) ==> TextToSend(NoOverride, input) == Some(input)
  {
  }

  class ChatPage {
    const apiKey: string
    var input: string
    var messages: seq<Message>
    var loading: bool
    var showCrisis: bool

    constructor (user: Option<AuthContext.User>, apiKey: string)
      ensures this.apiKey == apiKey
      ensures input == "" && messages == [Greeting(user)] && !loading && !showCrisis
    {
      this.apiKey := apiKey;
      input := "";
      messages := [Greeting(user)];
      loading := false;
      showCrisis := false;
    }

    /** `disabled={!input.trim() || loading}`. */
    predicate SendDisabled()
      reads this`input, this`loading
    {
      IsBlank(input) || loading
    }

    method ChangeInput(s: string)
      modifies this`input
      ensures input == s
    {
      input := s;
    }

    /**
     * `handleSend`: nothing happens for a throwing or blank text; otherwise
     * the user message and then the reply are appended, the input is cleared,
     * and the banner is raised (never lowered) for a crisis reply. The
     * history sent is the list before the send, without the greeting.
     */
    method HandleSend(o: Override, sentAt: int, repliedAt: int, answer: Option<string>)
        returns (request: Option<ChatRequest>)
      modifies this`input, this`messages, this`loading, this`showCrisis
      ensures var t := TextToSend(o, old(input));
        t.None? || IsBlank(t.value) ==>
          request.None? && input == old(input) && messages == old(messages)
          && loading == old(loading) && showCrisis == old(showCrisis)
      ensures var t := TextToSend(o, old(input));
        t.Some? && !IsBlank(t.value) ==>
          var out := SendMessage(apiKey, HistoryFor(old(messages)), t.value, "calm", false, answer);
          && request == out.request
          && messages == old(messages) + [Message(sentAt, t.value, "user"), Message(repliedAt + 1, CleanReply(out.reply), "ai")]
          && input == "" && !loading
          && showCrisis == (old(showCrisis) || CrisisReply(out.reply))
    {
      var t := TextToSend(o, input);
      if t.None? || IsBlank(t.value) {
        return None;
      }
      request := Send(t.value, sentAt, repliedAt, SendMessage(apiKey, HistoryFor(messages), t.value, "calm", false, answer));
    }

    /**
     * The part of `handleSend` past its guard: the user message goes in, and
     * then the reply from `out`, what the service call came to.
     */
    method Send(text: string, sentAt: int, repliedAt: int, out: Outcome<ChatRequest>)
        returns (request: Option<ChatRequest>)
      modifies this`input, this`messages, this`loading, this`showCrisis
      ensures request == out.request
      ensures messages == old(messages) + [Message(sentAt, text, "user"), Message(repliedAt + 1, CleanReply(out.reply), "ai")]
      ensures input == "" && !loading
      ensures showCrisis == (old(showCrisis) || CrisisReply(out.reply))
    {
      var before := messages;
      var mine := Message(sentAt, text, "user");
      messages := before + [mine];
      input := "";
      loading := true;
      request := out.request;
      ReceiveReply(out.reply, repliedAt);
      assert before + [mine] + [Message(repliedAt + 1, CleanReply(out.reply), "ai")]
        == before + [mine, Message(repliedAt + 1, CleanReply(out.reply), "ai")];
    }

    /** The part of `handleSend` after the reply has arrived. */
    method ReceiveReply(reply: string, repliedAt: int)
      modifies this`messages, this`loading, this`showCrisis
      ensures messages == old(messages) + [Message(repliedAt + 1, CleanReply(reply), "ai")]
      ensures showCrisis == (old(showCrisis) || CrisisReply(reply))
      ensures !loading
    {
      if CrisisReply(reply) {
        showCrisis := true;
      }
      messages := messages + [Message(repliedAt + 1, CleanReply(reply), "ai")];
      loading := false;
    }

    /** `handleKeyPress`: Enter without Shift sends the input (whether or not a reply is pending). */
    method KeyDown(key: string, shift: bool, sentAt: int, repliedAt: int, answer: Option<string>)
        returns (request: Option<ChatRequest>)
      modifies this`input, this`messages, this`loading, this`showCrisis
      ensures !(key == "Enter" && !shift) ==>
        request.None? && input == old(input) && messages == old(messages)
        && loading == old(loading) && showCrisis == old(showCrisis)
      ensures key == "Enter" && !shift && IsBlank(old(input)) ==>
        request.None? && input == old(input) && messages == old(messages)
        && loading == old(loading) && showCrisis == old(showCrisis)
      ensures key == "Enter" && !shift && !IsBlank(old(input)) ==>
        var out := SendMessage(apiKey, HistoryFor(old(messages)), old(input), "calm", false, answer);
        && request == out.request
        && messages == old(messages) + [Message(sentAt, old(input), "user"), Message(repliedAt + 1, CleanReply(out.reply), "ai")]
        && input == "" && !loading
        && showCrisis == (old(showCrisis) || CrisisReply(out.reply))
    {
      request := None;
      if key == "Enter" && !shift {
        request := HandleSend(NoOverride, sentAt, repliedAt, answer);
      }
    }

    /** The send button as written: `onClick={handleSend}` passes the click event, so nothing changes. */
    method ClickSendAsWritten(sentAt: int, repliedAt: int, answer: Option<string>)
        returns (request: Option<ChatRequest>)
      modifies this`input, this`messages, this`loading, this`showCrisis
      ensures request.None? && input == old(input) && messages == old(messages)
      ensures loading == old(loading) && showCrisis == old(showCrisis)
    {
      request := None;
      if !SendDisabled() {
        request := HandleSend(ClickEvent, sentAt, repliedAt, answer);
      }
    }

    /** The send button as intended: when enabled, it sends the input. */
    method ClickSend(sentAt: int, repliedAt: int, answer: Option<string>)
        returns (request: Option<ChatRequest>)
      modifies this`input, this`messages, this`loading, this`showCrisis
      ensures old(SendDisabled()) ==>
        request.None? && input == old(input) && messages == old(messages)
        && loading == old(loading) && showCrisis == old(showCrisis)
      ensures !old(SendDisabled()) ==>
        var out := SendMessage(apiKey, HistoryFor(old(messages)), old(input), "calm", false, answer);
        && request == out.request && request.Some? == (apiKey != "")
        && messages == old(messages) + [Message(sentAt, old(input), "user"), Message(repliedAt + 1, CleanReply(out.reply), "ai")]
        && input == "" && !loading
        && showCrisis == (old(showCrisis) || CrisisReply(out.reply))
    {
      request := None;
      if !SendDisabled() {
        request := HandleSend(NoOverride, sentAt, repliedAt, answer);
      }
    }

    /**
     * The speech recogniser's final text: a non-empty one is put in the input
     * and sent straight away; a blank one stays in the input unsent.
     */
    method VoiceFinal(finalText: string, sentAt: int, repliedAt: int, answer: Option<string>)
        returns (request: Option<ChatRequest>)
      modifies this`input, this`messages, this`loading, this`showCrisis
      ensures finalText == "" ==>
        request.None? && input == old(input) && messages == old(messages)
        && loading == old(loading) && showCrisis == old(showCrisis)
      ensures finalText != "" && IsBlank(finalText) ==>
        request.None? && input == finalText && messages == old(messages)
        && loading == old(loading) && showCrisis == old(showCrisis)
      ensures finalText != "" && !IsBlank(finalText) ==>
        var out := SendMessage(apiKey, HistoryFor(old(messages)), finalText, "calm", false, answer);
        && request == out.request
        && messages == old(messages) + [Message(sentAt, finalText, "user"), Message(repliedAt + 1, CleanReply(out.reply), "ai")]
        && input == "" && !loading
        && showCrisis == (old(showCrisis) || CrisisReply(out.reply))
    {
      request := None;
      if finalText != "" {
        input := finalText;
        request := HandleSend(Text(finalText), sentAt, repliedAt, answer);
      }
    }
  }
}
