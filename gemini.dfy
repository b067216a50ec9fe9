/**
 * The text side of the model service (frontend/src/services/gemini.js): which
 * model is used, how the chat history is cut down and relabelled, how the
 * tone is chosen, how the prompt is put together, and which fixed strings
 * come back when there is no key or the call fails. The call itself is not
 * modelled: what the service returns is a parameter, `None` when it throws.
 */
module Gemini {
  import opened Wrappers
  import opened Text

  /** A chat message as the page keeps it. */
  datatype Message = Message(id: int, text: string, sender: string)

  datatype Role = UserRole | ModelRole

  /** One history turn sent with the request. */
  datatype Turn = Turn(role: Role, text: string)

  datatype ModelConfig = ModelConfig(model: string, maxOutputTokens: nat, temperature: real)

  const ChatModel := ModelConfig("gemini-2.5-flash", 15000, 0.9)
  const VoiceModel := ModelConfig("gemini-2.5-flash", 8000, 1.0)

  const MissingKey := "Error: Missing VITE_GEMINI_API_KEY in .env file."
  const NotInitialised := "Error: Model not initialized."
  const ChatFallback := "I'm having a little trouble connecting right now. But I'm still here with you. Can we try again?"
  const ReflectionFallback := "I can’t be sure what’s causing this, but being gentle with yourself and noticing patterns can help."

  const BasePrompt := @"
ROLE:
You are ""Sanctuary,"" a voice-first, emotionally intelligent mental health support assistant. Your responses will be spoken aloud in real time.

CONTEXT:
The user is located in India. Always assume this locale.
- Use culturally relevant examples if needed.
- If providing emergency resources, suggest Indian helplines (e.g., 988 is not applicable; suggest 112, iCall, or Vandrevala Foundation).

SPEECH-REASONING RULES:
1. Prioritize how a human would naturally SAY something, not how it is typed.
2. Expand shorthand for natural speech (e.g., ""fr"" -> ""for real"", ""idk"" -> ""I don't know"").
3. Pronounce common abbreviations naturally (e.g., ""lol"" as ""lawl"", ""lmao"" as ""luh-mao"").
4. Avoid spelling out abbreviations letter-by-letter unless it sounds natural.
5. Treat shorthand variants like “lowk” as “lowkey” and speak them naturally.


SAFETY RULES:
1. You are not a medical professional. Do not diagnose or make clinical claims.
2. If distress escalates, shift to calm, grounding language and encourage real-world support.

CRISIS OVERRIDE:
If the user mentions self-harm, suicide, or immediate danger:
1. STOP all other persona logic.
2. Output ONLY the text: ""[REDIRECT_SOS]"" followed by a very brief, supportive sentence (e.g. ""I'm connecting you to immediate help.""). 
3. Do not ask follow-up questions. Focus on safety.
"

  const CalmTonePrompt := @"
TONE: CALM MODE
- Use warm, empathetic, and reassuring language.
- Speak clearly and with a steady pace (simulated via tone).
- Avoid slang or modern shorthand.
"

  const GenZTonePrompt := @"
TONE: GEN-Z MODE
- Use a light, Gen-Z friendly conversational tone suitable for spoken language.
- Sound relatable and human, but remain serious and respectful.
- Never trivialize emotional distress.
- You may use light modern slang with natural speech expansion.
"

  const PromotionProtocol := @"
[Suggestion: If the user feels lonely, briefly mention they can talk to you anytime via the Voice Mode dashboard.]
"

  const OrchestratorPrompt := @"
You are a supportive, non-clinical mental health reflection assistant focused on ""Logical Empathy.""

Your task is to analyze the user's wellness metrics (sleep, stress, mood, breathing), journal themes, and current chat context to offer ONE or TWO brief, gentle observations.

STRICT CONSTRAINTS:
1. **Context-Driven Reasoning**: You must reason out connections specifically relevant to the *current conversation*. Do not make non-relational leaps. If the user is talking about work stress, look for how sleep or breathing sessions specifically relate to that context.
2. **Avoid Generics**: Do not give ""one-size-fits-all"" advice. Your reflection must feel unique to the data provided.
3. **No Hardcoded Examples**: Base your response entirely on the localized data in the prompt.
4. **Soft Language**: Use ""might,"" ""could,"" ""may be connected."" Never state conclusions as facts.
5. **Directness**: Start directly with the observation. Avoid ""Based on your data..."" fillers.
6. **Maximum Length**: 60-100 words. Be deeply concise but meaningful.

Goal: Help the user notice the *logic* behind their patterns (e.g., ""The high stress you're feeling in chat today might be linked to the 4 hours of sleep you've averaged recently."").
"

  /**
   * The model objects are built at start-up exactly when the API key is set
   * (an unset key reads as the empty string).
   */
  function ModelFor(apiKey: string, isVoice: bool): (m: Option<ModelConfig>)
    ensures m.Some? <==> apiKey != ""
    ensures m.Some? ==> m.value == if isVoice then VoiceModel else ChatModel
  {
    if apiKey == "" then None
    else if isVoice then Some(VoiceModel)
    else Some(ChatModel)
  }

  /** `msg.sender === 'user' ? 'user' : 'model'`. */
  function RoleOf(sender: string): (r: Role)
    ensures r == UserRole <==> sender == "user"
  {
    if sender == "user" then UserRole else ModelRole
  }

  function ToTurn(m: Message): Turn {
    Turn(RoleOf(m.sender), m.text)
  }

  /** `history.slice(-6).map(...)`. */
  function TrimHistory(history: seq<Message>): (ts: seq<Turn>)
    ensures |ts| == if |history| < 6 then |history| else 6
    ensures forall k :: 0 <= k < |ts| ==> ts[k] == ToTurn(history[|history| - |ts| + k])
  {
    var recent := if |history| < 6 then history else history[|history| - 6..];
    seq(|recent|, k requires 0 <= k < |recent| => ToTurn(recent[k]))
  }

  /** The forwarded turns are the last ones, oldest first, each message once. */
  lemma TrimHistoryKeepsLatest(history: seq<Message>, i: int)
    requires 0 <= i < |history|
    ensures |history| - i <= 6 ==> ToTurn(history[i]) == TrimHistory(history)[i - (|history| - |TrimHistory(history)|)]
    ensures |history| - i > 6 ==> i < |history| - |TrimHistory(history)|
  {
  }

  /** A message with 'help' or 'unsafe' in it, in any ASCII case. */
  predicate CrisisSuspected(msg: string) {
    Includes(ToLower(msg), "help") || Includes(ToLower(msg), "unsafe")
  }

  function EffectiveTone(msg: string, tone: string): (t: string)
    ensures CrisisSuspected(msg) ==> t == "calm"
    ensures !CrisisSuspected(msg) ==> t == tone
  {
    if CrisisSuspected(msg) then "calm" else tone
  }

  /** The fixed instruction texts, by name. */
  datatype Instruction = Base | CalmTone | GenZTone | Promotion | Orchestrator

  function InstructionText(i: Instruction): string {
    match i
    case Base => BasePrompt
    case CalmTone => CalmTonePrompt
    case GenZTone => GenZTonePrompt
    case Promotion => PromotionProtocol
    case Orchestrator => OrchestratorPrompt
  }

  /** The two tone instructions are different texts. */
  lemma ToneTextsDiffer()
    ensures GenZTonePrompt != CalmTonePrompt
  {
    assert |GenZTonePrompt| != |CalmTonePrompt|;
  }

  /** A piece of a prompt: a fixed instruction or text made at run time. */
  datatype Piece = Fixed(instruction: Instruction) | Free(text: string)

  function PieceText(p: Piece, text: Instruction -> string): string {
    match p
    case Fixed(i) => text(i)
    case Free(s) => s
  }

  /**
   * The string the pieces stand for, in order, when each instruction reads
   * as `text` says; the string sent is `Render(ps, InstructionText)`.
   */
  function Render(ps: seq<Piece>, text: Instruction -> string): string {
    if ps == [] then "" else Render(ps[..|ps| - 1], text) + PieceText(ps[|ps| - 1], text)
  }

  /** A prompt whose last piece is free text ends with that text. */
  lemma RenderEndsWith(ps: seq<Piece>, tail: string, text: Instruction -> string)
    requires ps != [] && ps[|ps| - 1] == Free(tail)
    ensures var r := Render(ps, text); |r| >= |tail| && r[|r| - |tail|..] == tail
  {
    var head := Render(ps[..|ps| - 1], text);
    assert Render(ps, text) == head + tail;
    assert (head + tail)[|head|..] == tail;
  }

  /** Three instructions and a free text render as their concatenation. */
  lemma RenderFirstTurn(a: Instruction, b: Instruction, c: Instruction, tail: string, text: Instruction -> string)
    ensures Render([Fixed(a), Fixed(b), Fixed(c), Free(tail)], text) == text(a) + text(b) + text(c) + tail
  {
    var ps := [Fixed(a), Fixed(b), Fixed(c), Free(tail)];
    assert ps[..3] == [Fixed(a), Fixed(b), Fixed(c)];
    assert ps[..3][..2] == [Fixed(a), Fixed(b)];
    assert ps[..3][..2][..1] == [Fixed(a)];
    assert [Fixed(a)][..0] == [];
    assert Render([Fixed(a)], text) == text(a);
    assert Render([Fixed(a), Fixed(b)], text) == text(a) + text(b);
    assert Render([Fixed(a), Fixed(b), Fixed(c)], text) == text(a) + text(b) + text(c);
  }

  /** `effectiveTone === 'genz' ? GENZ_TONE_PROMPT : CALM_TONE_PROMPT`. */
  function TonePrompt(tone: string): (i: Instruction)
    ensures i == GenZTone <==> tone == "genz"
    ensures i == CalmTone <==> tone != "genz"
  {
    if tone == "genz" then GenZTone else CalmTone
  }

  /** `BASE_PROMPT + tonePrompt + PROMOTION_PROTOCOL`. */
  function SystemInstruction(tone: string): seq<Piece> {
    [Fixed(Base), Fixed(TonePrompt(tone)), Fixed(Promotion)]
  }

  function Reminder(tone: string): string {
    "[System Reminder: Maintain " + tone + " voice-first speech instructions. Avoid text-slang in output, expansion required.]"
  }

  /** The first turn carries the whole system instruction; later turns a reminder naming the tone. */
  function Prompt(history: seq<Message>, msg: string, tone: string): (p: seq<Piece>)
    ensures history == [] ==> p == SystemInstruction(EffectiveTone(msg, tone)) + [Free("\n\nUser: " + msg)]
    ensures history != [] ==> p == [Free(Reminder(EffectiveTone(msg, tone)) + "\n\nUser: " + msg)]
  {
    var t := EffectiveTone(msg, tone);
    if |history| == 0 then SystemInstruction(t) + [Free("\n\nUser: " + msg)]
    else [Free(Reminder(t) + "\n\nUser: " + msg)]
  }

  /** A suspected crisis always gets the calm tone, whatever tone was asked for. */
  lemma CrisisForcesCalm(history: seq<Message>, msg: string, tone: string, text: Instruction -> string)
    requires CrisisSuspected(msg)
    ensures TonePrompt(EffectiveTone(msg, tone)) == CalmTone
    ensures history == [] ==>
      Render(Prompt(history, msg, tone), text) == text(Base) + text(CalmTone) + text(Promotion) + "\n\nUser: " + msg
    ensures history != [] ==> Render(Prompt(history, msg, tone), text) == Reminder("calm") + "\n\nUser: " + msg
  {
    if history == [] {
      assert Prompt(history, msg, tone) == [Fixed(Base), Fixed(CalmTone), Fixed(Promotion), Free("\n\nUser: " + msg)];
      RenderFirstTurn(Base, CalmTone, Promotion, "\n\nUser: " + msg, text);
    } else {
      var ps := Prompt(history, msg, tone);
      assert ps[..0] == [];
    }
  }

  /** The Gen-Z instructions are used exactly when Gen-Z was asked for and no crisis is suspected. */
  lemma GenZOnlyWhenAsked(history: seq<Message>, msg: string, tone: string)
    ensures Fixed(GenZTone) in Prompt(history, msg, tone) <==> history == [] && tone == "genz" && !CrisisSuspected(msg)
    ensures Fixed(CalmTone) in Prompt(history, msg, tone) <==> history == [] && (tone != "genz" || CrisisSuspected(msg))
  {
    var ps := Prompt(history, msg, tone);
    if history == [] {
      assert ps[1] == Fixed(TonePrompt(EffectiveTone(msg, tone)));
    }
  }

  /** Both kinds of prompt end with the user's message after a "User: " line, whatever the instruction texts. */
  lemma PromptEndsWithMessage(history: seq<Message>, msg: string, tone: string, text: Instruction -> string)
    ensures var p := Render(Prompt(history, msg, tone), text);
      |p| >= |msg| + 8 && p[|p| - |msg| - 8..] == "\n\nUser: " + msg
  {
    var ps := Prompt(history, msg, tone);
    var m := "\n\nUser: " + msg;
    if history == [] {
      RenderEndsWith(ps, m, text);
    } else {
      var r := Reminder(EffectiveTone(msg, tone));
      RenderEndsWith(ps, r + m, text);
      assert (r + m)[|r|..] == m;
    }
  }

  /** What `chat.sendMessage` is given. */
  datatype ChatRequest = ChatRequest(model: ModelConfig, history: seq<Turn>, prompt: seq<Piece>)

  /** The request made, if any, and the string the service function resolves to. */
  datatype Outcome<R> = Outcome(request: Option<R>, reply: string)

  /**
   * `sendMessageToGemini`: without a model a fixed error and no request;
   * otherwise the request, and the service's text or the fallback when the
   * call throws.
   */
  function SendMessage(apiKey: string, history: seq<Message>, msg: string, tone: string,
                       isVoice: bool, answer: Option<string>): (o: Outcome<ChatRequest>)
    ensures o.request.None? <==> apiKey == ""
    ensures o.request.None? ==> o.reply == MissingKey
    ensures o.request.Some? ==>
      && o.request.value.model == (if isVoice then VoiceModel else ChatModel)
      && o.request.value.history == TrimHistory(history)
      && o.request.value.prompt == Prompt(history, msg, tone)
      && o.reply == answer.GetOr(ChatFallback)
  {
    match ModelFor(apiKey, isVoice)
    case None => if apiKey == "" then Outcome(None, MissingKey) else Outcome(None, NotInitialised)
    case Some(model) =>
      Outcome(Some(ChatRequest(model, TrimHistory(history), Prompt(history, msg, tone))), answer.GetOr(ChatFallback))
  }

  /** "Model not initialized." is never produced here: that text could only come from the service itself. */
  lemma NotInitialisedIsUnreachable(apiKey: string, history: seq<Message>, msg: string, tone: string,
                                    isVoice: bool, summaryJson: string, answer: Option<string>)
    ensures SendMessage(apiKey, history, msg, tone, isVoice, answer).reply == NotInitialised ==>
      answer == Some(NotInitialised)
    ensures GenerateReflection(apiKey, summaryJson, answer).reply == NotInitialised ==> answer == Some(NotInitialised)
  {
    assert |NotInitialised| == 29;
    assert |MissingKey| != 29 && |ChatFallback| != 29 && |ReflectionFallback| != 29;
  }

  /** The user part of the reflection request around the JSON summary. */
  const ReflectionLead := "\nHere is a summary of recent wellness signals.\nPlease reflect gently on possible connections without making conclusions.\n\n"
  const ReflectionClose := "\n\nRespond in a calm, empathetic tone.\n        "

  function ReflectionPrompt(summaryJson: string): string {
    ReflectionLead + summaryJson + ReflectionClose
  }

  /** The two strings handed to `generateContent`: the orchestrator instructions, then the summary. */
  function ReflectionRequest(summaryJson: string): seq<Piece> {
    [Fixed(Orchestrator), Free(ReflectionPrompt(summaryJson))]
  }

  /**
   * `generateReflection`: the chat model is given the orchestrator
   * instructions and the summary; the same fixed error without a key.
   */
  function GenerateReflection(apiKey: string, summaryJson: string, answer: Option<string>): (o: Outcome<seq<Piece>>)
    ensures o.request.None? <==> apiKey == ""
    ensures o.request.None? ==> o.reply == MissingKey
    ensures o.request.Some? ==>
      o.request.value == ReflectionRequest(summaryJson) && o.reply == answer.GetOr(ReflectionFallback)
  {
    match ModelFor(apiKey, false)
    case None => if apiKey == "" then Outcome(None, MissingKey) else Outcome(None, NotInitialised)
    case Some(_) => Outcome(Some(ReflectionRequest(summaryJson)), answer.GetOr(ReflectionFallback))
  }
}
