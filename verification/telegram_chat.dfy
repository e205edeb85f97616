/** The simulated bot chat (components/TelegramPreview.tsx): a transcript
    that a welcome-text change resets, user messages appended before the
    reply is requested, and replies appended when they arrive. Clock
    readings (`Date.now()`, `new Date()`) are parameters in milliseconds;
    one reading serves both the id and the timestamp of a message. */
module TelegramChat {
  import opened Wrappers
  import opened Seqs
  import opened Text
  import opened Types
  import GeminiService

  /** Transcript, message field and the "bot is typing" flag. */
  datatype Chat = Chat(messages: seq<Message>, input: string, typing: bool)

  /** The chat after a send, and the instruction sent to the model, if
      any. */
  datatype Sent = Sent(chat: Chat, request: Option<string>)

  /** The id of the seeded welcome message. */
  const WelcomeId := "start"

  /** The welcome effect: the transcript becomes the welcome message alone;
      the message field and the typing flag are not touched. */
  function WelcomeReset(c: Chat, welcome: string, now: nat): (r: Chat)
    ensures r.messages == [Message(WelcomeId, welcome, Bot, now)]
    ensures r.input == c.input && r.typing == c.typing
  {
    c.(messages := [Message(WelcomeId, welcome, Bot, now)])
  }

  /** The component as first rendered: empty state, then the welcome
      effect. */
  function Mount(p: BotPersonality, now: nat): (r: Chat)
    ensures r.messages == [Message(WelcomeId, p.welcomeMessage, Bot, now)]
    ensures r.input == "" && !r.typing
  {
    WelcomeReset(Chat([], "", false), p.welcomeMessage, now)
  }

  /** A new personality prop. The effect depends on the welcome text only:
      any other edit keeps the transcript, a welcome edit discards it. */
  function PersonalityChanged(c: Chat, before: BotPersonality, after: BotPersonality, now: nat): (r: Chat)
    ensures before.welcomeMessage == after.welcomeMessage ==> r == c
    ensures before.welcomeMessage != after.welcomeMessage ==>
      r.messages == [Message(WelcomeId, after.welcomeMessage, Bot, now)] && r.input == c.input && r.typing == c.typing
  {
    if before.welcomeMessage != after.welcomeMessage then WelcomeReset(c, after.welcomeMessage, now) else c
  }

  /** Typing in the message field. */
  function TypeText(c: Chat, text: string): (r: Chat)
    ensures r.input == text && r.(input := c.input) == c
  {
    c.(input := text)
  }

  /** A command shortcut fills the field with the slash command. */
  function TapCommand(c: Chat, cmd: BotCommand): (r: Chat)
    ensures r.input == "/" + cmd.command
    ensures r.messages == c.messages && r.typing == c.typing
  {
    c.(input := "/" + cmd.command)
  }

  /** First half of `handleSendMessage`: blank input does nothing.
      Otherwise the untrimmed input is appended as a user message stamped
      with the clock, the field is cleared, typing starts and the
      instruction for the reply is sent. The typing flag is not consulted. */
  function SendBegin(c: Chat, p: BotPersonality, now: nat): (r: Sent)
    ensures r.request.Some? <==> !IsBlank(c.input)
    ensures r.request.None? ==> r.chat == c
    ensures r.request.Some? ==>
      && r.chat.messages == c.messages + [Message(NatToString(now), c.input, User, now)]
      && r.chat.input == "" && r.chat.typing
      && Contains(r.request.value, c.input)
      && Contains(r.request.value, p.name) && Contains(r.request.value, p.description)
  {
    if Trim(c.input) == "" then Sent(c, None)
    else
      var message := Message(NatToString(now), c.input, User, now);
      Sent(Chat(c.messages + [message], "", true), Some(GeminiService.ChatPrompt(c.input, p)))
  }

  /** Second half: a reply is appended after whatever the transcript holds
      by then; a rejected call appends nothing. Typing stops either way. */
  function SendComplete(c: Chat, response: Outcome<Option<string>>, now: nat): (r: Chat)
    ensures !r.typing && r.input == c.input
    ensures response.Err? ==> r.messages == c.messages
    ensures response.Ok? ==>
      && |r.messages| == |c.messages| + 1
      && r.messages[..|c.messages|] == c.messages
      && r.messages[|c.messages|] == Message(NatToString(now + 1), GeminiService.ChatReply(response.value), Bot, now)
      && r.messages[|c.messages|].text != ""
  {
    match GeminiService.SimulateBotResponse(response)
    case Ok(reply) =>
      Chat(c.messages + [Message(NatToString(now + 1), reply, Bot, now)], c.input, false)
    case Err =>
      c.(typing := false)
  }

  /** One exchange: the user types `text` and sends it at `sentAt`; the
      model answers with `response` at `repliedAt`. */
  datatype Turn = Turn(text: string, sentAt: nat, response: Option<string>, repliedAt: nat)

  function Exchange(c: Chat, p: BotPersonality, t: Turn): Chat {
    SendComplete(SendBegin(TypeText(c, t.text), p, t.sentAt).chat, Ok(t.response), t.repliedAt)
  }

  /** Successive exchanges, each settling before the next begins. */
  function Converse(c: Chat, p: BotPersonality, turns: seq<Turn>): Chat
    decreases |turns|
  {
    if |turns| == 0 then c else Converse(Exchange(c, p, turns[0]), p, turns[1..])
  }

  /** Every exchange sends a non-blank message. */
  predicate AllSpoken(turns: seq<Turn>) {
    forall i :: 0 <= i < |turns| ==> !IsBlank(turns[i].text)
  }

  /** The two messages an answered exchange adds. */
  function Pair(t: Turn): seq<Message> {
    [ Message(NatToString(t.sentAt), t.text, User, t.sentAt),
      Message(NatToString(t.repliedAt + 1), GeminiService.ChatReply(t.response), Bot, t.repliedAt) ]
  }

  /** The messages a series of answered exchanges adds, in order. */
  function Pairs(turns: seq<Turn>): seq<Message>
    decreases |turns|
  {
    if |turns| == 0 then [] else Pair(turns[0]) + Pairs(turns[1..])
  }

  /** An exchange with a non-blank message appends its user message and
      then its reply. */
  lemma ExchangeAppendsPair(c: Chat, p: BotPersonality, t: Turn)
    requires !IsBlank(t.text)
    ensures Exchange(c, p, t).messages == c.messages + Pair(t)
    ensures Exchange(c, p, t).input == "" && !Exchange(c, p, t).typing
  {
    var s := SendBegin(TypeText(c, t.text), p, t.sentAt).chat;
    var r := Exchange(c, p, t);
    assert r.messages == s.messages + [r.messages[|s.messages|]] by {
      assert r.messages[..|s.messages|] == s.messages;
    }
  }

  /** A series that speaks throughout still does after its first turn. */
  lemma AllSpokenRest(turns: seq<Turn>)
    requires |turns| > 0 && AllSpoken(turns)
    ensures AllSpoken(turns[1..])
  {
    forall i | 0 <= i < |turns| - 1 ensures !IsBlank(turns[1..][i].text) {
      assert turns[1..][i] == turns[i + 1];
    }
  }

  /** The first exchange of a series, then the rest. */
  lemma ConverseStep(c: Chat, p: BotPersonality, turns: seq<Turn>)
    requires |turns| > 0
    ensures Converse(c, p, turns) == Converse(Exchange(c, p, turns[0]), p, turns[1..])
  {
  }

  /** The pairs of a series: the first turn's, then the rest's. */
  lemma PairsStep(turns: seq<Turn>)
    requires |turns| > 0
    ensures Pairs(turns) == Pair(turns[0]) + Pairs(turns[1..])
  {
  }

  /** Appending twice is appending the concatenation. */
  lemma AppendedTwice<T>(before: seq<T>, head: seq<T>, tail: seq<T>, mid: seq<T>, after: seq<T>)
    requires mid == before + head && after == mid + tail
    ensures after == before + (head + tail)
  {
  }

  /** The transcript after a series of answered exchanges is the old one
      followed by each exchange's pair. */
  lemma {:induction false} ConversationTranscript(c: Chat, p: BotPersonality, turns: seq<Turn>)
    requires AllSpoken(turns)
    ensures Converse(c, p, turns).messages == c.messages + Pairs(turns)
    decreases |turns|
  {
    if |turns| > 0 {
      var c1 := Exchange(c, p, turns[0]);
      ExchangeAppendsPair(c, p, turns[0]);
      AllSpokenRest(turns);
      ConversationTranscript(c1, p, turns[1..]);
      ConverseStep(c, p, turns);
      PairsStep(turns);
      AppendedTwice(c.messages, Pair(turns[0]), Pairs(turns[1..]), c1.messages, Converse(c1, p, turns[1..]).messages);
    }
  }

  /** Each exchange contributes two messages. */
  lemma {:induction false} PairsLength(turns: seq<Turn>)
    ensures |Pairs(turns)| == 2 * |turns|
    decreases |turns|
  {
    if |turns| > 0 {
      PairsLength(turns[1..]);
    }
  }

  /** The k-th exchange's messages sit at positions 2k and 2k + 1. */
  lemma {:induction false} PairsAt(turns: seq<Turn>, k: nat)
    requires k < |turns|
    ensures 2 * k + 1 < |Pairs(turns)|
    ensures Pairs(turns)[2 * k] == Pair(turns[k])[0]
    ensures Pairs(turns)[2 * k + 1] == Pair(turns[k])[1]
    decreases |turns|
  {
    PairsLength(turns);
    if k > 0 {
      PairsAt(turns[1..], k - 1);
      assert turns[1..][k - 1] == turns[k];
    }
  }

  /** From a fresh chat, N answered exchanges leave 1 + 2N messages: the
      welcome, then user and bot alternating, each exchange's text and
      reply in its place. */
  lemma FreshConversation(p: BotPersonality, now: nat, turns: seq<Turn>)
    requires AllSpoken(turns)
    ensures |Converse(Mount(p, now), p, turns).messages| == 1 + 2 * |turns|
    ensures Converse(Mount(p, now), p, turns).messages[0] == Message(WelcomeId, p.welcomeMessage, Bot, now)
    ensures forall k :: 0 <= k < |turns| ==>
      var ms := Converse(Mount(p, now), p, turns).messages;
      && ms[2 * k + 1].sender == User && ms[2 * k + 1].text == turns[k].text
      && ms[2 * k + 2].sender == Bot && ms[2 * k + 2].text == GeminiService.ChatReply(turns[k].response)
  {
    var welcome := Message(WelcomeId, p.welcomeMessage, Bot, now);
    var ms := Converse(Mount(p, now), p, turns).messages;
    var tail := Pairs(turns);
    assert ms == [welcome] + tail by {
      ConversationTranscript(Mount(p, now), p, turns);
    }
    PairsLength(turns);
    forall k | 0 <= k < |turns|
      ensures ms[2 * k + 1].sender == User && ms[2 * k + 1].text == turns[k].text
      ensures ms[2 * k + 2].sender == Bot && ms[2 * k + 2].text == GeminiService.ChatReply(turns[k].response)
    {
      PairsAt(turns, k);
      assert ms[2 * k + 1] == tail[2 * k];
      assert ms[2 * k + 2] == tail[2 * k + 1];
    }
  }

  /** Message ids are printed clock readings and need not be unique: a
      user message and an earlier reply share an id exactly when the send
      came one millisecond after the reply's clock reading. None of them
      can be mistaken for the welcome message. */
  lemma MessageIds(sentAt: nat, repliedAt: nat)
    ensures NatToString(sentAt) == NatToString(repliedAt + 1) <==> sentAt == repliedAt + 1
    ensures NatToString(sentAt) != WelcomeId
  {
    NatToStringInjective(sentAt, repliedAt + 1);
    assert WelcomeId[0] == 's';
  }
}
