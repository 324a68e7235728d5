/**
 * The bot's message handler (src/msg_handler.rs): stripping the leading
 * mention of the bot from a Discord message, assembling the completion
 * request from the cached history, and recording the exchange afterwards.
 * The Discord gateway, the OpenAI client and logging are outside the model:
 * what they return is passed in.
 */
module MsgHandler {
  import opened Chat
  import opened Conversation

  const LESS_THAN: byte := 0x3C
  const AT_SIGN: byte := 0x40
  const GREATER_THAN: byte := 0x3E
  const DIGIT_ZERO: byte := 0x30

  /** The instruction placed first in every request. */
  const SYSTEM_PROMPT: string := "You are a helpful assistant."

  /** `u64::to_string()`: the decimal digits of `n`, most significant first, no leading zero. */
  function Decimal(n: nat): (r: Bytes)
    ensures |r| >= 1
    ensures forall i :: 0 <= i < |r| ==> DIGIT_ZERO <= r[i] <= DIGIT_ZERO + 9
    ensures n >= 10 ==> r[0] != DIGIT_ZERO
  {
    if n < 10 then [DIGIT_ZERO + n as byte]
    else Decimal(n / 10) + [DIGIT_ZERO + (n % 10) as byte]
  }

  /** The number a string of decimal digits denotes. */
  function DecimalValue(s: Bytes): int
  {
    if s == [] then 0 else DecimalValue(s[..|s| - 1]) * 10 + (s[|s| - 1] as int - DIGIT_ZERO as int)
  }

  /** Reading the digits back gives the number: distinct ids have distinct mentions. */
  lemma {:induction false} DecimalRoundTrip(n: nat)
    ensures DecimalValue(Decimal(n)) == n
    decreases n
  {
    if n >= 10 {
      DecimalRoundTrip(n / 10);
      var d := Decimal(n / 10);
      assert (d + [DIGIT_ZERO + (n % 10) as byte])[..|d|] == d;
    }
  }

  /** `"<@" + id + ">"`: how Discord writes a mention of the user `id`. */
  function Mention(id: UserId): (r: Bytes)
    ensures |r| == |Decimal(id)| + 3 && |r| >= 4
    ensures r[|r| - 1] == GREATER_THAN
    ensures forall i :: 0 <= i < |r| - 1 ==> r[i] != GREATER_THAN
  {
    [LESS_THAN, AT_SIGN] + Decimal(id) + [GREATER_THAN]
  }

  /** `str::starts_with`. */
  predicate StartsWith(s: Bytes, prefix: Bytes)
  {
    |prefix| <= |s| && s[..|prefix|] == prefix
  }

  /** `str::find` of a single byte: the index of its first occurrence, if any. */
  function Find(s: Bytes, b: byte): (r: Option<nat>)
    ensures r.None? <==> forall i :: 0 <= i < |s| ==> s[i] != b
    ensures r.Some? ==> r.value < |s| && s[r.value] == b
    ensures r.Some? ==> forall i :: 0 <= i < r.value ==> s[i] != b
  {
    if s == [] then None
    else if s[0] == b then Some(0)
    else match Find(s[1..], b)
      case None => None
      case Some(i) => Some(i + 1)
  }

  /** In a text that starts with a mention, the first `>` is the one closing the mention. */
  lemma FindMention(id: UserId, content: Bytes)
    requires StartsWith(content, Mention(id))
    ensures Find(content, GREATER_THAN) == Some(|Mention(id)| - 1)
  {
  }

  /**
   * `Handler::extract_legal_content`: the question the message asks the bot.
   * There is one exactly when the text starts with the bot's mention and has
   * at least two bytes after it; it is then everything after the mention and
   * the one separator byte that follows it, and is never empty.
   */
  function ExtractLegalContent(botUserId: UserId, msg: DiscordMessage): (r: Option<Bytes>)
    ensures r.Some? <==>
      StartsWith(msg.content, Mention(botUserId)) && |msg.content| >= |Mention(botUserId)| + 2
    ensures r.Some? ==> r.value == msg.content[|Mention(botUserId)| + 1..] && |r.value| >= 1
    ensures r.Some? ==>
      msg.content == Mention(botUserId) + [msg.content[|Mention(botUserId)|]] + r.value
  {
    var mention := Mention(botUserId);
    if !StartsWith(msg.content, mention) then None
    else
      FindMention(botUserId, msg.content);
      var index := match Find(msg.content, GREATER_THAN) case Some(i) => i case None => 0;
      // `len() - 2` cannot underflow here: the text holds at least the mention.
      if index + 1 > |msg.content| - 2 then None
      else
        var s := msg.content;
        assert s == s[..|mention|] + [s[|mention|]] + s[index + 2..];
        Some(s[index + 2..])
  }

  /** The request `build_conversation` assembles for `question` from a user's history. */
  function Request(history: seq<ConversationMessage>, question: Bytes): (r: seq<RequestMessage>)
    ensures |r| == |history| + 2
    ensures r[0] == RequestMessage(System, Utf8(SYSTEM_PROMPT), None)
    ensures r[|r| - 1] == RequestMessage(User, question, None)
    ensures forall i :: 0 <= i < |history| ==> r[i + 1] == ToRequestMessage(history[i])
  {
    [RequestMessage(System, Utf8(SYSTEM_PROMPT), None)]
      + seq(|history|, i requires 0 <= i < |history| => ToRequestMessage(history[i]))
      + [RequestMessage(User, question, None)]
  }

  /**
   * The message the bot posts for `msg`, given the author's history before
   * the question: none when the message asks no question, the completion
   * service gives no answer or Discord refuses the post.
   */
  function PostedReply(botUserId: UserId, msg: DiscordMessage, history: seq<ConversationMessage>,
                       complete: seq<RequestMessage> -> Option<Bytes>,
                       send: Bytes -> Option<DiscordMessage>): Option<DiscordMessage>
  {
    match ExtractLegalContent(botUserId, msg)
    case None => None
    case Some(question) =>
      match complete(Request(history, question))
      case None => None
      case Some(answer) => send(answer)
  }

  class Handler {
    const conversationCache: ConversationCache

    constructor (cache: ConversationCache)
      ensures conversationCache == cache
    {
      conversationCache := cache;
    }

    /**
     * `Handler::build_conversation`: the system prompt, then the user's
     * cached history in stored order, then the question; fails only when the
     * cache's lock is poisoned.
     */
    method BuildConversation(question: Bytes, userId: UserId) returns (r: Result<seq<RequestMessage>, CacheError>)
      ensures conversationCache.poisoned <==> r == Err(MutexPanic)
      ensures !conversationCache.poisoned ==> r == Ok(Request(conversationCache.Messages(userId), question))
    {
      var conversations := [RequestMessage(System, Utf8(SYSTEM_PROMPT), None)];
      var cached := conversationCache.GetMessages(userId);
      if cached.Err? {
        return Err(cached.error);
      }
      var messages := cached.value;
      var history := seq(|messages|, i requires 0 <= i < |messages| => ToRequestMessage(messages[i]));
      conversations := conversations + history;
      conversations := conversations + [RequestMessage(User, question, None)];
      r := Ok(conversations);
    }

    /**
     * The two cache writes that end the mentioned branch of
     * `EventHandler::message`: the author's message as a user turn, then the
     * posted reply as an assistant turn. A failed write is logged and the next
     * one is still attempted; both fail together, when the lock is poisoned.
     */
    method RecordExchange(msg: DiscordMessage, reply: DiscordMessage)
      requires conversationCache.Valid()
      modifies conversationCache
      ensures conversationCache.Valid()
      ensures conversationCache.maxLength == old(conversationCache.maxLength)
      ensures conversationCache.poisoned == old(conversationCache.poisoned)
      ensures old(conversationCache.poisoned) ==> conversationCache.users == old(conversationCache.users)
      ensures !old(conversationCache.poisoned) ==>
        conversationCache.users == old(conversationCache.users)[msg.author :=
          LastN(old(conversationCache.Messages(msg.author))
                  + [ConversationMessage(User, msg), ConversationMessage(Assistant, reply)],
                conversationCache.maxLength)]
      ensures !old(conversationCache.poisoned) && conversationCache.maxLength >= 2 ==>
        var stored := conversationCache.Messages(msg.author);
        |stored| >= 2 && stored[|stored| - 2] == ConversationMessage(User, msg)
        && stored[|stored| - 1] == ConversationMessage(Assistant, reply)
    {
      ghost var history := conversationCache.Messages(msg.author);
      var userTurn := ConversationMessage(User, msg);
      var botTurn := ConversationMessage(Assistant, reply);
      var _ := conversationCache.AddMessage(msg.author, userTurn.role, userTurn.message);
      ghost var afterFirst := conversationCache.Messages(msg.author);
      var _ := conversationCache.AddMessage(msg.author, botTurn.role, botTurn.message);
      if !conversationCache.poisoned {
        assert afterFirst == LastN(history + [userTurn], conversationCache.maxLength);
        AppendTwoCapped(history, userTurn, botTurn, conversationCache.maxLength);
      }
    }

    /**
     * The mentioned branch of `EventHandler::message`: when the bot posts a
     * reply, the exchange is recorded (see `RecordExchange`); otherwise the
     * cache is unchanged.
     */
    method OnMention(botUserId: UserId, msg: DiscordMessage,
                     complete: seq<RequestMessage> -> Option<Bytes>,
                     send: Bytes -> Option<DiscordMessage>)
      requires conversationCache.Valid()
      modifies conversationCache
      ensures conversationCache.Valid()
      ensures conversationCache.maxLength == old(conversationCache.maxLength)
      ensures conversationCache.poisoned == old(conversationCache.poisoned)
      ensures old(conversationCache.poisoned) ==> conversationCache.users == old(conversationCache.users)
      ensures !old(conversationCache.poisoned) ==>
        var history := old(conversationCache.Messages(msg.author));
        var reply := PostedReply(botUserId, msg, history, complete, send);
        conversationCache.users ==
          if reply.None? then old(conversationCache.users)
          else old(conversationCache.users)[msg.author :=
            LastN(history + [ConversationMessage(User, msg), ConversationMessage(Assistant, reply.value)],
                  conversationCache.maxLength)]
    {
      ghost var history := conversationCache.Messages(msg.author);
      var question := ExtractLegalContent(botUserId, msg);
      if question.None? {
        return;
      }
      var conversations := BuildConversation(question.value, msg.author);
      if conversations.Err? {
        return;
      }
      var answer := complete(conversations.value);
      if answer.None? {
        return;
      }
      var sent := send(answer.value);
      if sent.None? {
        return;
      }
      RecordExchange(msg, sent.value);
    }
  }
}
