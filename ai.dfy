/**
 * Token accounting for the chat completion API (`num_tokens_from_messages`
 * in src/ai.rs), after the per-message overhead model that OpenAI's cookbook
 * publishes for `gpt-3.5-turbo-0301`. The byte-pair encoder `cl100k_base` is
 * not modelled: it is a parameter `tok` giving the number of tokens of a text.
 */
module Ai {
  import opened Chat

  /** The only model string the overhead formula is applied to. */
  const GPT_35_TURBO_0301: string := "gpt-3.5-turbo-0301"

  /** The error raised when the `cl100k_base` vocabulary cannot be loaded. */
  datatype TokenError = TokenizerInit

  /** A name is encoded to at least one token, so `tok(name) - 1` cannot underflow. */
  predicate NameTokenizable(m: RequestMessage, tok: Bytes -> nat)
  {
    m.name.Some? ==> tok(m.name.value) >= 1
  }

  predicate Countable(ms: seq<RequestMessage>, tok: Bytes -> nat)
  {
    forall i :: 0 <= i < |ms| ==> NameTokenizable(ms[i], tok)
  }

  /** One message: 4 framing tokens, its text, its role name, and its name less one. */
  function MessageCost(m: RequestMessage, tok: Bytes -> nat): (r: nat)
    requires NameTokenizable(m, tok)
    ensures r >= 4 + tok(m.content) + tok(RoleName(m.role))
  {
    4 + tok(m.content) + tok(RoleName(m.role)) + (if m.name.Some? then tok(m.name.value) - 1 else 0)
  }

  /** The messages' costs, summed from the first to the last. */
  function SumCosts(ms: seq<RequestMessage>, tok: Bytes -> nat): (r: nat)
    requires Countable(ms, tok)
    ensures r >= 4 * |ms|
  {
    if ms == [] then 0
    else
      var init := ms[..|ms| - 1];
      assert Countable(init, tok) by {
        forall i | 0 <= i < |init| ensures NameTokenizable(init[i], tok) {
          assert init[i] == ms[i];
        }
      }
      SumCosts(ms[..|ms| - 1], tok) + MessageCost(ms[|ms| - 1], tok)
  }

  /** A whole request for `gpt-3.5-turbo-0301`: the messages plus 2 priming tokens. */
  function Cost(ms: seq<RequestMessage>, tok: Bytes -> nat): (r: nat)
    requires Countable(ms, tok)
    ensures r >= 2 + 4 * |ms|
    ensures ms == [] ==> r == 2
  {
    2 + SumCosts(ms, tok)
  }

  /**
   * `num_tokens_from_messages`: fails when the vocabulary cannot be loaded;
   * otherwise the formula's total for `gpt-3.5-turbo-0301` and 0 for every
   * other model string.
   */
  method NumTokensFromMessages(messages: seq<RequestMessage>, model: string, bpe: Option<Bytes -> nat>)
    returns (r: Result<nat, TokenError>)
    requires bpe.Some? && model == GPT_35_TURBO_0301 ==> Countable(messages, bpe.value)
    ensures bpe.None? <==> r == Err(TokenizerInit)
    ensures bpe.Some? && model != GPT_35_TURBO_0301 ==> r == Ok(0)
    ensures bpe.Some? && model == GPT_35_TURBO_0301 ==> r == Ok(Cost(messages, bpe.value))
  {
    if bpe.None? {
      return Err(TokenizerInit);
    }
    var tok := bpe.value;
    var numTokens: nat := 0;
    if model == GPT_35_TURBO_0301 {
      var i := 0;
      while i < |messages|
        invariant 0 <= i <= |messages|
        invariant Countable(messages[..i], tok)
        invariant numTokens == SumCosts(messages[..i], tok)
      {
        var msg := messages[i];
        assert messages[..i + 1][..i] == messages[..i];
        numTokens := numTokens + 4;
        numTokens := numTokens + tok(msg.content);
        numTokens := numTokens + tok(RoleName(msg.role));
        if msg.name.Some? {
          numTokens := numTokens + (tok(msg.name.value) - 1);
        }
        i := i + 1;
      }
      assert messages[..i] == messages;
      numTokens := numTokens + 2;
    }
    r := Ok(numTokens);
  }

  /** Appending one message adds exactly that message's cost, which is at least 4. */
  lemma AppendCost(ms: seq<RequestMessage>, m: RequestMessage, tok: Bytes -> nat)
    requires Countable(ms, tok) && NameTokenizable(m, tok)
    ensures Countable(ms + [m], tok)
    ensures Cost(ms + [m], tok) == Cost(ms, tok) + MessageCost(m, tok)
    ensures Cost(ms + [m], tok) >= Cost(ms, tok) + 4
  {
  }

  /** Costs add up over a concatenation, counting the 2 priming tokens once. */
  lemma {:induction false} ConcatCost(a: seq<RequestMessage>, b: seq<RequestMessage>, tok: Bytes -> nat)
    requires Countable(a, tok) && Countable(b, tok)
    ensures Countable(a + b, tok)
    ensures Cost(a + b, tok) == Cost(a, tok) + Cost(b, tok) - 2
    decreases |b|
  {
    if b == [] {
      assert a + b == a;
    } else {
      var b' := b[..|b| - 1];
      var m := b[|b| - 1];
      forall i | 0 <= i < |b'| ensures NameTokenizable(b'[i], tok) {
        assert b'[i] == b[i];
      }
      ConcatCost(a, b', tok);
      assert b == b' + [m];
      assert a + b == (a + b') + [m];
      AppendCost(a + b', m, tok);
      AppendCost(b', m, tok);
    }
  }

  /**
   * One step of the conversation context the example builds
   * (`add_system_message` / `add_user_message`; the context type itself is
   * not part of this model): it appends one message.
   */
  function AddMessage(ctx: seq<RequestMessage>, role: Role, content: Bytes, name: Option<Bytes>): seq<RequestMessage>
  {
    ctx + [RequestMessage(role, content, name)]
  }

  /**
   * The shape of the corporate-jargon example in src/ai.rs: five system
   * messages, the second to fifth alternately named `user` and `assistant`,
   * then one user message, built in that order.
   */
  function JargonShape(texts: seq<Bytes>, user: Bytes, assistant: Bytes): seq<RequestMessage>
    requires |texts| == 6
  {
    var c1 := AddMessage([], System, texts[0], None);
    var c2 := AddMessage(c1, System, texts[1], Some(user));
    var c3 := AddMessage(c2, System, texts[2], Some(assistant));
    var c4 := AddMessage(c3, System, texts[3], Some(user));
    var c5 := AddMessage(c4, System, texts[4], Some(assistant));
    AddMessage(c5, User, texts[5], None)
  }

  /**
   * Any conversation of that shape costs 126 when role names take one token,
   * the two names 2 and 3, and the six texts 18, 10, 8, 18, 15 and 19.
   */
  lemma JargonShapeCost(tok: Bytes -> nat, texts: seq<Bytes>, user: Bytes, assistant: Bytes)
    requires |texts| == 6
    requires tok(RoleName(System)) == 1 && tok(RoleName(User)) == 1
    requires tok(user) == 2 && tok(assistant) == 3
    requires tok(texts[0]) == 18 && tok(texts[1]) == 10 && tok(texts[2]) == 8
    requires tok(texts[3]) == 18 && tok(texts[4]) == 15 && tok(texts[5]) == 19
    ensures Countable(JargonShape(texts, user, assistant), tok)
    ensures Cost(JargonShape(texts, user, assistant), tok) == 126
  {
    var c1 := AddMessage([], System, texts[0], None);
    var c2 := AddMessage(c1, System, texts[1], Some(user));
    var c3 := AddMessage(c2, System, texts[2], Some(assistant));
    var c4 := AddMessage(c3, System, texts[3], Some(user));
    var c5 := AddMessage(c4, System, texts[4], Some(assistant));
    AppendCost([], c1[0], tok);
    AppendCost(c1, c2[1], tok);
    AppendCost(c2, c3[2], tok);
    AppendCost(c3, c4[3], tok);
    AppendCost(c4, c5[4], tok);
    AppendCost(c5, JargonShape(texts, user, assistant)[5], tok);
  }
}

/** The unit test of src/ai.rs, with the tokenizer's counts for its strings fixed. */
module AiTests {
  import opened Chat
  import opened Ai

  /** The texts and names of the corporate-jargon example in src/ai.rs. */
  const JARGON_0: string := "You are a helpful, pattern-following assistant that translates corporate jargon into plain English."
  const JARGON_1: string := "New synergies will help drive top-line growth."
  const JARGON_2: string := "Things working well together will increase revenue."
  const JARGON_3: string := "Let's circle back when we have more bandwidth to touch base on opportunities for increased leverage."
  const JARGON_4: string := "Let's talk later when we're less busy about how to do better."
  const JARGON_5: string := "This late pivot means we don't have time to boil the ocean for the client deliverable."
  const EXAMPLE_USER: string := "example_user"
  const EXAMPLE_ASSISTANT: string := "example_assistant"

  /** The six messages of the corporate-jargon example in src/ai.rs. */
  function JargonConversation(): seq<RequestMessage>
  {
    var texts := [Utf8(JARGON_0), Utf8(JARGON_1), Utf8(JARGON_2), Utf8(JARGON_3), Utf8(JARGON_4), Utf8(JARGON_5)];
    JargonShape(texts, Utf8(EXAMPLE_USER), Utf8(EXAMPLE_ASSISTANT))
  }

  /**
   * The test's expected total of 126 for the jargon example. The token counts
   * of its strings are assumed (one per role name, 2 for "example_user", 3 for
   * "example_assistant", 18, 10, 8, 18, 15, 19 for the texts), not derived from
   * the `cl100k_base` vocabulary; only their sum, 98, matters to the total.
   */
  lemma JargonCost(tok: Bytes -> nat)
    requires tok(RoleName(System)) == 1 && tok(RoleName(User)) == 1
    requires tok(Utf8(EXAMPLE_USER)) == 2 && tok(Utf8(EXAMPLE_ASSISTANT)) == 3
    requires tok(Utf8(JARGON_0)) == 18
    requires tok(Utf8(JARGON_1)) == 10
    requires tok(Utf8(JARGON_2)) == 8
    requires tok(Utf8(JARGON_3)) == 18
    requires tok(Utf8(JARGON_4)) == 15
    requires tok(Utf8(JARGON_5)) == 19
    ensures Countable(JargonConversation(), tok)
    ensures Cost(JargonConversation(), tok) == 126
  {
    var texts := [Utf8(JARGON_0), Utf8(JARGON_1), Utf8(JARGON_2), Utf8(JARGON_3), Utf8(JARGON_4), Utf8(JARGON_5)];
    JargonShapeCost(tok, texts, Utf8(EXAMPLE_USER), Utf8(EXAMPLE_ASSISTANT));
  }
}
