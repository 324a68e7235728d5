/**
 * The per-user conversation store (`ConversationCache` in src/conversation.rs):
 * a map from a Discord user to that user's most recent messages, capped at
 * `max_length` messages per user, behind a mutex whose poisoning every
 * operation reports as `MutexPanic`.
 */
module Conversation {
  import opened Chat

  /** `max_length` of `ConversationCache::default()`. */
  const DEFAULT_MAX_LENGTH: nat := 20

  /** One cached turn: who spoke (as a completion role) and the Discord message itself. */
  datatype ConversationMessage = ConversationMessage(role: Role, message: DiscordMessage)

  /** `ConversationCacheError`. `ChannelNotFound` is declared in the source but never produced. */
  datatype CacheError = ChannelNotFound | MutexPanic

  /** The last `n` elements of `s` (all of `s` when it is shorter). */
  function LastN<T>(s: seq<T>, n: nat): (r: seq<T>)
    ensures |r| == if |s| <= n then |s| else n
  {
    if |s| <= n then s else s[|s| - n..]
  }

  /**
   * What one `add_message` does to a list that already respects the cap:
   * it stays within the cap; without overflow the old list is a prefix of
   * the new one, which is one longer; on overflow exactly the oldest element
   * goes and the others keep their order; the new message is last unless
   * the cap is zero, in which case nothing is kept.
   */
  lemma AppendCapped<T>(h: seq<T>, m: T, n: nat)
    requires |h| <= n
    ensures |LastN(h + [m], n)| <= n
    ensures |h| < n ==> LastN(h + [m], n) == h + [m]
    ensures |h| == n && n >= 1 ==> LastN(h + [m], n) == h[1..] + [m]
    ensures n >= 1 ==> LastN(h + [m], n)[|LastN(h + [m], n)| - 1] == m
    ensures n == 0 ==> LastN(h + [m], n) == []
  {
  }

  /**
   * Two successive capped appends are one capped append of both messages:
   * with a cap of at least two the list ends with the first message and then
   * the second.
   */
  lemma AppendTwoCapped<T>(h: seq<T>, a: T, b: T, n: nat)
    requires |h| <= n
    ensures LastN(LastN(h + [a], n) + [b], n) == LastN(h + [a, b], n)
    ensures n >= 2 ==> var r := LastN(h + [a, b], n); |r| >= 2 && r[|r| - 2] == a && r[|r| - 1] == b
  {
  }

  /** `impl Into<ChatCompletionRequestMessage> for ConversationMessage`. */
  function ToRequestMessage(m: ConversationMessage): (r: RequestMessage)
    ensures r.role == m.role && r.content == m.message.content && r.name == None
  {
    RequestMessage(m.role, m.message.content, None)
  }

  class ConversationCache {
    /** The `HashMap<UserId, Vec<ConversationMessage>>` inside the mutex. */
    var users: map<UserId, seq<ConversationMessage>>
    var maxLength: nat
    /** Whether the mutex guarding `users` (the source field `map`) has been poisoned by a panic while held. */
    var poisoned: bool

    /** Every user's list respects the cap. */
    ghost predicate Valid()
      reads this
    {
      forall u :: u in users ==> |users[u]| <= maxLength
    }

    /** A user's stored list; an unknown user has an empty one. */
    function Messages(u: UserId): (r: seq<ConversationMessage>)
      reads this
      ensures u !in users ==> r == []
    {
      if u in users then users[u] else []
    }

    /** `ConversationCache::default()`. */
    constructor Default()
      ensures Valid()
      ensures users == map[] && maxLength == DEFAULT_MAX_LENGTH && !poisoned
    {
      users := map[];
      maxLength := DEFAULT_MAX_LENGTH;
      poisoned := false;
    }

    /**
     * `add_message`: the user's list becomes the last `maxLength` messages of
     * the old list followed by the new one; every other user is untouched;
     * a poisoned lock reports `MutexPanic` and changes nothing.
     */
    method AddMessage(userId: UserId, role: Role, message: DiscordMessage) returns (r: Result<(), CacheError>)
      requires Valid()
      modifies this
      ensures Valid()
      ensures maxLength == old(maxLength) && poisoned == old(poisoned)
      ensures old(poisoned) ==> r == Err(MutexPanic) && users == old(users)
      ensures !old(poisoned) ==> r == Ok(())
      ensures !old(poisoned) ==>
        users == old(users)[userId := LastN(old(Messages(userId)) + [ConversationMessage(role, message)], maxLength)]
      ensures forall u :: u != userId ==> (u in users <==> u in old(users)) && Messages(u) == old(Messages(u))
    {
      if poisoned {
        return Err(MutexPanic);
      }
      var messages := if userId in users then users[userId] else [];
      messages := messages + [ConversationMessage(role, message)];
      if |messages| > maxLength {
        messages := messages[1..];
      }
      users := users[userId := messages];
      r := Ok(());
    }

    /**
     * `get_messages`: a copy of the user's list, the empty list for a user
     * the cache has never seen (never `ChannelNotFound`); `MutexPanic` when
     * the lock is poisoned. Reading changes nothing.
     */
    method GetMessages(userId: UserId) returns (r: Result<seq<ConversationMessage>, CacheError>)
      ensures poisoned <==> r == Err(MutexPanic)
      ensures r != Err(ChannelNotFound)
      ensures !poisoned && userId in users ==> r == Ok(users[userId])
      ensures !poisoned && userId !in users ==> r == Ok([])
    {
      if poisoned {
        return Err(MutexPanic);
      }
      r := Ok(if userId in users then users[userId] else []);
    }
  }
}
