/**
 * Values shared by the bot's modules: bytes and UTF-8 text, the optional
 * and fallible wrappers, and the few types the bot takes from its chat
 * gateway (serenity) and its completion client (async-openai).
 */
module Chat {

  /** One byte of a UTF-8 encoded Rust `String`. */
  newtype byte = x: int | 0 <= x < 256

  /** The bytes of a `String` or `&str`; Rust's `len()` and slice indices count these. */
  type Bytes = seq<byte>

  datatype Option<+T> = None | Some(value: T)

  datatype Result<+T, +E> = Ok(value: T) | Err(error: E)

  /** UTF-8 encoding of one Unicode scalar value. */
  function EncodeChar(c: char): (r: Bytes)
    ensures 1 <= |r| <= 4
    ensures c as int < 0x80 <==> |r| == 1
    ensures |r| == 1 ==> r[0] as int == c as int
  {
    var n := c as int;
    if n < 0x80 then [n as byte]
    else if n < 0x800 then [(0xC0 + n / 0x40) as byte, (0x80 + n % 0x40) as byte]
    else if n < 0x1_0000 then
      [(0xE0 + n / 0x1000) as byte, (0x80 + n / 0x40 % 0x40) as byte, (0x80 + n % 0x40) as byte]
    else
      [(0xF0 + n / 0x4_0000) as byte, (0x80 + n / 0x1000 % 0x40) as byte,
       (0x80 + n / 0x40 % 0x40) as byte, (0x80 + n % 0x40) as byte]
  }

  /** The bytes of a Rust string literal: the encodings of its characters, in order. */
  function Utf8(s: string): Bytes
  {
    Concat(seq(|s|, i requires 0 <= i < |s| => EncodeChar(s[i])))
  }

  /** The byte strings of `parts` joined in order. */
  function Concat(parts: seq<Bytes>): Bytes
  {
    if parts == [] then [] else parts[0] + Concat(parts[1..])
  }

  /** Identifier of a Discord user (serenity's `UserId`, a `u64` snowflake). */
  type UserId = n: nat | n < 0x1_0000_0000_0000_0000

  /** A Discord message (serenity's `Message`); the bot reads only its author and its text. */
  datatype DiscordMessage = DiscordMessage(author: UserId, content: Bytes)

  /** async-openai's `Role`. */
  datatype Role = System | User | Assistant

  /** `Role::to_string()`: the lower-case role name sent on the wire. */
  function RoleName(r: Role): Bytes
  {
    match r
    case System => Utf8("system")
    case User => Utf8("user")
    case Assistant => Utf8("assistant")
  }

  /** async-openai's `ChatCompletionRequestMessage`: a role, a text and an optional author name. */
  datatype RequestMessage = RequestMessage(role: Role, content: Bytes, name: Option<Bytes>)
}
