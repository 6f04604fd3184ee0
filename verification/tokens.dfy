/** Token accounting: the count of one text and of a chat message list under the
    provider's framing overhead. */
module Tokens {
  import opened Wrappers
  import opened Types

  /** The subword encoder, left uninterpreted: the length of the encoding of a text,
      or `None` when encoding throws. */
  type Encoder = string -> Option<nat>

  /** Framing cost of every message in a chat request. */
  const MessageOverhead: nat := 4
  /** Framing cost of the reply the model is primed to write. */
  const ReplyOverhead: nat := 2
  /** The limit used when the caller gives none. */
  const DefaultTokenLimit: int := 4000

  /** `Math.ceil(n / d)` for a length `n` and a positive divisor `d`. */
  function CeilDiv(n: nat, d: nat): (q: nat)
    requires d > 0
    ensures d * (q - 1) < n <= d * q
  {
    var q := (n + d - 1) / d;
    assert n + d - 1 == d * q + (n + d - 1) % d;
    q
  }

  /** The token count of one text: 0 for the empty text, the encoding's length when
      the encoder succeeds, and a quarter of the UTF-16 length rounded up when it throws. */
  function CountTokens(enc: Encoder, text: string): (n: nat)
    ensures text == [] ==> n == 0
    ensures text != [] && enc(text).Some? ==> n == enc(text).value
    ensures text != [] && enc(text).None? ==> 4 * (n - 1) < Utf16Length(text) <= 4 * n
  {
    if text == [] then 0
    else match enc(text)
      case Some(len) => len
      case None => CeilDiv(Utf16Length(text), 4)
  }

  /** The content tokens of a message list, message by message. */
  function ContentTokens(enc: Encoder, ms: seq<Message>): nat
  {
    if ms == [] then 0 else CountTokens(enc, ms[0].content) + ContentTokens(enc, ms[1..])
  }

  /** The reference count of a message list: content tokens, plus the per-message
      overhead, plus the reply overhead once. */
  function MessagesTokenCount(enc: Encoder, ms: seq<Message>): (r: nat)
    ensures r >= MessageOverhead * |ms| + ReplyOverhead
    ensures ms == [] ==> r == ReplyOverhead
  {
    ContentTokens(enc, ms) + MessageOverhead * |ms| + ReplyOverhead
  }

  /** Content tokens add up over concatenation. */
  lemma {:induction false} ContentTokensConcat(enc: Encoder, a: seq<Message>, b: seq<Message>)
    ensures ContentTokens(enc, a + b) == ContentTokens(enc, a) + ContentTokens(enc, b)
  {
    if a == [] {
      assert a + b == b;
    } else {
      assert (a + b)[1..] == a[1..] + b;
      ContentTokensConcat(enc, a[1..], b);
    }
  }

  /** Appending a message adds exactly its content tokens and one message overhead,
      so the count strictly grows under append. */
  lemma MessagesTokenCountAppend(enc: Encoder, ms: seq<Message>, m: Message)
    ensures MessagesTokenCount(enc, ms + [m])
         == MessagesTokenCount(enc, ms) + CountTokens(enc, m.content) + MessageOverhead
    ensures MessagesTokenCount(enc, ms + [m]) > MessagesTokenCount(enc, ms)
  {
    ContentTokensConcat(enc, ms, [m]);
    assert [m][1..] == [];
  }

  /** Counting two lists separately charges the reply overhead twice. */
  lemma MessagesTokenCountConcat(enc: Encoder, a: seq<Message>, b: seq<Message>)
    ensures MessagesTokenCount(enc, a + b) + ReplyOverhead
         == MessagesTokenCount(enc, a) + MessagesTokenCount(enc, b)
  {
    ContentTokensConcat(enc, a, b);
  }

  /** The loop of `getMessagesTokenCount`: content tokens and overhead accumulated
      message by message, then the reply overhead. */
  method GetMessagesTokenCount(enc: Encoder, ms: seq<Message>) returns (total: nat)
    ensures total == MessagesTokenCount(enc, ms)
  {
    total := 0;
    var i := 0;
    while i < |ms|
      invariant 0 <= i <= |ms|
      invariant total == ContentTokens(enc, ms[..i]) + MessageOverhead * i
    {
      assert ms[..i + 1] == ms[..i] + [ms[i]];
      ContentTokensConcat(enc, ms[..i], [ms[i]]);
      assert [ms[i]][1..] == [];
      total := total + CountTokens(enc, ms[i].content);
      total := total + MessageOverhead;
      i := i + 1;
    }
    assert ms[..i] == ms;
    total := total + ReplyOverhead;
  }

  /** Whether a message list fits strictly below a limit. A list that fits leaves room
      for at least its framing. */
  function IsWithinTokenLimit(enc: Encoder, ms: seq<Message>, limit: int := DefaultTokenLimit): (r: bool)
    ensures r ==> MessageOverhead * |ms| + ReplyOverhead < limit
  {
    MessagesTokenCount(enc, ms) < limit
  }

  /** Fitting is prefix-closed: if a list with one more message fits, so does the list. */
  lemma WithinTokenLimitPrefixClosed(enc: Encoder, ms: seq<Message>, m: Message, limit: int)
    ensures IsWithinTokenLimit(enc, ms + [m], limit) ==> IsWithinTokenLimit(enc, ms, limit)
  {
    MessagesTokenCountAppend(enc, ms, m);
  }

  /** A list fits exactly when its count is strictly below the limit; called without
      a limit, the limit is 4000. */
  lemma WithinTokenLimitStrict(enc: Encoder, ms: seq<Message>, limit: int)
    ensures IsWithinTokenLimit(enc, ms, limit) <==> MessagesTokenCount(enc, ms) < limit
    ensures IsWithinTokenLimit(enc, ms) <==> MessagesTokenCount(enc, ms) < 4000
    ensures !IsWithinTokenLimit(enc, ms, MessagesTokenCount(enc, ms))
    ensures IsWithinTokenLimit(enc, ms, MessagesTokenCount(enc, ms) + 1)
  {
  }

  /** The fallback counts UTF-16 code units: five characters outside the Basic
      Multilingual Plane are ten units, so three tokens. */
  lemma FallbackCountsCodeUnits(enc: Encoder)
    requires enc("\U{1F600}\U{1F600}\U{1F600}\U{1F600}\U{1F600}") == None
    ensures CountTokens(enc, "\U{1F600}\U{1F600}\U{1F600}\U{1F600}\U{1F600}") == 3
  {
  }
}
