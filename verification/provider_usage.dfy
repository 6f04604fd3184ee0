/** The usage counts of a provider reply, as the server actions read them. The
    provider reports them under snake_case keys; the actions round-trip the object
    through `humps.decamelize` and then read camelCase fields. */
module ProviderUsage {
  import opened Wrappers

  /** A usage object as the caller reads it; an absent field is `undefined`. */
  datatype Usage = Usage(promptTokens: Option<int>, completionTokens: Option<int>, totalTokens: Option<int>)

  /** The provider's usage object as serialized: its numeric entries in order. */
  type RawUsage = seq<(string, int)>

  /** The usage object the provider returns for a completion. */
  function ReportedUsage(prompt: int, completion: int, total: int): RawUsage
  {
    [("prompt_tokens", prompt), ("completion_tokens", completion), ("total_tokens", total)]
  }

  predicate IsUpper(c: char) { 'A' <= c <= 'Z' }

  function ToLower(c: char): (r: char)
    ensures !IsUpper(r)
  {
    if IsUpper(c) then (c as int + 32) as char else c
  }

  /** `humps.decamelize` on a key inside serialized JSON: a separator before every
      upper-case letter, then everything lower-cased. No upper-case letter survives. */
  function Decamelize(key: string): (r: string)
    ensures forall i :: 0 <= i < |r| ==> !IsUpper(r[i])
  {
    if key == [] then []
    else (if IsUpper(key[0]) then ['_', ToLower(key[0])] else [key[0]]) + Decamelize(key[1..])
  }

  /** The object `JSON.parse(humps.decamelize(JSON.stringify(raw)))`: the same values
      in the same order, under keys that hold no upper-case letter. */
  function DecamelizeKeys(raw: RawUsage): (r: RawUsage)
    ensures |r| == |raw|
    ensures forall i :: 0 <= i < |r| ==> r[i].1 == raw[i].1
    ensures forall i, j :: 0 <= i < |r| && 0 <= j < |r[i].0| ==> !IsUpper(r[i].0[j])
  {
    seq(|raw|, i requires 0 <= i < |raw| => (Decamelize(raw[i].0), raw[i].1))
  }

  /** Property lookup on a parsed object: the last entry with the key wins, as in
      `JSON.parse`; `None` when no entry has it. */
  function Lookup(entries: RawUsage, key: string): (r: Option<int>)
    ensures r.None? <==> forall i :: 0 <= i < |entries| ==> entries[i].0 != key
    ensures r.Some? ==> exists i :: 0 <= i < |entries| && entries[i] == (key, r.value)
                                  && forall j :: i < j < |entries| ==> entries[j].0 != key
  {
    if entries == [] then None
    else if entries[|entries| - 1].0 == key then Some(entries[|entries| - 1].1)
    else Lookup(entries[..|entries| - 1], key)
  }

  /** The reported usage as `getChatResponse` and `analyze` read it: camelCase fields
      of the decamelized object. */
  function ReadUsageAsWritten(raw: RawUsage): Usage
  {
    var parsed := DecamelizeKeys(raw);
    Usage(Lookup(parsed, "promptTokens"), Lookup(parsed, "completionTokens"), Lookup(parsed, "totalTokens"))
  }

  /** A key holding an upper-case letter is never a key of a decamelized object. */
  lemma CamelKeyAbsent(raw: RawUsage, key: string, at: nat)
    requires at < |key| && IsUpper(key[at])
    ensures Lookup(DecamelizeKeys(raw), key) == None
  {
    var parsed := DecamelizeKeys(raw);
    forall i | 0 <= i < |parsed|
      ensures parsed[i].0 != key
    {
      if at < |parsed[i].0| {
        assert !IsUpper(parsed[i].0[at]);
      }
    }
  }

  /** As written, every field of a reported usage reads as `undefined`, whatever the
      provider reported. */
  lemma ReadUsageAsWrittenLosesCounts(raw: RawUsage)
    ensures ReadUsageAsWritten(raw) == Usage(None, None, None)
  {
    CamelKeyAbsent(raw, "promptTokens", 6);
    CamelKeyAbsent(raw, "completionTokens", 10);
    CamelKeyAbsent(raw, "totalTokens", 5);
  }

  /** The evidently intended reading: the camelCase fields hold the provider's
      snake_case entries (what camelizing the keys would give). */
  function ReadUsage(raw: RawUsage): Usage
  {
    Usage(Lookup(raw, "prompt_tokens"), Lookup(raw, "completion_tokens"), Lookup(raw, "total_tokens"))
  }

  /** The intended reading keeps the counts the provider reported. */
  lemma ReadUsageKeepsCounts(prompt: int, completion: int, total: int)
    ensures ReadUsage(ReportedUsage(prompt, completion, total))
         == Usage(Some(prompt), Some(completion), Some(total))
  {
    var raw := ReportedUsage(prompt, completion, total);
    assert raw[..2] == [("prompt_tokens", prompt), ("completion_tokens", completion)];
    assert raw[..2][..1] == [("prompt_tokens", prompt)];
    assert "total_tokens" != "prompt_tokens" && "completion_tokens" != "prompt_tokens";
    assert Lookup(raw[..2][..1], "prompt_tokens") == Some(prompt);
    assert Lookup(raw[..2], "prompt_tokens") == Some(prompt);
    assert Lookup(raw, "prompt_tokens") == Some(prompt);
    assert Lookup(raw, "completion_tokens") == Some(completion);
  }

  /** The provider reporting 10 prompt, 5 completion and 15 total tokens: the reading
      as written sees none of them, the intended reading sees all three. */
  lemma UsageReadingCounterexample()
    ensures ReadUsageAsWritten(ReportedUsage(10, 5, 15)) == Usage(None, None, None)
    ensures ReadUsage(ReportedUsage(10, 5, 15)) == Usage(Some(10), Some(5), Some(15))
  {
    ReadUsageAsWrittenLosesCounts(ReportedUsage(10, 5, 15));
    ReadUsageKeepsCounts(10, 5, 15);
  }
}
