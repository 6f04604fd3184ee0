/** The chat message shape shared by the token counter, the server actions and the store. */
module Types {

  /** The author of a message. */
  datatype Role = User | Assistant | Developer

  /** A message as counted and sent: a role and a text content. */
  datatype Message = Message(role: Role, content: string)

  /** The UTF-16 code units of one character: a surrogate pair outside the Basic
      Multilingual Plane, one unit inside it. */
  function CodeUnits(c: char): nat
  {
    if c as int >= 0x10000 then 2 else 1
  }

  /** JavaScript's `s.length`: the number of UTF-16 code units, two for a character
      outside the Basic Multilingual Plane and one for any other. */
  function Utf16Length(s: string): (n: nat)
    ensures |s| <= n <= 2 * |s|
    ensures (forall i :: 0 <= i < |s| ==> s[i] as int < 0x10000) ==> n == |s|
    ensures |s| == 1 ==> n == CodeUnits(s[0])
  {
    if s == [] then 0
    else CodeUnits(s[0]) + Utf16Length(s[1..])
  }

  /** Code units add up over concatenation; with the one-character case this fixes
      the length of every string. */
  lemma {:induction false} Utf16LengthConcat(a: string, b: string)
    ensures Utf16Length(a + b) == Utf16Length(a) + Utf16Length(b)
    decreases |a|
  {
    if a != [] {
      assert (a + b)[1..] == a[1..] + b;
      Utf16LengthConcat(a[1..], b);
    } else {
      assert a + b == b;
    }
  }

  /** A mixed-plane text: "a" and one emoji are three code units. */
  lemma MixedPlaneLength()
    ensures Utf16Length("a\U{1F600}") == 3
  {
  }
}
