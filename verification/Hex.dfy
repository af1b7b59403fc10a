/** Base-16 text of byte strings, as encoding/hex produces and accepts it (RFC 4648, section 8). */
module Hex {
  import opened Wrappers
  import opened MachineInts

  function HexDigit(n: nat): char
    requires n < 16
  {
    if n < 10 then '0' + n as char else 'a' + (n - 10) as char
  }

  function HexValue(c: char): (r: Option<nat>)
    ensures r.Some? ==> r.value < 16
  {
    if '0' <= c <= '9' then Some(c as int - '0' as int)
    else if 'a' <= c <= 'f' then Some(c as int - 'a' as int + 10)
    else if 'A' <= c <= 'F' then Some(c as int - 'A' as int + 10)
    else None
  }

  function Encode(bytes: seq<byte>): (s: string)
    ensures |s| == 2 * |bytes|
  {
    if bytes == [] then ""
    else [HexDigit(bytes[0] / 16), HexDigit(bytes[0] % 16)] + Encode(bytes[1..])
  }

  /** Upper and lower case digits are both accepted; an odd length or any other character is an error. */
  function Decode(s: string): (r: Option<seq<byte>>)
    ensures r.Some? ==> |s| == 2 * |r.value|
  {
    if s == "" then Some([])
    else if |s| == 1 then None
    else
      var high :- HexValue(s[0]);
      var low :- HexValue(s[1]);
      var rest :- Decode(s[2..]);
      Some([16 * high + low] + rest)
  }

  function LowerChar(c: char): char {
    if 'A' <= c <= 'F' then 'a' + (c - 'A') else c
  }

  function Lower(s: string): (t: string)
    ensures |t| == |s|
  {
    seq(|s|, i requires 0 <= i < |s| => LowerChar(s[i]))
  }

  lemma EncodeCons(high: nat, low: nat, rest: seq<byte>)
    requires high < 16 && low < 16
    ensures Encode([16 * high + low] + rest) == [HexDigit(high), HexDigit(low)] + Encode(rest)
  {
    assert ([16 * high + low] + rest)[1..] == rest;
  }

  lemma {:induction false} DecodeOfEncode(bytes: seq<byte>)
    ensures Decode(Encode(bytes)) == Some(bytes)
  {
    if bytes != [] {
      var s := Encode(bytes);
      assert s[2..] == Encode(bytes[1..]);
      DecodeOfEncode(bytes[1..]);
      assert bytes == [bytes[0]] + bytes[1..];
    }
  }

  lemma HexDigitOfValue(c: char)
    requires HexValue(c).Some?
    ensures HexDigit(HexValue(c).value) == LowerChar(c)
  {
  }

  /** The text of the decoded bytes is the lower-case form of the text that was decoded. */
  lemma {:induction false} EncodeOfDecode(s: string)
    requires Decode(s).Some?
    ensures Encode(Decode(s).value) == Lower(s)
  {
    if s != "" {
      var rest := Decode(s[2..]).value;
      EncodeOfDecode(s[2..]);
      HexDigitOfValue(s[0]);
      HexDigitOfValue(s[1]);
      EncodeCons(HexValue(s[0]).value, HexValue(s[1]).value, rest);
      assert Lower(s) == [LowerChar(s[0]), LowerChar(s[1])] + Lower(s[2..]);
    }
  }

  lemma EncodeInjective(a: seq<byte>, b: seq<byte>)
    requires Encode(a) == Encode(b)
    ensures a == b
  {
    DecodeOfEncode(a);
    DecodeOfEncode(b);
  }

  lemma LowerFixed(s: string)
    ensures Lower(s) == s <==> forall i | 0 <= i < |s| :: !('A' <= s[i] <= 'F')
  {
    forall i | 0 <= i < |s| ensures Lower(s)[i] == s[i] <==> !('A' <= s[i] <= 'F') {
      assert 'A' <= s[i] <= 'F' ==> LowerChar(s[i]) as int == s[i] as int + 32;
    }
    if forall i | 0 <= i < |s| :: !('A' <= s[i] <= 'F') {
      assert forall i | 0 <= i < |s| :: Lower(s)[i] == s[i];
    }
  }

  /** A text is its own re-encoding exactly when it decodes and holds no upper-case digit. */
  lemma CanonicalIff(s: string)
    requires Decode(s).Some?
    ensures Encode(Decode(s).value) == s <==> forall i | 0 <= i < |s| :: !('A' <= s[i] <= 'F')
  {
    EncodeOfDecode(s);
    LowerFixed(s);
  }
}
