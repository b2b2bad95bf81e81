/**
  How a receiver is stored: a nonce, the sealed text after it, both in lowercase
  hexadecimal.  The cipher itself is a pair of functions.
 */
module AesGcm {
  import opened Entities

  datatype Aead = Aead(nonceSize: nat, seal: (Bytes, Bytes) -> Bytes, open: (Bytes, Bytes) -> Option<Bytes>)

  /** Sections 7.1 and 7.2 of NIST SP 800-38D: decryption under the same nonce returns the plaintext. */
  ghost predicate OpenInvertsSeal(a: Aead) {
    forall nonce, plain :: |nonce| == a.nonceSize ==> a.open(nonce, a.seal(nonce, plain)) == Some(plain)
  }

  /******* Hexadecimal *******/

  const HEX: string := "0123456789abcdef"

  function HexDigit(n: int): (c: char)
    requires 0 <= n < 16
    ensures HexValue(c) == Some(n)
  {
    HEX[n]
  }

  /** Both cases are read; only lowercase is written. */
  function HexValue(c: char): Option<int> {
    if '0' <= c <= '9' then Some(c as int - '0' as int)
    else if 'a' <= c <= 'f' then Some(c as int - 'a' as int + 10)
    else if 'A' <= c <= 'F' then Some(c as int - 'A' as int + 10)
    else None
  }

  function Lower(c: char): char {
    if 'A' <= c <= 'F' then (c as int - 'A' as int + 'a' as int) as char else c
  }

  function HexEncode(b: Bytes): string {
    if b == [] then "" else [HexDigit(b[0] as int / 16), HexDigit(b[0] as int % 16)] + HexEncode(b[1..])
  }

  function HexDecode(s: string): Option<Bytes> {
    if s == "" then Some([])
    else if |s| == 1 then None
    else match (HexValue(s[0]), HexValue(s[1]), HexDecode(s[2..]))
      case (Some(hi), Some(lo), Some(rest)) => Some([(hi * 16 + lo) as byte] + rest)
      case _ => None
  }

  /** The two digits of a byte read back as the byte. */
  lemma DigitsOf(x: byte)
    ensures HexValue(HexDigit(x as int / 16)) == Some(x as int / 16)
    ensures HexValue(HexDigit(x as int % 16)) == Some(x as int % 16)
    ensures ((x as int / 16) * 16 + x as int % 16) as byte == x
  {
  }

  /** Two digits in front of decoded text. */
  lemma PairDecodes(hi: char, lo: char, rest: string)
    requires HexValue(hi).Some? && HexValue(lo).Some? && HexDecode(rest).Some?
    ensures var x := (HexValue(hi).value * 16 + HexValue(lo).value) as byte;
            HexDecode([hi, lo] + rest) == Some([x] + HexDecode(rest).value)
  {
    assert ([hi, lo] + rest)[2..] == rest;
  }

  lemma {:induction false} HexRoundTrip(b: Bytes)
    ensures HexDecode(HexEncode(b)) == Some(b)
    ensures |HexEncode(b)| == 2 * |b|
  {
    if b != [] {
      HexRoundTrip(b[1..]);
      DigitsOf(b[0]);
      PairDecodes(HexDigit(b[0] as int / 16), HexDigit(b[0] as int % 16), HexEncode(b[1..]));
      assert [b[0]] + b[1..] == b;
    }
  }

  ghost predicate AllHex(s: string) { forall i :: 0 <= i < |s| ==> HexValue(s[i]).Some? }

  /** Decoding succeeds exactly on an even number of hex digits. */
  lemma {:induction false} HexDecodes(s: string)
    ensures HexDecode(s).Some? <==> |s| % 2 == 0 && AllHex(s)
  {
    if |s| >= 2 {
      HexDecodes(s[2..]);
      assert AllHex(s) ==> AllHex(s[2..]);
      if HexValue(s[0]).Some? && HexValue(s[1]).Some? && AllHex(s[2..]) {
        forall i | 0 <= i < |s| ensures HexValue(s[i]).Some? {
          if i >= 2 { assert s[i] == s[2..][i - 2]; }
        }
      }
    }
  }

  function LowerAll(s: string): string {
    if s == "" then "" else [Lower(s[0])] + LowerAll(s[1..])
  }

  lemma PairEncodes(x: byte, rest: Bytes)
    ensures HexEncode([x] + rest) == [HexDigit(x as int / 16), HexDigit(x as int % 16)] + HexEncode(rest)
  {
  }

  lemma LowerPair(hi: char, lo: char, rest: string)
    ensures LowerAll([hi, lo] + rest) == [Lower(hi), Lower(lo)] + LowerAll(rest)
  {
  }

  /** Encoding what was decoded gives the text back in lowercase. */
  lemma {:induction false} HexReencode(s: string)
    requires HexDecode(s).Some?
    ensures HexEncode(HexDecode(s).value) == LowerAll(s)
  {
    if |s| >= 2 {
      var rest := s[2..];
      assert s == [s[0], s[1]] + rest;
      HexReencode(rest);
      PairLowers(s[0], s[1]);
      PairDecodes(s[0], s[1], rest);
      PairEncodes((HexValue(s[0]).value * 16 + HexValue(s[1]).value) as byte, HexDecode(rest).value);
      LowerPair(s[0], s[1], rest);
    }
  }

  lemma PairLowers(hi: char, lo: char)
    requires HexValue(hi).Some? && HexValue(lo).Some?
    ensures var v := HexValue(hi).value * 16 + HexValue(lo).value;
            0 <= v < 256 && HexDigit(v / 16) == Lower(hi) && HexDigit(v % 16) == Lower(lo)
  {
    DigitLowers(hi);
    DigitLowers(lo);
  }

  lemma DigitLowers(c: char)
    requires HexValue(c).Some?
    ensures 0 <= HexValue(c).value < 16 && HexDigit(HexValue(c).value) == Lower(c)
  {
  }

  /******* Framing *******/

  function Encrypt(a: Aead, plain: Bytes, nonce: Bytes): string {
    HexEncode(nonce + a.seal(nonce, plain))
  }

  /** Which of the three checks a stored text fails, or the plaintext. */
  datatype Decrypted = Plain(text: Bytes) | NotHex | TooShort | NotAuthentic

  function Decrypt(a: Aead, stored: string): Decrypted {
    match HexDecode(stored)
    case None => NotHex
    case Some(b) =>
      if |b| < a.nonceSize then TooShort
      else match a.open(b[..a.nonceSize], b[a.nonceSize..])
        case None => NotAuthentic
        case Some(p) => Plain(p)
  }

  /** The parts of a stored text: its length, and the one nonce and body that are written so. */
  lemma SplitText(a: Aead, stored: string)
    ensures HexDecode(stored).Some? <==> |stored| % 2 == 0 && AllHex(stored)
    ensures HexDecode(stored).Some? ==> |stored| == 2 * |HexDecode(stored).value|
    ensures forall nonce, body ::
              HexDecode(stored).Some? && |nonce| == a.nonceSize && HexEncode(nonce + body) == LowerAll(stored) ==>
              HexDecode(stored).value == nonce + body
  {
    HexDecodes(stored);
    if HexDecode(stored).Some? {
      HexReencode(stored);
      HexRoundTrip(HexDecode(stored).value);
      LowerLength(stored);
      forall nonce, body | |nonce| == a.nonceSize && HexEncode(nonce + body) == LowerAll(stored)
        ensures HexDecode(stored).value == nonce + body
      {
        HexRoundTrip(nonce + body);
      }
    }
  }

  lemma {:induction false} LowerLength(s: string)
    ensures |LowerAll(s)| == |s|
  {
    if s != "" { LowerLength(s[1..]); }
  }

  /** The nonce buffer is filled from the random source and the sealed text appended to it. */
  method AesEncrypt(a: Aead, plaintext: Bytes, random: Option<nat -> byte>) returns (r: Option<string>)
    ensures random.None? ==> r.None?
    ensures random.Some? ==> r == Some(Encrypt(a, plaintext, seq(a.nonceSize, (i: nat) => random.value(i))))
  {
    if random.None? {
      return None;
    }
    var nonce := new byte[a.nonceSize];
    for i := 0 to nonce.Length
      invariant forall k :: 0 <= k < i ==> nonce[k] == random.value(k)
    {
      nonce[i] := random.value(i);
    }
    assert nonce[..] == seq(a.nonceSize, (i: nat) => random.value(i));
    var ciphertext := nonce[..] + a.seal(nonce[..], plaintext);
    r := Some(HexEncode(ciphertext));
  }

  /**
    Odd text or a character that is no digit is not hexadecimal; fewer digits than two per nonce byte are too
    short; otherwise the text is that of one nonce and one body, and opening the body decides.
   */
  method AesDecrypt(a: Aead, ciphertextHex: string) returns (r: Decrypted)
    ensures r == Decrypt(a, ciphertextHex)
    ensures r.NotHex? <==> |ciphertextHex| % 2 != 0 || !AllHex(ciphertextHex)
    ensures r.TooShort? <==> !r.NotHex? && |ciphertextHex| < 2 * a.nonceSize
    ensures forall nonce, body {:trigger HexEncode(nonce + body)} ::
              !r.NotHex? && |nonce| == a.nonceSize && HexEncode(nonce + body) == LowerAll(ciphertextHex) ==>
              match a.open(nonce, body) case Some(p) => r == Plain(p) case None => r == NotAuthentic
  {
    SplitText(a, ciphertextHex);
    var decoded := HexDecode(ciphertextHex);
    if decoded.None? {
      return NotHex;
    }
    var ciphertext := decoded.value;
    if |ciphertext| < a.nonceSize {
      return TooShort;
    }
    var nonce, body := ciphertext[..a.nonceSize], ciphertext[a.nonceSize..];
    var unsealed := a.open(nonce, body);
    r := if unsealed.None? then NotAuthentic else Plain(unsealed.value);
  }

  /** What was stored comes back, for every plaintext and every nonce of the right length. */
  lemma StoredRoundTrip(a: Aead, plain: Bytes, nonce: Bytes)
    requires OpenInvertsSeal(a) && |nonce| == a.nonceSize
    ensures Decrypt(a, Encrypt(a, plain, nonce)) == Plain(plain)
  {
    var sealed := a.seal(nonce, plain);
    HexRoundTrip(nonce + sealed);
    assert (nonce + sealed)[..a.nonceSize] == nonce;
    assert (nonce + sealed)[a.nonceSize..] == sealed;
  }
}
