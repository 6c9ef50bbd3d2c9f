/** The token helpers behind the application's "blockchain" veneer: hash
    tokens, digital-signature tokens, wallet addresses, private keys, the
    transaction-hash format check, the simulated authenticity check and the
    simulated gas price. SHA-256, the clock and the random sources are not
    computed here: they arrive as parameters. */
module BlockchainUtil {
  import opened Common

  newtype byte = x: int | 0 <= x < 256

  predicate IsHexChar(c: char) {
    '0' <= c <= '9' || 'a' <= c <= 'f'
  }

  predicate IsHex(s: string) {
    forall i :: 0 <= i < |s| ==> IsHexChar(s[i])
  }

  /** A SHA-256 digest rendered by `digest("hex")`: 64 lowercase hex characters. */
  type Digest = s: string | |s| == 64 && IsHex(s)
    witness ZeroDigest()

  function ZeroDigest(): (s: string)
    ensures |s| == 64 && IsHex(s)
  {
    Repeat('0', 64)
  }

  /** A token of the form "0x" followed by hexadecimal characters. */
  predicate IsHexToken(s: string, hexLength: nat) {
    |s| == 2 + hexLength && s[..2] == "0x" && IsHex(s[2..])
  }

  function HexChar(d: nat): (c: char)
    requires d < 16
    ensures IsHexChar(c)
  {
    "0123456789abcdef"[d]
  }

  function HexValue(c: char): (d: nat)
    requires IsHexChar(c)
    ensures d < 16 && HexChar(d) == c
  {
    if c <= '9' then c as int - '0' as int else c as int - 'a' as int + 10
  }

  lemma HexValueOfChar(d: nat)
    requires d < 16
    ensures HexValue(HexChar(d)) == d
  {
    assert HexChar(HexValue(HexChar(d))) == HexChar(d);
    assert "0123456789abcdef"[HexValue(HexChar(d))] == "0123456789abcdef"[d];
  }

  /** The byte two hex characters stand for, high nibble first. */
  function PairValue(hi: char, lo: char): byte
    requires IsHexChar(hi) && IsHexChar(lo)
  {
    (16 * HexValue(hi) + HexValue(lo)) as byte
  }

  /** The two hex characters of one byte, high nibble first; they read back as the byte. */
  function HexPair(b: byte): (p: string)
    ensures |p| == 2 && IsHexChar(p[0]) && IsHexChar(p[1])
    ensures PairValue(p[0], p[1]) == b
  {
    HexValueOfChar(b as nat / 16);
    HexValueOfChar(b as nat % 16);
    [HexChar(b as nat / 16), HexChar(b as nat % 16)]
  }

  /** `buffer.toString("hex")`: two lowercase hex characters per byte. */
  function HexEncode(bytes: seq<byte>): (s: string)
    ensures |s| == 2 * |bytes|
  {
    if |bytes| == 0 then ""
    else HexPair(bytes[0]) + HexEncode(bytes[1..])
  }

  /** Every character of an encoding is a lowercase hex digit. */
  lemma {:induction false} HexEncodeIsHex(bytes: seq<byte>)
    ensures IsHex(HexEncode(bytes))
  {
    if |bytes| > 0 {
      HexEncodeIsHex(bytes[1..]);
      var p, t := HexPair(bytes[0]), HexEncode(bytes[1..]);
      assert HexEncode(bytes) == p + t;
      forall i | 0 <= i < |p + t|
        ensures IsHexChar((p + t)[i])
      {
        if i >= 2 {
          assert (p + t)[i] == t[i - 2];
        }
      }
    }
  }

  /** The inverse reading of a hex string, `None` on an odd length or a non-hex character. */
  function HexDecode(s: string): Option<seq<byte>>
  {
    if |s| == 0 then Some([])
    else if |s| == 1 || !IsHexChar(s[0]) || !IsHexChar(s[1]) then None
    else match HexDecode(s[2..])
      case None => None
      case Some(rest) => Some([PairValue(s[0], s[1])] + rest)
  }

  /** Hex encoding loses nothing: decoding it gives the bytes back. */
  lemma {:induction false} HexRoundTrip(bytes: seq<byte>)
    ensures HexDecode(HexEncode(bytes)) == Some(bytes)
  {
    if |bytes| > 0 {
      HexRoundTrip(bytes[1..]);
      RoundTripStep(bytes[0], bytes[1..]);
      assert [bytes[0]] + bytes[1..] == bytes;
    }
  }

  /** One decoded byte, in front of the decoded rest. */
  lemma RoundTripStep(b: byte, rest: seq<byte>)
    requires HexDecode(HexEncode(rest)) == Some(rest)
    ensures HexDecode(HexEncode([b] + rest)) == Some([b] + rest)
  {
    var bytes := [b] + rest;
    assert bytes[0] == b && bytes[1..] == rest;
    EncodeSplits(bytes);
    PairInFront(HexPair(b), HexEncode(rest), rest);
  }

  /** An encoding is the first byte's pair in front of the rest's encoding. */
  lemma EncodeSplits(bytes: seq<byte>)
    requires |bytes| > 0
    ensures HexEncode(bytes) == HexPair(bytes[0]) + HexEncode(bytes[1..])
  {
  }

  /** A pair of hex characters in front of a decodable string decodes to one more byte. */
  lemma PairInFront(p: string, t: string, rest: seq<byte>)
    requires |p| == 2 && IsHexChar(p[0]) && IsHexChar(p[1]) && HexDecode(t) == Some(rest)
    ensures HexDecode(p + t) == Some([PairValue(p[0], p[1])] + rest)
  {
    var s := p + t;
    assert s[0] == p[0] && s[1] == p[1] && s[2..] == t;
    DecodeStep(s, rest);
  }

  /** Decoding reads one byte from the first two characters, then the rest. */
  lemma DecodeStep(s: string, rest: seq<byte>)
    requires |s| >= 2 && IsHexChar(s[0]) && IsHexChar(s[1]) && HexDecode(s[2..]) == Some(rest)
    ensures HexDecode(s) == Some([PairValue(s[0], s[1])] + rest)
  {
  }

  /** `validateTransaction`: non-empty, starts with "0x" and is 66 characters long. */
  function ValidateTransaction(hash: string): (ok: bool)
    ensures ok ==> |hash| == 66 && hash[..2] == "0x"
    ensures |hash| == 66 && hash[..2] == "0x" ==> ok
  {
    |hash| > 0 && |hash| >= 2 && hash[..2] == "0x" && |hash| == 66
  }

  /** `generateBlockchainHash`: "0x" and the hex SHA-256 of the data followed by
      the decimal clock reading `now` (the `Date.now()` call). */
  function GenerateBlockchainHash(data: string, now: Time, sha256: string -> Digest): (token: string)
    ensures IsHexToken(token, 64)
    ensures ValidateTransaction(token)
  {
    "0x" + sha256(data + IntString(now))
  }

  /** Different clock readings give different hash inputs for the same data:
      the token is not reproducible from the data alone. */
  lemma HashInputDependsOnTime(data: string, t1: Time, t2: Time)
    ensures data + IntString(t1) == data + IntString(t2) ==> t1 == t2
  {
    if data + IntString(t1) == data + IntString(t2) {
      PrefixCancels(data, IntString(t1), IntString(t2));
      IntStringInjective(t1, t2);
    }
  }

  /** `createDigitalSignature`: "0x" and the hex SHA-256 of the data alone, so
      equal data always gives the same token. */
  function CreateDigitalSignature(data: string, sha256: string -> Digest): (token: string)
    ensures IsHexToken(token, 64)
    ensures ValidateTransaction(token)
  {
    "0x" + sha256(data)
  }

  /** `verifyPartAuthenticity` with the uniform draw of `Math.random()` given as
      `draw`: a well-formed 66-character hash, a serial number longer than five
      characters, and a draw above 0.05. */
  function VerifyPartAuthenticity(blockchainHash: string, serialNumber: string, draw: real): (authentic: bool)
    ensures |blockchainHash| != 66 || |serialNumber| <= 5 ==> !authentic
    ensures |blockchainHash| == 66 && |serialNumber| > 5 ==> (authentic <==> draw > 0.05)
  {
    var hashCheck := |blockchainHash| > 0 && |blockchainHash| == 66;
    var serialCheck := |serialNumber| > 0 && |serialNumber| > 5;
    hashCheck && serialCheck && draw > 0.05
  }

  /** `generateWalletAddress` over the 20 bytes drawn by `crypto.randomBytes(20)`. */
  function GenerateWalletAddress(random: seq<byte>): (address: string)
    requires |random| == 20
    ensures IsHexToken(address, 40) && |address| == 42
    ensures HexDecode(address[2..]) == Some(random)
  {
    HexRoundTrip(random);
    HexEncodeIsHex(random);
    "0x" + HexEncode(random)
  }

  /** `generatePrivateKey` over the 32 bytes drawn by `crypto.randomBytes(32)`. */
  function GeneratePrivateKey(random: seq<byte>): (key: string)
    requires |random| == 32
    ensures IsHexToken(key, 64) && |key| == 66
    ensures HexDecode(key[2..]) == Some(random)
  {
    HexRoundTrip(random);
    HexEncodeIsHex(random);
    "0x" + HexEncode(random)
  }

  /** A private key has exactly the shape `validateTransaction` accepts, while
      a wallet address never has it. */
  lemma KeyShapes(random20: seq<byte>, random32: seq<byte>)
    requires |random20| == 20 && |random32| == 32
    ensures ValidateTransaction(GeneratePrivateKey(random32))
    ensures !ValidateTransaction(GenerateWalletAddress(random20))
  {
  }

  /** `calculateGasPrice` with `Math.random()` given as `draw`: 20 gwei plus a
      variation of `draw * 10 - 5`, floored, and never below 1. */
  function CalculateGasPrice(draw: real): (gwei: int)
    ensures gwei >= 1
    ensures 0.0 <= draw < 1.0 ==> 15 <= gwei <= 24
  {
    var basePrice := 20.0;
    var variation := draw * 10.0 - 5.0;
    var price := (basePrice + variation).Floor;
    if price < 1 then 1 else price
  }

  /** A string value as `JSON.stringify` renders it: escaped and quoted. */
  function Quoted(s: string): string {
    "\"" + JsonEscape(s) + "\""
  }

  /** How `JSON.stringify` writes one character inside a string: the quote,
      the backslash and the control characters are escaped, short forms
      first, `\u00xx` with lowercase hex for the rest; every other character
      stands for itself. */
  function JsonEscapeChar(c: char): (r: string)
    ensures 1 <= |r| && forall i :: 0 <= i < |r| ==> ' ' <= r[i]
    ensures r == [c] <==> ' ' <= c && c != '"' && c != '\\'
  {
    if c == '"' then "\\\""
    else if c == '\\' then "\\\\"
    else if c as int == 8 then "\\b"
    else if c == '\t' then "\\t"
    else if c == '\n' then "\\n"
    else if c as int == 12 then "\\f"
    else if c == '\r' then "\\r"
    else if c < ' ' then "\\u00" + [HexChar(c as int / 16), HexChar(c as int % 16)]
    else [c]
  }

  /** The characters of a JSON string literal, without its quotes. */
  function JsonEscape(s: string): (r: string)
    ensures forall i :: 0 <= i < |r| ==> ' ' <= r[i]
  {
    if |s| == 0 then "" else JsonEscapeChar(s[0]) + JsonEscape(s[1..])
  }

  /** `JSON.parse`'s reading of one short escape `\x`. */
  function EscapedChar(c: char): char {
    if c == 'b' then 8 as char
    else if c == 'f' then 12 as char
    else if c == 'n' then '\n'
    else if c == 'r' then '\r'
    else if c == 't' then '\t'
    else c
  }

  /** `JSON.parse`'s reading of a `\uXXXX` escape; a lone surrogate, which a
      Dafny character cannot hold, reads as U+FFFD. */
  function CodeUnitChar(h: string): char
    requires |h| == 4 && IsHex(h)
  {
    var v := 4096 * HexValue(h[0]) + 256 * HexValue(h[1]) + 16 * HexValue(h[2]) + HexValue(h[3]);
    if v < 0xD800 || 0xE000 <= v then v as char else '\U{FFFD}'
  }

  /** The text a JSON string literal's characters stand for. */
  function JsonUnescape(t: string): string
    decreases |t|
  {
    if |t| == 0 then ""
    else if t[0] != '\\' || |t| == 1 then [t[0]] + JsonUnescape(t[1..])
    else if t[1] == 'u' && |t| >= 6 && IsHex(t[2..6]) then [CodeUnitChar(t[2..6])] + JsonUnescape(t[6..])
    else [EscapedChar(t[1])] + JsonUnescape(t[2..])
  }

  /** Reading back one escaped character consumes exactly its escape. */
  lemma UnescapeStep(c: char, rest: string)
    ensures JsonUnescape(JsonEscapeChar(c) + rest) == [c] + JsonUnescape(rest)
  {
    var e := JsonEscapeChar(c);
    var t := e + rest;
    if e == [c] {
      assert t[1..] == rest;
    } else if |e| == 6 {
      var hi, lo := c as int / 16, c as int % 16;
      assert t[2..6] == ['0', '0', HexChar(hi), HexChar(lo)];
      HexValueOfChar(hi);
      HexValueOfChar(lo);
      assert t[6..] == rest;
    } else {
      assert t[2..] == rest;
    }
  }

  /** Escaping loses nothing: `JSON.parse` gets back every string. */
  lemma {:induction false} JsonEscapeRoundTrip(s: string)
    ensures JsonUnescape(JsonEscape(s)) == s
  {
    if |s| > 0 {
      UnescapeStep(s[0], JsonEscape(s[1..]));
      JsonEscapeRoundTrip(s[1..]);
    }
  }

  /** Text with no quote, backslash or control character is written as is. */
  lemma {:induction false} JsonEscapeKeepsPlainText(s: string)
    requires forall i :: 0 <= i < |s| ==> ' ' <= s[i] && s[i] != '"' && s[i] != '\\'
    ensures JsonEscape(s) == s
  {
    if |s| > 0 {
      JsonEscapeKeepsPlainText(s[1..]);
    }
  }

  /** `JSON.stringify` of a flat object whose values are already rendered. */
  function JsonObject(fields: seq<(string, string)>): string {
    "{" + JsonFields(fields) + "}"
  }

  function JsonFields(fields: seq<(string, string)>): string {
    if |fields| == 0 then ""
    else
      Quoted(fields[0].0) + ":" + fields[0].1
      + (if |fields| == 1 then "" else "," + JsonFields(fields[1..]))
  }
}
