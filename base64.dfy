/** `base64.StdEncoding.EncodeToString`, which the screenshot step applies
    to the captured image: the padded encoding with the standard alphabet of
    section 4 of RFC 4648. */
module Base64 {
  import opened Base

  /** The symbol for a 6-bit value: `A`–`Z`, `a`–`z`, `0`–`9`, `+`, `/`. */
  function Symbol(i: nat): (c: char)
    requires i < 64
    ensures c != '='
  {
    if i < 26 then ('A' as int + i) as char
    else if i < 52 then ('a' as int + (i - 26)) as char
    else if i < 62 then ('0' as int + (i - 52)) as char
    else if i == 62 then '+'
    else '/'
  }

  predicate IsSymbol(c: char)
  {
    'A' <= c <= 'Z' || 'a' <= c <= 'z' || '0' <= c <= '9' || c == '+' || c == '/'
  }

  /** The 6-bit value a symbol stands for. */
  function SymbolValue(c: char): (i: nat)
    requires IsSymbol(c)
    ensures i < 64
  {
    if 'A' <= c <= 'Z' then c as int - 'A' as int
    else if 'a' <= c <= 'z' then c as int - 'a' as int + 26
    else if '0' <= c <= '9' then c as int - '0' as int + 52
    else if c == '+' then 62
    else 63
  }

  lemma SymbolRoundTrip(i: nat)
    requires i < 64
    ensures IsSymbol(Symbol(i)) && SymbolValue(Symbol(i)) == i
  {
  }

  /** Three bytes as four symbols. */
  function EncodeGroup(a: byte, b: byte, c: byte): (s: string)
    ensures |s| == 4
  {
    var x, y, z := a as int, b as int, c as int;
    [Symbol(x / 4), Symbol(x % 4 * 16 + y / 16), Symbol(y % 16 * 4 + z / 64), Symbol(z % 64)]
  }

  /** The padded encoding: every three bytes give four symbols, and a final
      one or two bytes give two or three symbols and `=` up to four. */
  function Encode(data: seq<byte>): string
    decreases |data|
  {
    if |data| == 0 then ""
    else if |data| == 1 then
      var x := data[0] as int;
      [Symbol(x / 4), Symbol(x % 4 * 16), '=', '=']
    else if |data| == 2 then
      var x, y := data[0] as int, data[1] as int;
      [Symbol(x / 4), Symbol(x % 4 * 16 + y / 16), Symbol(y % 16 * 4), '=']
    else
      EncodeGroup(data[0], data[1], data[2]) + Encode(data[3..])
  }

  /** Four symbols back to three bytes. */
  function DecodeGroup(s: string): (r: seq<byte>)
    requires |s| == 4 && forall k :: 0 <= k < 4 ==> IsSymbol(s[k])
    ensures |r| == 3
  {
    var p, q, u, w := SymbolValue(s[0]), SymbolValue(s[1]), SymbolValue(s[2]), SymbolValue(s[3]);
    [(p * 4 + q / 16) as byte, (q % 16 * 16 + u / 4) as byte, (u % 4 * 64 + w) as byte]
  }

  /** Decoding of the padded form, four symbols at a time; `None` for a
      string that is not one. */
  function Decode(s: string): (r: Option<seq<byte>>)
    decreases |s|
  {
    if |s| == 0 then Some([])
    else if |s| < 4 then None
    else if |s| == 4 && IsSymbol(s[0]) && IsSymbol(s[1]) && s[2] == '=' && s[3] == '=' then
      Some([(SymbolValue(s[0]) * 4 + SymbolValue(s[1]) / 16) as byte])
    else if |s| == 4 && IsSymbol(s[0]) && IsSymbol(s[1]) && IsSymbol(s[2]) && s[3] == '=' then
      var p, q, u := SymbolValue(s[0]), SymbolValue(s[1]), SymbolValue(s[2]);
      Some([(p * 4 + q / 16) as byte, (q % 16 * 16 + u / 4) as byte])
    else if IsSymbol(s[0]) && IsSymbol(s[1]) && IsSymbol(s[2]) && IsSymbol(s[3]) then
      match Decode(s[4..])
      case Some(rest) => Some(DecodeGroup(s[..4]) + rest)
      case None => None
    else None
  }

  // ---------------------------------------------------------------------
  // Properties.

  /** Every started group of three bytes gives four characters. */
  lemma {:induction false} EncodeLength(data: seq<byte>)
    ensures |Encode(data)| == 4 * ((|data| + 2) / 3)
    decreases |data|
  {
    if |data| >= 3 {
      EncodeLength(data[3..]);
      EncodeCons(data);
      assert (|data| + 2) / 3 == (|data[3..]| + 2) / 3 + 1;
    }
  }

  /** A multiple of 16 plus a smaller remainder divides back into the two. */
  lemma Split16(a: int, r: int)
    requires 0 <= r < 16
    ensures (a * 16 + r) / 16 == a && (a * 16 + r) % 16 == r
  {
  }

  lemma Split4(a: int, r: int)
    requires 0 <= r < 4
    ensures (a * 4 + r) / 4 == a && (a * 4 + r) % 4 == r
  {
  }

  /** The three bytes rebuilt from the four 6-bit values of a group. */
  lemma GroupBytes(x: int, y: int, z: int)
    requires 0 <= x < 256 && 0 <= y < 256 && 0 <= z < 256
    ensures (x / 4) * 4 + (x % 4 * 16 + y / 16) / 16 == x
    ensures (x % 4 * 16 + y / 16) % 16 * 16 + (y % 16 * 4 + z / 64) / 4 == y
    ensures (y % 16 * 4 + z / 64) % 4 * 64 + z % 64 == z
  {
    Split16(x % 4, y / 16);
    Split4(y % 16, z / 64);
  }

  lemma GroupRoundTrip(a: byte, b: byte, c: byte)
    ensures forall k :: 0 <= k < 4 ==> IsSymbol(EncodeGroup(a, b, c)[k])
    ensures DecodeGroup(EncodeGroup(a, b, c)) == [a, b, c]
  {
    var x, y, z := a as int, b as int, c as int;
    var p, q, u, w := x / 4, x % 4 * 16 + y / 16, y % 16 * 4 + z / 64, z % 64;
    SymbolRoundTrip(p);
    SymbolRoundTrip(q);
    SymbolRoundTrip(u);
    SymbolRoundTrip(w);
    assert EncodeGroup(a, b, c) == [Symbol(p), Symbol(q), Symbol(u), Symbol(w)];
    GroupBytes(x, y, z);
  }

  /** Three or more bytes are encoded group by group. */
  lemma EncodeCons(data: seq<byte>)
    requires |data| >= 3
    ensures Encode(data) == EncodeGroup(data[0], data[1], data[2]) + Encode(data[3..])
  {
  }

  /** Four symbols in front are decoded as one group. */
  lemma DecodeCons(g: string, t: string)
    requires |g| == 4 && forall k :: 0 <= k < 4 ==> IsSymbol(g[k])
    ensures Decode(g + t) == if Decode(t).Some? then Some(DecodeGroup(g) + Decode(t).value) else None
  {
    var s := g + t;
    assert s[..4] == g && s[4..] == t;
    assert s[2] != '=' && s[3] != '=';
  }

  lemma OneByteRoundTrip(a: byte)
    ensures Decode(Encode([a])) == Some([a])
  {
    var x := a as int;
    SymbolRoundTrip(x / 4);
    SymbolRoundTrip(x % 4 * 16);
    var e := Encode([a]);
    assert e == [Symbol(x / 4), Symbol(x % 4 * 16), '=', '='];
    assert (x / 4) * 4 + (x % 4 * 16) / 16 == x;
  }

  lemma TwoBytesRoundTrip(a: byte, b: byte)
    ensures Decode(Encode([a, b])) == Some([a, b])
  {
    var x, y := a as int, b as int;
    SymbolRoundTrip(x / 4);
    SymbolRoundTrip(x % 4 * 16 + y / 16);
    SymbolRoundTrip(y % 16 * 4);
    var e := Encode([a, b]);
    assert e == [Symbol(x / 4), Symbol(x % 4 * 16 + y / 16), Symbol(y % 16 * 4), '='];
    assert (x / 4) * 4 + (x % 4 * 16 + y / 16) / 16 == x;
    assert (x % 4 * 16 + y / 16) % 16 * 16 + (y % 16 * 4) / 4 == y;
  }

  /** Decoding undoes the encoding: no information is lost. */
  lemma {:induction false} DecodeEncode(data: seq<byte>)
    ensures Decode(Encode(data)) == Some(data)
    decreases |data|
  {
    if |data| == 1 {
      OneByteRoundTrip(data[0]);
      assert [data[0]] == data;
    } else if |data| == 2 {
      TwoBytesRoundTrip(data[0], data[1]);
      assert [data[0], data[1]] == data;
    } else if |data| >= 3 {
      DecodeEncode(data[3..]);
      GroupsRoundTrip(data);
    }
  }

  /** A first group of three bytes survives encoding and decoding when the
      rest does. */
  lemma GroupsRoundTrip(data: seq<byte>)
    requires |data| >= 3 && Decode(Encode(data[3..])) == Some(data[3..])
    ensures Decode(Encode(data)) == Some(data)
  {
    EncodeCons(data);
    GroupRoundTrip(data[0], data[1], data[2]);
    DecodeCons(EncodeGroup(data[0], data[1], data[2]), Encode(data[3..]));
    assert data == [data[0], data[1], data[2]] + data[3..];
  }

  /** The output uses only the alphabet and `=`, and `=` only in the last
      two positions. */
  lemma {:induction false} EncodeAlphabet(data: seq<byte>)
    ensures forall k :: 0 <= k < |Encode(data)| ==>
      IsSymbol(Encode(data)[k]) || (Encode(data)[k] == '=' && k >= |Encode(data)| - 2)
    decreases |data|
  {
    if 1 <= |data| <= 2 {
      var x := data[0] as int;
      SymbolRoundTrip(x / 4);
      if |data| == 1 {
        SymbolRoundTrip(x % 4 * 16);
      } else {
        var y := data[1] as int;
        SymbolRoundTrip(x % 4 * 16 + y / 16);
        SymbolRoundTrip(y % 16 * 4);
      }
    } else if |data| >= 3 {
      GroupRoundTrip(data[0], data[1], data[2]);
      EncodeAlphabet(data[3..]);
    }
  }

  /** The test vectors of section 10 of RFC 4648 for "f", "fo" and
      "foo". */
  lemma EncodeExamples()
    ensures Encode([102]) == "Zg=="
    ensures Encode([102, 111]) == "Zm8="
    ensures Encode([102, 111, 111]) == "Zm9v"
  {
    assert [102 as byte, 111, 111][3..] == [];
  }
}
