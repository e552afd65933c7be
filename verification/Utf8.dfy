/**
 UTF-8, as str.encode("utf-8") produces it: the byte forms of section 3 of RFC 3629
 and a strict decoder, which refuses overlong forms, surrogates and values past the
 last code point.
 */
module Utf8 {
  import opened Wrappers

  type Byte = b: nat | b < 256

  /** Six bits of a code point behind the continuation mark. */
  function Tail(n: nat): Byte { 0x80 + n % 64 }

  function EncodeChar(c: char): seq<Byte> {
    var n := c as nat;
    if n < 0x80 then [n]
    else if n < 0x800 then [0xC0 + n / 64, Tail(n)]
    else if n < 0x1_0000 then [0xE0 + n / 64 / 64, Tail(n / 64), Tail(n)]
    else [0xF0 + n / 64 / 64 / 64, Tail(n / 64 / 64), Tail(n / 64), Tail(n)]
  }

  function Encode(s: string): seq<Byte> {
    if s == "" then [] else EncodeChar(s[0]) + Encode(s[1..])
  }

  /** The length of the form a lead byte announces; 0 for a byte that leads none. */
  function Announced(b: Byte): nat {
    if b < 0x80 then 1 else if b < 0xC0 then 0 else if b < 0xE0 then 2 else if b < 0xF0 then 3
    else if b < 0xF8 then 4 else 0
  }

  /** Six more bits. */
  function Join(high: nat, b: Byte): nat { high * 64 + b % 64 }

  /** The code point in the first k bytes, all but the first of which hold six bits each. */
  function Value(bytes: seq<Byte>, k: nat): nat
    requires 1 <= k <= 4 && k <= |bytes| && Announced(bytes[0]) == k
  {
    var lead: nat := bytes[0];
    match k
    case 1 => lead
    case 2 => Join(lead - 0xC0, bytes[1])
    case 3 => Join(Join(lead - 0xE0, bytes[1]), bytes[2])
    case _ => Join(Join(Join(lead - 0xF0, bytes[1]), bytes[2]), bytes[3])
  }

  /** The smallest code point that needs k bytes. */
  function Least(k: nat): nat { if k <= 1 then 0 else if k == 2 then 0x80 else if k == 3 then 0x800 else 0x1_0000 }

  predicate IsScalar(n: nat) { n < 0xD800 || 0xE000 <= n < 0x11_0000 }

  /** A continuation byte. */
  predicate Mark(b: Byte) { 0x80 <= b < 0xC0 }

  /** The bytes begin with a proper form of k bytes. */
  predicate Leads(bytes: seq<Byte>, k: nat) {
    && 1 <= k <= |bytes| && Announced(bytes[0]) == k
    && (forall i :: 1 <= i < k ==> Mark(bytes[i]))
    && Least(k) <= Value(bytes, k) && IsScalar(Value(bytes, k))
  }

  function Decode(bytes: seq<Byte>): Option<string> {
    if bytes == [] then Some("")
    else
      var k := Announced(bytes[0]);
      if !Leads(bytes, k) then None
      else
        match Decode(bytes[k..])
        case None => None
        case Some(s) => Some([Value(bytes, k) as char] + s)
  }

  lemma JoinTail(n: nat, high: nat, b: Byte)
    ensures Join(n / 64, Tail(n)) == n
    ensures Mark(b) ==> Tail(Join(high, b)) == b && Join(high, b) / 64 == high
    ensures Mark(Tail(n))
  {}

  /** A character's form is proper, whatever follows, and gives the character back. */
  lemma CharDecodes(c: char, rest: seq<Byte>)
    ensures var bytes := EncodeChar(c) + rest; var k := |EncodeChar(c)|;
      1 <= k && Announced(bytes[0]) == k && Leads(bytes, k) && Value(bytes, k) == c as nat && bytes[k..] == rest
  {
    hide Join; hide Tail;
    var n := c as nat;
    JoinTail(n, 0, 0);
    JoinTail(n / 64, 0, 0);
    JoinTail(n / 64 / 64, 0, 0);
  }

  lemma JoinBounds(high: nat, b: Byte)
    ensures high * 64 <= Join(high, b) < high * 64 + 64
  {}

  lemma TwoBytes(lead: nat, b: Byte)
    requires lead < 0x20 && Mark(b) && Join(lead, b) >= 0x80
    ensures EncodeChar(Join(lead, b) as char) == [0xC0 + lead, b]
  {
    hide Join; hide Tail;
    JoinTail(0, lead, b);
    JoinBounds(lead, b);
  }

  lemma ThreeBytes(lead: nat, b: Byte, c: Byte)
    requires lead < 0x10 && Mark(b) && Mark(c)
    requires Join(Join(lead, b), c) >= 0x800 && IsScalar(Join(Join(lead, b), c))
    ensures EncodeChar(Join(Join(lead, b), c) as char) == [0xE0 + lead, b, c]
  {
    hide Join; hide Tail;
    JoinTail(0, lead, b);
    JoinTail(0, Join(lead, b), c);
    JoinBounds(lead, b);
    JoinBounds(Join(lead, b), c);
  }

  lemma FourBytes(lead: nat, b: Byte, c: Byte, d: Byte)
    requires lead < 8 && Mark(b) && Mark(c) && Mark(d)
    requires Join(Join(Join(lead, b), c), d) >= 0x1_0000 && IsScalar(Join(Join(Join(lead, b), c), d))
    ensures EncodeChar(Join(Join(Join(lead, b), c), d) as char) == [0xF0 + lead, b, c, d]
  {
    hide Join; hide Tail;
    JoinTail(0, lead, b);
    JoinTail(0, Join(lead, b), c);
    JoinTail(0, Join(Join(lead, b), c), d);
  }

  /** Proper forms are the forms of characters. */
  lemma CharEncodes(bytes: seq<Byte>, k: nat)
    requires Leads(bytes, k)
    ensures EncodeChar(Value(bytes, k) as char) == bytes[..k]
  {
    hide EncodeChar; hide Join;
    assert k == 1 || k == 2 || k == 3 || k == 4;
    if k == 1 {
      OneByte(bytes[0]);
    } else if k == 2 {
      TwoBytes(bytes[0] - 0xC0, bytes[1]);
    } else if k == 3 {
      ThreeBytes(bytes[0] - 0xE0, bytes[1], bytes[2]);
    } else {
      FourBytes(bytes[0] - 0xF0, bytes[1], bytes[2], bytes[3]);
    }
  }

  lemma OneByte(b: Byte)
    requires b < 0x80
    ensures EncodeChar(b as char) == [b]
  {}

  lemma {:induction false} DecodeEncode(s: string)
    ensures Decode(Encode(s)) == Some(s)
  {
    if s != "" {
      CharDecodes(s[0], Encode(s[1..]));
      DecodeEncode(s[1..]);
      hide EncodeChar; hide Leads;
      assert s == [s[0]] + s[1..];
    }
  }

  lemma LeadsWithin(bytes: seq<Byte>, k: nat)
    requires Leads(bytes, k)
    ensures 1 <= k <= 4 && k <= |bytes| && Announced(bytes[0]) == k && IsScalar(Value(bytes, k))
  {}

  lemma {:induction false} EncodeDecode(bytes: seq<Byte>)
    requires Decode(bytes).Some?
    ensures Encode(Decode(bytes).value) == bytes
  {
    hide EncodeChar; hide Leads; hide Value; hide Announced;
    if bytes != [] {
      var k := Announced(bytes[0]);
      LeadsWithin(bytes, k);
      CharEncodes(bytes, k);
      EncodeDecode(bytes[k..]);
      var c, rest := Value(bytes, k) as char, Decode(bytes[k..]).value;
      assert Decode(bytes).value == [c] + rest;
      assert ([c] + rest)[1..] == rest;
      assert bytes == bytes[..k] + bytes[k..];
    }
  }

  /** The decoder inverts the encoder, and accepts nothing else. */
  lemma DecodesExactly(bytes: seq<Byte>, s: string)
    ensures Decode(bytes) == Some(s) <==> bytes == Encode(s)
  {
    DecodeEncode(s);
    if Decode(bytes) == Some(s) {
      EncodeDecode(bytes);
    }
  }

  lemma {:induction false} EncodeAppend(a: string, b: string)
    ensures Encode(a + b) == Encode(a) + Encode(b)
  {
    hide EncodeChar;
    if a == "" {
      assert a + b == b;
    } else {
      assert (a + b)[1..] == a[1..] + b;
      EncodeAppend(a[1..], b);
    }
  }

  /** One character of each length: A, e with acute, the han character zhong, a grinning face. */
  lemma FormsOfEachLength()
    ensures Encode("A") == [0x41]
    ensures Encode("\U{E9}") == [0xC3, 0xA9]
    ensures Encode("\U{4E2D}") == [0xE4, 0xB8, 0xAD]
    ensures Encode("\U{1F600}") == [0xF0, 0x9F, 0x98, 0x80]
  {}
}
