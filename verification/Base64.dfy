/** Base64 with padding (section 6.8 of RFC 2045), as attachments are encoded, and 76-column wrapping. */
module Base64 {
  import opened Collections

  type byte = x: nat | x < 256

  function Char(v: nat): char
    requires v < 64
  {
    if v < 26 then 'A' + v as char
    else if v < 52 then 'a' + (v - 26) as char
    else if v < 62 then '0' + (v - 52) as char
    else if v == 62 then '+' else '/'
  }

  /** The value of an alphabet character; 64 for any other. */
  function Value(c: char): (v: nat)
    ensures v <= 64
  {
    if 'A' <= c <= 'Z' then c as int - 'A' as int
    else if 'a' <= c <= 'z' then c as int - 'a' as int + 26
    else if '0' <= c <= '9' then c as int - '0' as int + 52
    else if c == '+' then 62
    else if c == '/' then 63
    else 64
  }

  lemma CharValue(v: nat)
    requires v < 64
    ensures Value(Char(v)) == v && Char(v) != '=' && Char(v) != '-' && Char(v) != '\r' && Char(v) != '\n'
  {}

  function Encode(bs: seq<byte>): string {
    if |bs| == 0 then ""
    else if |bs| == 1 then
      var a := bs[0];
      [Char(a / 4), Char(a % 4 * 16), '=', '=']
    else if |bs| == 2 then
      var a, b := bs[0], bs[1];
      [Char(a / 4), Char(a % 4 * 16 + b / 16), Char(b % 16 * 4), '=']
    else
      Quad(bs[0], bs[1], bs[2]) + Encode(bs[3..])
  }

  /** Three bytes as four characters. */
  function Quad(a: byte, b: byte, c: byte): (s: string)
    ensures |s| == 4
  {
    [Char(a / 4), Char(a % 4 * 16 + b / 16), Char(b % 16 * 4 + c / 64), Char(c % 64)]
  }

  function Decode(s: string): Option<seq<byte>> {
    if s == "" then Some([])
    else if |s| < 4 then None
    else
      var a, b, c, d := Value(s[0]), Value(s[1]), Value(s[2]), Value(s[3]);
      if a == 64 || b == 64 then None
      else if |s| == 4 && s[2] == '=' && s[3] == '=' then
        if b % 16 == 0 then Some([(a * 4 + b / 16)]) else None
      else if c == 64 then None
      else if |s| == 4 && s[3] == '=' then
        if c % 4 == 0 then Some([(a * 4 + b / 16), (b % 16 * 16 + c / 4)]) else None
      else if d == 64 then None
      else
        match Decode(s[4..])
        case None => None
        case Some(rest) =>
          Some([(a * 4 + b / 16), (b % 16 * 16 + c / 4), (c % 4 * 64 + d)] + rest)
  }

  /** Three bytes regrouped as four sextets, and back. */
  lemma Sextets(a: nat, b: nat, c: nat)
    requires a < 256 && b < 256 && c < 256
    ensures var p, q, r, t := a / 4, a % 4 * 16 + b / 16, b % 16 * 4 + c / 64, c % 64;
            && p < 64 && q < 64 && r < 64 && t < 64
            && p * 4 + q / 16 == a && q % 16 * 16 + r / 4 == b && r % 4 * 64 + t == c
  {
    var q, r := a % 4 * 16 + b / 16, b % 16 * 4 + c / 64;
    assert q / 16 == a % 4 && q % 16 == b / 16;
    assert r / 4 == b % 16 && r % 4 == c / 64;
  }

  lemma RoundTripOne(a: byte)
    ensures Decode(Encode([a])) == Some([a])
  {
    Sextets(a, 0, 0);
    CharValue(a / 4);
    CharValue(a % 4 * 16);
  }

  lemma RoundTripTwo(a: byte, b: byte)
    ensures Decode(Encode([a, b])) == Some([a, b])
  {
    var p, q, r := a / 4, a % 4 * 16 + b / 16, b % 16 * 4;
    Sextets(a, b, 0);
    DecodePair(p, q, r);
  }

  lemma RoundTripMore(a: byte, b: byte, c: byte, rest: seq<byte>)
    requires Decode(Encode(rest)) == Some(rest)
    ensures Decode(Encode([a, b, c] + rest)) == Some([a, b, c] + rest)
  {
    assert ([a, b, c] + rest)[3..] == rest;
    assert Encode([a, b, c] + rest) == Quad(a, b, c) + Encode(rest);
    DecodeQuad(a, b, c, Encode(rest));
  }

  lemma {:induction false} RoundTrip(bs: seq<byte>)
    ensures Decode(Encode(bs)) == Some(bs)
    decreases |bs|
  {
    if |bs| == 1 {
      assert bs == [bs[0]];
      RoundTripOne(bs[0]);
    } else if |bs| == 2 {
      assert bs == [bs[0], bs[1]];
      RoundTripTwo(bs[0], bs[1]);
    } else if |bs| >= 3 {
      RoundTrip(bs[3..]);
      assert bs == [bs[0], bs[1], bs[2]] + bs[3..];
      RoundTripMore(bs[0], bs[1], bs[2], bs[3..]);
    }
  }

  lemma DecodePair(p: nat, q: nat, r: nat)
    requires p < 64 && q < 64 && r < 64 && r % 4 == 0
    ensures Decode([Char(p), Char(q), Char(r), '=']) == Some([(p * 4 + q / 16), (q % 16 * 16 + r / 4)])
  {
    CharValue(p);
    CharValue(q);
    CharValue(r);
  }

  lemma DecodeQuad(a: byte, b: byte, c: byte, rest: string)
    requires Decode(rest).Some?
    ensures Decode(Quad(a, b, c) + rest) == Some([a, b, c] + Decode(rest).value)
  {
    var p, q, r, t := a / 4, a % 4 * 16 + b / 16, b % 16 * 4 + c / 64, c % 64;
    Sextets(a, b, c);
    DecodeSextets(p, q, r, t, rest, Quad(a, b, c) + rest);
  }

  lemma DecodeSextets(p: nat, q: nat, r: nat, t: nat, rest: string, s: string)
    requires p < 64 && q < 64 && r < 64 && t < 64 && Decode(rest).Some?
    requires s == [Char(p), Char(q), Char(r), Char(t)] + rest
    ensures Decode(s) == Some([p * 4 + q / 16, q % 16 * 16 + r / 4, r % 4 * 64 + t] + Decode(rest).value)
  {
    CharValue(p);
    CharValue(q);
    CharValue(r);
    CharValue(t);
    assert s[0] == Char(p) && s[1] == Char(q) && s[2] == Char(r) && s[3] == Char(t);
    assert s[4..] == rest;
  }

  /** Encoded text uses only the alphabet and padding. */
  predicate Plain(s: string) { forall i :: 0 <= i < |s| ==> s[i] == '=' || Value(s[i]) < 64 }

  lemma {:induction false} EncodePlain(bs: seq<byte>)
    ensures Plain(Encode(bs))
    decreases |bs|
  {
    if |bs| == 1 {
      var a := bs[0];
      CharValue(a / 4);
      CharValue(a % 4 * 16);
    } else if |bs| == 2 {
      var a, b := bs[0], bs[1];
      CharValue(a / 4);
      CharValue(a % 4 * 16 + b / 16);
      CharValue(b % 16 * 4);
    } else if |bs| >= 3 {
      var a, b, c := bs[0], bs[1], bs[2];
      CharValue(a / 4);
      CharValue(a % 4 * 16 + b / 16);
      CharValue(b % 16 * 4 + c / 64);
      CharValue(c % 64);
      EncodePlain(bs[3..]);
    }
  }

  const COLUMNS := 76

  /** Lines of at most 76 characters whose concatenation is the text. */
  function Wrapped(s: string): (ls: seq<string>)
    ensures forall i :: 0 <= i < |ls| ==> 0 < |ls[i]| <= COLUMNS
    ensures forall i :: 0 <= i < |ls| - 1 ==> |ls[i]| == COLUMNS
    ensures Plain(s) ==> forall i :: 0 <= i < |ls| ==> Plain(ls[i])
  {
    if s == "" then []
    else if |s| <= COLUMNS then [s]
    else [s[..COLUMNS]] + Wrapped(s[COLUMNS..])
  }

  function Joined(ls: seq<string>): string { if ls == [] then "" else ls[0] + Joined(ls[1..]) }

  lemma {:induction false} JoinedWrapped(s: string)
    ensures Joined(Wrapped(s)) == s
    decreases |s|
  {
    if |s| > COLUMNS {
      JoinedWrapped(s[COLUMNS..]);
      assert Wrapped(s)[1..] == Wrapped(s[COLUMNS..]);
      assert s == s[..COLUMNS] + s[COLUMNS..];
    } else if s != "" {
      assert Wrapped(s)[1..] == [];
    }
  }

  /** Wrapping and encoding undone together. */
  lemma WrappedRoundTrip(bs: seq<byte>)
    ensures Decode(Joined(Wrapped(Encode(bs)))) == Some(bs)
  {
    JoinedWrapped(Encode(bs));
    RoundTrip(bs);
  }
}
