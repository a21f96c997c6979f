/** Base 64 encoding with the URL- and filename-safe alphabet of section 5 of RFC 4648. */
module Base64 {
  import opened Wrappers
  import opened Bytes
  import opened Strings

  type sextet = x: int | 0 <= x < 64

  /** The alphabet of section 5: `A-Z a-z 0-9 - _`. */
  function UrlSafeChar(x: sextet): (c: char)
    ensures UrlSafeValue(c) == Some(x)
  {
    if x < 26 then ('A' as int + x) as char
    else if x < 52 then ('a' as int + x - 26) as char
    else if x < 62 then ('0' as int + x - 52) as char
    else if x == 62 then '-'
    else '_'
  }

  /** The sextet a character of the alphabet stands for. */
  function UrlSafeValue(c: char): Option<sextet> {
    if 'A' <= c <= 'Z' then Some(c as int - 'A' as int)
    else if 'a' <= c <= 'z' then Some(c as int - 'a' as int + 26)
    else if '0' <= c <= '9' then Some(c as int - '0' as int + 52)
    else if c == '-' then Some(62)
    else if c == '_' then Some(63)
    else None
  }

  predicate InAlphabet(c: char) {
    UrlSafeValue(c).Some?
  }

  /** Three octets as four characters (section 4 of RFC 4648). */
  function Block(b0: byte, b1: byte, b2: byte): (s: string)
    ensures |s| == 4 && forall i :: 0 <= i < 4 ==> InAlphabet(s[i])
  {
    [UrlSafeChar(b0 / 4), UrlSafeChar((b0 % 4) * 16 + b1 / 16),
     UrlSafeChar((b1 % 16) * 4 + b2 / 64), UrlSafeChar(b2 % 64)]
  }

  /** The final one or two octets as three or two characters, without their padding. */
  function Tail(bs: seq<byte>): (s: string)
    requires 1 <= |bs| <= 2
    ensures |s| == |bs| + 1
    ensures forall i :: 0 <= i < |s| ==> InAlphabet(s[i])
  {
    if |bs| == 1 then [UrlSafeChar(bs[0] / 4), UrlSafeChar((bs[0] % 4) * 16)]
    else [UrlSafeChar(bs[0] / 4), UrlSafeChar((bs[0] % 4) * 16 + bs[1] / 16), UrlSafeChar((bs[1] % 16) * 4)]
  }

  /** The encoding without its `=` padding. */
  function Unpadded(bs: seq<byte>): (s: string)
    ensures |s| % 4 != 1
    ensures forall i :: 0 <= i < |s| ==> InAlphabet(s[i])
    decreases |bs|
  {
    if |bs| == 0 then ""
    else if |bs| < 3 then Tail(bs)
    else Block(bs[0], bs[1], bs[2]) + Unpadded(bs[3..])
  }

  /** `base64.urlsafe_b64encode(bs)`: groups of three octets as four characters, a short final group padded with `=`. */
  function Encode(bs: seq<byte>): (s: string)
    ensures |s| % 4 == 0
    decreases |bs|
  {
    if |bs| == 0 then ""
    else if |bs| == 1 then Tail(bs) + "=="
    else if |bs| == 2 then Tail(bs) + "="
    else Block(bs[0], bs[1], bs[2]) + Encode(bs[3..])
  }

  /** Four characters of the alphabet as three octets. */
  function DecodeBlock(q: string): Option<seq<byte>>
    requires |q| == 4
  {
    match (UrlSafeValue(q[0]), UrlSafeValue(q[1]), UrlSafeValue(q[2]), UrlSafeValue(q[3]))
    case (Some(x0), Some(x1), Some(x2), Some(x3)) =>
      Some([x0 as int * 4 + x1 / 16, (x1 % 16) as int * 16 + x2 / 4, (x2 % 4) as int * 64 + x3])
    case _ => None
  }

  /** The last group, which may end in `==` (one octet) or `=` (two octets). */
  function DecodeFinal(q: string): Option<seq<byte>>
    requires |q| == 4
  {
    if q[2] == '=' && q[3] == '=' then
      match (UrlSafeValue(q[0]), UrlSafeValue(q[1]))
      case (Some(x0), Some(x1)) => Some([x0 as int * 4 + x1 / 16])
      case _ => None
    else if q[3] == '=' then
      match (UrlSafeValue(q[0]), UrlSafeValue(q[1]), UrlSafeValue(q[2]))
      case (Some(x0), Some(x1), Some(x2)) => Some([x0 as int * 4 + x1 / 16, (x1 % 16) as int * 16 + x2 / 4])
      case _ => None
    else DecodeBlock(q)
  }

  /** Strict decoding of a padded text; `None` where it is not a whole number of groups of the alphabet. */
  function Decode(s: string): Option<seq<byte>>
    decreases |s|
  {
    if |s| == 0 then Some([])
    else if |s| < 4 then None
    else if |s| == 4 then DecodeFinal(s)
    else
      match DecodeBlock(s[..4])
      case None => None
      case Some(head) =>
        match Decode(s[4..])
        case None => None
        case Some(tail) => Some(head + tail)
  }

  /** Padding restored to a multiple of four characters, as a decoder of unpadded tokens adds it. */
  function Repad(s: string): (r: string)
    ensures |r| % 4 == 0
  {
    s + seq((4 - |s| % 4) % 4, _ => '=')
  }

  lemma DecodeBlockOfBlock(b0: byte, b1: byte, b2: byte)
    ensures DecodeBlock(Block(b0, b1, b2)) == Some([b0, b1, b2])
  {
    var x0, x1, x2, x3 := b0 / 4, (b0 % 4) * 16 + b1 / 16, (b1 % 16) * 4 + b2 / 64, b2 % 64;
    var q := Block(b0, b1, b2);
    assert UrlSafeValue(q[0]) == Some(x0) && UrlSafeValue(q[1]) == Some(x1);
    assert UrlSafeValue(q[2]) == Some(x2) && UrlSafeValue(q[3]) == Some(x3);
    SextetsOfBlock(b0, b1, b2);
  }

  /** The four sextets of three octets give the octets back. */
  lemma SextetsOfBlock(b0: byte, b1: byte, b2: byte)
    ensures var x0, x1, x2, x3 := b0 / 4, (b0 % 4) * 16 + b1 / 16, (b1 % 16) * 4 + b2 / 64, b2 % 64;
      && x0 * 4 + x1 / 16 == b0 && (x1 % 16) * 16 + x2 / 4 == b1 && (x2 % 4) * 64 + x3 == b2
  {
    var x1 := (b0 % 4) * 16 + b1 / 16;
    var x2 := (b1 % 16) * 4 + b2 / 64;
    assert x1 / 16 == b0 % 4 && x1 % 16 == b1 / 16;
    assert x2 / 4 == b1 % 16 && x2 % 4 == b2 / 64;
  }

  lemma DecodeEncodeOne(b0: byte)
    ensures Decode(Encode([b0])) == Some([b0])
  {
    var x1 := (b0 % 4) * 16;
    assert x1 / 16 == b0 % 4;
    assert Encode([b0]) == [UrlSafeChar(b0 / 4), UrlSafeChar(x1), '=', '='];
  }

  lemma DecodeEncodeTwo(b0: byte, b1: byte)
    ensures Decode(Encode([b0, b1])) == Some([b0, b1])
  {
    var x1 := (b0 % 4) * 16 + b1 / 16;
    var x2 := (b1 % 16) * 4;
    assert x1 / 16 == b0 % 4 && x1 % 16 == b1 / 16 && x2 / 4 == b1 % 16;
    var c2 := UrlSafeChar(x2);
    assert c2 != '=' by { assert InAlphabet(c2); }
    var s := [UrlSafeChar(b0 / 4), UrlSafeChar(x1), c2, '='];
    assert Encode([b0, b1]) == s;
    assert DecodeFinal(s) == Some([(b0 / 4) as int * 4 + x1 / 16, (x1 % 16) as int * 16 + x2 / 4]);
  }

  /** Decoding what was encoded gives back the octets. */
  lemma {:induction false} DecodeEncode(bs: seq<byte>)
    ensures Decode(Encode(bs)) == Some(bs)
    decreases |bs|
  {
    if |bs| == 1 {
      assert bs == [bs[0]];
      DecodeEncodeOne(bs[0]);
    } else if |bs| == 2 {
      assert bs == [bs[0], bs[1]];
      DecodeEncodeTwo(bs[0], bs[1]);
    } else if |bs| == 3 {
      assert bs == [bs[0], bs[1], bs[2]];
      DecodeEncodeThree(bs[0], bs[1], bs[2]);
    } else if |bs| > 3 {
      DecodeEncode(bs[3..]);
      DecodeEncodeGroup(bs);
    }
  }

  lemma DecodeEncodeThree(b0: byte, b1: byte, b2: byte)
    ensures Decode(Encode([b0, b1, b2])) == Some([b0, b1, b2])
  {
    var bs := [b0, b1, b2];
    var s := Encode(bs);
    assert bs[3..] == [];
    assert s == Block(b0, b1, b2) + Encode([]);
    assert s == Block(b0, b1, b2);
    DecodeBlockOfBlock(b0, b1, b2);
    assert s[3] != '=' by { assert InAlphabet(UrlSafeChar(b2 % 64)); }
  }

  /** A full group in front decodes to its three octets, ahead of what the rest decodes to. */
  lemma {:induction false} DecodeEncodeGroup(bs: seq<byte>)
    requires |bs| > 3 && Decode(Encode(bs[3..])) == Some(bs[3..])
    ensures Decode(Encode(bs)) == Some(bs)
  {
    EncodeCons(bs);
    DecodeFirstBlock(bs);
    assert bs[..3] + bs[3..] == bs;
    DecodeJoin(Encode(bs), Block(bs[0], bs[1], bs[2]), Encode(bs[3..]), bs, bs[..3], bs[3..]);
  }

  lemma EncodeCons(bs: seq<byte>)
    requires |bs| > 3
    ensures Encode(bs) == Block(bs[0], bs[1], bs[2]) + Encode(bs[3..])
    ensures |Encode(bs[3..])| > 0
  {
  }

  lemma DecodeFirstBlock(bs: seq<byte>)
    requires |bs| >= 3
    ensures DecodeBlock(Block(bs[0], bs[1], bs[2])) == Some(bs[..3])
  {
    DecodeBlockOfBlock(bs[0], bs[1], bs[2]);
    assert bs[..3] == [bs[0], bs[1], bs[2]];
  }

  /** Decoding a text of more than one group: the first group, then the rest. */
  lemma DecodeJoin(s: string, block: string, rest: string, bs: seq<byte>, head: seq<byte>, tail: seq<byte>)
    requires s == block + rest && bs == head + tail
    requires |block| == 4 && |rest| > 0
    requires DecodeBlock(block) == Some(head) && Decode(rest) == Some(tail)
    ensures Decode(s) == Some(bs)
  {
    assert s[..4] == block;
    assert s[4..] == rest;
  }

  /** The padded encoding is the unpadded one followed by `=` characters only. */
  lemma {:induction false} EncodeIsPadded(bs: seq<byte>)
    ensures StartsWith(Encode(bs), Unpadded(bs))
    ensures forall i :: |Unpadded(bs)| <= i < |Encode(bs)| ==> Encode(bs)[i] == '='
    decreases |bs|
  {
    if |bs| >= 3 {
      EncodeIsPadded(bs[3..]);
    }
  }

  /** Stripping the padding and restoring it gives back the padded encoding. */
  lemma {:induction false} RepadUnpadded(bs: seq<byte>)
    ensures Repad(Unpadded(bs)) == Encode(bs)
    decreases |bs|
  {
    if |bs| >= 3 {
      RepadUnpadded(bs[3..]);
      RepadAfterBlock(Block(bs[0], bs[1], bs[2]), Unpadded(bs[3..]));
    } else if |bs| == 1 {
      assert Repad(Tail(bs)) == Tail(bs) + "==";
    } else if |bs| == 2 {
      assert Repad(Tail(bs)) == Tail(bs) + "=";
    }
  }

  /** A full group in front does not change the padding. */
  lemma RepadAfterBlock(block: string, u: string)
    requires |block| == 4
    ensures Repad(block + u) == block + Repad(u)
  {
    assert |block + u| % 4 == |u| % 4;
  }
}
