/** The two string-to-bytes encodings the signers use before hashing:
    `bytes(s, 'latin-1')` and `s.encode('utf-8')`. */
module Encoding {
  import opened Wrappers

  newtype byte = x: int | 0 <= x < 256

  predicate IsLatin1(s: string)
  {
    forall i :: 0 <= i < |s| ==> s[i] as int < 256
  }

  predicate IsAscii(s: string)
  {
    forall i :: 0 <= i < |s| ==> s[i] as int < 0x80
  }

  /** `bytes(s, 'latin-1')`: one byte per character, or `None` where a
      character above U+00FF makes Python raise UnicodeEncodeError. */
  function Latin1(s: string): (r: Option<seq<byte>>)
    ensures r.Some? <==> IsLatin1(s)
    ensures r.Some? ==> |r.value| == |s| && forall i :: 0 <= i < |s| ==> r.value[i] as int == s[i] as int
  {
    if IsLatin1(s) then Some(seq(|s|, i requires 0 <= i < |s| => s[i] as int as byte)) else None
  }

  /** `b.decode('latin-1')` */
  function Latin1Decode(b: seq<byte>): (r: string)
    ensures |r| == |b| && IsLatin1(r)
  {
    seq(|b|, i requires 0 <= i < |b| => b[i] as int as char)
  }

  /** Latin-1 loses nothing: decoding gives back the encoded text, and every
      byte string is the encoding of its decoding. */
  lemma Latin1RoundTrip(s: string, b: seq<byte>)
    ensures IsLatin1(s) ==> Latin1Decode(Latin1(s).value) == s
    ensures Latin1(Latin1Decode(b)) == Some(b)
  {
    if IsLatin1(s) {
      assert Latin1Decode(Latin1(s).value) == s;
    }
    var d := Latin1Decode(b);
    assert Latin1(d).value == b;
  }

  lemma Latin1Append(a: string, b: string)
    ensures Latin1(a + b).Some? <==> Latin1(a).Some? && Latin1(b).Some?
    ensures Latin1(a + b).Some? ==> Latin1(a + b).value == Latin1(a).value + Latin1(b).value
  {
    assert IsLatin1(a + b) ==> IsLatin1(a) && IsLatin1(b) by {
      if IsLatin1(a + b) {
        assert forall i :: 0 <= i < |a| ==> a[i] == (a + b)[i];
        assert forall i :: 0 <= i < |b| ==> b[i] == (a + b)[|a| + i];
      }
    }
    if IsLatin1(a) && IsLatin1(b) {
      assert IsLatin1(a + b) by {
        forall i | 0 <= i < |a + b| ensures (a + b)[i] as int < 256 {
          if i >= |a| { assert (a + b)[i] == b[i - |a|]; }
        }
      }
      assert Latin1(a + b).value == Latin1(a).value + Latin1(b).value;
    }
  }

  /** The UTF-8 encoding of one code point: one byte below U+0080, else a
      lead byte announcing the length followed by continuation bytes. */
  function Utf8Char(c: char): (r: seq<byte>)
    ensures 1 <= |r| <= 4
    ensures |r| == 1 <==> c as int < 0x80
    ensures |r| == 1 ==> r[0] as int == c as int
    ensures |r| == 2 ==> 0xC0 <= r[0] < 0xE0
    ensures |r| == 3 ==> 0xE0 <= r[0] < 0xF0
    ensures |r| == 4 ==> 0xF0 <= r[0] < 0xF8
    ensures forall k :: 1 <= k < |r| ==> 0x80 <= r[k] < 0xC0
  {
    var n := c as int;
    if n < 0x80 then [n as byte]
    else if n < 0x800 then [(0xC0 + n / 64) as byte, (0x80 + n % 64) as byte]
    else if n < 0x10000 then [(0xE0 + n / 4096) as byte, (0x80 + n / 64 % 64) as byte, (0x80 + n % 64) as byte]
    else
      assert n < 0x110000;
      [(0xF0 + n / 262144) as byte, (0x80 + n / 4096 % 64) as byte, (0x80 + n / 64 % 64) as byte,
       (0x80 + n % 64) as byte]
  }

  /** `s.encode('utf-8')`, which never raises on a string of code points. */
  function Utf8(s: string): (r: seq<byte>)
    ensures |r| >= |s|
  {
    if s == [] then [] else Utf8Char(s[0]) + Utf8(s[1..])
  }

  /** On ASCII text the two encodings agree, and only there: any other
      character takes more than one UTF-8 byte. */
  lemma {:induction false} Utf8OfAscii(s: string)
    ensures IsAscii(s) ==> Latin1(s).Some? && Utf8(s) == Latin1(s).value
    ensures !IsAscii(s) ==> |Utf8(s)| > |s|
  {
    if s != [] {
      Utf8OfAscii(s[1..]);
      assert forall i :: 0 <= i < |s[1..]| ==> s[1..][i] == s[i + 1];
      if IsAscii(s) {
        assert IsAscii(s[1..]);
        assert Utf8(s) == [s[0] as int as byte] + Latin1(s[1..]).value;
      } else if IsAscii(s[1..]) {
        assert s[0] as int >= 0x80;
      }
    }
  }
}
