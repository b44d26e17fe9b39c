/**
  Register words and the conversions the decoders apply to them: UINT16,
  INT16 (two's complement), UINT32 (high word first) and the string of a
  register range, followed by `strip_escapes`.
 */
module Codec {

  /** One 16-bit holding register as delivered by the Modbus read. */
  type Word = w: int | 0 <= w < 0x1_0000

  /** INT16: the two's complement reading of one register. */
  function Int16(w: Word): (v: int)
    ensures -0x8000 <= v < 0x8000
    ensures (v - w) % 0x1_0000 == 0
  {
    if w < 0x8000 then w else w - 0x1_0000
  }

  /** The register word that carries a signed 16-bit value. */
  function EncodeInt16(v: int): (w: Word)
    requires -0x8000 <= v < 0x8000
    ensures (w - v) % 0x1_0000 == 0
  {
    if v < 0 then v + 0x1_0000 else v
  }

  lemma Int16OfEncode(v: int)
    requires -0x8000 <= v < 0x8000
    ensures Int16(EncodeInt16(v)) == v
  {
  }

  lemma EncodeOfInt16(w: Word)
    ensures EncodeInt16(Int16(w)) == w
  {
  }

  /** UINT32 from two registers, the high word first: both words are
      recovered from the value, so the reading is injective. */
  function Uint32(hi: Word, lo: Word): (v: int)
    ensures 0 <= v < 0x1_0000_0000
    ensures v / 0x1_0000 == hi && v % 0x1_0000 == lo
  {
    hi * 0x1_0000 + lo
  }

  /** A register range read as text: each word gives two characters, the
      high byte first (a one-byte-per-character reading of the bytes). */
  function DecodeString(words: seq<Word>): (r: string)
    ensures |r| == 2 * |words|
  {
    if words == [] then []
    else [(words[0] / 0x100) as char, (words[0] % 0x100) as char] + DecodeString(words[1..])
  }

  /** Character `2i` of the text is the high byte of word `i`, character
      `2i + 1` its low byte. */
  lemma {:induction false} DecodeStringBytes(words: seq<Word>)
    ensures var r := DecodeString(words);
      forall i :: 0 <= i < |words| ==>
        r[2 * i] as int == words[i] / 0x100 && r[2 * i + 1] as int == words[i] % 0x100
  {
    if words != [] {
      DecodeStringBytes(words[1..]);
      var r := DecodeString(words);
      forall i | 0 <= i < |words|
        ensures r[2 * i] as int == words[i] / 0x100 && r[2 * i + 1] as int == words[i] % 0x100
      {
        if i > 0 {
          assert r[2 * i] == DecodeString(words[1..])[2 * (i - 1)];
          assert r[2 * i + 1] == DecodeString(words[1..])[2 * (i - 1) + 1];
        }
      }
    }
  }

  /** The characters `strip_escapes` filters out: code points 0 to 31. */
  predicate IsControl(c: char)
  {
    c as int < 32
  }

  /** Python's `str.isspace`, the set `str.strip()` trims. */
  predicate IsSpace(c: char)
  {
    var n := c as int;
    (9 <= n <= 13) || (0x1c <= n <= 0x20) || n == 0x85 || n == 0xa0 || n == 0x1680
    || (0x2000 <= n <= 0x200a) || n == 0x2028 || n == 0x2029 || n == 0x202f
    || n == 0x205f || n == 0x3000
  }

  /** Text as `strip_escapes` leaves it: no control character and no white
      space at either end. */
  predicate Clean(s: string)
  {
    (forall i :: 0 <= i < |s| ==> !IsControl(s[i])) && (s == [] || (!IsSpace(s[0]) && !IsSpace(s[|s| - 1])))
  }

  /** `translate` with the code points 0..31 deleted. */
  function RemoveControls(s: string): (r: string)
    ensures |r| <= |s|
  {
    if s == [] then []
    else if IsControl(s[0]) then RemoveControls(s[1..])
    else [s[0]] + RemoveControls(s[1..])
  }

  /** No control character survives, and text without one is unchanged. */
  lemma {:induction false} RemoveControlsClean(s: string)
    ensures forall i :: 0 <= i < |RemoveControls(s)| ==> !IsControl(RemoveControls(s)[i])
    ensures (forall i :: 0 <= i < |s| ==> !IsControl(s[i])) ==> RemoveControls(s) == s
  {
    if s != [] {
      RemoveControlsClean(s[1..]);
      if !IsControl(s[0]) {
        var r := RemoveControls(s);
        assert forall i :: 1 <= i < |r| ==> r[i] == RemoveControls(s[1..])[i - 1];
        if forall i :: 0 <= i < |s| ==> !IsControl(s[i]) {
          assert forall i :: 0 <= i < |s[1..]| ==> !IsControl(s[1..][i]) by {
            forall i | 0 <= i < |s[1..]| ensures !IsControl(s[1..][i]) {
              assert s[1..][i] == s[i + 1];
            }
          }
          assert s == [s[0]] + s[1..];
        }
      }
    }
  }

  /** The characters kept are exactly the non-control characters of `s`. */
  lemma {:induction false} RemoveControlsMembers(s: string)
    ensures forall c :: c in RemoveControls(s) <==> c in s && !IsControl(c)
  {
    if s != [] {
      RemoveControlsMembers(s[1..]);
      assert s == [s[0]] + s[1..];
    }
  }

  /** `lstrip()`: drop the leading white space. */
  function TrimStart(s: string): (r: string)
    ensures |r| <= |s|
  {
    if s != [] && IsSpace(s[0]) then TrimStart(s[1..]) else s
  }

  /** `lstrip()` keeps the longest suffix of `s` that does not start with
      white space. */
  lemma {:induction false} TrimStartSpec(s: string)
    ensures var r := TrimStart(s);
      && r == s[|s| - |r|..]
      && (forall i :: 0 <= i < |s| - |r| ==> IsSpace(s[i]))
      && (r == [] || !IsSpace(r[0]))
  {
    if s != [] && IsSpace(s[0]) {
      TrimStartSpec(s[1..]);
      var r := TrimStart(s);
      assert forall i :: 1 <= i < |s| - |r| ==> s[i] == s[1..][i - 1];
    }
  }

  /** `rstrip()`: drop the trailing white space. */
  function TrimEnd(s: string): (r: string)
    ensures |r| <= |s|
  {
    if s != [] && IsSpace(s[|s| - 1]) then TrimEnd(s[..|s| - 1]) else s
  }

  /** `rstrip()` keeps the longest prefix of `s` that does not end with
      white space. */
  lemma {:induction false} TrimEndSpec(s: string)
    ensures var r := TrimEnd(s);
      && r == s[..|r|]
      && (forall i :: |r| <= i < |s| ==> IsSpace(s[i]))
      && (r == [] || !IsSpace(r[|r| - 1]))
  {
    if s != [] && IsSpace(s[|s| - 1]) {
      TrimEndSpec(s[..|s| - 1]);
      var r := TrimEnd(s);
      assert forall i :: |r| <= i < |s| - 1 ==> s[i] == s[..|s| - 1][i];
    }
  }

  /** `strip()` keeps a contiguous piece of its input that neither starts
      nor ends with white space. */
  lemma StripPiece(t: string)
    ensures var r := TrimEnd(TrimStart(t));
      (r == [] || (!IsSpace(r[0]) && !IsSpace(r[|r| - 1])))
      && (exists i, j :: 0 <= i <= j <= |t| && r == t[i..j])
      && ((forall k :: 0 <= k < |t| ==> !IsControl(t[k])) ==> forall k :: 0 <= k < |r| ==> !IsControl(r[k]))
  {
    var u := TrimStart(t);
    var r := TrimEnd(u);
    TrimStartSpec(t);
    TrimEndSpec(u);
    var i := |t| - |u|;
    assert forall k :: 0 <= k < |r| ==> r[k] == u[k] == t[i + k];
    assert r == t[i..i + |r|];
    if r != [] {
      assert r[0] == u[0];
    }
  }

  /** `strip_escapes`: delete the control characters, then `strip()`. */
  function StripEscapes(s: string): string
  {
    TrimEnd(TrimStart(RemoveControls(s)))
  }

  /** The result of `strip_escapes` is clean, and it is a contiguous piece
      of the text with the control characters deleted. */
  lemma StripEscapesClean(s: string)
    ensures Clean(StripEscapes(s))
    ensures exists i, j :: 0 <= i <= j <= |RemoveControls(s)| && StripEscapes(s) == RemoveControls(s)[i..j]
  {
    RemoveControlsClean(s);
    StripPiece(RemoveControls(s));
  }

  lemma {:induction false} TrimStartOfClean(s: string)
    requires s == [] || !IsSpace(s[0])
    ensures TrimStart(s) == s
  {
  }

  lemma {:induction false} TrimEndOfClean(s: string)
    requires s == [] || !IsSpace(s[|s| - 1])
    ensures TrimEnd(s) == s
  {
  }

  /** Cleaning a string that `strip_escapes` already produced changes nothing. */
  lemma StripEscapesIdempotent(s: string)
    ensures StripEscapes(StripEscapes(s)) == StripEscapes(s)
  {
    var r := StripEscapes(s);
    StripEscapesClean(s);
    RemoveControlsClean(r);
    TrimStartOfClean(r);
    TrimEndOfClean(r);
  }

  lemma RemoveControlsExample()
    ensures RemoveControls(" X\0 ") == " X "
  {
    assert RemoveControls(" ") == " ";
    assert RemoveControls("\0 ") == " ";
    assert RemoveControls("X\0 ") == "X ";
  }

  lemma StripExample()
    ensures TrimEnd(TrimStart(" X ")) == "X"
  {
    assert TrimStart("X ") == "X ";
    assert TrimStart(" X ") == "X ";
    assert TrimEnd("X") == "X";
    assert TrimEnd("X ") == "X";
  }

  /** A NUL padding and the blanks around a name vanish. */
  lemma StripEscapesExample()
    ensures StripEscapes(" X\0 ") == "X"
  {
    RemoveControlsExample();
    StripExample();
  }
}
