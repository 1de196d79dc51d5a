/** base64url (RFC 4648 section 5), padded and raw, as the state and target codecs use it
  * (handlers_oauth.go, handlers_browser.go; encoding/base64 underneath).
  */
module Base64Url {
  import opened Common

  type Sextet = n: int | 0 <= n < 64

  function Digit(n: Sextet): Byte {
    if n < 26 then ('A' as int + n) as char
    else if n < 52 then ('a' as int + (n - 26)) as char
    else if n < 62 then ('0' as int + (n - 52)) as char
    else if n == 62 then '-' else '_'
  }

  function Value(c: Byte): Option<Sextet> {
    if 'A' <= c <= 'Z' then Some(c as int - 'A' as int)
    else if 'a' <= c <= 'z' then Some(c as int - 'a' as int + 26)
    else if '0' <= c <= '9' then Some(c as int - '0' as int + 52)
    else if c == '-' then Some(62)
    else if c == '_' then Some(63)
    else None
  }

  lemma ValueInvertsDigit(n: Sextet)
    ensures Value(Digit(n)) == Some(n)
  {
  }

  function Four(a: Byte, b: Byte, c: Byte): Bytes {
    [Digit(a as int / 4), Digit(a as int % 4 * 16 + b as int / 16),
     Digit(b as int % 16 * 4 + c as int / 64), Digit(c as int % 64)]
  }

  /** The last one or two bytes, without padding. */
  function Tail(s: Bytes): Bytes
    requires |s| < 3
  {
    if |s| == 0 then []
    else if |s| == 1 then [Digit(s[0] as int / 4), Digit(s[0] as int % 4 * 16)]
    else [Digit(s[0] as int / 4), Digit(s[0] as int % 4 * 16 + s[1] as int / 16), Digit(s[1] as int % 16 * 4)]
  }

  function Padding(s: Bytes): Bytes
    requires |s| < 3
  {
    if |s| == 0 then [] else if |s| == 1 then "==" else "="
  }

  function Encode(s: Bytes, padded: bool): Bytes {
    if |s| < 3 then Tail(s) + (if padded then Padding(s) else [])
    else Four(s[0], s[1], s[2]) + Encode(s[3..], padded)
  }

  /** Up to four digits as the bytes they stand for; left-over low bits are dropped unread. */
  function Quantum(s: Bytes): Option<Bytes>
    requires 2 <= |s| <= 4
  {
    var a, b := Value(s[0]), Value(s[1]);
    if a.None? || b.None? then None
    else
      var x := (a.value * 4 + b.value / 16) as char;
      if |s| == 2 then Some([x])
      else
        var c := Value(s[2]);
        if c.None? then None
        else
          var y := (b.value % 16 * 16 + c.value / 4) as char;
          if |s| == 3 then Some([x, y])
          else
            var d := Value(s[3]);
            if d.None? then None else Some([x, y, (c.value % 4 * 64 + d.value) as char])
  }

  /** Line breaks are skipped wherever they occur. */
  function WithoutLineBreaks(s: Bytes): Bytes {
    if s == [] then []
    else (if s[0] == '\r' || s[0] == '\n' then [] else [s[0]]) + WithoutLineBreaks(s[1..])
  }

  function LastGroup(s: Bytes, padded: bool): Option<Bytes>
    requires |s| <= 4
  {
    if |s| == 0 then Some([])
    else if !padded then (if |s| == 1 then None else Quantum(s))
    else if |s| < 4 then None
    else if s[3] != '=' then Quantum(s)
    else if s[2] != '=' then Quantum(s[..3])
    else Quantum(s[..2])
  }

  function DecodeGroups(s: Bytes, padded: bool): Option<Bytes> {
    if |s| <= 4 then LastGroup(s, padded)
    else
      var group, rest := Quantum(s[..4]), DecodeGroups(s[4..], padded);
      if group.None? || rest.None? then None else Some(group.value + rest.value)
  }

  function Decode(s: Bytes, padded: bool): Option<Bytes> {
    DecodeGroups(WithoutLineBreaks(s), padded)
  }

  /** Bytes an encoding may contain. */
  predicate IsURLSafe(c: Byte) {
    Value(c).Some? || c == '='
  }

  lemma BitsRejoin(a: Byte, b: Byte, c: Byte)
    ensures var p, q, r := a as int % 4 * 16 + b as int / 16, b as int % 16 * 4 + c as int / 64, c as int % 64;
            && 0 <= p < 64 && 0 <= q < 64 && 0 <= r < 64
            && a as int / 4 * 4 + p / 16 == a as int
            && p % 16 * 16 + q / 4 == b as int
            && q % 4 * 64 + r == c as int
  {
  }

  lemma FourDecodes(a: Byte, b: Byte, c: Byte)
    ensures Quantum(Four(a, b, c)) == Some([a, b, c])
  {
    BitsRejoin(a, b, c);
    var q := Four(a, b, c);
    ValueInvertsDigit(a as int / 4);
    ValueInvertsDigit(a as int % 4 * 16 + b as int / 16);
    ValueInvertsDigit(b as int % 16 * 4 + c as int / 64);
    ValueInvertsDigit(c as int % 64);
    assert Value(q[0]) == Some(a as int / 4) && Value(q[3]) == Some(c as int % 64);
  }

  lemma OneDecodes(a: Byte)
    ensures Quantum(Tail([a])) == Some([a])
  {
    BitsRejoin(a, 0 as char, 0 as char);
    ValueInvertsDigit(a as int / 4);
    ValueInvertsDigit(a as int % 4 * 16);
  }

  lemma TwoDecode(a: Byte, b: Byte)
    ensures Quantum(Tail([a, b])) == Some([a, b])
  {
    BitsRejoin(a, b, 0 as char);
    ValueInvertsDigit(a as int / 4);
    ValueInvertsDigit(a as int % 4 * 16 + b as int / 16);
    ValueInvertsDigit(b as int % 16 * 4);
  }

  lemma DigitsAreURLSafe(a: Byte, b: Byte, c: Byte)
    ensures forall d | d in Four(a, b, c) :: IsURLSafe(d)
  {
    hide Digit, Value;
    var f := Four(a, b, c);
    ValueInvertsDigit(a as int / 4);
    ValueInvertsDigit(a as int % 4 * 16 + b as int / 16);
    ValueInvertsDigit(b as int % 16 * 4 + c as int / 64);
    ValueInvertsDigit(c as int % 64);
  }

  lemma TailIsURLSafe(s: Bytes)
    requires |s| < 3
    ensures forall d | d in Tail(s) :: IsURLSafe(d)
  {
    forall c | c in Tail(s)
      ensures IsURLSafe(c)
    {
      var i :| 0 <= i < |Tail(s)| && Tail(s)[i] == c;
    }
  }

  lemma {:induction false} EncodingIsURLSafe(s: Bytes, padded: bool)
    ensures forall c | c in Encode(s, padded) :: IsURLSafe(c)
  {
    hide Four, Tail, Value;
    if |s| < 3 {
      TailIsURLSafe(s);
    } else {
      DigitsAreURLSafe(s[0], s[1], s[2]);
      EncodingIsURLSafe(s[3..], padded);
    }
  }

  lemma {:induction false} NothingToSkip(s: Bytes)
    requires forall c | c in s :: IsURLSafe(c)
    ensures WithoutLineBreaks(s) == s
  {
    if s != [] {
      assert s[0] in s;
      NothingToSkip(s[1..]);
    }
  }

  lemma ShortDecodes(s: Bytes, padded: bool)
    requires |s| < 3
    ensures DecodeGroups(Encode(s, padded), padded) == Some(s)
  {
    var e := Encode(s, padded);
    if |s| == 1 {
      assert s == [s[0]];
      OneDecodes(s[0]);
    } else if |s| == 2 {
      assert s == [s[0], s[1]];
      TwoDecode(s[0], s[1]);
    }
    if padded && s != [] {
      assert e[..|Tail(s)|] == Tail(s);
      assert |s| == 2 ==> Value(e[2]).Some?;
    } else {
      assert e == Tail(s);
    }
  }

  lemma FourDecode(s: Bytes, padded: bool)
    requires |s| == 3
    ensures DecodeGroups(Encode(s, padded), padded) == Some(s)
  {
    assert s == [s[0], s[1], s[2]];
    FourDecodes(s[0], s[1], s[2]);
    var e := Encode(s, padded);
    assert s[3..] == [] && Encode(s[3..], padded) == [];
    assert e == Four(s[0], s[1], s[2]) + [];
    assert e == Four(s[0], s[1], s[2]) && Value(e[3]).Some?;
  }

  lemma {:induction false} GroupsDecode(s: Bytes, padded: bool)
    ensures DecodeGroups(Encode(s, padded), padded) == Some(s)
    decreases |s|
  {
    hide Quantum, LastGroup, Value, Tail, Padding, Digit;
    if |s| < 3 {
      ShortDecodes(s, padded);
    } else if |s| == 3 {
      FourDecode(s, padded);
    } else {
      var e := Encode(s, padded);
      FourDecodes(s[0], s[1], s[2]);
      assert [s[0], s[1], s[2]] + s[3..] == s;
      GroupsDecode(s[3..], padded);
      assert e[..4] == Four(s[0], s[1], s[2]) && e[4..] == Encode(s[3..], padded);
      EncodingIsNotEmpty(s[3..], padded);
    }
  }

  lemma EncodingIsNotEmpty(s: Bytes, padded: bool)
    requires s != []
    ensures Encode(s, padded) != []
  {
  }

  /** Decoding inverts encoding for every byte string, padded and raw. */
  lemma DecodeInvertsEncode(s: Bytes, padded: bool)
    ensures Decode(Encode(s, padded), padded) == Some(s)
  {
    EncodingIsURLSafe(s, padded);
    NothingToSkip(Encode(s, padded));
    GroupsDecode(s, padded);
  }

  /** The URL-safe alphabet, in order (RFC 4648 section 5). */
  const UPPER: Bytes := "ABCDEFGHIJKLMNOPQRSTUVWXYZ"
  const LOWER: Bytes := "abcdefghijklmnopqrstuvwxyz"
  const DIGITS: Bytes := "0123456789"
  const ALPHABET: Bytes := UPPER + LOWER + DIGITS + "-_"

  lemma UpperCaseDigits(n: Sextet)
    requires n < 26
    ensures Digit(n) == UPPER[n]
  {
  }

  lemma LowerCaseDigits(n: Sextet)
    requires 26 <= n < 52
    ensures Digit(n) == LOWER[n - 26]
  {
  }

  lemma OtherDigits(n: Sextet)
    requires 52 <= n
    ensures Digit(n) == (DIGITS + "-_")[n - 52]
  {
  }

  /** Digit n is entry n of the alphabet. */
  lemma DigitsAreTheAlphabet(n: Sextet)
    ensures |ALPHABET| == 64 && Digit(n) == ALPHABET[n]
  {
    hide Digit;
    assert |UPPER| == 26 && |LOWER| == 26 && |DIGITS| == 10;
    if n < 26 {
      UpperCaseDigits(n);
    } else if n < 52 {
      LowerCaseDigits(n);
    } else {
      OtherDigits(n);
    }
  }

  /** And nothing else is read as a digit. */
  lemma OnlyTheAlphabetIsRead(c: Byte, n: Sextet)
    ensures Value(c) == Some(n) <==> c == ALPHABET[n]
  {
    DigitsAreTheAlphabet(n);
    hide ALPHABET;
    assert Value(c) == Some(n) <==> c == Digit(n);
  }

  /** Raw encoding is as long as it has to be, and only padded encoding is padded, to a multiple of four. */
  lemma {:induction false} EncodingLength(s: Bytes, padded: bool)
    ensures |Encode(s, padded)| == if padded then (|s| + 2) / 3 * 4 else (|s| * 4 + 2) / 3
    ensures !padded ==> '=' !in Encode(s, padded)
  {
    if |s| >= 3 {
      EncodingLength(s[3..], padded);
    } else if !padded {
      assert Encode(s, padded) == Tail(s);
      DigitsAreNotPadding(s);
    }
  }

  lemma DigitsAreNotPadding(s: Bytes)
    requires |s| < 3
    ensures '=' !in Tail(s)
  {
  }

  lemma FirstGroup(a: int, b: int, c: int, rest: Bytes)
    requires 0 <= a < 256 && 0 <= b < 256 && 0 <= c < 256
    ensures Encode([a as char, b as char, c as char] + rest, false)
         == Four(a as char, b as char, c as char) + Encode(rest, false)
  {
    var s: Bytes := [a as char, b as char, c as char] + rest;
    assert s[3..] == rest;
  }

  /** The worked example of RFC 7636 appendix B: this digest is sent as this challenge. */
  lemma AppendixBChallenge()
    ensures var digest: Bytes :=
              [19 as char, 211 as char, 30 as char] + ([150 as char, 26 as char, 26 as char] +
              ([216 as char, 236 as char, 47 as char] + ([22 as char, 177 as char, 12 as char] +
              ([76 as char, 152 as char, 46 as char] + ([8 as char, 118 as char, 168 as char] +
              ([120 as char, 173 as char, 109 as char] + ([241 as char, 68 as char, 86 as char] +
              ([110 as char, 225 as char, 137 as char] + ([74 as char, 203 as char, 112 as char] +
              [249 as char, 195 as char])))))))));
            |digest| == 32 && Encode(digest, false)
                              == "E9Me" + ("lhoa" + ("2Owv" + ("FrEM" + ("TJgu" + "CHaoeK1t8URWbuGJSstw-cM"))))
  {
    hide Encode, Four;
    FoursOfTheExample();
    var f: Bytes := [8 as char, 118 as char, 168 as char] +
                    ([120 as char, 173 as char, 109 as char] + ([241 as char, 68 as char, 86 as char] +
                    ([110 as char, 225 as char, 137 as char] + ([74 as char, 203 as char, 112 as char] +
                    [249 as char, 195 as char]))));
    var d: Bytes := [76 as char, 152 as char, 46 as char] + f;
    var c: Bytes := [22 as char, 177 as char, 12 as char] + d;
    var b: Bytes := [216 as char, 236 as char, 47 as char] + c;
    var a: Bytes := [150 as char, 26 as char, 26 as char] + b;
    SecondHalfOfTheExample();
    FirstGroup(19, 211, 30, a);
    FirstGroup(150, 26, 26, b);
    FirstGroup(216, 236, 47, c);
    FirstGroup(22, 177, 12, d);
    FirstGroup(76, 152, 46, f);
    var digest: Bytes := [19 as char, 211 as char, 30 as char] + a;
    assert Encode(digest, false) == "E9Me" + ("lhoa" + ("2Owv" + ("FrEM" + ("TJgu" + "CHaoeK1t8URWbuGJSstw-cM"))));
  }

  lemma FoursOfTheExample()
    ensures Four(19 as char, 211 as char, 30 as char) == "E9Me"
    ensures Four(150 as char, 26 as char, 26 as char) == "lhoa"
    ensures Four(216 as char, 236 as char, 47 as char) == "2Owv"
    ensures Four(22 as char, 177 as char, 12 as char) == "FrEM"
    ensures Four(76 as char, 152 as char, 46 as char) == "TJgu"
  {
  }

  lemma MoreFoursOfTheExample()
    ensures Four(8 as char, 118 as char, 168 as char) == "CHao"
    ensures Four(120 as char, 173 as char, 109 as char) == "eK1t"
    ensures Four(241 as char, 68 as char, 86 as char) == "8URW"
    ensures Four(110 as char, 225 as char, 137 as char) == "buGJ"
    ensures Four(74 as char, 203 as char, 112 as char) == "Sstw"
  {
  }

  lemma SecondHalfOfTheExample()
    ensures Encode([8 as char, 118 as char, 168 as char] +
                   ([120 as char, 173 as char, 109 as char] + ([241 as char, 68 as char, 86 as char] +
                   ([110 as char, 225 as char, 137 as char] + ([74 as char, 203 as char, 112 as char] +
                   [249 as char, 195 as char])))), false)
         == "CHaoeK1t8URWbuGJSstw-cM"
  {
    hide Encode, Four;
    MoreFoursOfTheExample();
    var j: Bytes := [249 as char, 195 as char];
    var i: Bytes := [74 as char, 203 as char, 112 as char] + j;
    var h: Bytes := [110 as char, 225 as char, 137 as char] + i;
    var g: Bytes := [241 as char, 68 as char, 86 as char] + h;
    var f: Bytes := [120 as char, 173 as char, 109 as char] + g;
    FirstGroup(8, 118, 168, f);
    FirstGroup(120, 173, 109, g);
    FirstGroup(241, 68, 86, h);
    FirstGroup(110, 225, 137, i);
    FirstGroup(74, 203, 112, j);
    LastTwoOfTheExample();
  }

  lemma LastTwoOfTheExample()
    ensures Encode([249 as char, 195 as char], false) == "-cM"
  {
  }

  /** So comparing two encodings compares what they encode: the token endpoint's string comparison of challenges is a
    * comparison of SHA-256 digests (RFC 7636 section 4.6). */
  lemma EncodingIsInjective(a: Bytes, b: Bytes, padded: bool)
    ensures Encode(a, padded) == Encode(b, padded) <==> a == b
  {
    DecodeInvertsEncode(a, padded);
    DecodeInvertsEncode(b, padded);
  }

  /** An encoded payload cannot be mistaken for one with the signer's separators in it. */
  lemma {:induction false} EncodingHasNoSeparators(s: Bytes, padded: bool)
    ensures '|' !in Encode(s, padded) && '.' !in Encode(s, padded)
  {
    EncodingIsURLSafe(s, padded);
  }
}
