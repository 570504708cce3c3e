/** The UUID string parser `str2uuid`: a string of 4, 8 or 36 characters becomes a
    16-bit, 32-bit or 128-bit service UUID. The parser works on the bytes of a C string;
    here each byte is one `char`. */
module Uuid {
  import opened Common

  /** The three forms `sdp_uuid16_create`, `sdp_uuid32_create` and `sdp_uuid128_create`
      build. A 128-bit UUID is kept as its four 32-bit words, first word first. */
  datatype Uuid =
    | Uuid16(value: nat)
    | Uuid32(value: nat)
    | Uuid128(w0: nat, w1: nat, w2: nat, w3: nat)

  /** The string a `const char *` denotes: everything before the first NUL. */
  function CString(s: string): (c: string)
    ensures c <= s
    ensures '\0' !in c
    ensures |c| < |s| ==> s[|c|] == '\0'
  {
    if s == [] || s[0] == '\0' then [] else [s[0]] + CString(s[1..])
  }

  predicate IsHexDigit(ch: char) {
    '0' <= ch <= '9' || 'a' <= ch <= 'f' || 'A' <= ch <= 'F'
  }

  predicate AllHex(s: string) {
    forall i :: 0 <= i < |s| ==> IsHexDigit(s[i])
  }

  function DigitValue(ch: char): (d: nat)
    requires IsHexDigit(ch)
    ensures d < 16
    ensures '0' <= ch <= '9' ==> d == ch as int - '0' as int
  {
    if ch <= '9' then ch as int - '0' as int
    else if ch <= 'F' then ch as int - 'A' as int + 10
    else ch as int - 'a' as int + 10
  }

  function Pow16(n: nat): (p: nat)
    ensures p >= 1
  {
    if n == 0 then 1 else 16 * Pow16(n - 1)
  }

  /** The number that a string of hex digits denotes, most significant digit first. */
  function HexValue(s: string): (v: nat)
    requires AllHex(s)
    ensures v < Pow16(|s|)
  {
    if s == [] then 0
    else
      var h := HexValue(s[..|s| - 1]);
      var d := DigitValue(s[|s| - 1]);
      assert h <= Pow16(|s| - 1) - 1;
      assert 16 * h + d <= 16 * (Pow16(|s| - 1) - 1) + 15;
      16 * h + d
  }

  /** Length of the longest prefix of `s` made of hex digits. */
  function HexRun(s: string): (n: nat)
    ensures n <= |s|
    ensures AllHex(s[..n])
    ensures n < |s| ==> !IsHexDigit(s[n])
  {
    if s == [] || !IsHexDigit(s[0]) then 0
    else
      var n := 1 + HexRun(s[1..]);
      assert s[..n] == [s[0]] + s[1..][..n - 1];
      n
  }

  /** `strtoul(s, &endptr, 16)` and `strtol(s, &endptr, 16)` read strictly: the value of
      the leading hex digits and how many characters were consumed (`endptr - s`). */
  function StrToHex(s: string): (r: (nat, nat))
    ensures r.1 <= |s|
    ensures r.1 == |s| <==> AllHex(s)
    ensures AllHex(s) ==> r.0 == HexValue(s)
  {
    var n := HexRun(s);
    assert AllHex(s) ==> s[..n] == s;
    (HexValue(s[..n]), n)
  }

  /** `str2uuid` (returns 1 with the UUID built, or 0). The dash test of the 128-bit form
      joins its four comparisons with `&&`, exactly as the source does. */
  function Str2Uuid(text: string): (r: Option<Uuid>)
    ensures r.Some? ==> |CString(text)| in {4, 8, 36}
    ensures r.Some? && |CString(text)| == 4 ==> r.value.Uuid16?
    ensures r.Some? && |CString(text)| == 8 ==> r.value.Uuid32?
    ensures r.Some? && |CString(text)| == 36 ==> r.value.Uuid128?
  {
    var c := CString(text);
    if |c| == 36 then
      if c[8] != '-' && c[13] != '-' && c[18] != '-' && c[23] != '-' then None
      else
        var p0 := StrToHex(c[0..8]);
        if p0.1 != 8 then None
        else
          var p1 := StrToHex(c[9..13] + c[14..18]);
          if p1.1 != 8 then None
          else
            var p2 := StrToHex(c[19..23] + c[24..28]);
            if p2.1 != 8 then None
            else
              var p3 := StrToHex(c[28..36]);
              if p3.1 != 8 then None
              else Some(Uuid128(p0.0, p1.0, p2.0, p3.0))
    else if |c| == 8 then
      var p := StrToHex(c);
      if p.1 != 8 then None else Some(Uuid32(p.0))
    else if |c| == 4 then
      var p := StrToHex(c);
      if p.1 != 4 then None else Some(Uuid16(p.0))
    else
      None
  }

  /** The dash test of lines 73-74 lets the string through when at least one of the four
      dash positions holds a dash. */
  predicate DashTestPasses(c: string)
    requires |c| == 36
    ensures DashTestPasses(c) <==> !(c[8] != '-' && c[13] != '-' && c[18] != '-' && c[23] != '-')
  {
    c[8] == '-' || c[13] == '-' || c[18] == '-' || c[23] == '-'
  }

  lemma {:induction false} AllHexConcat(a: string, b: string)
    ensures AllHex(a + b) <==> AllHex(a) && AllHex(b)
  {
    if AllHex(a + b) {
      forall i | 0 <= i < |a| ensures IsHexDigit(a[i]) { assert a[i] == (a + b)[i]; }
      forall i | 0 <= i < |b| ensures IsHexDigit(b[i]) { assert b[i] == (a + b)[|a| + i]; }
    }
  }

  lemma ShiftDigit(x: int, p: int, y: int, d: int)
    ensures 16 * (x * p + y) + d == x * (16 * p) + (16 * y + d)
  {
  }

  /** Appending hex digits shifts the value left by four bits per digit. */
  lemma {:induction false} HexValueConcat(a: string, b: string)
    requires AllHex(a) && AllHex(b)
    ensures AllHex(a + b)
    ensures HexValue(a + b) == HexValue(a) * Pow16(|b|) + HexValue(b)
    decreases |b|
  {
    AllHexConcat(a, b);
    if b == [] {
      assert a + b == a;
    } else {
      var b' := b[..|b| - 1];
      assert AllHex(b');
      HexValueConcat(a, b');
      assert (a + b)[..|a + b| - 1] == a + b';
      assert (a + b)[|a + b| - 1] == b[|b| - 1];
      var x, p, y, d := HexValue(a), Pow16(|b'|), HexValue(b'), DigitValue(b[|b| - 1]);
      assert HexValue(a + b) == 16 * HexValue(a + b') + d;
      assert HexValue(b) == 16 * y + d;
      assert Pow16(|b|) == 16 * p;
      ShiftDigit(x, p, y, d);
    }
  }

  /** The 16- and 32-bit forms: the string is accepted exactly when all its characters are
      hex digits, and the UUID is the number they denote. */
  lemma ShortForm(text: string)
    requires |CString(text)| == 4 || |CString(text)| == 8
    ensures Str2Uuid(text).Some? <==> AllHex(CString(text))
    ensures AllHex(CString(text)) && |CString(text)| == 4 ==>
              Str2Uuid(text) == Some(Uuid16(HexValue(CString(text))))
    ensures AllHex(CString(text)) && |CString(text)| == 8 ==>
              Str2Uuid(text) == Some(Uuid32(HexValue(CString(text))))
    ensures Str2Uuid(text).Some? ==> Str2Uuid(text).value.value < Pow16(|CString(text)|)
  {
  }

  /** The 128-bit form: accepted exactly when the dash test passes and each of the four
      8-character words, taken from characters 0-7, 9-12 then 14-17, 19-22 then 24-27, and
      28-35, is all hex digits; the words of the UUID are their values, in that order. */
  lemma LongForm(text: string)
    requires |CString(text)| == 36
    ensures var c := CString(text);
      Str2Uuid(text).Some? <==>
        DashTestPasses(c) && AllHex(c[0..8]) && AllHex(c[9..13]) && AllHex(c[14..18]) &&
        AllHex(c[19..23]) && AllHex(c[24..28]) && AllHex(c[28..36])
    ensures var c := CString(text);
      Str2Uuid(text).Some? ==>
        AllHex(c[9..13]) && AllHex(c[14..18]) && AllHex(c[19..23]) && AllHex(c[24..28]) &&
        AllHex(c[0..8]) && AllHex(c[28..36]) &&
        Str2Uuid(text) == Some(Uuid128(
          HexValue(c[0..8]),
          HexValue(c[9..13]) * 0x1_0000 + HexValue(c[14..18]),
          HexValue(c[19..23]) * 0x1_0000 + HexValue(c[24..28]),
          HexValue(c[28..36])))
  {
    var c := CString(text);
    AllHexConcat(c[9..13], c[14..18]);
    AllHexConcat(c[19..23], c[24..28]);
    assert Pow16(4) == 0x1_0000;
    if AllHex(c[9..13]) && AllHex(c[14..18]) {
      HexValueConcat(c[9..13], c[14..18]);
    }
    if AllHex(c[19..23]) && AllHex(c[24..28]) {
      HexValueConcat(c[19..23], c[24..28]);
    }
  }

  /** Every accepted 128-bit word is below 2^32. */
  lemma LongFormWordsFit(text: string)
    requires |CString(text)| == 36 && Str2Uuid(text).Some?
    ensures var u := Str2Uuid(text).value;
      u.w0 < 0x1_0000_0000 && u.w1 < 0x1_0000_0000 &&
      u.w2 < 0x1_0000_0000 && u.w3 < 0x1_0000_0000
  {
    var c := CString(text);
    assert Pow16(8) == 0x1_0000_0000;
    assert |c[9..13] + c[14..18]| == 8 && |c[19..23] + c[24..28]| == 8;
  }

  /** The characters at positions 8, 13, 18 and 23 are never parsed: two strings that pass
      the dash test and agree everywhere else parse alike. */
  lemma DashPositionsIgnored(t1: string, t2: string)
    requires |CString(t1)| == 36 && |CString(t2)| == 36
    requires DashTestPasses(CString(t1)) && DashTestPasses(CString(t2))
    requires forall i :: 0 <= i < 36 && i != 8 && i != 13 && i != 18 && i != 23 ==>
               CString(t1)[i] == CString(t2)[i]
    ensures Str2Uuid(t1) == Str2Uuid(t2)
  {
    var c1, c2 := CString(t1), CString(t2);
    assert c1[0..8] == c2[0..8];
    assert c1[9..13] == c2[9..13];
    assert c1[14..18] == c2[14..18];
    assert c1[19..23] == c2[19..23];
    assert c1[24..28] == c2[24..28];
    assert c1[28..36] == c2[28..36];
  }

  /** A 36-character string whose only dash is at position 8 is accepted, with no dash at
      positions 13, 18 and 23, as long as the four words are hex digits. */
  lemma MisplacedDashesAccepted(text: string)
    requires |CString(text)| == 36
    requires var c := CString(text);
      c[8] == '-' && c[13] != '-' && c[18] != '-' && c[23] != '-' &&
      AllHex(c[0..8]) && AllHex(c[9..13]) && AllHex(c[14..18]) &&
      AllHex(c[19..23]) && AllHex(c[24..28]) && AllHex(c[28..36])
    ensures Str2Uuid(text).Some?
  {
    LongForm(text);
  }

  /** A string of any other length is rejected. */
  lemma OtherLengthsRejected(text: string)
    requires |CString(text)| !in {4, 8, 36}
    ensures Str2Uuid(text) == None
  {
  }

  /** The dash test the 128-bit format calls for: a dash at each of positions 8, 13, 18
      and 23. */
  predicate DashesInPlace(c: string)
    requires |c| == 36
  {
    c[8] == '-' && c[13] == '-' && c[18] == '-' && c[23] == '-'
  }

  /** `str2uuid` as the format intends it, stated directly over hex digits: the 128-bit
      form needs all four dashes in place and the four words all hex; the 16- and 32-bit
      forms are as written. */
  function Str2UuidIntended(text: string): (r: Option<Uuid>)
    ensures |CString(text)| == 36 && r.Some? ==> DashesInPlace(CString(text))
  {
    var c := CString(text);
    if |c| == 36 then
      var w1, w2 := c[9..13] + c[14..18], c[19..23] + c[24..28];
      if DashesInPlace(c) && AllHex(c[0..8]) && AllHex(w1) && AllHex(w2) && AllHex(c[28..36])
      then Some(Uuid128(HexValue(c[0..8]), HexValue(w1), HexValue(w2), HexValue(c[28..36])))
      else None
    else Str2Uuid(text)
  }

  /** The intended parser rejects every 36-character string that lacks a dash at any of the
      four positions. */
  lemma IntendedRejectsMisplacedDashes(text: string)
    requires |CString(text)| == 36
    requires var c := CString(text); c[8] != '-' || c[13] != '-' || c[18] != '-' || c[23] != '-'
    ensures Str2UuidIntended(text) == None
  {
  }

  /** With all four dashes in place, and for every other length, the code as written and the
      intended parser agree. */
  lemma {:induction false} IntendedAgreesWhenDashesInPlace(text: string)
    requires |CString(text)| != 36 || DashesInPlace(CString(text))
    ensures Str2UuidIntended(text) == Str2Uuid(text)
  {
    var c := CString(text);
    if |c| == 36 {
      LongForm(text);
      AllHexConcat(c[9..13], c[14..18]);
      AllHexConcat(c[19..23], c[24..28]);
      if AllHex(c[9..13]) && AllHex(c[14..18]) {
        HexValueConcat(c[9..13], c[14..18]);
      }
      if AllHex(c[19..23]) && AllHex(c[24..28]) {
        HexValueConcat(c[19..23], c[24..28]);
      }
    }
  }

  /** The two parsers differ exactly on the 36-character strings with hex words whose dash
      test passes although some dash is missing: those the code accepts and the format
      forbids. */
  lemma {:induction false} WrittenAndIntendedDiffer(text: string)
    ensures Str2Uuid(text) != Str2UuidIntended(text) <==>
      var c := CString(text);
      |c| == 36 && DashTestPasses(c) && !DashesInPlace(c) &&
      AllHex(c[0..8]) && AllHex(c[9..13]) && AllHex(c[14..18]) &&
      AllHex(c[19..23]) && AllHex(c[24..28]) && AllHex(c[28..36])
    ensures Str2Uuid(text) != Str2UuidIntended(text) ==>
      Str2Uuid(text).Some? && Str2UuidIntended(text) == None
  {
    var c := CString(text);
    if |c| == 36 {
      LongForm(text);
      if DashesInPlace(c) {
        IntendedAgreesWhenDashesInPlace(text);
      } else {
        IntendedRejectsMisplacedDashes(text);
      }
    }
  }
}
