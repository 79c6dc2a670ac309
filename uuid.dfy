/** The full-identifier test `is_uuid4`: the canonical 8-4-4-4-12 textual
    form of a UUID (section 3 of RFC 4122), hexadecimal digits in either case. */
module Uuid {
  import opened Common

  /** Positions of the four hyphens in the 36-character canonical form. */
  predicate IsHyphenPosition(i: int) { i == 8 || i == 13 || i == 18 || i == 23 }

  /** `is_uuid4`: an accepted token is 36 characters long with hyphens at
      the four group separators and nowhere else. */
  predicate IsUuid4(s: string)
    ensures IsUuid4(s) ==> |s| == 36 && forall i :: 0 <= i < 36 ==> (s[i] == '-' <==> IsHyphenPosition(i))
  {
    |s| == 36 &&
    forall i :: 0 <= i < 36 ==> if IsHyphenPosition(i) then s[i] == '-' else IsHexDigit(s[i])
  }

  predicate IsHexString(h: string) {
    forall i :: 0 <= i < |h| ==> IsHexDigit(h[i])
  }

  /** The 32 digits of a UUID laid out in groups of 8, 4, 4, 4 and 12. */
  function Format(h: string): string
    requires |h| == 32
  {
    h[..8] + "-" + h[8..12] + "-" + h[12..16] + "-" + h[16..20] + "-" + h[20..]
  }

  /** The 32 digits of a canonical UUID, hyphens removed. */
  function Digits(s: string): string
    requires |s| == 36
  {
    s[..8] + s[9..13] + s[14..18] + s[19..23] + s[24..]
  }

  /** Where the k-th digit sits in the canonical form. */
  function DigitPosition(k: int): int {
    if k < 8 then k else if k < 12 then k + 1 else if k < 16 then k + 2 else if k < 20 then k + 3 else k + 4
  }

  lemma FormatAt(h: string, k: int)
    requires |h| == 32 && 0 <= k < 32
    ensures |Format(h)| == 36 && Format(h)[DigitPosition(k)] == h[k]
  {
  }

  lemma DigitsAt(s: string, k: int)
    requires |s| == 36 && 0 <= k < 32
    ensures |Digits(s)| == 32 && Digits(s)[k] == s[DigitPosition(k)]
  {
  }

  /** Every 32 hexadecimal digits format to a canonical UUID, and the digits
      can be read back from it. */
  lemma FormatIsUuid(h: string)
    requires |h| == 32 && IsHexString(h)
    ensures IsUuid4(Format(h))
    ensures Digits(Format(h)) == h
  {
    var s := Format(h);
    forall i | 0 <= i < 36 && !IsHyphenPosition(i)
      ensures IsHexDigit(s[i])
    {
      var k := if i < 8 then i else if i < 13 then i - 1 else if i < 18 then i - 2 else if i < 23 then i - 3 else i - 4;
      FormatAt(h, k);
    }
    forall k | 0 <= k < 32
      ensures Digits(s)[k] == h[k]
    {
      FormatAt(h, k);
      DigitsAt(s, k);
    }
  }

  /** Conversely every canonical UUID is the formatting of its own digits,
      which are all hexadecimal: `IsUuid4` accepts exactly the strings
      `Format` produces. */
  lemma UuidIsFormatted(s: string)
    requires IsUuid4(s)
    ensures IsHexString(Digits(s))
    ensures Format(Digits(s)) == s
  {
    var h := Digits(s);
    forall k | 0 <= k < 32
      ensures IsHexDigit(h[k])
    {
      DigitsAt(s, k);
    }
    forall i | 0 <= i < 36
      ensures Format(h)[i] == s[i]
    {
      if !IsHyphenPosition(i) {
        var k := if i < 8 then i else if i < 13 then i - 1 else if i < 18 then i - 2 else if i < 23 then i - 3 else i - 4;
        FormatAt(h, k);
        DigitsAt(s, k);
      }
    }
  }

  lemma ToUpperHex(c: char)
    ensures IsHexDigit(ToUpper(c)) <==> IsHexDigit(c)
    ensures ToUpper(c) == '-' <==> c == '-'
  {
  }

  lemma ToLowerHex(c: char)
    ensures IsHexDigit(ToLower(c)) <==> IsHexDigit(c)
    ensures ToLower(c) == '-' <==> c == '-'
  {
  }

  /** The classification ignores letter case. */
  lemma CaseInsensitive(s: string)
    ensures IsUuid4(UpperCase(s)) <==> IsUuid4(s)
    ensures IsUuid4(LowerCase(s)) <==> IsUuid4(s)
  {
    if |s| == 36 {
      forall i | 0 <= i < 36
        ensures IsHexDigit(UpperCase(s)[i]) <==> IsHexDigit(s[i])
        ensures IsHexDigit(LowerCase(s)[i]) <==> IsHexDigit(s[i])
        ensures UpperCase(s)[i] == '-' <==> s[i] == '-'
        ensures LowerCase(s)[i] == '-' <==> s[i] == '-'
      {
        ToUpperHex(s[i]);
        ToLowerHex(s[i]);
      }
    }
  }

  /** The four classifications the identifier test asserts. */
  lemma ShownLowerCase()
    ensures IsUuid4("7a4cfe51-038b-42d6-825e-3b533888d8cd")
  {
  }

  lemma ShownUpperCase()
    ensures IsUuid4("7A4CFE51-03BB-42D6-825E-3B533888D8CD")
  {
  }

  lemma ShownNonIdentifiers()
    ensures !IsUuid4("not_uuid")
    ensures !IsUuid4("")
  {
  }
}
