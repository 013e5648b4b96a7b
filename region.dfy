/** The EU classifier of the tournament bot (`isEUCountry`, index.js:249-257):
    a country code is an EU code when its upper-case form is one of a fixed
    list of 27 two-letter codes. */
module Region {

  /** The fixed list of EU member-state codes, in the order the bot lists them. */
  const EuCountries: seq<string> := [
    "AT", "BE", "BG", "HR", "CY", "CZ", "DK", "EE",
    "FI", "FR", "DE", "GR", "HU", "IE", "IT", "LV",
    "LT", "LU", "MT", "NL", "PL", "PT", "RO", "SK",
    "SI", "ES", "SE"
  ]

  predicate IsLower(c: char) { 'a' <= c <= 'z' }

  predicate IsUpper(c: char) { 'A' <= c <= 'Z' }

  /** Upper-case mapping of one character (ASCII letters only). */
  function UpperChar(c: char): (u: char)
    ensures IsLower(c) ==> IsUpper(u) && u as int == c as int - 32
    ensures !IsLower(c) ==> u == c
  {
    if IsLower(c) then (c as int - 32) as char else c
  }

  /** `String.prototype.toUpperCase`, restricted to ASCII letters. */
  function Upper(s: string): (r: string)
    ensures |r| == |s|
    ensures forall i :: 0 <= i < |s| ==> r[i] == UpperChar(s[i])
  {
    if s == [] then [] else [UpperChar(s[0])] + Upper(s[1..])
  }

  /** `isEUCountry`: case-insensitive membership in the fixed list. */
  predicate IsEUCountry(countryCode: string)
  {
    Upper(countryCode) in EuCountries
  }

  /** Two characters are the same letter when case is ignored. */
  predicate SameLetterIgnoringCase(a: char, b: char)
  {
    a == b || (IsLower(a) && b as int == a as int - 32) || (IsLower(b) && a as int == b as int - 32)
  }

  /** Reference definition: equal length and equal character by character up to case. */
  predicate EqualIgnoringCase(a: string, b: string)
  {
    |a| == |b| && forall i :: 0 <= i < |a| ==> SameLetterIgnoringCase(a[i], b[i])
  }

  /** Every listed code is two upper-case letters, and no code is listed twice. */
  lemma CodesAreUpperPairs()
    ensures |EuCountries| == 27
    ensures forall k :: 0 <= k < |EuCountries| ==>
      |EuCountries[k]| == 2 && IsUpper(EuCountries[k][0]) && IsUpper(EuCountries[k][1])
    ensures forall j, k :: 0 <= j < k < |EuCountries| ==> EuCountries[j] != EuCountries[k]
  {
  }

  /** Against a code made of upper-case letters, comparing after upper-casing
      is the same as comparing while ignoring case. */
  lemma UpperMatchesIgnoringCase(c: string, code: string)
    requires forall i :: 0 <= i < |code| ==> IsUpper(code[i])
    ensures Upper(c) == code <==> EqualIgnoringCase(c, code)
  {
  }

  /** `isEUCountry(c)` holds exactly when `c` equals some listed code up to case. */
  lemma IsEUCountryIgnoresCase(c: string)
    ensures IsEUCountry(c) <==> exists k :: 0 <= k < |EuCountries| && EqualIgnoringCase(c, EuCountries[k])
  {
    CodesAreUpperPairs();
    if IsEUCountry(c) {
      var k :| 0 <= k < |EuCountries| && Upper(c) == EuCountries[k];
      UpperMatchesIgnoringCase(c, EuCountries[k]);
    }
    if exists k :: 0 <= k < |EuCountries| && EqualIgnoringCase(c, EuCountries[k]) {
      var k :| 0 <= k < |EuCountries| && EqualIgnoringCase(c, EuCountries[k]);
      UpperMatchesIgnoringCase(c, EuCountries[k]);
    }
  }

  /** Spellings that differ only in case classify the same ("de" and "DE"). */
  lemma SameClassificationIgnoringCase(a: string, b: string)
    requires EqualIgnoringCase(a, b)
    ensures IsEUCountry(a) == IsEUCountry(b)
  {
    assert Upper(a) == Upper(b) by {
      forall i | 0 <= i < |a|
        ensures Upper(a)[i] == Upper(b)[i]
      {
        assert SameLetterIgnoringCase(a[i], b[i]);
      }
    }
  }

  /** Only two-character strings can be EU codes; in particular "", "DEU" and "GB" are not. */
  lemma EuCodesHaveTwoLetters(c: string)
    ensures IsEUCountry(c) ==> |c| == 2
    ensures !IsEUCountry("GB") && !IsEUCountry("") && !IsEUCountry("DEU")
    ensures IsEUCountry("de") && IsEUCountry("DE")
  {
    CodesAreUpperPairs();
    assert Upper("de") == "DE";
    assert Upper("DE") == "DE";
    assert EuCountries[10] == "DE";
  }
}
