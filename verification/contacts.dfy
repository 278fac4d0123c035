/**
 * `resolveContactUrl` (app.js): turns an ad item's contact key into the
 * destination its call-to-action opens. The contact directory is the
 * `contacts` object of the sponsor content, absent or a map from channel
 * name to raw string value.
 */
module Contacts {
  import opened Wrappers
  import TimeFormat

  /** The channel whose value is a telephone number. */
  const PhoneKey: string := "phone"

  /** The scheme of a telephone URI (section 3 of RFC 3966). */
  const TelScheme: string := "tel:"

  /**
   * The characters of the ECMAScript `\s` class: the WhiteSpace and
   * LineTerminator code points of sections 12.2 and 12.3 of ECMA-262.
   */
  predicate IsJsWhitespace(c: char) {
    || c == ' '
    || ('\t' <= c <= '\r')
    || c == '\U{00A0}' || c == '\U{1680}'
    || ('\U{2000}' <= c <= '\U{200A}')
    || c == '\U{2028}' || c == '\U{2029}' || c == '\U{202F}' || c == '\U{205F}'
    || c == '\U{3000}' || c == '\U{FEFF}'
  }

  /** What stripping keeps of one character. */
  function Kept(c: char): string {
    if IsJsWhitespace(c) then "" else [c]
  }

  predicate NoWhitespace(s: string) {
    forall i :: 0 <= i < |s| ==> !IsJsWhitespace(s[i])
  }

  /** `replace(/\s+/g, "")`: drops every whitespace character and keeps the rest in order. */
  function StripWhitespace(s: string): (r: string)
    ensures |r| <= |s|
    ensures NoWhitespace(r)
  {
    if |s| == 0 then "" else Kept(s[0]) + StripWhitespace(s[1..])
  }

  /** Every whitespace character is gone and every other character keeps its number of occurrences. */
  lemma {:induction false} StripCounts(s: string, c: char)
    ensures multiset(StripWhitespace(s))[c] == if IsJsWhitespace(c) then 0 else multiset(s)[c]
    decreases |s|
  {
    if |s| > 0 {
      assert s == [s[0]] + s[1..];
      StripCounts(s[1..], c);
    }
  }

  /** Stripping works piece by piece: the kept characters stay in their order. */
  lemma {:induction false} StripConcat(a: string, b: string)
    ensures StripWhitespace(a + b) == StripWhitespace(a) + StripWhitespace(b)
    decreases |a|
  {
    if |a| == 0 {
      assert a + b == b;
    } else {
      assert (a + b)[0] == a[0] && (a + b)[1..] == a[1..] + b;
      StripConcat(a[1..], b);
      assert StripWhitespace(a + b) == Kept(a[0]) + (StripWhitespace(a[1..]) + StripWhitespace(b));
    }
  }

  /** A string is left unchanged exactly when it holds no whitespace. */
  lemma {:induction false} StripFixpoint(s: string)
    ensures StripWhitespace(s) == s <==> NoWhitespace(s)
    decreases |s|
  {
    if |s| > 0 {
      StripFixpoint(s[1..]);
      if !IsJsWhitespace(s[0]) {
        assert NoWhitespace(s) <==> NoWhitespace(s[1..]) by {
          if NoWhitespace(s[1..]) {
            forall i | 0 <= i < |s| ensures !IsJsWhitespace(s[i]) {
              if i > 0 {
                assert s[i] == s[1..][i - 1];
              }
            }
          }
        }
      } else {
        assert |StripWhitespace(s)| < |s|;
      }
    }
  }

  /** Stripping twice is stripping once. */
  lemma StripIdempotent(s: string)
    ensures StripWhitespace(StripWhitespace(s)) == StripWhitespace(s)
  {
    StripFixpoint(StripWhitespace(s));
  }

  /**
   * The destination for `key`: nothing when the directory is absent or has
   * no non-empty value for the key; a `tel:` URI built from the whitespace-
   * stripped value for the phone channel; the raw value for any other.
   */
  function ResolveContactUrl(contacts: Option<map<string, string>>, key: string): (r: Option<string>)
    ensures r.Some? <==> contacts.Some? && key in contacts.value && contacts.value[key] != ""
    ensures r.Some? && key == PhoneKey ==>
      && r.value == TelScheme + StripWhitespace(contacts.value[key])
      && r.value[..|TelScheme|] == TelScheme
      && NoWhitespace(r.value[|TelScheme|..])
    ensures r.Some? && key != PhoneKey ==> r.value == contacts.value[key]
    ensures r.Some? ==> r.value != ""
  {
    match contacts
    case None => None
    case Some(directory) =>
      if key !in directory || directory[key] == "" then None
      else if key == PhoneKey then
        var url := TelScheme + StripWhitespace(directory[key]);
        assert url[|TelScheme|..] == StripWhitespace(directory[key]);
        Some(url)
      else Some(directory[key])
  }

  /** Two phone values that differ only in whitespace resolve to the same destination. */
  lemma PhoneSpacingIrrelevant(d1: map<string, string>, d2: map<string, string>)
    requires PhoneKey in d1 && PhoneKey in d2 && d1[PhoneKey] != "" && d2[PhoneKey] != ""
    requires StripWhitespace(d1[PhoneKey]) == StripWhitespace(d2[PhoneKey])
    ensures ResolveContactUrl(Some(d1), PhoneKey) == ResolveContactUrl(Some(d2), PhoneKey)
  {
  }

  /** A phone value made only of whitespace is not empty, so it still yields a destination: the bare scheme. */
  lemma BlankPhoneGivesBareScheme(directory: map<string, string>)
    requires PhoneKey in directory && directory[PhoneKey] == " "
    ensures ResolveContactUrl(Some(directory), PhoneKey) == Some(TelScheme)
  {
    StripLeadingSpace("");
    assert [' '] + "" == " ";
    assert TelScheme + "" == TelScheme;
  }

  /** A space in front is dropped. */
  lemma StripLeadingSpace(rest: string)
    ensures StripWhitespace([' '] + rest) == StripWhitespace(rest)
  {
    assert ([' '] + rest)[1..] == rest;
  }

  /** A whitespace-free prefix is kept as it is. */
  lemma StripKeepsCleanPrefix(prefix: string, rest: string)
    requires NoWhitespace(prefix)
    ensures StripWhitespace(prefix + rest) == prefix + StripWhitespace(rest)
  {
    StripConcat(prefix, rest);
    StripFixpoint(prefix);
  }

  /** A group of digits followed by a space keeps the digits and loses the space. */
  lemma StripDigitGroup(digits: string, rest: string)
    requires TimeFormat.AllDigits(digits)
    ensures StripWhitespace(digits + ([' '] + rest)) == digits + StripWhitespace(rest)
  {
    DigitsHaveNoWhitespace(digits);
    StripKeepsCleanPrefix(digits, [' '] + rest);
    StripLeadingSpace(rest);
  }

  /** Digit groups separated by single spaces lose only the spaces. */
  lemma StripGroupedNumber(d1: string, d2: string, d3: string)
    requires TimeFormat.AllDigits(d1) && TimeFormat.AllDigits(d2) && TimeFormat.AllDigits(d3)
    ensures StripWhitespace(d1 + [' '] + d2 + [' '] + d3) == d1 + d2 + d3
  {
    var tail := d2 + ([' '] + d3);
    GroupedAssoc(d1, d2, d3);
    StripDigitGroup(d1, tail);
    StripDigitGroup(d2, d3);
    DigitsHaveNoWhitespace(d3);
    StripFixpoint(d3);
    assert StripWhitespace(tail) == d2 + d3;
  }

  lemma GroupedAssoc(d1: string, d2: string, d3: string)
    ensures d1 + [' '] + d2 + [' '] + d3 == d1 + ([' '] + (d2 + ([' '] + d3)))
    ensures d1 + (d2 + d3) == d1 + d2 + d3
  {
  }

  lemma DigitsHaveNoWhitespace(d: string)
    requires TimeFormat.AllDigits(d)
    ensures NoWhitespace(d)
  {
  }

  /**
   * A phone number written in digit groups dials the digits alone: the
   * value "061 234 567" gives "tel:061234567".
   */
  lemma PhoneGroupsJoined(directory: map<string, string>, d1: string, d2: string, d3: string)
    requires TimeFormat.AllDigits(d1) && TimeFormat.AllDigits(d2) && TimeFormat.AllDigits(d3)
    requires PhoneKey in directory && directory[PhoneKey] == d1 + [' '] + d2 + [' '] + d3
    ensures ResolveContactUrl(Some(directory), PhoneKey) == Some(TelScheme + d1 + d2 + d3)
  {
    var raw := d1 + [' '] + d2 + [' '] + d3;
    assert raw[|d1|] == ' ';
    ResolvesPhone(directory, raw);
    StripGroupedNumber(d1, d2, d3);
    assert TelScheme + (d1 + d2 + d3) == TelScheme + d1 + d2 + d3;
  }

  lemma ResolvesPhone(directory: map<string, string>, raw: string)
    requires PhoneKey in directory && directory[PhoneKey] == raw && raw != ""
    ensures ResolveContactUrl(Some(directory), PhoneKey) == Some(TelScheme + StripWhitespace(raw))
  {
  }
}
