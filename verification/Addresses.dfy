/** Canonical addresses: what normalisation forgets about a spelling, and what it keeps. */
module Addresses {
  import opened Common
  import opened Text

  const DEFAULT_COUNTRY_CODE := "1"

  const URI_PREFIXES: seq<string> := ["mailto:", "tel:", "sms:", "imessage:"]

  const MIN_PHONE_DIGITS := 7
  const MAX_PHONE_DIGITS := 15

  predicate IsPunctuation(c: char) {
    c in "+-(). \t" || c == '\U{A0}' || '\U{2010}' <= c <= '\U{2014}'
  }

  // --- normalisation -----------------------------------------------------------------------

  /** The length of the first of `prefixes` that `lowered` starts with, or 0. */
  function PrefixLength(lowered: string, prefixes: seq<string>): (n: nat)
    ensures n <= |lowered|
  {
    if prefixes == [] then 0
    else if StartsWith(lowered, prefixes[0]) then |prefixes[0]|
    else PrefixLength(lowered, prefixes[1..])
  }

  function UriPrefix(value: string): (n: nat)
    ensures n <= |value|
  {
    PrefixLength(Lower(value), URI_PREFIXES)
  }

  function StripUriPrefix(value: string): string {
    if UriPrefix(value) > 0 then Strip(value[UriPrefix(value)..]) else value
  }

  /** Where `c` first occurs, or the length. */
  function Find(s: string, c: char): (i: nat)
    ensures i <= |s|
    ensures forall j | 0 <= j < i :: s[j] != c
    ensures i < |s| ==> s[i] == c
  {
    if s == [] || s[0] == c then 0 else 1 + Find(s[1..], c)
  }

  predicate UsableEmail(value: string) {
    var at := Find(value, '@');
    && 0 < at < |value| - 1
    && '@' !in value[at + 1..]
    && '.' in value[at + 1..]
    && forall c | c in value :: !IsSpace(c)
  }

  function NormalizeEmail(value: string): Result<string> {
    if UsableEmail(value) then Ok(Lower(value)) else Err(InvalidAddress)
  }

  function Digits(value: string): (d: string)
    ensures forall c | c in d :: IsDigit(c)
  {
    if value == [] then []
    else (if IsDigit(value[0]) then [value[0]] else []) + Digits(value[1..])
  }

  predicate PhoneText(value: string) {
    forall c | c in value :: IsDigit(c) || IsPunctuation(c)
  }

  function NormalizePhone(value: string, country: string): Result<string> {
    var digits := Digits(value);
    if !PhoneText(value) || digits == [] then Err(InvalidAddress)
    else if StartsWith(LStrip(value), "+") then
      if MIN_PHONE_DIGITS <= |digits| <= MAX_PHONE_DIGITS then Ok("+" + digits) else Err(InvalidAddress)
    else if |digits| == 10 then Ok("+" + country + digits)
    else if |digits| == 11 && StartsWith(digits, country) then Ok("+" + digits)
    else Err(InvalidAddress)
  }

  /** What `normalize_address` looks at once blanks and one URI prefix are gone. */
  function Bare(raw: string): string {
    StripUriPrefix(Strip(raw))
  }

  function NormalizeAddress(raw: string, country: string): Result<string> {
    var value := Bare(raw);
    if value == "" then Err(InvalidAddress)
    else if '@' in value then NormalizeEmail(value)
    else NormalizePhone(value, country)
  }

  // --- strings -----------------------------------------------------------------------------

  lemma LowerCharFacts(c: char)
    ensures IsSpace(LowerChar(c)) <==> IsSpace(c)
    ensures IsDigit(LowerChar(c)) <==> IsDigit(c)
    ensures LowerChar(LowerChar(c)) == LowerChar(c)
    ensures LowerChar(c) == '@' <==> c == '@'
    ensures LowerChar(c) == '.' <==> c == '.'
    ensures IsPunctuation(LowerChar(c)) <==> IsPunctuation(c)
    ensures IsDigit(c) || IsPunctuation(c) ==> LowerChar(c) == c
  {}

  lemma {:induction false} LStripLower(s: string)
    ensures LStrip(Lower(s)) == Lower(LStrip(s))
  {
    if s != [] {
      LowerCharFacts(s[0]);
      assert Lower(s)[1..] == Lower(s[1..]);
      LStripLower(s[1..]);
    }
  }

  lemma {:induction false} RStripLower(s: string)
    ensures RStrip(Lower(s)) == Lower(RStrip(s))
  {
    if s != [] {
      LowerCharFacts(s[|s| - 1]);
      assert Lower(s)[..|s| - 1] == Lower(s[..|s| - 1]);
      RStripLower(s[..|s| - 1]);
    }
  }

  lemma StripLower(s: string)
    ensures Strip(Lower(s)) == Lower(Strip(s))
  {
    LStripLower(s);
    RStripLower(LStrip(s));
  }

  lemma LowerTwice(s: string)
    ensures Lower(Lower(s)) == Lower(s)
  {
    forall i | 0 <= i < |s|
      ensures Lower(Lower(s))[i] == Lower(s)[i]
    {
      LowerCharFacts(s[i]);
    }
  }

  lemma {:induction false} LStripSnoc(front: string, c: char)
    ensures LStrip(front + [c]) == if LStrip(front) != [] then LStrip(front) + [c] else LStrip([c])
  {
    if front == [] {
      assert front + [c] == [c];
    } else {
      assert (front + [c])[1..] == front[1..] + [c];
      LStripSnoc(front[1..], c);
    }
  }

  lemma StripSnoc(front: string, c: char)
    requires IsSpace(c)
    ensures Strip(front + [c]) == Strip(front)
  {
    hide LStrip, IsSpace;
    LStripSnoc(front, c);
    var l := LStrip(front);
    if l != [] {
      assert (l + [c])[..|l|] == l;
      assert RStrip(l + [c]) == RStrip(l);
    } else {
      BlankStrips(c);
    }
  }

  lemma BlankStrips(c: char)
    requires IsSpace(c)
    ensures LStrip([c]) == []
  {}

  /** Blanks at the end are gone however often one strips. */
  lemma {:induction false} StripRStrip(s: string)
    ensures Strip(RStrip(s)) == Strip(s)
  {
    hide LStrip, Strip;
    if s != [] && IsSpace(s[|s| - 1]) {
      var front, c := s[..|s| - 1], s[|s| - 1];
      StripRStrip(front);
      assert s == front + [c];
      StripSnoc(front, c);
    }
  }

  lemma {:induction false} RStripAfter(p: string, s: string)
    requires p != [] && !IsSpace(p[|p| - 1])
    ensures RStrip(p + s) == p + RStrip(s)
    decreases |s|
  {
    if s == [] {
      assert p + s == p;
    } else {
      assert (p + s)[..|p + s| - 1] == p + s[..|s| - 1];
      RStripAfter(p, s[..|s| - 1]);
    }
  }

  lemma {:induction false} DigitsConcat(a: string, b: string)
    ensures Digits(a + b) == Digits(a) + Digits(b)
  {
    if a == [] {
      assert a + b == b;
    } else {
      assert (a + b)[1..] == a[1..] + b;
      DigitsConcat(a[1..], b);
    }
  }

  lemma {:induction false} AllDigits(d: string)
    requires forall c | c in d :: IsDigit(c)
    ensures Digits(d) == d
  {
    if d != [] {
      AllDigits(d[1..]);
    }
  }

  // --- case --------------------------------------------------------------------------------

  lemma BareLower(s: string)
    ensures Bare(Lower(s)) == Lower(Bare(s))
  {
    hide Strip, PrefixLength, LowerChar;
    StripLower(s);
    var v := Strip(s);
    LowerTwice(v);
    var n := UriPrefix(v);
    assert UriPrefix(Lower(v)) == n;
    assert Lower(v)[n..] == Lower(v[n..]);
    StripLower(v[n..]);
  }

  lemma LowerHas(s: string, c: char)
    requires c == '@' || c == '.'
    ensures c in Lower(s) <==> c in s
    ensures Find(Lower(s), c) == Find(s, c)
  {
    forall i | 0 <= i < |s|
      ensures Lower(s)[i] == c <==> s[i] == c
    {
      LowerCharFacts(s[i]);
    }
    if c in s {
      var i :| 0 <= i < |s| && s[i] == c;
      assert Lower(s)[i] == c;
    }
  }

  lemma EmailLower(v: string)
    ensures NormalizeEmail(Lower(v)) == NormalizeEmail(v)
  {
    LowerHas(v, '@');
    LowerTwice(v);
    var at := Find(v, '@');
    if at < |v| {
      assert Lower(v)[at + 1..] == Lower(v[at + 1..]);
      LowerHas(v[at + 1..], '@');
      LowerHas(v[at + 1..], '.');
    }
    SpacelessLower(v);
  }

  lemma SpacelessLower(v: string)
    ensures (forall c | c in Lower(v) :: !IsSpace(c)) <==> (forall c | c in v :: !IsSpace(c))
  {
    forall i | 0 <= i < |v|
      ensures IsSpace(Lower(v)[i]) <==> IsSpace(v[i])
      ensures Lower(v)[i] in Lower(v) && v[i] in v
    {
      LowerCharFacts(v[i]);
    }
  }

  lemma PhoneLower(v: string, country: string)
    ensures NormalizePhone(Lower(v), country) == NormalizePhone(v, country)
  {
    forall i | 0 <= i < |v|
      ensures Lower(v)[i] in Lower(v) && v[i] in v
      ensures (IsDigit(v[i]) || IsPunctuation(v[i])) <==> (IsDigit(Lower(v)[i]) || IsPunctuation(Lower(v)[i]))
      ensures IsDigit(v[i]) || IsPunctuation(v[i]) ==> Lower(v)[i] == v[i]
    {
      LowerCharFacts(v[i]);
    }
    if PhoneText(v) {
      assert Lower(v) == v;
    }
  }

  /** Letter case never matters, anywhere in an address. */
  lemma CaseIgnored(a: string, b: string, country: string)
    requires Lower(a) == Lower(b)
    ensures NormalizeAddress(a, country) == NormalizeAddress(b, country)
  {
    NormalizeLower(a, country);
    NormalizeLower(b, country);
  }

  lemma NormalizeLower(a: string, country: string)
    ensures NormalizeAddress(Lower(a), country) == NormalizeAddress(a, country)
  {
    hide UsableEmail, NormalizePhone, NormalizeEmail;
    var v := Bare(a);
    BareLower(a);
    LowerHas(v, '@');
    EmailLower(v);
    PhoneLower(v, country);
  }

  // --- prefixes and blanks -----------------------------------------------------------------

  /** The scan over the four prefixes, unrolled. */
  lemma FourPrefixes(low: string)
    ensures PrefixLength(low, URI_PREFIXES) ==
            if StartsWith(low, "mailto:") then 7
            else if StartsWith(low, "tel:") then 4
            else if StartsWith(low, "sms:") then 4
            else if StartsWith(low, "imessage:") then 9
            else 0
  {
    var one, two, three := URI_PREFIXES[1..], URI_PREFIXES[2..], URI_PREFIXES[3..];
    assert one[1..] == two && two[1..] == three && three[1..] == [];
    assert PrefixLength(low, three) == if StartsWith(low, "imessage:") then 9 else 0;
    assert PrefixLength(low, two) ==
           if StartsWith(low, "sms:") then 4 else if StartsWith(low, "imessage:") then 9 else 0;
    assert PrefixLength(low, one) == if StartsWith(low, "tel:") then 4 else PrefixLength(low, two);
  }

  lemma FirstPrefix(low: string, p: string)
    requires p in URI_PREFIXES && StartsWith(low, p)
    ensures PrefixLength(low, URI_PREFIXES) == |p|
    ensures |p| >= 4 && !IsSpace(p[0]) && !IsSpace(p[|p| - 1])
  {
    hide PrefixLength;
    FourPrefixes(low);
    assert low[0] == p[0];
    assert "mailto:"[0] == 'm' && "tel:"[0] == 't' && "sms:"[0] == 's' && "imessage:"[0] == 'i';
  }

  lemma PrefixFound(p: string, s: string)
    requires Lower(p) in URI_PREFIXES
    ensures UriPrefix(p + s) == |p|
    ensures p != [] && !IsSpace(p[0]) && !IsSpace(p[|p| - 1])
  {
    hide PrefixLength, LowerChar, IsSpace;
    assert Lower(p + s)[..|p|] == Lower(p);
    FirstPrefix(Lower(p + s), Lower(p));
    LowerCharFacts(p[0]);
    LowerCharFacts(p[|p| - 1]);
  }

  lemma PrefixStripped(p: string, w: string)
    requires Lower(p) in URI_PREFIXES
    ensures StripUriPrefix(p + w) == Strip(w)
  {
    hide PrefixLength, Strip, Lower;
    PrefixFound(p, w);
    assert (p + w)[|p|..] == w;
  }

  lemma BareAfterPrefix(p: string, v: string)
    requires Lower(p) in URI_PREFIXES
    ensures Bare(p + v) == Strip(v)
  {
    hide LStrip, RStrip, StripUriPrefix, IsSpace, LowerChar, Lower;
    PrefixFound(p, v);
    LStripInFront(p + v);
    RStripAfter(p, v);
    PrefixStripped(p, RStrip(v));
    StripRStrip(v);
  }

  /** One URI prefix, in any case, before an address that has none of its own changes nothing. */
  lemma PrefixIgnored(p: string, v: string, country: string)
    requires Lower(p) in URI_PREFIXES && UriPrefix(Strip(v)) == 0
    ensures NormalizeAddress(p + v, country) == NormalizeAddress(v, country)
  {
    hide NormalizePhone, NormalizeEmail, UriPrefix, Strip, Lower;
    BareAfterPrefix(p, v);
  }

  lemma LStripInFront(v: string)
    requires v != [] && !IsSpace(v[0])
    ensures LStrip(v) == v
  {}

  // --- phones ------------------------------------------------------------------------------

  /** Stripping removes no digit and, unless the first character is blank, leaves it in front. */
  lemma PhoneBare(v: string)
    requires PhoneText(v) && v != [] && !IsSpace(v[0])
    ensures Bare(v) != [] && Bare(v)[0] == v[0] && PhoneText(Bare(v)) && '@' !in Bare(v)
    ensures Digits(Bare(v)) == Digits(v)
  {
    hide LStrip, RStrip, UriPrefix, IsSpace, Digits, PhoneText;
    LStripInFront(v);
    RStripInFront(v);
    RStripDigits(v);
    PrefixOfPhone(v, |RStrip(v)|);
    NoUriPrefix(Strip(v));
  }

  lemma PrefixOfPhone(v: string, n: nat)
    requires PhoneText(v) && 0 < n <= |v|
    ensures PhoneText(v[..n]) && '@' !in v[..n] && !('a' <= LowerChar(v[0]) <= 'z')
  {
    assert v[0] in v;
    forall c | c in v[..n]
      ensures c in v
    {}
  }

  lemma {:induction false} RStripInFront(v: string)
    requires v != [] && !IsSpace(v[0])
    ensures RStrip(v) != [] && RStrip(v)[0] == v[0]
  {
    hide IsSpace;
    if IsSpace(v[|v| - 1]) {
      RStripInFront(v[..|v| - 1]);
    }
  }

  lemma {:induction false} RStripDigits(v: string)
    ensures Digits(RStrip(v)) == Digits(v)
  {
    if v != [] && IsSpace(v[|v| - 1]) {
      RStripDigits(v[..|v| - 1]);
      assert v == v[..|v| - 1] + [v[|v| - 1]];
      DigitsConcat(v[..|v| - 1], [v[|v| - 1]]);
    }
  }

  lemma NoUriPrefix(v: string)
    requires v != [] && !('a' <= LowerChar(v[0]) <= 'z')
    ensures UriPrefix(v) == 0
  {
    hide PrefixLength, LowerChar;
    FourPrefixes(Lower(v));
    assert Lower(v)[0] == LowerChar(v[0]);
    assert "mailto:"[0] == 'm' && "tel:"[0] == 't' && "sms:"[0] == 's' && "imessage:"[0] == 'i';
  }

  /** A phone number is its digits and whether it starts with a plus. */
  lemma PunctuationIgnored(a: string, b: string, country: string)
    requires PhoneText(a) && a != [] && !IsSpace(a[0])
    requires PhoneText(b) && b != [] && !IsSpace(b[0])
    requires Digits(a) == Digits(b) && (a[0] == '+' <==> b[0] == '+')
    ensures NormalizeAddress(a, country) == NormalizeAddress(b, country)
  {
    hide Bare, Digits, LStrip, PhoneText;
    PhoneBare(a);
    PhoneBare(b);
    PlusInFront(Bare(a));
    PlusInFront(Bare(b));
  }

  lemma PlusInFront(v: string)
    requires v != [] && !IsSpace(v[0])
    ensures StartsWith(LStrip(v), "+") <==> v[0] == '+'
  {}

  lemma PunctuationHasNoDigits(c: char)
    requires IsPunctuation(c)
    ensures Digits([c]) == []
  {}

  /** Punctuation anywhere after the first character changes nothing. */
  lemma PunctuationInserted(x: string, c: char, y: string, country: string)
    requires PhoneText(x + y) && x != [] && !IsSpace(x[0]) && IsPunctuation(c)
    ensures NormalizeAddress(x + [c] + y, country) == NormalizeAddress(x + y, country)
  {
    hide NormalizeAddress, Digits, IsSpace, IsPunctuation, IsDigit;
    var a, b := x + [c] + y, x + y;
    assert a[0] == b[0] == x[0];
    DigitsConcat(x + [c], y);
    DigitsConcat(x, [c]);
    DigitsConcat(x, y);
    PunctuationHasNoDigits(c);
    assert Digits(x) + [] + Digits(y) == Digits(x) + Digits(y);
    forall d | d in a
      ensures IsDigit(d) || IsPunctuation(d)
    {
      assert d in x || d == c || d in y;
      assert d != c ==> d in x + y;
    }
    PunctuationIgnored(a, b, country);
  }

  /** The punctuation a phone number may hold, one by one. */
  const PUNCTUATION: set<char> :=
    {'+', '-', '(', ')', '.', ' ', '\t', '\U{A0}', '\U{2010}', '\U{2011}', '\U{2012}', '\U{2013}', '\U{2014}'}

  /** Without an at sign, anything but digits and that punctuation, a letter in particular, makes an address unusable. */
  lemma StrayIsRefused(raw: string, c: char, country: string)
    requires '@' !in Bare(raw) && c in Bare(raw) && !('0' <= c <= '9') && c !in PUNCTUATION
    ensures NormalizeAddress(raw, country) == Err(InvalidAddress)
  {
    hide Bare, Digits, LStrip;
  }

  lemma SeparatorsArePunctuation(c: char)
    requires c in PUNCTUATION
    ensures IsPunctuation(c) && Digits([c]) == []
  {
    hide Digits;
    PunctuationHasNoDigits(c);
  }

  /** Three, three and four digits with any of that punctuation between them. */
  lemma SeparatedNumber(a: string, s: char, b: string, t: char, c: string)
    requires |a| == 3 && |b| == 3 && |c| == 4 && (forall d | d in a + b + c :: IsDigit(d))
    requires s in PUNCTUATION && t in PUNCTUATION
    ensures NormalizeAddress(a + [s] + b + [t] + c, DEFAULT_COUNTRY_CODE) == Ok("+1" + a + b + c)
  {
    hide NormalizeAddress, Digits, IsSpace, IsDigit, IsPunctuation;
    var d, text := a + b + c, a + [s] + b + [t] + c;
    SeparatorsArePunctuation(s);
    SeparatorsArePunctuation(t);
    SameDigits(a, s, b, t, c);
    SeparatedText(a, s, b, t, c);
    assert text[0] == a[0] == d[0] && a[0] in d;
    DigitIsVisible(a[0]);
    PunctuationIgnored(text, d, DEFAULT_COUNTRY_CODE);
    DigitText(d, DEFAULT_COUNTRY_CODE);
    assert "+" + DEFAULT_COUNTRY_CODE + d == "+1" + a + b + c;
  }

  lemma DigitIsVisible(c: char)
    requires IsDigit(c)
    ensures !IsSpace(c) && c != '+'
  {}

  lemma SameDigits(a: string, s: char, b: string, t: char, c: string)
    requires Digits([s]) == [] && Digits([t]) == [] && forall d | d in a + b + c :: IsDigit(d)
    ensures Digits(a + [s] + b + [t] + c) == Digits(a + b + c) == a + b + c
  {
    hide Digits, IsDigit;
    AllDigits(a + b + c);
    DigitsConcat(a + b, c);
    DigitsConcat(a, b);
    DigitsConcat(a + [s] + b + [t], c);
    DigitsConcat(a + [s] + b, [t]);
    DigitsConcat(a + [s], b);
    DigitsConcat(a, [s]);
  }

  lemma SeparatedText(a: string, s: char, b: string, t: char, c: string)
    requires IsPunctuation(s) && IsPunctuation(t) && forall d | d in a + b + c :: IsDigit(d)
    ensures PhoneText(a + [s] + b + [t] + c) && PhoneText(a + b + c)
  {
    hide IsDigit, IsPunctuation;
    forall d | d in a + [s] + b + [t] + c
      ensures d in a + b + c || d == s || d == t
    {}
  }

  /** One to three digits, as country codes are. */
  predicate CountryCode(country: string) {
    1 <= |country| <= 3 && forall c | c in country :: IsDigit(c)
  }

  lemma DigitText(d: string, country: string)
    requires d != [] && forall c | c in d :: IsDigit(c)
    ensures NormalizeAddress(d, country) ==
            if |d| == 10 then Ok("+" + country + d)
            else if |d| == 11 && StartsWith(d, country) then Ok("+" + d) else Err(InvalidAddress)
  {
    assert d[0] in d;
    PhoneBare(d);
    AllDigits(d);
    PlusInFront(Bare(d));
  }

  lemma PlusDigits(d: string)
    requires forall c | c in d :: IsDigit(c)
    ensures Digits("+" + d) == d
  {
    DigitsConcat("+", d);
    PunctuationHasNoDigits('+');
    AllDigits(d);
  }

  /** A number with a plus is taken as it is, exactly when it has 7 to 15 digits. */
  lemma PlusText(d: string, country: string)
    requires forall c | c in d :: IsDigit(c)
    ensures NormalizeAddress("+" + d, country) == if 7 <= |d| <= 15 then Ok("+" + d) else Err(InvalidAddress)
  {
    hide Digits, Bare, LStrip;
    var v := "+" + d;
    assert forall c | c in v :: c == '+' || c in d;
    PhoneBare(v);
    PlusDigits(d);
    PlusInFront(Bare(v));
  }

  /**
   A national number may be written out in full with a plus; without the plus, exactly when the
   country code is a single digit.
   */
  lemma NationalOrInFull(d: string, country: string)
    requires |d| == 10 && (forall c | c in d :: IsDigit(c)) && CountryCode(country)
    ensures NormalizeAddress("+" + country + d, country) == NormalizeAddress(d, country)
    ensures NormalizeAddress(country + d, country) == NormalizeAddress(d, country) <==> |country| == 1
  {
    hide NormalizeAddress;
    var full := country + d;
    assert forall c | c in full :: c in country || c in d;
    DigitText(d, country);
    DigitText(full, country);
    assert "+" + country + d == "+" + full;
    PlusText(full, country);
  }

  // --- canonical forms ---------------------------------------------------------------------

  lemma PhoneKey(v: string, country: string)
    requires NormalizePhone(v, country).Ok? && CountryCode(country)
    ensures var key := NormalizePhone(v, country).value;
            && |key| > 0 && key == "+" + Digits(key) && MIN_PHONE_DIGITS <= |Digits(key)| <= MAX_PHONE_DIGITS
            && '@' !in key
  {
    hide Digits, PhoneText, LStrip;
    var key := NormalizePhone(v, country).value;
    var d := key[1..];
    assert key == "+" + d && (d == Digits(v) || d == country + Digits(v));
    assert forall c | c in d :: IsDigit(c);
    PlusDigits(d);
  }

  /** Emails and phones never share a key. */
  lemma KeyShape(raw: string, country: string)
    requires NormalizeAddress(raw, country).Ok? && CountryCode(country)
    ensures var key := NormalizeAddress(raw, country).value;
            && ('@' in key <==> '@' in Bare(raw))
            && ('@' in Bare(raw) ==> key == Lower(Bare(raw)))
            && ('@' !in Bare(raw) ==>
                  |key| > 0 && key == "+" + Digits(key) && 7 <= |Digits(key)| <= 15)
  {
    hide Bare, NormalizePhone, Digits, UsableEmail;
    var v, key := Bare(raw), NormalizeAddress(raw, country).value;
    if '@' in v {
      LowerHas(v, '@');
    } else {
      PhoneKey(v, country);
    }
  }

  /**
   A canonical form normalises to itself exactly when nothing that looks like a second URI prefix
   was left in front of the address once blanks and the first were gone.
   */
  lemma IdempotentIff(raw: string, country: string)
    requires NormalizeAddress(raw, country).Ok? && CountryCode(country)
    ensures var key := NormalizeAddress(raw, country).value;
            NormalizeAddress(key, country) == Ok(key) <==> UriPrefix(Bare(raw)) == 0
  {
    hide Bare, UsableEmail, NormalizePhone, UriPrefix, Digits;
    var key := NormalizeAddress(raw, country).value;
    KeyShape(raw, country);
    if '@' in key {
      EmailIdempotent(Bare(raw), country);
    } else {
      PlusText(Digits(key), country);
      PhoneHasNoPrefix(Bare(raw), country);
    }
  }

  lemma PhoneHasNoPrefix(v: string, country: string)
    requires NormalizePhone(v, country).Ok?
    ensures v != [] && UriPrefix(v) == 0
  {
    hide UriPrefix, LStrip;
    if v != [] {
      PrefixOfPhone(v, |v|);
      NoUriPrefix(v);
    }
  }

  lemma UriPrefixLower(v: string)
    ensures UriPrefix(Lower(v)) == UriPrefix(v)
  {
    hide PrefixLength;
    LowerTwice(v);
  }

  lemma EmailIdempotent(v: string, country: string)
    requires UsableEmail(v) && CountryCode(country)
    ensures NormalizeAddress(Lower(v), country) == Ok(Lower(v)) <==> UriPrefix(v) == 0
  {
    hide UsableEmail, NormalizePhone, UriPrefix, Strip, LowerChar;
    var key := Lower(v);
    UriPrefixLower(v);
    SpacelessEmail(v);
    LowerHas(v, '@');
    if UriPrefix(v) > 0 {
      PrefixedIsNotFixed(key, country);
    } else {
      StripStripped(key);
      EmailLower(v);
    }
  }

  /** What begins like a URI normalises to something shorter, or without the at sign, or not at all. */
  lemma PrefixedIsNotFixed(key: string, country: string)
    requires Stripped(key) && '@' in key && UriPrefix(key) > 0 && CountryCode(country)
    ensures NormalizeAddress(key, country) != Ok(key)
  {
    hide UsableEmail, NormalizePhone, UriPrefix, Bare, Strip, CountryCode;
    BareIsShorter(key);
    if '@' !in Bare(key) && NormalizePhone(Bare(key), country).Ok? {
      PhoneKey(Bare(key), country);
    }
  }

  lemma BareIsShorter(key: string)
    requires Stripped(key) && UriPrefix(key) > 0
    ensures |Bare(key)| < |key|
  {
    hide UriPrefix, IsSpace;
    StripStripped(key);
  }

  /** No blanks inside, so none at the ends. */
  lemma SpacelessEmail(v: string)
    requires UsableEmail(v)
    ensures Stripped(Lower(v)) && '@' in v
  {
    SpacelessLower(v);
    assert Lower(v)[0] in Lower(v) && Lower(v)[|v| - 1] in Lower(v);
    assert v[Find(v, '@')] == '@';
  }

  /** `v` is split at its only at sign, something before it and a dot after it. */
  ghost predicate Splits(v: string, local: string, domain: string) {
    v == local + "@" + domain && local != "" && '@' !in local && '@' !in domain && '.' in domain
  }

  /** One at sign, something before it, a dot after it, no blanks. */
  ghost predicate IsMailbox(v: string) {
    && (exists local, domain :: Splits(v, local, domain))
    && forall c | c in v :: !IsSpace(c)
  }

  lemma SplitIsEmail(v: string, local: string, domain: string)
    requires Splits(v, local, domain) && forall c | c in v :: !IsSpace(c)
    ensures UsableEmail(v)
  {
    hide IsSpace, UsableEmail;
    assert v[|local| + 1..] == domain;
    assert forall j | 0 <= j < |local| :: v[j] == local[j] && local[j] in local;
    PlainEmail(v, |local|);
  }

  lemma MailboxIff(v: string)
    ensures UsableEmail(v) <==> IsMailbox(v)
  {
    hide IsSpace, Find;
    if UsableEmail(v) {
      var at := Find(v, '@');
      assert v == v[..at] + "@" + v[at + 1..];
      assert Splits(v, v[..at], v[at + 1..]);
    }
    if IsMailbox(v) {
      hide UsableEmail;
      var local, domain :| Splits(v, local, domain);
      SplitIsEmail(v, local, domain);
    }
  }

  /** With an at sign, an address is its mailbox in lower case, or unusable. */
  lemma EmailSays(raw: string, country: string)
    requires '@' in Bare(raw)
    ensures NormalizeAddress(raw, country) == if IsMailbox(Bare(raw)) then Ok(Lower(Bare(raw))) else Err(InvalidAddress)
  {
    hide Bare, UsableEmail, IsMailbox;
    MailboxIff(Bare(raw));
  }

  lemma PlainEmail(v: string, at: nat)
    requires 0 < at < |v| - 1 && v[at] == '@' && forall j | 0 <= j < at :: v[j] != '@'
    requires '@' !in v[at + 1..] && '.' in v[at + 1..] && forall c | c in v :: !IsSpace(c)
    ensures UsableEmail(v)
  {
    assert Find(v, '@') == at;
  }

  lemma PrefixedEmail(v: string, country: string)
    requires UsableEmail(v) && Lower(v) == v
    ensures NormalizeAddress("sms:" + v, country) == Ok(v)
  {
    hide UsableEmail, PrefixLength, Strip;
    assert Lower("sms:") == "sms:" && URI_PREFIXES[2] == "sms:";
    BareAfterPrefix("sms:", v);
    SpacelessEmail(v);
    StripStripped(v);
  }

  lemma InnerIsEmail()
    ensures UsableEmail("a@b.c") && Lower("a@b.c") == "a@b.c"
  {
    hide UsableEmail;
    var v := "a@b.c";
    assert v[2..] == "b.c" && "b.c"[1] == '.';
    PlainEmail(v, 1);
  }

  lemma OuterIsEmail()
    ensures UsableEmail("sms:a@b.c") && Lower("sms:a@b.c") == "sms:a@b.c"
  {
    hide UsableEmail;
    var v := "sms:a@b.c";
    assert v[6..] == "b.c" && "b.c"[1] == '.';
    PlainEmail(v, 5);
  }

  /** Not every canonical form is a fixed point. */
  lemma PrefixedTwice()
    ensures NormalizeAddress("sms:sms:a@b.c", DEFAULT_COUNTRY_CODE) == Ok("sms:a@b.c")
    ensures NormalizeAddress("sms:a@b.c", DEFAULT_COUNTRY_CODE) == Ok("a@b.c")
  {
    hide NormalizeAddress, UsableEmail, Lower;
    InnerIsEmail();
    OuterIsEmail();
    assert "sms:" + "sms:a@b.c" == "sms:sms:a@b.c" && "sms:" + "a@b.c" == "sms:a@b.c";
    PrefixedEmail("a@b.c", DEFAULT_COUNTRY_CODE);
    PrefixedEmail("sms:a@b.c", DEFAULT_COUNTRY_CODE);
  }
}
