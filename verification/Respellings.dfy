/** When two texts are the same address: rewritings that change nothing, and the key as what they all share. */
module Respellings {
  import opened Common
  import opened Text
  import opened Addresses

  // --- rewriting ---------------------------------------------------------------------------

  /** The ways people and devices write one address differently. */
  datatype Rewriting =
    | Case
    | Blanks
    | AddPrefix(p: string)
    | SwapPrefix(p: string, q: string, v: string, w: string)
    | Punctuate(x: string, c: char, y: string)
    | National
    | Plus

  predicate IsPrefix(p: string) {
    Lower(p) in URI_PREFIXES
  }

  predicate AllDigit(d: string) {
    forall c | c in d :: IsDigit(c)
  }

  /** `m` turns `b` into `a`, or a bare national number `a` into the full form `b`. */
  predicate Turns(m: Rewriting, a: string, b: string, country: string) {
    match m
    case Case => Lower(a) == Lower(b)
    case Blanks => Strip(a) == Strip(b)
    case AddPrefix(p) => IsPrefix(p) && a == p + b && UriPrefix(Strip(b)) == 0
    case SwapPrefix(p, q, v, w) => IsPrefix(p) && IsPrefix(q) && a == p + v && b == q + w && Strip(v) == Strip(w)
    case Punctuate(x, c, y) =>
      && IsPunctuation(c) && PhoneText(x + y) && a == x + [c] + y && b == x + y
      && b != "" && !IsSpace(a[0]) && !IsSpace(b[0]) && (a[0] == '+' <==> b[0] == '+')
    case National => |a| == 10 && AllDigit(a) && b == "+" + country + a
    case Plus => |a| == 11 && AllDigit(a) && StartsWith(a, country) && b == "+" + a
  }

  ghost predicate Linked(a: string, b: string, country: string) {
    exists m :: Turns(m, a, b, country) || Turns(m, b, a, country)
  }

  ghost predicate Path(texts: seq<string>, country: string) {
    texts != [] && forall i | 0 < i < |texts| :: Linked(texts[i - 1], texts[i], country)
  }

  /** One can be rewritten into the other, in any number of steps, forwards and backwards. */
  ghost predicate Respells(a: string, b: string, country: string) {
    exists texts :: Path(texts, country) && texts[0] == a && texts[|texts| - 1] == b
  }

  // --- rewriting keeps the key -------------------------------------------------------------

  lemma PunctuationKept(x: string, c: char, y: string, country: string)
    requires Turns(Punctuate(x, c, y), x + [c] + y, x + y, country)
    ensures NormalizeAddress(x + [c] + y, country) == NormalizeAddress(x + y, country)
  {
    hide NormalizeAddress, Digits, IsSpace, IsDigit, IsPunctuation;
    var a, b := x + [c] + y, x + y;
    DigitsConcat(x + [c], y);
    DigitsConcat(x, [c]);
    DigitsConcat(x, y);
    PunctuationHasNoDigits(c);
    assert Digits(x) + [] + Digits(y) == Digits(x) + Digits(y);
    forall d | d in a
      ensures IsDigit(d) || IsPunctuation(d)
    {
      assert d in x || d == c || d in y;
      assert d != c ==> d in x + y;
    }
    PunctuationIgnored(a, b, country);
  }

  lemma TurnKeeps(m: Rewriting, a: string, b: string, country: string)
    requires Turns(m, a, b, country) && CountryCode(country)
    ensures NormalizeAddress(a, country) == NormalizeAddress(b, country)
  {
    hide NormalizeEmail, NormalizePhone, StripUriPrefix, Strip, Lower, UriPrefix, IsSpace;
    match m
    case Case => CaseIgnored(a, b, country);
    case Blanks =>
    case AddPrefix(p) => PrefixIgnored(p, b, country);
    case SwapPrefix(p, q, v, w) =>
      BareAfterPrefix(p, v);
      BareAfterPrefix(q, w);
    case Punctuate(x, c, y) => PunctuationKept(x, c, y, country);
    case National => NationalOrInFull(a, country);
    case Plus =>
      DigitText(a, country);
      PlusText(a, country);
  }

  lemma {:induction false} PathKeeps(texts: seq<string>, country: string)
    requires Path(texts, country) && CountryCode(country)
    ensures NormalizeAddress(texts[0], country) == NormalizeAddress(texts[|texts| - 1], country)
  {
    hide NormalizeAddress, Turns;
    if |texts| > 1 {
      var n := |texts| - 1;
      PathKeeps(texts[..n], country);
      assert Linked(texts[n - 1], texts[n], country);
      var m :| Turns(m, texts[n - 1], texts[n], country) || Turns(m, texts[n], texts[n - 1], country);
      if Turns(m, texts[n - 1], texts[n], country) {
        TurnKeeps(m, texts[n - 1], texts[n], country);
      } else {
        TurnKeeps(m, texts[n], texts[n - 1], country);
      }
    }
  }

  // --- paths -------------------------------------------------------------------------------

  lemma Once(m: Rewriting, a: string, b: string, country: string)
    requires Turns(m, a, b, country) || Turns(m, b, a, country)
    ensures Respells(a, b, country)
  {
    hide Turns;
    assert Linked(a, b, country);
    assert Path([a, b], country);
  }

  lemma Itself(a: string, country: string)
    ensures Respells(a, a, country)
  {
    hide Turns;
    assert Path([a], country);
  }

  lemma Onward(a: string, b: string, c: string, country: string)
    requires Respells(a, b, country) && Respells(b, c, country)
    ensures Respells(a, c, country)
  {
    hide Linked;
    var there :| Path(there, country) && there[0] == a && there[|there| - 1] == b;
    var on :| Path(on, country) && on[0] == b && on[|on| - 1] == c;
    var texts := there + on[1..];
    forall i | 0 < i < |texts|
      ensures Linked(texts[i - 1], texts[i], country)
    {
      if i >= |there| {
        assert texts[i] == on[i - |there| + 1] && texts[i - 1] == on[i - |there|];
        assert Linked(on[i - |there| + 1 - 1], on[i - |there| + 1], country);
      }
    }
    assert texts[|texts| - 1] == c;
  }

  lemma Back(a: string, b: string, country: string)
    requires Respells(a, b, country)
    ensures Respells(b, a, country)
  {
    hide Turns;
    var texts :| Path(texts, country) && texts[0] == a && texts[|texts| - 1] == b;
    var n := |texts|;
    var back := seq(n, i requires 0 <= i < n => texts[n - 1 - i]);
    forall i | 0 < i < n
      ensures Linked(back[i - 1], back[i], country)
    {
      assert Linked(texts[n - 1 - i], texts[n - i], country);
    }
    assert back[0] == b && back[n - 1] == a;
  }

  // --- every spelling leads to the key -----------------------------------------------------

  /** A text that means the key: the key, or the key behind a prefix if it begins like a URI itself. */
  function Plain(key: string): string {
    if UriPrefix(key) == 0 then key else "sms:" + key
  }

  lemma {:induction false} PrefixFromList(low: string, prefixes: seq<string>)
    requires PrefixLength(low, prefixes) > 0
    ensures low[..PrefixLength(low, prefixes)] in prefixes
  {
    if StartsWith(low, prefixes[0]) {
      assert low[..|prefixes[0]|] == prefixes[0];
    } else {
      PrefixFromList(low, prefixes[1..]);
      assert forall p :: p in prefixes[1..] ==> p in prefixes;
    }
  }

  lemma PrefixCut(s: string)
    requires UriPrefix(s) > 0
    ensures IsPrefix(s[..UriPrefix(s)]) && s == s[..UriPrefix(s)] + s[UriPrefix(s)..]
  {
    hide PrefixLength, LowerChar;
    var n := UriPrefix(s);
    PrefixFromList(Lower(s), URI_PREFIXES);
    assert Lower(s)[..n] == Lower(s[..n]);
  }

  /** Blanks and the one prefix come off. */
  lemma ToBare(a: string, country: string)
    requires UriPrefix(Bare(a)) == 0
    ensures Respells(a, Bare(a), country)
  {
    hide UriPrefix, Strip, Lower, Path;
    var s := Strip(a);
    StripStripped(a);
    Once(Blanks, a, s, country);
    if UriPrefix(s) > 0 {
      PrefixCut(s);
      var p, w := s[..UriPrefix(s)], s[UriPrefix(s)..];
      StripStripped(w);
      Once(AddPrefix(p), s, w, country);
      Onward(a, s, w, country);
      Once(Blanks, w, Strip(w), country);
      Onward(a, w, Strip(w), country);
    }
  }

  lemma SmsIsPrefix()
    ensures IsPrefix("sms:")
  {
    assert Lower("sms:") == "sms:" && URI_PREFIXES[2] == "sms:";
  }

  /** A second prefix stays, behind whichever first one. */
  lemma ToSms(a: string, country: string)
    requires UriPrefix(Bare(a)) > 0
    ensures Respells(a, "sms:" + Bare(a), country)
  {
    hide UriPrefix, Strip, Lower, Path, IsPrefix;
    var s := Strip(a);
    StripStripped(a);
    SmsIsPrefix();
    Once(Blanks, a, s, country);
    assert UriPrefix(s) > 0 by { BareOfPlain(a); }
    PrefixCut(s);
    var p, w := s[..UriPrefix(s)], s[UriPrefix(s)..];
    StripStripped(w);
    Once(SwapPrefix(p, "sms:", w, Strip(w)), s, "sms:" + Strip(w), country);
    Onward(a, s, "sms:" + Strip(w), country);
  }

  lemma BareOfPlain(a: string)
    ensures UriPrefix(Strip(a)) == 0 ==> Bare(a) == Strip(a)
  {
    hide UriPrefix, Strip;
  }

  lemma EmailToKey(a: string, country: string)
    requires UsableEmail(Bare(a))
    ensures Respells(a, Plain(Lower(Bare(a))), country)
  {
    hide UriPrefix, Bare, Path, UsableEmail, Lower, Respells;
    var v, key := Bare(a), Lower(Bare(a));
    UriPrefixLower(v);
    LowerTwice(v);
    if UriPrefix(v) == 0 {
      ToBare(a, country);
      Once(Case, v, key, country);
      Onward(a, v, key, country);
    } else {
      ToSms(a, country);
      LowerConcat("sms:", v);
      LowerConcat("sms:", key);
      Once(Case, "sms:" + v, "sms:" + key, country);
      Onward(a, "sms:" + v, "sms:" + key, country);
    }
  }

  lemma LowerConcat(a: string, b: string)
    ensures Lower(a + b) == Lower(a) + Lower(b)
  {
    hide LowerChar;
  }

  /** A phone number without its punctuation. */
  function Core(v: string): string
    requires v != ""
  {
    (if v[0] == '+' then "+" else "") + Digits(v)
  }

  lemma {:induction false} Unpunctuate(v: string, country: string)
    requires PhoneText(v) && v != "" && !IsSpace(v[0]) && Digits(v) != []
    ensures Respells(v, Core(v), country)
    decreases |v|
  {
    hide Respells, Digits, IsSpace, IsDigit, IsPunctuation;
    if i :| 1 <= i < |v| && !IsDigit(v[i]) {
      var x, c, y := v[..i], v[i], v[i + 1..];
      assert v == x + [c] + y;
      Dropped(x, c, y);
      Once(Punctuate(x, c, y), v, x + y, country);
      Unpunctuate(x + y, country);
      Onward(v, x + y, Core(v), country);
    } else {
      InnerDigits(v, country);
    }
  }

  lemma Dropped(x: string, c: char, y: string)
    requires PhoneText(x + [c] + y) && !IsDigit(c)
    ensures Digits(x + y) == Digits(x + [c] + y) && PhoneText(x + y) && IsPunctuation(c)
  {
    hide Digits, IsDigit, IsPunctuation;
    var a := x + [c] + y;
    assert a[|x|] == c && c in a;
    DigitsConcat(x + [c], y);
    DigitsConcat(x, [c]);
    DigitsConcat(x, y);
    PunctuationHasNoDigits(c);
    assert Digits(x) + [] + Digits(y) == Digits(x) + Digits(y);
    forall d | d in x + y
      ensures d in a
    {
      assert d in x || d in y;
    }
  }

  /** Only the first character may still be punctuation. */
  lemma InnerDigits(v: string, country: string)
    requires PhoneText(v) && v != "" && !IsSpace(v[0]) && Digits(v) != []
    requires forall i | 1 <= i < |v| :: IsDigit(v[i])
    ensures Respells(v, Core(v), country)
  {
    hide Respells, Digits, IsSpace, IsPunctuation, IsDigit, Turns;
    var rest := v[1..];
    assert v == [v[0]] + rest;
    FirstAndRest(v[0], rest);
    if v[0] != '+' && !IsDigit(v[0]) {
      DigitsAreVisible(rest);
      FrontDropped(v[0], rest, country);
      assert Core(v) == rest;
    } else {
      assert v[0] == '+' ==> v == "+" + rest;
      assert Core(v) == v;
      Itself(v, country);
    }
  }

  lemma FirstAndRest(c: char, rest: string)
    requires AllDigit(rest) && PhoneText([c] + rest)
    ensures Digits([c] + rest) == if IsDigit(c) then [c] + rest else rest
    ensures !IsDigit(c) ==> IsPunctuation(c)
    ensures c == '+' ==> !IsDigit(c)
  {
    hide Digits;
    assert ([c] + rest)[0] == c;
    AllDigits(rest);
    DigitsConcat([c], rest);
    if IsDigit(c) {
      AllDigits([c]);
    } else {
      PunctuationHasNoDigits(c);
    }
  }

  lemma FrontDropped(c: char, rest: string, country: string)
    requires IsPunctuation(c) && c != '+' && !IsSpace(c)
    requires rest != "" && !IsSpace(rest[0]) && rest[0] != '+' && PhoneText(rest)
    ensures Respells([c] + rest, rest, country)
  {
    hide Respells, IsSpace, IsPunctuation, PhoneText;
    assert [] + [c] + rest == [c] + rest && [] + rest == rest;
    Once(Punctuate([], c, rest), [c] + rest, rest, country);
  }

  lemma DigitsAreVisible(d: string)
    requires AllDigit(d) && d != ""
    ensures !IsSpace(d[0]) && d[0] != '+' && PhoneText(d)
  {
    assert d[0] in d;
  }

  lemma PhoneToKey(v: string, country: string)
    requires NormalizePhone(v, country).Ok? && v != "" && !IsSpace(v[0])
    ensures Respells(v, NormalizePhone(v, country).value, country)
  {
    hide Respells, Digits, PhoneText, IsSpace, LStrip;
    var d, key := Digits(v), NormalizePhone(v, country).value;
    Unpunctuate(v, country);
    PlusInFront(v);
    if v[0] != '+' {
      assert Core(v) == d;
      Once(if |d| == 10 then National else Plus, d, key, country);
      Onward(v, d, key, country);
    }
  }

  /** Every usable address can be rewritten into its key. */
  lemma ToKey(a: string, country: string)
    requires NormalizeAddress(a, country).Ok? && CountryCode(country)
    ensures Respells(a, Plain(NormalizeAddress(a, country).value), country)
  {
    hide Respells, UsableEmail, NormalizePhone, Bare, UriPrefix;
    var v, key := Bare(a), NormalizeAddress(a, country).value;
    if '@' in v {
      EmailToKey(a, country);
    } else {
      PhoneHasNoPrefix(v, country);
      BareStartsVisibly(a);
      ToBare(a, country);
      PhoneToKey(v, country);
      PhoneKeyIsPlain(v, country);
      Onward(a, v, key, country);
    }
  }

  lemma BareStartsVisibly(a: string)
    requires Bare(a) != ""
    ensures !IsSpace(Bare(a)[0])
  {
    hide UriPrefix, Strip, IsSpace;
    StripStripped(a);
    StripStripped(Strip(a)[UriPrefix(Strip(a))..]);
  }

  lemma PhoneKeyIsPlain(v: string, country: string)
    requires NormalizePhone(v, country).Ok?
    ensures Plain(NormalizePhone(v, country).value) == NormalizePhone(v, country).value
  {
    hide UriPrefix, Digits, PhoneText, LStrip;
    NoUriPrefix(NormalizePhone(v, country).value);
  }

  /** Two usable addresses have one key exactly when one can be rewritten into the other. */
  lemma SameKeyIff(a: string, b: string, country: string)
    requires NormalizeAddress(a, country).Ok? && NormalizeAddress(b, country).Ok? && CountryCode(country)
    ensures NormalizeAddress(a, country) == NormalizeAddress(b, country) <==> Respells(a, b, country)
  {
    hide NormalizeAddress, Respells, Plain;
    if NormalizeAddress(a, country) == NormalizeAddress(b, country) {
      var key := Plain(NormalizeAddress(a, country).value);
      ToKey(a, country);
      ToKey(b, country);
      Back(b, key, country);
      Onward(a, key, b, country);
    }
    if Respells(a, b, country) {
      RespellingKeeps(a, b, country);
    }
  }

  /** Rewriting keeps the answer, key or error. */
  lemma RespellingKeeps(a: string, b: string, country: string)
    requires Respells(a, b, country) && CountryCode(country)
    ensures NormalizeAddress(a, country) == NormalizeAddress(b, country)
  {
    hide NormalizeAddress, Linked;
    var texts :| Path(texts, country) && texts[0] == a && texts[|texts| - 1] == b;
    PathKeeps(texts, country);
  }

  // --- national numbers as people write them -----------------------------------------------

  /** A ten-digit number as people write it: punctuated, with or without the leading 1 or +1. */
  predicate Spells(a: string, d: string) {
    && PhoneText(a) && a != [] && !IsSpace(a[0])
    && (Digits(a) == "1" + d || (Digits(a) == d && a[0] != '+'))
  }

  lemma SpellingBare(a: string, d: string)
    requires Spells(a, d) && |d| == 10 && forall c | c in d :: IsDigit(c)
    ensures NormalizeAddress(a, DEFAULT_COUNTRY_CODE) == Ok("+1" + d)
  {
    hide Bare, LStrip, Digits, PhoneText, IsSpace;
    PhoneBare(a);
    PlusInFront(Bare(a));
    assert "+" + DEFAULT_COUNTRY_CODE + d == "+1" + d == "+" + ("1" + d);
  }

  /** Every spelling of a national number, behind a URI prefix or not, has the key of its digits. */
  lemma SpellingsAgree(a: string, d: string, p: string)
    requires Spells(a, d) && |d| == 10 && forall c | c in d :: IsDigit(c)
    requires p == "" || Lower(p) in URI_PREFIXES
    ensures NormalizeAddress(p + a, DEFAULT_COUNTRY_CODE) == NormalizeAddress(d, DEFAULT_COUNTRY_CODE)
  {
    hide NormalizeAddress, Digits, LStrip, RStrip, PrefixLength;
    SpellingBare(a, d);
    DigitText(d, DEFAULT_COUNTRY_CODE);
    assert "+" + DEFAULT_COUNTRY_CODE + d == "+1" + d;
    if p == "" {
      assert p + a == a;
    } else {
      PrefixOfPhone(a, |a|);
      LStripInFront(a);
      RStripInFront(a);
      NoUriPrefix(Strip(a));
      PrefixIgnored(p, a, DEFAULT_COUNTRY_CODE);
    }
  }
}
