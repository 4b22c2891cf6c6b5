/** Small types and string operations shared by every part of the model. */
module Common {

  // UUIDs and instants are only ever compared.
  type Id = nat
  type Time = int

  datatype Option<+T> = None | Some(value: T)

  /** The exceptions the domain services raise, without their sentences. */
  datatype Error =
    | PlanNotFound
    | PlanChanged
    | InvalidPlanState
    | PlanNotEditable
    | PlanNotReady
    | InvalidStructure
    | InvalidTransition
    | InvalidAddress
    | PermissionDenied
    | CodeExhausted   // RuntimeError after ten taken candidates
    | IntegrityError  // a table constraint refused the row

  datatype Result<+T> = Ok(value: T) | Err(error: Error)

  const CODE_ATTEMPTS := 10

  /** The short codes one allocation loop would draw, in order. */
  type Candidates = c: seq<string> | |c| == CODE_ATTEMPTS witness seq(CODE_ATTEMPTS, _ => "")

  /** One row insertion's share of randomness: its primary key and the codes drawn for it. */
  datatype Draw = Draw(id: Id, codes: Candidates)

  function Elements(codes: seq<string>): set<string> {
    set c | c in codes
  }

  function FirstFree(taken: set<string>, candidates: seq<string>): (r: Option<string>)
    ensures r.Some? ==> r.value in candidates && r.value !in taken
    ensures r.None? <==> forall c | c in candidates :: c in taken
  {
    if candidates == [] then None
    else if candidates[0] !in taken then Some(candidates[0])
    else FirstFree(taken, candidates[1..])
  }

  /** The draw is the first of the candidates not taken. */
  lemma {:induction false} FirstFreeIsFirst(taken: set<string>, candidates: seq<string>) returns (k: nat)
    requires FirstFree(taken, candidates).Some?
    ensures k < |candidates| && FirstFree(taken, candidates) == Some(candidates[k]) && candidates[k] !in taken
    ensures forall j | 0 <= j < k :: candidates[j] in taken
  {
    if candidates[0] !in taken {
      k := 0;
    } else {
      var rest := FirstFreeIsFirst(taken, candidates[1..]);
      k := rest + 1;
      assert forall j | 1 <= j < k :: candidates[j] == candidates[1..][j - 1];
    }
  }

  /** A draw that survives a larger set of taken codes was the first free one there too. */
  lemma {:induction false} FirstFreeStable(fewer: set<string>, more: set<string>, candidates: seq<string>)
    requires fewer <= more
    requires FirstFree(fewer, candidates).Some?
    requires FirstFree(fewer, candidates).value !in more
    ensures FirstFree(more, candidates) == FirstFree(fewer, candidates)
  {
    if candidates[0] in fewer {
      FirstFreeStable(fewer, more, candidates[1..]);
    }
  }
}

/** The fragment of Python's `str` that titles and addresses pass through. */
module Text {

  // str.isspace on ASCII and Latin-1.
  predicate IsSpace(c: char) {
    '\t' <= c <= '\r' || '\U{1C}' <= c <= ' ' || c == '\U{85}' || c == '\U{A0}'
  }

  predicate IsDigit(c: char) {
    '0' <= c <= '9'
  }

  function LowerChar(c: char): char {
    if 'A' <= c <= 'Z' then (c as int + 32) as char else c
  }

  function Lower(s: string): (r: string)
    ensures |r| == |s|
    ensures forall i | 0 <= i < |s| :: r[i] == LowerChar(s[i])
  {
    seq(|s|, i requires 0 <= i < |s| => LowerChar(s[i]))
  }

  predicate StartsWith(s: string, prefix: string) {
    prefix <= s
  }

  function LStrip(s: string): (r: string)
    ensures r == [] || !IsSpace(r[0])
    ensures |r| <= |s| && r == s[|s| - |r|..]
  {
    if s != [] && IsSpace(s[0]) then LStrip(s[1..]) else s
  }

  function RStrip(s: string): (r: string)
    ensures r == [] || !IsSpace(r[|r| - 1])
    ensures |r| <= |s| && r == s[..|r|]
  {
    if s != [] && IsSpace(s[|s| - 1]) then RStrip(s[..|s| - 1]) else s
  }

  function Strip(s: string): string {
    RStrip(LStrip(s))
  }

  predicate Stripped(s: string) {
    s == [] || (!IsSpace(s[0]) && !IsSpace(s[|s| - 1]))
  }

  lemma StripStripped(s: string)
    ensures Stripped(Strip(s))
    ensures Stripped(s) ==> Strip(s) == s
    ensures Strip(Strip(s)) == Strip(s)
  {
    var l := LStrip(s);
    var r := RStrip(l);
    if r != [] {
      assert r[0] == l[0];
    }
  }

  /** `r` is `s` without the blanks around it. */
  ghost predicate Trims(s: string, r: string) {
    Stripped(r) && exists i: nat, j: nat :: Inside(s, i, j) && r == s[i..j]
  }

  /** Everything before `i` and from `j` on is blank. */
  predicate Inside(s: string, i: nat, j: nat) {
    i <= j <= |s| && (forall k | 0 <= k < i :: IsSpace(s[k])) && (forall k | j <= k < |s| :: IsSpace(s[k]))
  }

  lemma {:induction false} LStripBlanks(s: string)
    ensures forall k | 0 <= k < |s| - |LStrip(s)| :: IsSpace(s[k])
  {
    hide IsSpace;
    if s != [] && IsSpace(s[0]) {
      LStripBlanks(s[1..]);
      forall k | 0 < k < |s| - |LStrip(s)|
        ensures IsSpace(s[k])
      {
        assert s[k] == s[1..][k - 1];
      }
    }
  }

  lemma {:induction false} RStripBlanks(s: string)
    ensures forall k | |RStrip(s)| <= k < |s| :: IsSpace(s[k])
  {
    hide IsSpace;
    if s != [] && IsSpace(s[|s| - 1]) {
      RStripBlanks(s[..|s| - 1]);
    }
  }

  lemma StripInside(s: string) returns (i: nat)
    ensures Inside(s, i, i + |Strip(s)|) && Strip(s) == s[i..i + |Strip(s)|]
  {
    hide IsSpace, LStrip, RStrip;
    var l := LStrip(s);
    LStripBlanks(s);
    RStripBlanks(l);
    i := |s| - |l|;
    var j := i + |Strip(s)|;
    assert l == s[i..];
    forall k | j <= k < |s|
      ensures IsSpace(s[k])
    {
      assert s[k] == l[k - i];
    }
  }

  /** `str.strip` takes the blanks off both ends and nothing else. */
  lemma StripTrims(s: string)
    ensures Trims(s, Strip(s))
  {
    hide Strip, Stripped, IsSpace;
    StripStripped(s);
    var i := StripInside(s);
  }

  /** The blanks of ASCII and Latin-1, one by one; no other character up to U+2014 that addresses use is blank. */
  lemma BlanksAre(c: char)
    ensures IsSpace(c) <==>
              c in {' ', '\t', '\n', '\r', '\U{0B}', '\U{0C}', '\U{1C}', '\U{1D}', '\U{1E}', '\U{1F}', '\U{85}', '\U{A0}'}
  {}
}
