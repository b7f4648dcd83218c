/** The label rule `point` checks names against: the preferred name syntax of
    section 2.3.1 of RFC 1035, in the lower-case, 63-character form Kubernetes
    uses for object names (`IsDNS1035Label`). */
module DnsLabel {

  const MaxLabelLength: nat := 63

  predicate IsLower(c: char) {
    'a' <= c <= 'z'
  }

  predicate IsDecimal(c: char) {
    '0' <= c <= '9'
  }

  predicate IsAlnum(c: char) {
    IsLower(c) || IsDecimal(c)
  }

  predicate IsLabelChar(c: char) {
    IsAlnum(c) || c == '-'
  }

  /** A label: one to 63 characters from `[a-z0-9-]`, starting with a letter
      and ending with a letter or digit. */
  predicate IsDns1035Label(s: string) {
    && 0 < |s| <= MaxLabelLength
    && IsLower(s[0])
    && IsAlnum(s[|s| - 1])
    && forall i :: 0 <= i < |s| ==> IsLabelChar(s[i])
  }

  /** States of a recogniser for the pattern `[a-z]([-a-z0-9]*[a-z0-9])?`. */
  datatype MatchState = Start | AfterAlnum | AfterHyphen | Dead

  function Step(st: MatchState, c: char): MatchState
  {
    match st
    case Start => if IsLower(c) then AfterAlnum else Dead
    case AfterAlnum | AfterHyphen =>
      if IsAlnum(c) then AfterAlnum else if c == '-' then AfterHyphen else Dead
    case Dead => Dead
  }

  function Scan(st: MatchState, s: string): MatchState
    decreases |s|
  {
    if |s| == 0 then st else Scan(Step(st, s[0]), s[1..])
  }

  /** The pattern match the label validator performs. */
  predicate MatchesLabelPattern(s: string) {
    Scan(Start, s) == AfterAlnum
  }

  /** Why a string is not a label, in the order the validator reports them. */
  datatype LabelError = TooLong | BadPattern

  /** The validator's error list: empty exactly for labels. */
  function Dns1035LabelErrors(s: string): (errs: seq<LabelError>)
    ensures |errs| == 0 <==> IsDns1035Label(s)
    ensures TooLong in errs <==> |s| > MaxLabelLength
  {
    MatchesLabelPatternIff(s);
    (if |s| > MaxLabelLength then [TooLong] else [])
      + (if MatchesLabelPattern(s) then [] else [BadPattern])
  }

  lemma {:induction false} ScanDead(s: string)
    ensures Scan(Dead, s) == Dead
    decreases |s|
  {
    if |s| > 0 {
      ScanDead(s[1..]);
    }
  }

  /** After the first letter, the recogniser accepts exactly the strings of
      label characters that end in a letter or digit (or are empty, when it
      already stands after one). */
  lemma {:induction false} ScanTail(st: MatchState, s: string)
    requires st == AfterAlnum || st == AfterHyphen
    ensures Scan(st, s) == AfterAlnum <==>
      && (forall i :: 0 <= i < |s| ==> IsLabelChar(s[i]))
      && (if |s| == 0 then st == AfterAlnum else IsAlnum(s[|s| - 1]))
    decreases |s|
  {
    if |s| > 0 {
      var next := Step(st, s[0]);
      if next == Dead {
        ScanDead(s[1..]);
        assert !IsLabelChar(s[0]);
      } else {
        ScanTail(next, s[1..]);
        assert forall i :: 1 <= i < |s| ==> s[1..][i - 1] == s[i];
        if |s| > 1 {
          assert s[1..][|s[1..]| - 1] == s[|s| - 1];
        }
      }
    }
  }

  /** The pattern alone describes the label rule without its length bound. */
  lemma MatchesLabelPatternIff(s: string)
    ensures MatchesLabelPattern(s) <==>
      && 0 < |s|
      && IsLower(s[0])
      && IsAlnum(s[|s| - 1])
      && forall i :: 0 <= i < |s| ==> IsLabelChar(s[i])
  {
    if |s| > 0 {
      if IsLower(s[0]) {
        ScanTail(AfterAlnum, s[1..]);
        assert forall i :: 1 <= i < |s| ==> s[1..][i - 1] == s[i];
        if |s| > 1 {
          assert s[1..][|s[1..]| - 1] == s[|s| - 1];
        }
      } else {
        ScanDead(s[1..]);
      }
    }
  }
}
