/** The functions of Go's `strings` package that `point` relies on,
    specialised to single-character separators: `strings.Replace(s, old, new, -1)`,
    `strings.Split(s, sep)` and its inverse `strings.Join`. */
module GoStrings {

  /** Number of occurrences of `c` in `s` (`strings.Count` for a one-character needle). */
  function Count(s: string, c: char): (n: nat)
    ensures n <= |s|
    ensures n == 0 <==> c !in s
  {
    if |s| == 0 then 0
    else (if s[0] == c then 1 else 0) + Count(s[1..], c)
  }

  /** `strings.Replace(s, target, repl, -1)`: every occurrence of `target` becomes `repl`. */
  function ReplaceAll(s: string, target: char, repl: char): (r: string)
    ensures |r| == |s|
    ensures forall i :: 0 <= i < |s| ==> r[i] == (if s[i] == target then repl else s[i])
    ensures target != repl ==> target !in r
  {
    seq(|s|, i requires 0 <= i < |s| => if s[i] == target then repl else s[i])
  }

  /** Count is additive over concatenation. */
  lemma {:induction false} CountAppend(a: string, b: string, c: char)
    ensures Count(a + b, c) == Count(a, c) + Count(b, c)
  {
    if |a| == 0 {
      assert a + b == b;
    } else {
      CountAppend(a[1..], b, c);
      assert (a + b)[1..] == a[1..] + b;
    }
  }

  /** Position of the first occurrence of `c` in `s`. */
  function IndexOf(s: string, c: char): (i: nat)
    requires c in s
    ensures i < |s| && s[i] == c && c !in s[..i]
  {
    if s[0] == c then 0 else 1 + IndexOf(s[1..], c)
  }

  /** `strings.Join(parts, sep)`; the empty list joins to the empty string. */
  function Join(parts: seq<string>, sep: char): string
  {
    if |parts| == 0 then ""
    else if |parts| == 1 then parts[0]
    else parts[0] + [sep] + Join(parts[1..], sep)
  }

  /** `strings.Split(s, sep)` for a non-empty separator: the pieces between
      separators, so there is always one more piece than separators, and the
      empty string splits into one empty piece. */
  function Split(s: string, sep: char): (parts: seq<string>)
    ensures |parts| == Count(s, sep) + 1
    ensures forall k :: 0 <= k < |parts| ==> sep !in parts[k]
    decreases |s|
  {
    if sep !in s then [s]
    else
      var i := IndexOf(s, sep);
      assert s == s[..i] + ([s[i]] + s[i + 1..]);
      CountAppend(s[..i], [s[i]] + s[i + 1..], sep);
      CountAppend([s[i]], s[i + 1..], sep);
      [s[..i]] + Split(s[i + 1..], sep)
  }

  /** Joining the pieces of a split gives back the original string. */
  lemma {:induction false} JoinSplit(s: string, sep: char)
    ensures Join(Split(s, sep), sep) == s
    decreases |s|
  {
    if sep in s {
      var i := IndexOf(s, sep);
      var rest := Split(s[i + 1..], sep);
      JoinSplit(s[i + 1..], sep);
      assert Split(s, sep) == [s[..i]] + rest;
      assert ([s[..i]] + rest)[1..] == rest;
      assert s == s[..i] + [sep] + s[i + 1..];
    }
  }

  /** The first separator of `p + [sep] + tail` is the one after `p`. */
  lemma IndexOfAfterPiece(p: string, tail: string, sep: char)
    requires sep !in p
    ensures sep in p + [sep] + tail
    ensures IndexOf(p + [sep] + tail, sep) == |p|
  {
    var s := p + [sep] + tail;
    assert s[|p|] == sep;
  }

  /** Splitting a join of separator-free pieces gives back the pieces. */
  lemma {:induction false} SplitJoin(parts: seq<string>, sep: char)
    requires |parts| > 0
    requires forall k :: 0 <= k < |parts| ==> sep !in parts[k]
    ensures Split(Join(parts, sep), sep) == parts
  {
    var p := parts[0];
    assert sep !in p;
    if |parts| == 1 {
      assert Join(parts, sep) == p;
    } else {
      var tail := Join(parts[1..], sep);
      var s := p + [sep] + tail;
      assert Join(parts, sep) == s;
      IndexOfAfterPiece(p, tail, sep);
      assert s[..|p|] == p;
      assert s[|p| + 1..] == tail;
      SplitJoin(parts[1..], sep);
      assert Split(s, sep) == [p] + Split(tail, sep);
      assert [p] + parts[1..] == parts;
    }
  }

  /** Replacing in a string whose first `target` follows `p` leaves `p` alone. */
  lemma ReplaceAllAfterPiece(p: string, tail: string, target: char, repl: char)
    requires target !in p
    ensures ReplaceAll(p + [target] + tail, target, repl) == p + [repl] + ReplaceAll(tail, target, repl)
  {
    var r := ReplaceAll(p + [target] + tail, target, repl);
    var e := p + [repl] + ReplaceAll(tail, target, repl);
    assert forall k :: 0 <= k < |p| ==> r[k] == e[k];
    assert forall k :: |p| < k < |r| ==> r[k] == e[k];
  }

  /** Joining a list of at least two pieces puts one separator after the first. */
  lemma JoinCons(p: string, tail: seq<string>, sep: char)
    requires |tail| > 0
    ensures Join([p] + tail, sep) == p + [sep] + Join(tail, sep)
  {
    assert ([p] + tail)[1..] == tail;
  }

  /** `strings.Replace(s, old, new, -1)` for one character is the same as
      splitting on `old` and joining with `new`. */
  lemma {:induction false} ReplaceAllIsSplitJoin(s: string, target: char, repl: char)
    ensures ReplaceAll(s, target, repl) == Join(Split(s, target), repl)
    decreases |s|
  {
    if target !in s {
      assert ReplaceAll(s, target, repl) == s;
    } else {
      var i := IndexOf(s, target);
      var rest := s[i + 1..];
      ReplaceAllIsSplitJoin(rest, target, repl);
      assert s == s[..i] + [target] + rest;
      ReplaceAllAfterPiece(s[..i], rest, target, repl);
      JoinCons(s[..i], Split(rest, target), repl);
    }
  }
}
