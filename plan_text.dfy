/**
 * The string routine that `ExecutiveAgent.plan` falls back on when the
 * generator's answer is not a JSON object with a "steps" entry:
 * split the answer on "\n", strip every line, keep the non-empty ones.
 */
module PlanText {

  /** Python's `str.isspace` for a single character. */
  predicate IsSpace(c: char) {
    var n := c as int;
    (9 <= n <= 13) || (28 <= n <= 32) || n == 0x85 || n == 0xA0 || n == 0x1680
    || (0x2000 <= n <= 0x200A) || n == 0x2028 || n == 0x2029 || n == 0x202F
    || n == 0x205F || n == 0x3000
  }

  ghost predicate AllSpace(s: string) {
    forall i :: 0 <= i < |s| ==> IsSpace(s[i])
  }

  /** Non-empty, and neither starts nor ends with whitespace. */
  ghost predicate Trimmed(x: string) {
    x != [] && !IsSpace(x[0]) && !IsSpace(x[|x| - 1])
  }

  ghost predicate NoNewline(xs: seq<string>) {
    forall i :: 0 <= i < |xs| ==> '\n' !in xs[i]
  }

  /** What the fallback promises of every step it returns. */
  ghost predicate IsStep(x: string) {
    Trimmed(x) && '\n' !in x
  }

  /** Number of occurrences of `c` in `s`. */
  function Count(s: string, c: char): nat {
    if s == [] then 0 else (if s[0] == c then 1 else 0) + Count(s[1..], c)
  }

  /** Where the leading whitespace of `s[i..]` ends: the first non-whitespace index at or after `i`, or `|s|`. */
  function SkipSpace(s: string, i: nat): (j: nat)
    requires i <= |s|
    ensures i <= j <= |s|
    ensures forall k :: i <= k < j ==> IsSpace(s[k])
    ensures j == |s| || !IsSpace(s[j])
    decreases |s| - i
  {
    if i < |s| && IsSpace(s[i]) then SkipSpace(s, i + 1) else i
  }

  /** Where the trailing whitespace of `s[lo..hi]` starts: just past its last non-whitespace character, or `lo`. */
  function SkipSpaceBack(s: string, lo: nat, hi: nat): (j: nat)
    requires lo <= hi <= |s|
    ensures lo <= j <= hi
    ensures forall k :: j <= k < hi ==> IsSpace(s[k])
    ensures j == lo || !IsSpace(s[j - 1])
  {
    if lo < hi && IsSpace(s[hi - 1]) then SkipSpaceBack(s, lo, hi - 1) else hi
  }

  /**
   * `s.strip()`: the slice of `s` left once the leading and the trailing whitespace
   * are dropped; it neither starts nor ends with whitespace.
   */
  function Strip(s: string): (r: string)
    ensures var i := SkipSpace(s, 0);
      && i + |r| <= |s|
      && r == s[i..i + |r|]
      && AllSpace(s[..i])
      && AllSpace(s[i + |r|..])
    ensures r == [] || Trimmed(r)
    ensures r == [] <==> AllSpace(s)
  {
    var i := SkipSpace(s, 0);
    s[i..SkipSpaceBack(s, i, |s|)]
  }

  /** `s.split("\n")`: always at least one piece; an empty string gives `[""]`. */
  function Split(s: string): (r: seq<string>)
    ensures |r| == Count(s, '\n') + 1
    ensures NoNewline(r)
  {
    if s == [] then [[]]
    else
      var rest := Split(s[1..]);
      if s[0] == '\n' then [[]] + rest else [[s[0]] + rest[0]] + rest[1..]
  }

  /** `"\n".join(xs)`. */
  function Join(xs: seq<string>): string {
    if |xs| == 0 then []
    else if |xs| == 1 then xs[0]
    else xs[0] + "\n" + Join(xs[1..])
  }

  /** The comprehension over the split lines: strip each, keep the non-empty ones. */
  function Clean(lines: seq<string>): (r: seq<string>)
    ensures |r| <= |lines|
  {
    if lines == [] then []
    else
      var t := Strip(lines[0]);
      assert forall j :: 1 <= j < |lines| ==> lines[j] == lines[1..][j - 1];
      (if t == [] then [] else [t]) + Clean(lines[1..])
  }

  /** Every step the comprehension keeps is the stripped form of one of the lines: step `i` comes from line `j`. */
  lemma {:induction false} CleanSource(lines: seq<string>, i: nat) returns (j: nat)
    requires i < |Clean(lines)|
    ensures j < |lines| && Clean(lines)[i] == Strip(lines[j])
  {
    var t := Strip(lines[0]);
    var head: seq<string> := if t == [] then [] else [t];
    if i < |head| {
      j := 0;
    } else {
      var k := CleanSource(lines[1..], i - |head|);
      j := k + 1;
      assert lines[1..][k] == lines[j];
    }
  }

  /** Every line that is not blank is kept, stripped: line `j` is step `i`. */
  lemma {:induction false} CleanKeeps(lines: seq<string>, j: nat) returns (i: nat)
    requires j < |lines| && Strip(lines[j]) != []
    ensures i < |Clean(lines)| && Clean(lines)[i] == Strip(lines[j])
  {
    var t := Strip(lines[0]);
    var head: seq<string> := if t == [] then [] else [t];
    if j == 0 {
      i := 0;
    } else {
      assert lines[1..][j - 1] == lines[j];
      var k := CleanKeeps(lines[1..], j - 1);
      i := k + |head|;
    }
  }

  /** Every kept line is stripped and non-empty; at most one step per line; no step gains a "\n". */
  lemma {:induction false} CleanShape(lines: seq<string>)
    ensures |Clean(lines)| <= |lines|
    ensures forall i :: 0 <= i < |Clean(lines)| ==> Trimmed(Clean(lines)[i])
    ensures NoNewline(lines) ==> NoNewline(Clean(lines))
  {
    if lines != [] {
      var t := Strip(lines[0]);
      var head: seq<string> := if t == [] then [] else [t];
      var rest := Clean(lines[1..]);
      CleanShape(lines[1..]);
      assert Clean(lines) == head + rest;
      forall i | 0 <= i < |head + rest| ensures Trimmed((head + rest)[i]) {
        if i >= |head| {
          assert (head + rest)[i] == rest[i - |head|];
        }
      }
      if NoNewline(lines) {
        assert '\n' !in t;
        assert NoNewline(lines[1..]) by {
          forall k | 0 <= k < |lines[1..]| ensures '\n' !in lines[1..][k] {
            assert lines[1..][k] == lines[k + 1];
          }
        }
        forall i | 0 <= i < |head + rest| ensures '\n' !in (head + rest)[i] {
          if i >= |head| {
            assert (head + rest)[i] == rest[i - |head|];
          }
        }
      }
    }
  }

  /** The fallback plan of `ExecutiveAgent.plan`. */
  function FallbackSteps(response: string): (steps: seq<string>)
    ensures forall i :: 0 <= i < |steps| ==> IsStep(steps[i])
    ensures |steps| <= Count(response, '\n') + 1
  {
    CleanShape(Split(response));
    Clean(Split(response))
  }

  // ---------------------------------------------------------------------------
  // Split and Join are inverse to each other.

  lemma {:induction false} SplitNoNewline(a: string)
    requires '\n' !in a
    ensures Split(a) == [a]
  {
    if a != [] {
      SplitNoNewline(a[1..]);
      assert [a[0]] + a[1..] == a;
    }
  }

  lemma {:induction false} SplitAfterLine(a: string, b: string)
    requires '\n' !in a
    ensures Split(a + "\n" + b) == [a] + Split(b)
  {
    var s := a + "\n" + b;
    if a == [] {
      assert s == "\n" + b && s[1..] == b;
    } else {
      assert s[1..] == a[1..] + "\n" + b;
      SplitAfterLine(a[1..], b);
      assert [a[0]] + a[1..] == a;
    }
  }

  /** Splitting the joined lines gives back the lines, provided none holds a "\n". */
  lemma {:induction false} SplitJoin(xs: seq<string>)
    requires |xs| >= 1
    requires forall i :: 0 <= i < |xs| ==> '\n' !in xs[i]
    ensures Split(Join(xs)) == xs
  {
    if |xs| == 1 {
      SplitNoNewline(xs[0]);
    } else {
      SplitJoin(xs[1..]);
      SplitAfterLine(xs[0], Join(xs[1..]));
      assert [xs[0]] + xs[1..] == xs;
    }
  }

  /** Joining the pieces of a split gives back the original string. */
  lemma {:induction false} JoinSplit(s: string)
    ensures Join(Split(s)) == s
  {
    if s != [] {
      var rest := Split(s[1..]);
      JoinSplit(s[1..]);
      if s[0] == '\n' {
        assert Split(s) == [[]] + rest;
        assert ([[]] + rest)[1..] == rest;
        assert Join(Split(s)) == [] + "\n" + Join(rest);
        assert s == [s[0]] + s[1..];
      } else {
        var r := [[s[0]] + rest[0]] + rest[1..];
        assert Split(s) == r;
        if |rest| == 1 {
          assert Join(r) == [s[0]] + rest[0];
        } else {
          assert r[1..] == rest[1..];
          assert Join(r) == [s[0]] + rest[0] + "\n" + Join(rest[1..]);
          assert Join(rest) == rest[0] + "\n" + Join(rest[1..]);
        }
        assert s == [s[0]] + s[1..];
      }
    }
  }

  // ---------------------------------------------------------------------------
  // Properties of the fallback.

  /** Order preservation: the steps of a concatenation of line lists are the steps of each, in order. */
  lemma {:induction false} CleanAppend(a: seq<string>, b: seq<string>)
    ensures Clean(a + b) == Clean(a) + Clean(b)
  {
    if a != [] {
      var t := Strip(a[0]);
      var head: seq<string> := if t == [] then [] else [t];
      assert (a + b)[0] == a[0];
      assert (a + b)[1..] == a[1..] + b;
      assert Clean(a + b) == head + Clean(a[1..] + b);
      CleanAppend(a[1..], b);
      var rest, tail := Clean(a[1..]), Clean(b);
      assert Clean(a) == head + rest;
      SeqAssoc(head, rest, tail);
    } else {
      assert a + b == b;
    }
  }

  lemma SeqAssoc<T>(x: seq<T>, y: seq<T>, z: seq<T>)
    ensures x + (y + z) == (x + y) + z
  {
  }

  /** Cleaning lines that are already steps changes nothing. */
  lemma {:induction false} CleanSteps(xs: seq<string>)
    requires forall i :: 0 <= i < |xs| ==> IsStep(xs[i])
    ensures Clean(xs) == xs
  {
    if xs != [] {
      StripStep(xs[0]);
      CleanSteps(xs[1..]);
      assert [xs[0]] + xs[1..] == xs;
    }
  }

  lemma StripStep(x: string)
    requires IsStep(x)
    ensures Strip(x) == x
  {
  }

  /** Idempotence: joining the fallback's steps with "\n" and running the fallback again gives the same steps. */
  lemma FallbackIdempotent(response: string)
    ensures FallbackSteps(Join(FallbackSteps(response))) == FallbackSteps(response)
  {
    var steps := FallbackSteps(response);
    if steps == [] {
      assert Join(steps) == [];
      assert Split([]) == [[]];
      assert Strip([]) == [];
      assert Clean([[]]) == [] + Clean([]);
    } else {
      assert NoNewline(steps);
      SplitJoin(steps);
      CleanSteps(steps);
    }
  }

  lemma {:induction false} AllSpaceJoin(xs: seq<string>)
    requires |xs| >= 1
    ensures AllSpace(Join(xs)) <==> forall k :: 0 <= k < |xs| ==> AllSpace(xs[k])
  {
    if |xs| > 1 {
      AllSpaceJoin(xs[1..]);
      var j := Join(xs[1..]);
      var s := xs[0] + "\n" + j;
      assert forall i :: 0 <= i < |xs[0]| ==> s[i] == xs[0][i];
      assert forall i :: 0 <= i < |j| ==> s[|xs[0]| + 1 + i] == j[i];
      assert forall k :: 1 <= k < |xs| ==> xs[k] == xs[1..][k - 1];
    }
  }

  lemma {:induction false} CleanEmpty(lines: seq<string>)
    ensures Clean(lines) == [] <==> forall k :: 0 <= k < |lines| ==> AllSpace(lines[k])
  {
    if lines != [] {
      CleanEmpty(lines[1..]);
      assert forall k :: 1 <= k < |lines| ==> lines[k] == lines[1..][k - 1];
    }
  }

  /** The fallback yields an empty plan exactly when the response is empty or all whitespace. */
  lemma FallbackEmpty(response: string)
    ensures FallbackSteps(response) == [] <==> AllSpace(response)
  {
    var lines := Split(response);
    CleanEmpty(lines);
    JoinSplit(response);
    AllSpaceJoin(lines);
  }

  /** A response that is one clean line is a one-step plan. */
  lemma FallbackSingleLine(line: string)
    requires IsStep(line)
    ensures FallbackSteps(line) == [line]
  {
    SplitNoNewline(line);
    StripStep(line);
  }
}
