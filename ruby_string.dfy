/**
 * The parts of Ruby's String library that the remote-URL handling relies on:
 * `strip`, `chomp`, the line-anchored regular-expression rewrites done with
 * `gsub` (`^` and `$` match at every line start and line end, `.` never matches
 * a line feed), `split('/')` and `downcase`.
 */
module RubyString {
  import opened Wrappers

  /** The characters `String#strip` removes: NUL, tab, line feed, vertical tab,
      form feed, carriage return and space. */
  predicate IsStripSpace(c: char) {
    c == '\0' || c == '\t' || c == '\n' || c == '\U{B}' || c == '\U{C}' || c == '\r' || c == ' '
  }

  /** The index of the first character at or after `i` that is not strip
      space, or `|s|`. */
  function SkipSpaces(s: string, i: nat): (j: nat)
    requires i <= |s|
    ensures i <= j <= |s|
    ensures j < |s| ==> !IsStripSpace(s[j])
    decreases |s| - i
  {
    if i < |s| && IsStripSpace(s[i]) then SkipSpaces(s, i + 1) else i
  }

  /** The end of `s[lo..hi]` once its trailing strip space is dropped. */
  function TrimEnd(s: string, lo: nat, hi: nat): (j: nat)
    requires lo <= hi <= |s|
    ensures lo <= j <= hi
    ensures j > lo ==> !IsStripSpace(s[j - 1])
    decreases hi
  {
    if hi > lo && IsStripSpace(s[hi - 1]) then TrimEnd(s, lo, hi - 1) else hi
  }

  /** Everything `SkipSpaces` passes over is strip space. */
  lemma {:induction false} SkipSpacesPassesSpaces(s: string, i: nat)
    requires i <= |s|
    ensures forall k | i <= k < SkipSpaces(s, i) :: IsStripSpace(s[k])
    decreases |s| - i
  {
    if i < |s| && IsStripSpace(s[i]) {
      SkipSpacesPassesSpaces(s, i + 1);
    }
  }

  /** Everything `TrimEnd` drops is strip space. */
  lemma {:induction false} TrimEndDropsSpaces(s: string, lo: nat, hi: nat)
    requires lo <= hi <= |s|
    ensures forall k | TrimEnd(s, lo, hi) <= k < hi :: IsStripSpace(s[k])
    decreases hi
  {
    if hi > lo && IsStripSpace(s[hi - 1]) {
      TrimEndDropsSpaces(s, lo, hi - 1);
    }
  }

  /** Where the stripped string starts and ends in `s`. */
  function StripStart(s: string): nat
    ensures StripStart(s) <= |s|
  {
    SkipSpaces(s, 0)
  }

  function StripEnd(s: string): (j: nat)
    ensures StripStart(s) <= j <= |s|
  {
    TrimEnd(s, StripStart(s), |s|)
  }

  /** The characters of `s` from `i` up to `j`, built one at a time. */
  function Slice(s: string, i: nat, j: nat): (r: string)
    requires i <= j <= |s|
    ensures |r| == j - i
    decreases j - i
  {
    if i == j then [] else [s[i]] + Slice(s, i + 1, j)
  }

  /** `Slice` is the infix `s[i..j]`. */
  lemma {:induction false} SliceIsInfix(s: string, i: nat, j: nat)
    requires i <= j <= |s|
    ensures Slice(s, i, j) == s[i..j]
    decreases j - i
  {
    if i < j {
      SliceIsInfix(s, i + 1, j);
      assert s[i..j] == [s[i]] + s[i + 1..j];
    }
  }

  /** `String#strip`: the longest infix of `s` that neither starts nor ends with
      a strip space. */
  function Strip(s: string): (r: string)
    ensures r == [] || (!IsStripSpace(r[0]) && !IsStripSpace(r[|r| - 1]))
    ensures |r| <= |s|
    ensures |s| > 0 && !IsStripSpace(s[0]) && !IsStripSpace(s[|s| - 1]) ==> r == s
  {
    SliceIsInfix(s, StripStart(s), StripEnd(s));
    Slice(s, StripStart(s), StripEnd(s))
  }

  /** `strip` cuts only strip space: it keeps the infix between the leading
      and the trailing run of strip space. */
  lemma StripCutsSpaces(s: string)
    ensures Strip(s) == s[StripStart(s)..StripEnd(s)]
    ensures forall k | 0 <= k < StripStart(s) :: IsStripSpace(s[k])
    ensures forall k | StripEnd(s) <= k < |s| :: IsStripSpace(s[k])
  {
    SliceIsInfix(s, StripStart(s), StripEnd(s));
    SkipSpacesPassesSpaces(s, 0);
    TrimEndDropsSpaces(s, StripStart(s), |s|);
  }

  /** `strip` keeps an infix: every character it keeps is one of the input's. */
  lemma StripKeepsCharacters(s: string)
    ensures forall c | c in Strip(s) :: c in s
  {
    var a := StripStart(s);
    SliceIsInfix(s, a, StripEnd(s));
    forall c | c in Strip(s) ensures c in s {
      var j :| 0 <= j < |Strip(s)| && Strip(s)[j] == c;
      assert s[a + j] == c;
    }
  }

  /** A string of strip spaces strips to the empty string. */
  lemma StripOfSpaces(s: string)
    requires forall i | 0 <= i < |s| :: IsStripSpace(s[i])
    ensures Strip(s) == []
  {
  }

  /** Stripping twice is stripping once, so repeated `strip!` calls on the
      same stored string are harmless. */
  lemma StripIdempotent(s: string)
    ensures Strip(Strip(s)) == Strip(s)
  {
  }

  /** `String#chomp` with no argument: removes one trailing "\r\n", "\n" or "\r". */
  function Chomp(s: string): (r: string)
  {
    if |s| >= 2 && s[|s| - 2..] == "\r\n" then s[..|s| - 2]
    else if |s| >= 1 && (s[|s| - 1] == '\n' || s[|s| - 1] == '\r') then s[..|s| - 1]
    else s
  }

  predicate EndsWithLineTerminator(s: string) {
    |s| > 0 && (s[|s| - 1] == '\n' || s[|s| - 1] == '\r')
  }

  /** What `chomp` removes is exactly one line terminator appended to a string
      that did not already end in one. */
  lemma ChompRemovesOneTerminator(s: string)
    requires !EndsWithLineTerminator(s)
    ensures Chomp(s) == s
    ensures Chomp(s + "\n") == s
    ensures Chomp(s + "\r") == s
    ensures Chomp(s + "\r\n") == s
  {
    assert (s + "\r\n")[|s| + 2 - 2..] == "\r\n";
    assert (s + "\r\n")[..|s|] == s;
    assert (s + "\n")[..|s|] == s;
    assert (s + "\r")[..|s|] == s;
  }

  /** `chomp` on any string ending in a line terminator: "\r\n" and "\r" are
      removed whole; a "\n" goes alone unless a "\r" stands before it, in
      which case the pair goes. */
  lemma ChompOfTerminated(s: string)
    ensures Chomp(s + "\r\n") == s
    ensures Chomp(s + "\r") == s
    ensures (|s| == 0 || s[|s| - 1] != '\r') ==> Chomp(s + "\n") == s
    ensures |s| > 0 && s[|s| - 1] == '\r' ==> Chomp(s + "\n") == s[..|s| - 1]
  {
    assert (s + "\r\n")[|s| + 2 - 2..] == "\r\n";
    assert (s + "\r\n")[..|s|] == s;
    assert (s + "\r")[..|s|] == s;
    assert (s + "\n")[..|s|] == s;
    if |s| > 0 {
      assert (s + "\r")[|s| + 1 - 2..][1] == '\r';
    }
    if |s| > 0 && s[|s| - 1] == '\r' {
      assert (s + "\n")[|s| + 1 - 2..] == "\r\n";
    } else if |s| > 0 {
      assert (s + "\n")[|s| + 1 - 2..] != "\r\n" by {
        assert (s + "\n")[|s| + 1 - 2..][0] == s[|s| - 1];
      }
    }
  }

  // ---------------------------------------------------------------------------
  // Line-anchored rewrites
  // ---------------------------------------------------------------------------

  /** `pat` occurs in `s` ending just before index `k`. */
  predicate EndsAt(s: string, pat: string, k: int) {
    |pat| <= k <= |s| && s[k - |pat|..k] == pat
  }

  /** The end of the last occurrence of `pat` in `s`: where the greedy
      `^.*pat` stops within one line. */
  function LastEnd(s: string, pat: string): (r: Option<nat>)
    decreases |s|
    ensures r.Some? ==> EndsAt(s, pat, r.value)
    ensures r.Some? ==> forall k | r.value < k <= |s| :: !EndsAt(s, pat, k)
    ensures r.None? ==> forall k | 0 <= k <= |s| :: !EndsAt(s, pat, k)
  {
    if |s| < |pat| then None
    else if s[|s| - |pat|..] == pat then Some(|s|)
    else
      var r := LastEnd(s[..|s| - 1], pat);
      assert forall k | 0 <= k < |s| :: EndsAt(s[..|s| - 1], pat, k) == EndsAt(s, pat, k) by {
        forall k | 0 <= k < |s| ensures EndsAt(s[..|s| - 1], pat, k) == EndsAt(s, pat, k) {
          if |pat| <= k { assert s[..|s| - 1][k - |pat|..k] == s[k - |pat|..k]; }
        }
      }
      r
  }

  /** One `gsub` whose pattern is anchored to a line: `^.*pat` (drop everything
      through the last `pat` of the line) or `suffix$` (drop `suffix` at the
      end of the line). */
  datatype LineEdit = DropThroughLast(pat: string) | DropTrailing(suffix: string)
  {
    function Apply(line: string): (r: string)
      ensures |r| <= |line|
      ensures this.DropThroughLast? && r != line ==> r == line[|line| - |r|..]
      ensures this.DropThroughLast? && |pat| > 0 ==> forall k | 0 <= k <= |r| :: !EndsAt(r, pat, k)
      ensures this.DropTrailing? ==> r == line || line == r + suffix
      ensures forall c | c in r :: c in line
    {
      match this
      case DropThroughLast(pat) =>
        (match LastEnd(line, pat)
         case Some(k) =>
           var r := line[k..];
           assert forall j | 0 <= j <= |r| :: EndsAt(r, pat, j) ==> EndsAt(line, pat, k + j) by {
             forall j | 0 <= j <= |r| && EndsAt(r, pat, j) ensures EndsAt(line, pat, k + j) {
               assert r[j - |pat|..j] == line[k + j - |pat|..k + j];
             }
           }
           r
         case None => line)
      case DropTrailing(suffix) =>
        if |line| >= |suffix| && line[|line| - |suffix|..] == suffix then
          assert line == line[..|line| - |suffix|] + suffix;
          line[..|line| - |suffix|]
        else line
    }
  }

  /** `suffix$` on one line removes the suffix exactly when the line ends in
      it, and otherwise leaves the line alone. */
  lemma DropTrailingExact(suffix: string, line: string)
    ensures |line| >= |suffix| && line[|line| - |suffix|..] == suffix ==>
      DropTrailing(suffix).Apply(line) == line[..|line| - |suffix|]
    ensures !(|line| >= |suffix| && line[|line| - |suffix|..] == suffix) ==>
      DropTrailing(suffix).Apply(line) == line
  {
  }

  /** `^.*pat` on one line cuts right after the last occurrence of `pat`, and
      leaves a line without `pat` alone. */
  lemma DropThroughLastExact(pat: string, line: string)
    ensures LastEnd(line, pat).Some? ==> DropThroughLast(pat).Apply(line) == line[LastEnd(line, pat).value..]
    ensures LastEnd(line, pat).None? ==> DropThroughLast(pat).Apply(line) == line
  {
  }

  /** The index of the first line feed of `s`, or `|s|` when there is none. */
  function NewlineIndex(s: string): (i: nat)
    ensures i <= |s| && '\n' !in s[..i]
    ensures i < |s| ==> s[i] == '\n'
  {
    if |s| == 0 || s[0] == '\n' then 0
    else
      var j := NewlineIndex(s[1..]);
      assert s[..1 + j] == [s[0]] + s[1..][..j];
      1 + j
  }

  /** `NewlineIndex` finds the first line feed. */
  lemma {:induction false} NewlineIndexIs(s: string, k: nat)
    requires k <= |s| && '\n' !in s[..k] && (k < |s| ==> s[k] == '\n')
    ensures NewlineIndex(s) == k
    decreases k
  {
    if k > 0 {
      assert s[0] == s[..k][0];
      assert s[1..][..k - 1] == s[1..k];
      assert forall c | c in s[1..k] :: c in s[..k] by {
        forall c | c in s[1..k] ensures c in s[..k] {
          var j :| 0 <= j < k - 1 && s[1..k][j] == c;
          assert s[..k][j + 1] == c;
        }
      }
      NewlineIndexIs(s[1..], k - 1);
    }
  }

  /** `gsub` with a line-anchored pattern: the edit applied to every line,
      line feeds kept. */
  function EachLine(s: string, e: LineEdit): (r: string)
    decreases |s|
    ensures forall c | c in r :: c in s
  {
    var i := NewlineIndex(s);
    if i == |s| then e.Apply(s)
    else
      var line, rest := s[..i], EachLine(s[i + 1..], e);
      assert forall c | c in rest :: c in s by {
        forall c | c in rest ensures c in s {
          var j :| 0 <= j < |s[i + 1..]| && s[i + 1..][j] == c;
          assert s[i + 1 + j] == c;
        }
      }
      e.Apply(line) + "\n" + rest
  }

  lemma {:induction false} EachLineSingleLine(s: string, e: LineEdit)
    requires '\n' !in s
    ensures EachLine(s, e) == e.Apply(s)
  {
  }

  /** After `^.*c` is applied to every line, the character `c` is gone. */
  lemma {:induction false} EachLineDropsChar(s: string, c: char)
    requires c != '\n'
    ensures c !in EachLine(s, DropThroughLast([c]))
    decreases |s|
  {
    var e := DropThroughLast([c]);
    var i := NewlineIndex(s);
    ApplyDropsChar(if i == |s| then s else s[..i], c);
    if i < |s| {
      EachLineDropsChar(s[i + 1..], c);
    }
  }

  lemma ApplyDropsChar(line: string, c: char)
    ensures c !in DropThroughLast([c]).Apply(line)
  {
    var r := DropThroughLast([c]).Apply(line);
    if c in r {
      var j :| 0 <= j < |r| && r[j] == c;
      assert r[j..j + 1] == [c];
      assert EndsAt(r, [c], j + 1);
    }
  }

  // ---------------------------------------------------------------------------
  // Character replacement, split and downcase
  // ---------------------------------------------------------------------------

  /** `gsub(/:/, '/')`. */
  function ColonsToSlashes(s: string): (r: string)
    ensures |r| == |s| && ':' !in r
    ensures forall i | 0 <= i < |s| :: r[i] == (if s[i] == ':' then '/' else s[i])
  {
    seq(|s|, i requires 0 <= i < |s| => if s[i] == ':' then '/' else s[i])
  }

  /** The index of the first '/' of `s`, or `|s|` when there is none. */
  function SlashIndex(s: string): (i: nat)
    ensures i <= |s| && '/' !in s[..i]
    ensures i < |s| ==> s[i] == '/'
  {
    if |s| == 0 || s[0] == '/' then 0
    else
      var j := SlashIndex(s[1..]);
      assert s[..1 + j] == [s[0]] + s[1..][..j];
      1 + j
  }

  /** `SlashIndex` finds the first slash. */
  lemma {:induction false} SlashIndexIs(s: string, k: nat)
    requires k <= |s| && '/' !in s[..k] && (k < |s| ==> s[k] == '/')
    ensures SlashIndex(s) == k
    decreases k
  {
    if k > 0 {
      assert s[0] == s[..k][0];
      assert s[1..][..k - 1] == s[1..k];
      assert forall c | c in s[1..k] :: c in s[..k] by {
        forall c | c in s[1..k] ensures c in s[..k] {
          var j :| 0 <= j < k - 1 && s[1..k][j] == c;
          assert s[..k][j + 1] == c;
        }
      }
      SlashIndexIs(s[1..], k - 1);
    }
  }

  /** Splitting at every '/', keeping every piece, empty ones included. */
  function Segments(s: string): (r: seq<string>)
    decreases |s|
    ensures |r| >= 1
    ensures forall k | 0 <= k < |r| :: '/' !in r[k]
  {
    var i := SlashIndex(s);
    if i == |s| then [s] else [s[..i]] + Segments(s[i + 1..])
  }

  function DropTrailingEmpty(segs: seq<string>): (r: seq<string>)
    ensures |r| <= |segs| && r == segs[..|r|]
    ensures r == [] || r[|r| - 1] != ""
    ensures forall k | |r| <= k < |segs| :: segs[k] == ""
  {
    if |segs| > 0 && segs[|segs| - 1] == "" then DropTrailingEmpty(segs[..|segs| - 1]) else segs
  }

  /** `String#split('/')`: the pieces between slashes with the trailing empty
      pieces removed, so `"".split('/')` and `"//".split('/')` are empty. */
  function Split(s: string): (r: seq<string>)
    ensures forall k | 0 <= k < |r| :: '/' !in r[k]
  {
    DropTrailingEmpty(Segments(s))
  }

  predicate OnlySlashes(s: string) {
    forall i | 0 <= i < |s| :: s[i] == '/'
  }

  /** `split('/')` is empty exactly when `s` holds nothing but slashes; when it is
      not, its first piece is the text before the first slash and its last
      piece is not empty. */
  lemma {:induction false} SplitShape(s: string)
    ensures Split(s) == [] <==> OnlySlashes(s)
    ensures Split(s) != [] ==> Split(s)[0] == s[..SlashIndex(s)]
    ensures Split(s) != [] ==> Split(s)[|Split(s)| - 1] != ""
    decreases |s|
  {
    var i := SlashIndex(s);
    if i == |s| {
      if s == "" {
        assert Segments(s) == [""];
      } else {
        assert s[0] != '/';
        assert Split(s) == [s];
      }
    } else {
      var rest := s[i + 1..];
      SplitShape(rest);
      assert Segments(s) == [s[..i]] + Segments(rest);
      if OnlySlashes(rest) {
        assert Split(rest) == [];
        AllEmptySuffix(Segments(rest));
        if i == 0 {
          DropAllEmpty([s[..i]] + Segments(rest));
          assert OnlySlashes(s) by {
            forall j | 0 <= j < |s| ensures s[j] == '/' {
              if j > 0 { assert s[j] == rest[j - 1]; }
            }
          }
        } else {
          DropEmptyTail([s[..i]], Segments(rest));
          assert s[0] != '/';
        }
      } else {
        DropKeepsHead([s[..i]], Segments(rest));
        assert !OnlySlashes(s) by {
          var j :| 0 <= j < |rest| && rest[j] != '/';
          assert s[i + 1 + j] == rest[j];
        }
      }
    }
  }

  lemma AllEmptySuffix(segs: seq<string>)
    requires DropTrailingEmpty(segs) == []
    ensures forall k | 0 <= k < |segs| :: segs[k] == ""
  {
  }

  lemma DropAllEmpty(segs: seq<string>)
    requires forall k | 0 <= k < |segs| :: segs[k] == ""
    ensures DropTrailingEmpty(segs) == []
  {
  }

  lemma {:induction false} DropEmptyTail(head: seq<string>, tail: seq<string>)
    requires |head| == 1 && head[0] != ""
    requires forall k | 0 <= k < |tail| :: tail[k] == ""
    ensures DropTrailingEmpty(head + tail) == head
    decreases |tail|
  {
    if |tail| > 0 {
      assert (head + tail)[..|head + tail| - 1] == head + tail[..|tail| - 1];
      DropEmptyTail(head, tail[..|tail| - 1]);
    } else {
      assert head + tail == head;
    }
  }

  lemma {:induction false} DropKeepsHead(head: seq<string>, tail: seq<string>)
    requires |head| == 1
    requires DropTrailingEmpty(tail) != []
    ensures DropTrailingEmpty(head + tail) == head + DropTrailingEmpty(tail)
    decreases |tail|
  {
    if tail[|tail| - 1] == "" {
      assert (head + tail)[..|head + tail| - 1] == head + tail[..|tail| - 1];
      DropKeepsHead(head, tail[..|tail| - 1]);
    }
  }

  /** `String#downcase` on one character, for the ASCII letters. */
  function Lower(c: char): (d: char)
    ensures 'A' <= c <= 'Z' ==> 'a' <= d <= 'z'
    ensures !('A' <= c <= 'Z') ==> d == c
  {
    if 'A' <= c <= 'Z' then (c as int + 32) as char else c
  }

  function Downcase(s: string): (r: string)
    ensures |r| == |s|
    ensures forall i | 0 <= i < |s| :: r[i] == Lower(s[i])
  {
    seq(|s|, i requires 0 <= i < |s| => Lower(s[i]))
  }
}
