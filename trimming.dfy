/**
 * Trimming a string of the characters Foundation calls `whitespacesAndNewlines`,
 * as `trimmingCharacters(in:)` does for the daemon's captured output.
 */
module Trimming {

  /** Unicode general category Z* (space separators, line and paragraph separators), the
      tab, the line-break controls U+000A to U+000D and NEXT LINE (U+0085). */
  predicate IsWhitespaceOrNewline(c: char) {
    ('\t' <= c <= '\r') || c == ' ' || c == '\U{85}' || c == '\U{A0}' || c == '\U{1680}'
    || ('\U{2000}' <= c <= '\U{200A}') || c == '\U{2028}' || c == '\U{2029}'
    || c == '\U{202F}' || c == '\U{205F}' || c == '\U{3000}'
  }

  predicate AllWhitespace(s: string) {
    forall i :: 0 <= i < |s| ==> IsWhitespaceOrNewline(s[i])
  }

  /** Neither end of `s` is a whitespace or newline character. */
  predicate Trimmed(s: string) {
    s == [] || (!IsWhitespaceOrNewline(s[0]) && !IsWhitespaceOrNewline(s[|s| - 1]))
  }

  /** Drops the whitespace at the front: what is left is a suffix of `s` that is empty or
      does not start with whitespace. TrimStartDropsWhitespace shows that all it drops is
      whitespace. */
  function TrimStart(s: string): (r: string)
    ensures |r| <= |s| && r == s[|s| - |r|..]
    ensures r == [] || !IsWhitespaceOrNewline(r[0])
  {
    if |s| > 0 && IsWhitespaceOrNewline(s[0]) then TrimStart(s[1..]) else s
  }

  /** Drops the whitespace at the back: what is left is a prefix of `s` that is empty or
      does not end with whitespace. TrimEndDropsWhitespace shows that all it drops is
      whitespace. */
  function TrimEnd(s: string): (r: string)
    ensures |r| <= |s| && r == s[..|r|]
    ensures r == [] || !IsWhitespaceOrNewline(r[|r| - 1])
  {
    if |s| > 0 && IsWhitespaceOrNewline(s[|s| - 1]) then TrimEnd(s[..|s| - 1]) else s
  }

  lemma {:induction false} TrimStartDropsWhitespace(s: string)
    ensures AllWhitespace(s[..|s| - |TrimStart(s)|])
    decreases |s|
  {
    if |s| > 0 && IsWhitespaceOrNewline(s[0]) {
      var rest := s[1..];
      TrimStartDropsWhitespace(rest);
      var j := |rest| - |TrimStart(rest)|;
      assert |s| - |TrimStart(s)| == j + 1;
      assert s[..j + 1] == [s[0]] + rest[..j];
      AllWhitespaceConcat([s[0]], rest[..j]);
    }
  }

  lemma {:induction false} TrimEndDropsWhitespace(s: string)
    ensures AllWhitespace(s[|TrimEnd(s)|..])
    decreases |s|
  {
    if |s| > 0 && IsWhitespaceOrNewline(s[|s| - 1]) {
      var rest := s[..|s| - 1];
      TrimEndDropsWhitespace(rest);
      var k := |TrimEnd(rest)|;
      assert |TrimEnd(s)| == k;
      assert s[k..] == rest[k..] + [s[|s| - 1]];
      AllWhitespaceConcat(rest[k..], [s[|s| - 1]]);
    }
  }

  function Trim(s: string): (r: string)
    ensures Trimmed(r)
    ensures r == [] <==> AllWhitespace(s)
  {
    TrimEndOfTrimStart(s);
    TrimEnd(TrimStart(s))
  }

  lemma TrimEndOfTrimStart(s: string)
    ensures Trimmed(TrimEnd(TrimStart(s)))
    ensures TrimEnd(TrimStart(s)) == [] <==> AllWhitespace(s)
  {
    var front := TrimStart(s);
    var r := TrimEnd(front);
    if r == [] {
      assert AllWhitespace(s) by {
        var k := |s| - |front|;
        TrimStartDropsWhitespace(s);
        TrimEndDropsWhitespace(front);
        assert AllWhitespace(front) by {
          assert front[|r|..] == front;
        }
        JoinSlices(s, k);
        AllWhitespaceConcat(s[..k], front);
      }
    } else {
      assert r[0] == front[0];
      if AllWhitespace(s) {
        TrimStartAllWhitespace(s);
      }
    }
  }

  lemma AllWhitespaceConcat(a: string, b: string)
    ensures AllWhitespace(a + b) <==> AllWhitespace(a) && AllWhitespace(b)
  {
    if AllWhitespace(a) && AllWhitespace(b) {
      forall i | 0 <= i < |a + b| ensures IsWhitespaceOrNewline((a + b)[i]) {
        if i >= |a| {
          assert (a + b)[i] == b[i - |a|];
        }
      }
    }
    if AllWhitespace(a + b) {
      forall i | 0 <= i < |a| ensures IsWhitespaceOrNewline(a[i]) {
        assert (a + b)[i] == a[i];
      }
      forall i | 0 <= i < |b| ensures IsWhitespaceOrNewline(b[i]) {
        assert (a + b)[|a| + i] == b[i];
      }
    }
  }

  lemma {:induction false} TrimStartAllWhitespace(s: string)
    requires AllWhitespace(s)
    ensures TrimStart(s) == []
    decreases |s|
  {
    if s != [] {
      TrimStartAllWhitespace(s[1..]);
    }
  }

  lemma {:induction false} TrimStartUnique(s: string, lead: string, rest: string)
    requires s == lead + rest && AllWhitespace(lead)
    requires rest != [] && !IsWhitespaceOrNewline(rest[0])
    ensures TrimStart(s) == rest
    decreases |lead|
  {
    if lead == [] {
      assert s == rest;
    } else {
      assert s[0] == lead[0] && s[1..] == lead[1..] + rest;
      TrimStartUnique(s[1..], lead[1..], rest);
    }
  }

  lemma {:induction false} TrimEndUnique(s: string, core: string, trail: string)
    requires s == core + trail && AllWhitespace(trail)
    requires core != [] && !IsWhitespaceOrNewline(core[|core| - 1])
    ensures TrimEnd(s) == core
    decreases |trail|
  {
    if trail == [] {
      assert s == core;
    } else {
      assert s[|s| - 1] == trail[|trail| - 1];
      assert s[..|s| - 1] == core + trail[..|trail| - 1];
      TrimEndUnique(s[..|s| - 1], core, trail[..|trail| - 1]);
    }
  }

  /** Trim keeps exactly the part between whitespace runs: however `s` is split into leading
      whitespace, a core with no whitespace at either end, and trailing whitespace, Trim
      returns that core. */
  lemma TrimUnique(s: string, lead: string, core: string, trail: string)
    requires s == lead + core + trail
    requires AllWhitespace(lead) && AllWhitespace(trail) && Trimmed(core)
    ensures Trim(s) == core
  {
    if core == [] {
      assert s == lead + trail;
      AllWhitespaceConcat(lead, trail);
      TrimStartAllWhitespace(s);
    } else {
      assert s == lead + (core + trail);
      TrimStartUnique(s, lead, core + trail);
      TrimEndUnique(core + trail, core, trail);
    }
  }

  /** Trim only removes whitespace: `s` is the trimmed text with whitespace around it. */
  lemma TrimSplits(s: string) returns (lead: string, trail: string)
    ensures s == lead + Trim(s) + trail
    ensures AllWhitespace(lead) && AllWhitespace(trail)
  {
    var front := TrimStart(s);
    lead := s[..|s| - |front|];
    TrimStartDropsWhitespace(s);
    JoinSlices(s, |s| - |front|);
    trail := SplitTrimEnd(front);
    JoinAssociates(lead, Trim(s), trail);
  }

  /** TrimEnd splits off exactly a whitespace tail. */
  lemma SplitTrimEnd(s: string) returns (trail: string)
    ensures s == TrimEnd(s) + trail && AllWhitespace(trail)
  {
    var r := TrimEnd(s);
    trail := s[|r|..];
    TrimEndDropsWhitespace(s);
    JoinSlices(s, |r|);
  }

  lemma JoinSlices(s: string, k: nat)
    requires k <= |s|
    ensures s == s[..k] + s[k..]
  {
  }

  lemma JoinAssociates(a: string, b: string, c: string)
    ensures a + (b + c) == a + b + c
  {
  }

  /** Trimming twice is trimming once. */
  lemma TrimIdempotent(s: string)
    ensures Trim(Trim(s)) == Trim(s)
  {
    var r := Trim(s);
    assert r == [] + r + [];
    TrimUnique(r, [], r, []);
  }
}
