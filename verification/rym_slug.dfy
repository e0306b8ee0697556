/**
 * The escape of the "RYM" link, four rewrites in a row: every whitespace
 * run becomes a hyphen, apostrophes, commas and colons are dropped, the
 * first ampersand becomes "and", and the letters are put in lower case.
 */
module RymSlug {
  import opened SeqFacts

  /** `\s`: the WhiteSpace and LineTerminator code points of ECMA-262 (section 12.2 and 12.3). */
  predicate IsSpace(c: char) {
    c == '\t' || c == '\n' || c == '\U{B}' || c == '\U{C}' || c == '\r' || c == ' '
    || c == '\U{A0}' || c == '\U{1680}' || ('\U{2000}' <= c <= '\U{200A}')
    || c == '\U{2028}' || c == '\U{2029}' || c == '\U{202F}' || c == '\U{205F}'
    || c == '\U{3000}' || c == '\U{FEFF}'
  }

  /** The class `[',:]`. */
  predicate IsDropped(c: char) {
    c == '\'' || c == ',' || c == ':'
  }

  /** Length of the whitespace run at the start of `s` (what a greedy `\s+` consumes). */
  function SpaceRun(s: string): (n: nat)
    ensures n <= |s|
    ensures s != [] && IsSpace(s[0]) ==> n > 0
    decreases |s|
  {
    if s == [] || !IsSpace(s[0]) then 0 else 1 + SpaceRun(s[1..])
  }

  /** How many characters one step of `/\s+/g` consumes at the start of `s`: a whole run, or one character. */
  function Step(s: string): (n: nat)
    requires s != []
    ensures 1 <= n <= |s|
  {
    if IsSpace(s[0]) then SpaceRun(s) else 1
  }

  /** What that step writes: a hyphen for a run, the character itself otherwise. */
  function Emit(s: string): string
    requires s != []
  {
    if IsSpace(s[0]) then "-" else [s[0]]
  }

  /** `s.replace(/\s+/g, "-")`: every maximal whitespace run becomes one hyphen. */
  function CollapseSpaces(s: string): string
    decreases |s|
  {
    if s == [] then [] else Emit(s) + CollapseSpaces(s[Step(s)..])
  }

  /** `s.replace(/[',:]/g, "")`: apostrophes, commas and colons are deleted, every other character kept. */
  function RemovePunctuation(s: string): (r: string)
    ensures forall c :: c in r <==> c in s && !IsDropped(c)
    decreases |s|
  {
    if s == [] then []
    else
      assert forall c :: c in s <==> c == s[0] || c in s[1..];
      if IsDropped(s[0]) then RemovePunctuation(s[1..]) else [s[0]] + RemovePunctuation(s[1..])
  }

  /** Removing punctuation keeps every other character as often as it occurs. */
  lemma {:induction false} RemovePunctuationCounts(s: string)
    ensures forall c :: !IsDropped(c) ==> multiset(RemovePunctuation(s))[c] == multiset(s)[c]
    decreases |s|
  {
    if s != [] {
      assert s == [s[0]] + s[1..];
      RemovePunctuationCounts(s[1..]);
    }
  }

  /** `s.replace("&", "and")`: a string pattern, so only the first ampersand is replaced. */
  function ReplaceFirstAmpersand(s: string): (r: string)
    ensures '&' !in s ==> r == s
    ensures forall c :: c in r ==> c in s || c in "and"
    decreases |s|
  {
    if s == [] then []
    else if s[0] == '&' then "and" + s[1..]
    else [s[0]] + ReplaceFirstAmpersand(s[1..])
  }

  /** `toLowerCase` on the ASCII letters; every other character is kept. */
  function LowerChar(c: char): char {
    if 'A' <= c <= 'Z' then (c as int - 'A' as int + 'a' as int) as char else c
  }

  /** `s.toLowerCase()`, restricted to ASCII: the result has no upper-case ASCII letter and differs from `s` only there. */
  function ToLowerCase(s: string): (r: string)
    ensures |r| == |s|
    ensures forall i :: 0 <= i < |s| ==> r[i] == LowerChar(s[i])
    ensures forall i :: 0 <= i < |r| ==> !('A' <= r[i] <= 'Z')
  {
    seq(|s|, i requires 0 <= i < |s| => LowerChar(s[i]))
  }

  /**
   * The whole escape. The result holds no whitespace, no apostrophe, comma
   * or colon, and no upper-case ASCII letter.
   */
  function Escape(s: string): (r: string)
    ensures forall i :: 0 <= i < |r| ==> !IsSpace(r[i]) && !IsDropped(r[i]) && !('A' <= r[i] <= 'Z')
  {
    var collapsed := CollapseSpaces(s);
    CollapseNoSpace(s);
    var replaced := ReplaceFirstAmpersand(RemovePunctuation(collapsed));
    assert forall i :: 0 <= i < |replaced| ==> !IsSpace(replaced[i]) && !IsDropped(replaced[i]) by {
      forall i | 0 <= i < |replaced| ensures !IsSpace(replaced[i]) && !IsDropped(replaced[i]) {
        assert replaced[i] in replaced;
      }
    }
    ToLowerCase(replaced)
  }

  /** A whitespace run splits where it ends: splitting after a non-space, or before one, does not cut a run. */
  lemma {:induction false} SpaceRunConcat(a: string, b: string)
    requires a != []
    requires SpaceRun(a) < |a| || b == [] || !IsSpace(b[0])
    ensures SpaceRun(a + b) == SpaceRun(a)
    decreases |a|
  {
    if IsSpace(a[0]) {
      assert (a + b)[1..] == a[1..] + b;
      if a[1..] != [] {
        SpaceRunConcat(a[1..], b);
      } else {
        assert a[1..] + b == b;
      }
    }
  }

  /** The first step of the scan over `a + b` is the first step over `a`, when no run crosses the split. */
  lemma CollapseStep(a: string, b: string)
    requires a != []
    requires b == [] || !IsSpace(a[|a| - 1]) || !IsSpace(b[0])
    ensures CollapseSpaces(a + b) == Emit(a) + CollapseSpaces(a[Step(a)..] + b)
    ensures CollapseSpaces(a) == Emit(a) + CollapseSpaces(a[Step(a)..])
  {
    var n := Step(a);
    if IsSpace(a[0]) {
      if n == |a| {
        SpaceRunAllSpace(a);
      }
      SpaceRunConcat(a, b);
    }
    assert Step(a + b) == n && Emit(a + b) == Emit(a);
    DropConcat(a, b, n);
  }

  /** Collapsing splits at every point that does not fall inside a whitespace run. */
  lemma {:induction false} CollapseConcat(a: string, b: string)
    requires a == [] || b == [] || !IsSpace(a[|a| - 1]) || !IsSpace(b[0])
    ensures CollapseSpaces(a + b) == CollapseSpaces(a) + CollapseSpaces(b)
    decreases |a|
  {
    if a == [] {
      assert a + b == b;
    } else {
      CollapseStep(a, b);
      var rest := a[Step(a)..];
      if rest != [] {
        assert rest[|rest| - 1] == a[|a| - 1];
        CollapseConcat(rest, b);
      } else {
        assert rest + b == b;
      }
      Assoc(Emit(a), CollapseSpaces(rest), CollapseSpaces(b));
    }
  }

  /** The run that `SpaceRun` measures is whitespace. */
  lemma {:induction false} SpaceRunAllSpace(s: string)
    ensures forall i :: 0 <= i < SpaceRun(s) ==> IsSpace(s[i])
    decreases |s|
  {
    if s != [] && IsSpace(s[0]) {
      SpaceRunAllSpace(s[1..]);
    }
  }

  /** No whitespace survives the collapse. */
  lemma {:induction false} CollapseNoSpace(s: string)
    ensures forall c :: c in CollapseSpaces(s) ==> !IsSpace(c)
    decreases |s|
  {
    if s != [] {
      CollapseNoSpace(s[Step(s)..]);
    }
  }

  /** Text without whitespace is left as it is. */
  lemma {:induction false} CollapseSpaceFree(s: string)
    requires forall i :: 0 <= i < |s| ==> !IsSpace(s[i])
    ensures CollapseSpaces(s) == s
    decreases |s|
  {
    if s != [] {
      CollapseSpaceFree(s[1..]);
    }
  }

  /**
   * A maximal whitespace run, between text that ends and text that starts
   * with a non-space character, becomes exactly one hyphen.
   */
  lemma CollapseRun(p: string, run: string, q: string)
    requires run != [] && forall i :: 0 <= i < |run| ==> IsSpace(run[i])
    requires p == [] || !IsSpace(p[|p| - 1])
    requires q == [] || !IsSpace(q[0])
    ensures CollapseSpaces(p + run + q) == CollapseSpaces(p) + "-" + CollapseSpaces(q)
  {
    assert CollapseSpaces(run) == "-" by {
      SpaceRunAll(run);
      assert run[|run|..] == [];
    }
    assert CollapseSpaces(p + run + q) == CollapseSpaces(p + run) + CollapseSpaces(q) by {
      CollapseConcat(p + run, q);
    }
    assert CollapseSpaces(p + run) == CollapseSpaces(p) + "-" by {
      CollapseConcat(p, run);
    }
  }

  /** A string of whitespace is one run. */
  lemma {:induction false} SpaceRunAll(s: string)
    requires forall i :: 0 <= i < |s| ==> IsSpace(s[i])
    ensures SpaceRun(s) == |s|
    decreases |s|
  {
    if s != [] {
      SpaceRunAll(s[1..]);
    }
  }

  /** Only the first ampersand is replaced; the text after it is copied, ampersands included. */
  lemma {:induction false} ReplaceFirstAmpersandAt(p: string, q: string)
    requires '&' !in p
    ensures ReplaceFirstAmpersand(p + "&" + q) == p + "and" + q
    decreases |p|
  {
    if p == [] {
      assert p + "&" + q == "&" + q;
      assert ("&" + q)[1..] == q;
    } else {
      assert p[0] in p;
      assert '&' !in p[1..] by {
        forall i | 0 <= i < |p[1..]| ensures p[1..][i] != '&' {
          assert p[1..][i] == p[i + 1];
        }
      }
      assert (p + "&" + q)[1..] == p[1..] + "&" + q;
      ReplaceFirstAmpersandAt(p[1..], q);
    }
  }

  /** Punctuation is removed character by character. */
  lemma {:induction false} RemovePunctuationConcat(a: string, b: string)
    ensures RemovePunctuation(a + b) == RemovePunctuation(a) + RemovePunctuation(b)
    decreases |a|
  {
    if a == [] {
      assert a + b == b;
    } else {
      DropConcat(a, b, 1);
      RemovePunctuationConcat(a[1..], b);
    }
  }

  /** Text without punctuation is left as it is. */
  lemma {:induction false} RemovePunctuationFree(s: string)
    requires forall i :: 0 <= i < |s| ==> !IsDropped(s[i])
    ensures RemovePunctuation(s) == s
    decreases |s|
  {
    if s != [] {
      RemovePunctuationFree(s[1..]);
    }
  }
}
