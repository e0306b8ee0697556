/**
 * The placeholder rendering inside `Link.getUrl`: a global replace of the
 * regular expression `/{(\w+)}/g` by a function of the match.
 *
 * The regular expression is scanned from left to right. At each position it
 * matches when the text there is `{`, one or more word characters and `}`;
 * a match is replaced by `escape(value)` when its inner name is a key of the
 * replacement map and by `escape("{name}")` otherwise, and scanning resumes
 * after the match. Where it does not match, one character is copied unchanged.
 */
module Template {
  import opened Wrappers
  import opened SeqFacts

  /** The characters `\w` matches (a regular expression without the `u` flag). */
  predicate IsWordChar(c: char) {
    ('A' <= c <= 'Z') || ('a' <= c <= 'z') || ('0' <= c <= '9') || c == '_'
  }

  /** What the capture group `(\w+)` can capture. */
  predicate IsName(w: string) {
    |w| > 0 && forall i :: 0 <= i < |w| ==> IsWordChar(w[i])
  }

  /** The token text for a placeholder name. */
  function Delimit(name: string): string {
    "{" + name + "}"
  }

  /** `s` starts with the token text of the name `w`. */
  predicate StartsWithToken(s: string, w: string) {
    IsName(w) && Delimit(w) <= s
  }

  /** Length of the longest prefix of `s` made of word characters (what a greedy `\w+` consumes). */
  function WordRun(s: string): (n: nat)
    ensures n <= |s|
    ensures forall i :: 0 <= i < n ==> IsWordChar(s[i])
    ensures n < |s| ==> !IsWordChar(s[n])
    decreases |s|
  {
    if s == [] || !IsWordChar(s[0]) then 0 else 1 + WordRun(s[1..])
  }

  /** The token `{name}` that `/{(\w+)}/` matches at the start of `s`, if any. */
  function TokenAt(s: string): (r: Option<string>)
    ensures r.Some? ==> StartsWithToken(s, r.value)
    ensures forall w :: StartsWithToken(s, w) ==> r == Some(w)
  {
    if |s| == 0 || s[0] != '{' then None
    else
      var n := WordRun(s[1..]);
      TokenAtUnique(s, n);
      if 0 < n && n + 1 < |s| && s[n + 1] == '}' then Some(s[1..n + 1]) else None
  }

  /** A prefix `{w}` of `s` forces the greedy word run after `{` to stop exactly at `}`. */
  lemma TokenAtUnique(s: string, n: nat)
    requires |s| > 0 && s[0] == '{' && n == WordRun(s[1..])
    ensures forall w :: StartsWithToken(s, w) ==> 0 < n && n + 1 < |s| && s[n + 1] == '}' && s[1..n + 1] == w
  {
    forall w | StartsWithToken(s, w)
      ensures 0 < n && n + 1 < |s| && s[n + 1] == '}' && s[1..n + 1] == w
    {
      var d := Delimit(w);
      assert d[|w| + 1] == '}' && s[|w| + 1] == '}';
      forall i | 0 <= i < |w| ensures s[1..][i] == w[i] {
        assert s[i + 1] == d[i + 1];
      }
      assert s[1..n + 1] == w;
    }
  }

  /** What one token is replaced by, before escaping: the own value of its name, or the token text itself. */
  function Substitute(repl: map<string, string>, name: string): string {
    if name in repl then repl[name] else Delimit(name)
  }

  /** How many characters the scan consumes at the start of `t`: a whole token, or one character. */
  function Step(t: string): (n: nat)
    requires t != []
    ensures 1 <= n <= |t|
  {
    match TokenAt(t)
    case Some(name) => |name| + 2
    case None => 1
  }

  /** What the scan emits for what it consumes at the start of `t`. */
  function Emit(t: string, repl: map<string, string>, escape: string -> string): string
    requires t != []
  {
    match TokenAt(t)
    case Some(name) => escape(Substitute(repl, name))
    case None => [t[0]]
  }

  /**
   * The rendered template: each token whose name is an own key of `repl`
   * becomes the escaped value, each other token its escaped token text, and
   * the text between tokens is copied.
   */
  function Render(t: string, repl: map<string, string>, escape: string -> string): string
    decreases |t|
  {
    if t == [] then [] else Emit(t, repl, escape) + Render(t[Step(t)..], repl, escape)
  }

  /** The name of the token matched at the start of `t`, as a list of zero or one names. */
  function NameAt(t: string): (ns: seq<string>)
    ensures forall i :: 0 <= i < |ns| ==> IsName(ns[i])
  {
    match TokenAt(t)
    case Some(name) => [name]
    case None => []
  }

  /** The names of the tokens the scan of `Render` matches, in order. */
  function Placeholders(t: string): (ps: seq<string>)
    ensures forall i :: 0 <= i < |ps| ==> IsName(ps[i])
    decreases |t|
  {
    if t == [] then [] else NameAt(t) + Placeholders(t[Step(t)..])
  }

  /** A suffix that no token of the text before it can run into. */
  predicate Separates(q: string) {
    q == [] || (!IsWordChar(q[0]) && q[0] != '}')
  }

  /** A token never crosses into a separating suffix, so the match at the start is decided by `p` alone. */
  lemma TokenAtConcat(p: string, q: string)
    requires p != [] && Separates(q)
    ensures TokenAt(p + q) == TokenAt(p)
  {
    if TokenAt(p + q).Some? {
      var d := Delimit(TokenAt(p + q).value);
      assert forall k :: 1 <= k < |d| ==> IsWordChar(d[k]) || d[k] == '}';
      assert q != [] ==> (p + q)[|p|] == q[0];
      assert d <= p;
    }
    if TokenAt(p).Some? {
      assert StartsWithToken(p + q, TokenAt(p).value);
    }
  }

  /** Over a separating suffix, the first step of the scan is the first step over the text before it. */
  lemma ScanStepConcat(p: string, q: string, repl: map<string, string>, escape: string -> string)
    requires p != [] && Separates(q)
    ensures Step(p + q) == Step(p)
    ensures Emit(p + q, repl, escape) == Emit(p, repl, escape)
    ensures NameAt(p + q) == NameAt(p)
    ensures (p + q)[Step(p)..] == p[Step(p)..] + q
  {
    TokenAtConcat(p, q);
  }

  /** Rendering splits at any separating point: text before it is rendered as if alone. */
  lemma {:induction false} RenderConcat(p: string, q: string, repl: map<string, string>, escape: string -> string)
    requires Separates(q)
    ensures Render(p + q, repl, escape) == Render(p, repl, escape) + Render(q, repl, escape)
    decreases |p|
  {
    if p == [] {
      assert p + q == q;
    } else {
      ScanStepConcat(p, q, repl, escape);
      var rest := p[Step(p)..];
      RenderConcat(rest, q, repl, escape);
      Assoc(Emit(p, repl, escape), Render(rest, repl, escape), Render(q, repl, escape));
    }
  }

  /** The placeholder list splits at the same points as the rendering. */
  lemma {:induction false} PlaceholdersConcat(p: string, q: string)
    requires Separates(q)
    ensures Placeholders(p + q) == Placeholders(p) + Placeholders(q)
    decreases |p|
  {
    if p == [] {
      assert p + q == q;
    } else {
      ScanStepConcat(p, q, map[], s => s);
      var rest := p[Step(p)..];
      PlaceholdersConcat(rest, q);
      assert NameAt(p) + (Placeholders(rest) + Placeholders(q)) == NameAt(p) + Placeholders(rest) + Placeholders(q);
    }
  }

  /** Text without `{` holds no token and is copied unchanged. */
  lemma {:induction false} RenderLiteral(lit: string, repl: map<string, string>, escape: string -> string)
    requires '{' !in lit
    ensures Render(lit, repl, escape) == lit
    ensures Placeholders(lit) == []
    decreases |lit|
  {
    if lit != [] {
      var rest := lit[1..];
      assert lit[0] != '{' by {
        assert lit[0] in lit;
      }
      assert '{' !in rest by {
        forall i | 0 <= i < |rest| ensures rest[i] != '{' {
          assert rest[i] == lit[i + 1];
        }
      }
      assert TokenAt(lit).None? && Step(lit) == 1;
      RenderLiteral(rest, repl, escape);
      assert lit == [lit[0]] + rest;
    }
  }

  /** A text that starts with a token: the token is replaced and the scan resumes right after it. */
  lemma RenderLeadingToken(name: string, q: string, repl: map<string, string>, escape: string -> string)
    requires IsName(name)
    ensures Render(Delimit(name) + q, repl, escape) == escape(Substitute(repl, name)) + Render(q, repl, escape)
    ensures Placeholders(Delimit(name) + q) == [name] + Placeholders(q)
  {
    var t := Delimit(name) + q;
    assert StartsWithToken(t, name);
    assert t[|name| + 2..] == q;
  }

  /**
   * The token `{name}` between any two texts is replaced by exactly
   * `escape(repl[name])` when `name` is a key, and by `escape("{name}")`
   * when it is not; the texts around it render independently.
   */
  lemma RenderToken(p: string, name: string, q: string, repl: map<string, string>, escape: string -> string)
    requires IsName(name)
    ensures Render(p + Delimit(name) + q, repl, escape)
         == Render(p, repl, escape) + escape(Substitute(repl, name)) + Render(q, repl, escape)
    ensures Placeholders(p + Delimit(name) + q) == Placeholders(p) + [name] + Placeholders(q)
  {
    var d := Delimit(name);
    Assoc(p, d, q);
    RenderLeadingToken(name, q, repl, escape);
    assert Render(p + d + q, repl, escape)
        == Render(p, repl, escape) + escape(Substitute(repl, name)) + Render(q, repl, escape) by {
      RenderConcat(p, d + q, repl, escape);
      Assoc(Render(p, repl, escape), escape(Substitute(repl, name)), Render(q, repl, escape));
    }
    assert Placeholders(p + d + q) == Placeholders(p) + [name] + Placeholders(q) by {
      PlaceholdersConcat(p, d + q);
      assert Placeholders(p) + ([name] + Placeholders(q)) == Placeholders(p) + [name] + Placeholders(q);
    }
  }

  /** A token after literal text: the text is copied and the token replaced. */
  lemma RenderSlot(p: string, name: string, q: string, repl: map<string, string>, escape: string -> string)
    requires '{' !in p && IsName(name)
    ensures Render(p + Delimit(name) + q, repl, escape) == p + escape(Substitute(repl, name)) + Render(q, repl, escape)
    ensures Placeholders(p + Delimit(name) + q) == [name] + Placeholders(q)
  {
    RenderToken(p, name, q, repl, escape);
    RenderLiteral(p, repl, escape);
    assert Placeholders(p) + [name] + Placeholders(q) == [name] + Placeholders(q);
  }

  /** A template that ends with a token after brace-free text. */
  lemma RenderFinalSlot(p: string, name: string, repl: map<string, string>, escape: string -> string)
    requires '{' !in p && IsName(name)
    ensures Render(p + Delimit(name), repl, escape) == p + escape(Substitute(repl, name))
    ensures Placeholders(p + Delimit(name)) == [name]
  {
    assert p + Delimit(name) + [] == p + Delimit(name);
    RenderSlot(p, name, [], repl, escape);
  }

  /*
   * The shapes of the shipped templates, stated once for any texts and
   * names: one to three tokens separated by brace-free texts, ending with a
   * token or with brace-free text.
   */

  lemma RenderOneSlot(p0: string, n1: string, p1: string, repl: map<string, string>, escape: string -> string)
    requires '{' !in p0 && '{' !in p1 && IsName(n1)
    ensures Render(p0 + Delimit(n1) + p1, repl, escape) == p0 + escape(Substitute(repl, n1)) + p1
    ensures Placeholders(p0 + Delimit(n1) + p1) == [n1]
  {
    RenderSlot(p0, n1, p1, repl, escape);
    RenderLiteral(p1, repl, escape);
  }

  lemma RenderTwoSlots(p0: string, n1: string, p1: string, n2: string, p2: string,
                       repl: map<string, string>, escape: string -> string)
    requires '{' !in p0 && '{' !in p1 && '{' !in p2 && IsName(n1) && IsName(n2)
    ensures Render(p0 + Delimit(n1) + (p1 + Delimit(n2) + p2), repl, escape)
         == p0 + escape(Substitute(repl, n1)) + (p1 + escape(Substitute(repl, n2)) + p2)
    ensures Placeholders(p0 + Delimit(n1) + (p1 + Delimit(n2) + p2)) == [n1, n2]
  {
    RenderSlot(p0, n1, p1 + Delimit(n2) + p2, repl, escape);
    RenderOneSlot(p1, n2, p2, repl, escape);
  }

  lemma RenderThreeSlots(p0: string, n1: string, p1: string, n2: string, p2: string, n3: string, p3: string,
                         repl: map<string, string>, escape: string -> string)
    requires '{' !in p0 && '{' !in p1 && '{' !in p2 && '{' !in p3 && IsName(n1) && IsName(n2) && IsName(n3)
    ensures Render(p0 + Delimit(n1) + (p1 + Delimit(n2) + (p2 + Delimit(n3) + p3)), repl, escape)
         == p0 + escape(Substitute(repl, n1)) + (p1 + escape(Substitute(repl, n2)) + (p2 + escape(Substitute(repl, n3)) + p3))
    ensures Placeholders(p0 + Delimit(n1) + (p1 + Delimit(n2) + (p2 + Delimit(n3) + p3))) == [n1, n2, n3]
  {
    RenderSlot(p0, n1, p1 + Delimit(n2) + (p2 + Delimit(n3) + p3), repl, escape);
    RenderTwoSlots(p1, n2, p2, n3, p3, repl, escape);
  }

  lemma RenderTwoSlotsFinal(p0: string, n1: string, p1: string, n2: string,
                            repl: map<string, string>, escape: string -> string)
    requires '{' !in p0 && '{' !in p1 && IsName(n1) && IsName(n2)
    ensures Render(p0 + Delimit(n1) + (p1 + Delimit(n2)), repl, escape)
         == p0 + escape(Substitute(repl, n1)) + (p1 + escape(Substitute(repl, n2)))
    ensures Placeholders(p0 + Delimit(n1) + (p1 + Delimit(n2))) == [n1, n2]
  {
    RenderSlot(p0, n1, p1 + Delimit(n2), repl, escape);
    RenderFinalSlot(p1, n2, repl, escape);
  }

  lemma RenderThreeSlotsFinal(p0: string, n1: string, p1: string, n2: string, p2: string, n3: string,
                              repl: map<string, string>, escape: string -> string)
    requires '{' !in p0 && '{' !in p1 && '{' !in p2 && IsName(n1) && IsName(n2) && IsName(n3)
    ensures Render(p0 + Delimit(n1) + (p1 + Delimit(n2) + (p2 + Delimit(n3))), repl, escape)
         == p0 + escape(Substitute(repl, n1)) + (p1 + escape(Substitute(repl, n2)) + (p2 + escape(Substitute(repl, n3))))
    ensures Placeholders(p0 + Delimit(n1) + (p1 + Delimit(n2) + (p2 + Delimit(n3)))) == [n1, n2, n3]
  {
    RenderSlot(p0, n1, p1 + Delimit(n2) + (p2 + Delimit(n3)), repl, escape);
    RenderTwoSlotsFinal(p1, n2, p2, n3, repl, escape);
  }

  /** A template in which the scan finds no token renders to itself, whatever the map and the escape. */
  lemma {:induction false} RenderTokenFree(t: string, repl: map<string, string>, escape: string -> string)
    requires Placeholders(t) == []
    ensures Render(t, repl, escape) == t
    decreases |t|
  {
    if t != [] {
      RenderTokenFree(t[1..], repl, escape);
    }
  }

  /** With no replacements and the identity escape, every token is put back as it was: rendering rewrites nothing but tokens. */
  lemma {:induction false} RenderIdentity(t: string)
    ensures Render(t, map[], s => s) == t
    decreases |t|
  {
    if t != [] {
      match TokenAt(t)
      case Some(name) =>
        var d := Delimit(name);
        assert t == d + t[|name| + 2..] by {
          assert t[..|d|] == d;
        }
        RenderIdentity(t[|name| + 2..]);
      case None =>
        RenderIdentity(t[1..]);
    }
  }
}
