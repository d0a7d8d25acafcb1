/** htmlEscape of the report writer, and the reverse replacement that undoes
    it. The escape is five `replaceAll` calls with `&` replaced first, so the
    entities later calls insert are never escaped again; replacing the
    entities back with `&amp;` last recovers the original text. */
module Markup {
  import opened JavaLang

  /** `s.replaceAll(pattern, rep)` for a pattern without regular-expression
      metacharacters: occurrences are replaced left to right and do not
      overlap. The pattern is never empty: every caller passes one of the
      five markup characters or one of their entities, and an empty regular
      expression, which Java matches between every two characters, is left
      out. */
  function ReplaceAll(s: string, pattern: string, rep: string): (r: string)
    requires pattern != []
    ensures pattern[0] !in s ==> r == s
    decreases |s|
  {
    if s == [] then []
    else if StartsWith(s, pattern) then rep + ReplaceAll(s[|pattern|..], pattern, rep)
    else [s[0]] + ReplaceAll(s[1..], pattern, rep)
  }

  /** The five `replaceAll` calls of htmlEscape, `&` first. */
  function EscapeChain(s: string): string
  {
    ReplaceAll(ReplaceAll(ReplaceAll(ReplaceAll(ReplaceAll(s, "&", "&amp;"), "\"", "&quot;"), "'", "&#39;"), "<", "&lt;"), ">", "&gt;")
  }

  /** htmlEscape: every markup character becomes its entity and every other
      character is kept, each on its own, because the chain escapes `&` before
      it inserts entities. */
  function HtmlEscape(s: string): (r: string)
    ensures r == Escaped(s)
  {
    EscapeIsPerCharacter(s);
    EscapeChain(s)
  }

  /** The reverse replacement: `&gt;`, `&lt;`, `&#39;` and `&quot;` are
      turned back into their characters one after the other, `&amp;` last. */
  function Unescape(s: string): string
  {
    UnescapeFrom(0, s)
  }

  /** The reverse replacements from the k-th on, in the order of Restored. */
  function UnescapeFrom(k: nat, s: string): string
    requires k <= 5
    decreases 5 - k
  {
    if k == 5 then s else UnescapeFrom(k + 1, ReplaceAll(s, Entity(Restored(k)), [Restored(k)]))
  }

  predicate IsMarkup(c: char)
  {
    c == '&' || c == '"' || c == '\'' || c == '<' || c == '>'
  }

  /** The entity standing for one of the five characters. */
  function Entity(c: char): string
  {
    match c
    case '&' => "&amp;"
    case '"' => "&quot;"
    case '\'' => "&#39;"
    case '<' => "&lt;"
    case _ => "&gt;"
  }

  /** The escape as a reference definition: each character on its own. */
  function Escaped(s: string): (r: string)
  {
    if s == [] then []
    else (if IsMarkup(s[0]) then Entity(s[0]) else [s[0]]) + Escaped(s[1..])
  }

  /** An entity starts at position i of t. */
  predicate EntityAt(t: string, i: int)
    requires 0 <= i <= |t|
  {
    StartsWith(t[i..], "&amp;") || StartsWith(t[i..], "&quot;") || StartsWith(t[i..], "&#39;") ||
    StartsWith(t[i..], "&lt;") || StartsWith(t[i..], "&gt;")
  }

  // ---------------------------------------------------------------- stages

  /** The five characters in the order the reverse replacement restores
      them. */
  function Restored(k: nat): char
    requires k < 5
  {
    if k == 0 then '>' else if k == 1 then '<' else if k == 2 then '\'' else if k == 3 then '"' else '&'
  }

  /** Position of a markup character in that order. */
  function RestoreOrder(c: char): (k: nat)
    requires IsMarkup(c)
    ensures k < 5 && Restored(k) == c
  {
    if c == '>' then 0 else if c == '<' then 1 else if c == '\'' then 2 else if c == '"' then 3 else 4
  }

  /** What character c has become once the first k reverse replacements have
      run on its escaped form. */
  function Stage(k: nat, c: char): string
  {
    if IsMarkup(c) && k <= RestoreOrder(c) then Entity(c) else [c]
  }

  /** A whole text at stage k. */
  function Staged(k: nat, s: string): string
  {
    if s == [] then [] else Stage(k, s[0]) + Staged(k, s[1..])
  }

  lemma {:induction false} StagedFirst(s: string)
    ensures Staged(0, s) == Escaped(s)
  {
    if s != [] {
      StagedFirst(s[1..]);
    }
  }

  lemma {:induction false} StagedLast(s: string)
    ensures Staged(5, s) == s
  {
    if s != [] {
      StagedLast(s[1..]);
      assert s == [s[0]] + s[1..];
    }
  }

  /** Text without the pattern's first character passes a replacement
      unchanged, whatever follows it. */
  lemma {:induction false} ReplaceSkipsPlainText(u: string, rest: string, pattern: string, rep: string)
    requires pattern != [] && pattern[0] !in u
    ensures ReplaceAll(u + rest, pattern, rep) == u + ReplaceAll(rest, pattern, rep)
    decreases |u|
  {
    if u != [] {
      PlainCharacterStep(u[0], u[1..] + rest, pattern, rep);
      assert u + rest == [u[0]] + (u[1..] + rest);
      ReplaceSkipsPlainText(u[1..], rest, pattern, rep);
      var tail := ReplaceAll(rest, pattern, rep);
      SplitFirst(u, tail);
    } else {
      assert u + rest == rest;
    }
  }

  lemma SplitFirst(u: string, v: string)
    requires u != []
    ensures [u[0]] + (u[1..] + v) == u + v
  {
    assert |[u[0]] + (u[1..] + v)| == |u + v|;
    forall i | 0 <= i < |u + v|
      ensures ([u[0]] + (u[1..] + v))[i] == (u + v)[i]
    {
    }
  }

  /** A character other than the pattern's first is copied. */
  lemma PlainCharacterStep(c: char, rest: string, pattern: string, rep: string)
    requires pattern != [] && c != pattern[0]
    ensures ReplaceAll([c] + rest, pattern, rep) == [c] + ReplaceAll(rest, pattern, rep)
  {
    var t := [c] + rest;
    assert t[0] != pattern[0];
    assert t[1..] == rest;
  }

  /** An occurrence of the pattern at the front is replaced. */
  lemma MatchStep(rest: string, pattern: string, rep: string)
    requires pattern != []
    ensures ReplaceAll(pattern + rest, pattern, rep) == rep + ReplaceAll(rest, pattern, rep)
  {
    var t := pattern + rest;
    assert StartsWith(t, pattern);
    assert t[|pattern|..] == rest;
  }

  /** Another entity at the front is copied: it differs from the pattern in
      its second character and holds no further `&`. */
  lemma OtherEntityStep(e: string, rest: string, pattern: string, rep: string)
    requires |e| >= 2 && |pattern| >= 2 && e[1] != pattern[1] && pattern[0] !in e[1..]
    ensures ReplaceAll(e + rest, pattern, rep) == e + ReplaceAll(rest, pattern, rep)
  {
    var t := e + rest;
    assert t[0] == e[0] && t[1] == e[1];
    NoMatchStep(t, pattern, rep);
    assert t[1..] == e[1..] + rest;
    ReplaceSkipsPlainText(e[1..], rest, pattern, rep);
    SplitFirst(e, ReplaceAll(rest, pattern, rep));
  }

  /** A text whose second character differs from the pattern's does not start
      with it, so its first character is kept. */
  lemma NoMatchStep(t: string, pattern: string, rep: string)
    requires |t| >= 2 && |pattern| >= 2 && t[1] != pattern[1]
    ensures ReplaceAll(t, pattern, rep) == [t[0]] + ReplaceAll(t[1..], pattern, rep)
  {
    assert !StartsWith(t, pattern);
  }

  /** Each entity starts with `&`, holds no other `&`, and is told apart from
      the others by its second character. */
  lemma EntityShape(c: char, d: char)
    requires IsMarkup(c) && IsMarkup(d)
    ensures |Entity(c)| >= 4 && Entity(c)[0] == '&' && '&' !in Entity(c)[1..]
    ensures c != d ==> Entity(c)[1] != Entity(d)[1]
  {
  }

  /** The k-th reverse replacement turns one character's stage-k form into
      its stage-(k+1) form, whatever text follows. */
  lemma StageStep(k: nat, c: char, rest: string)
    requires k < 5
    ensures ReplaceAll(Stage(k, c) + rest, Entity(Restored(k)), [Restored(k)]) ==
              Stage(k + 1, c) + ReplaceAll(rest, Entity(Restored(k)), [Restored(k)])
  {
    var d := Restored(k);
    EntityShape(d, d);
    if IsMarkup(c) && k == RestoreOrder(c) {
      MatchStep(rest, Entity(d), [d]);
    } else if IsMarkup(c) && k < RestoreOrder(c) {
      EntityShape(c, d);
      OtherEntityStep(Entity(c), rest, Entity(d), [d]);
    } else {
      PlainCharacterStep(c, rest, Entity(d), [d]);
    }
  }

  /** The k-th reverse replacement takes a whole text from stage k to stage
      k+1. */
  lemma {:induction false} StagedStep(k: nat, s: string)
    requires k < 5
    ensures ReplaceAll(Staged(k, s), Entity(Restored(k)), [Restored(k)]) == Staged(k + 1, s)
  {
    if s != [] {
      StageStep(k, s[0], Staged(k, s[1..]));
      StagedStep(k, s[1..]);
    }
  }

  // ---------------------------------------------------------------- the escape

  /** Replacing a character is done character by character. */
  lemma {:induction false} ReplaceCharSplits(a: string, b: string, c: char, rep: string)
    ensures ReplaceAll(a + b, [c], rep) == ReplaceAll(a, [c], rep) + ReplaceAll(b, [c], rep)
    decreases |a|
  {
    if a != [] {
      assert a + b == [a[0]] + (a[1..] + b);
      assert a == [a[0]] + a[1..];
      var head := if a[0] == c then rep else [a[0]];
      if a[0] == c {
        MatchStep(a[1..] + b, [c], rep);
        MatchStep(a[1..], [c], rep);
      } else {
        PlainCharacterStep(a[0], a[1..] + b, [c], rep);
        PlainCharacterStep(a[0], a[1..], [c], rep);
      }
      assert ReplaceAll(a + b, [c], rep) == head + ReplaceAll(a[1..] + b, [c], rep);
      assert ReplaceAll(a, [c], rep) == head + ReplaceAll(a[1..], [c], rep);
      ReplaceCharSplits(a[1..], b, c, rep);
      var x, y := ReplaceAll(a[1..], [c], rep), ReplaceAll(b, [c], rep);
      assert head + (x + y) == (head + x) + y;
    } else {
      assert a + b == b;
    }
  }

  /** Replacing a character in a one-character text. */
  lemma ReplaceInCharacter(x: char, c: char, rep: string)
    ensures ReplaceAll([x], [c], rep) == if x == c then rep else [x]
  {
    assert [x] == [x] + [];
  }

  /** The five replacements of htmlEscape on one character. */
  lemma EscapeOneCharacter(c: char)
    ensures EscapeChain([c]) == if IsMarkup(c) then Entity(c) else [c]
  {
    ReplaceInCharacter(c, '&', "&amp;");
    if c == '&' {
      EscapeRest("&amp;");
    } else {
      EscapeAfterAmpersand(c);
    }
  }

  /** The last four replacements leave an entity of `&` alone. */
  lemma EscapeRest(e: string)
    requires e == "&amp;"
    ensures ReplaceAll(ReplaceAll(ReplaceAll(ReplaceAll(e, "\"", "&quot;"), "'", "&#39;"), "<", "&lt;"), ">", "&gt;") == e
  {
  }

  /** The last four replacements on a character other than `&`. */
  lemma EscapeAfterAmpersand(c: char)
    requires c != '&'
    ensures ReplaceAll(ReplaceAll(ReplaceAll(ReplaceAll([c], "\"", "&quot;"), "'", "&#39;"), "<", "&lt;"), ">", "&gt;") ==
              if IsMarkup(c) then Entity(c) else [c]
  {
    if c == '"' {
      ReplaceInCharacter(c, '"', "&quot;");
    } else if c == '\'' {
      EscapeApostrophe();
    } else if c == '<' {
      EscapeLessThan();
    } else if c == '>' {
      EscapeGreaterThan();
    }
  }

  lemma EscapeApostrophe()
    ensures ReplaceAll(ReplaceAll(ReplaceAll(ReplaceAll("'", "\"", "&quot;"), "'", "&#39;"), "<", "&lt;"), ">", "&gt;") == "&#39;"
  {
    ReplaceInCharacter('\'', '\'', "&#39;");
  }

  lemma EscapeLessThan()
    ensures ReplaceAll(ReplaceAll(ReplaceAll(ReplaceAll("<", "\"", "&quot;"), "'", "&#39;"), "<", "&lt;"), ">", "&gt;") == "&lt;"
  {
    ReplaceInCharacter('<', '<', "&lt;");
  }

  lemma EscapeGreaterThan()
    ensures ReplaceAll(ReplaceAll(ReplaceAll(ReplaceAll(">", "\"", "&quot;"), "'", "&#39;"), "<", "&lt;"), ">", "&gt;") == "&gt;"
  {
    ReplaceInCharacter('>', '>', "&gt;");
  }

  /** htmlEscape escapes each character on its own: the entities inserted by
      one replacement are never touched by the later ones. */
  lemma {:induction false} EscapeIsPerCharacter(s: string)
    ensures EscapeChain(s) == Escaped(s)
  {
    if s != [] {
      var a, b := [s[0]], s[1..];
      assert s == a + b;
      var s1 := ReplaceAll(s, "&", "&amp;");
      ReplaceCharSplits(a, b, '&', "&amp;");
      var a1, b1 := ReplaceAll(a, "&", "&amp;"), ReplaceAll(b, "&", "&amp;");
      ReplaceCharSplits(a1, b1, '"', "&quot;");
      var a2, b2 := ReplaceAll(a1, "\"", "&quot;"), ReplaceAll(b1, "\"", "&quot;");
      ReplaceCharSplits(a2, b2, '\'', "&#39;");
      var a3, b3 := ReplaceAll(a2, "'", "&#39;"), ReplaceAll(b2, "'", "&#39;");
      ReplaceCharSplits(a3, b3, '<', "&lt;");
      var a4, b4 := ReplaceAll(a3, "<", "&lt;"), ReplaceAll(b3, "<", "&lt;");
      ReplaceCharSplits(a4, b4, '>', "&gt;");
      EscapeOneCharacter(s[0]);
      EscapeIsPerCharacter(b);
    }
  }

  // ---------------------------------------------------------------- properties

  /** The escaped text holds no raw `<`, `>`, `"` or `'`, and each of its `&`
      starts one of the five entities. */
  lemma {:induction false} EscapedIsSafe(s: string)
    ensures '<' !in HtmlEscape(s) && '>' !in HtmlEscape(s) && '"' !in HtmlEscape(s) && '\'' !in HtmlEscape(s)
    ensures forall i :: 0 <= i < |HtmlEscape(s)| && HtmlEscape(s)[i] == '&' ==> EntityAt(HtmlEscape(s), i)
  {
    EscapedSafe(s);
  }

  /** No raw `<`, `>`, `"` or `'`, and an entity at every `&`. */
  predicate SafeText(t: string)
  {
    && '<' !in t && '>' !in t && '"' !in t && '\'' !in t
    && forall i :: 0 <= i < |t| && t[i] == '&' ==> EntityAt(t, i)
  }

  lemma {:induction false} EscapedSafe(s: string)
    ensures '<' !in Escaped(s) && '>' !in Escaped(s) && '"' !in Escaped(s) && '\'' !in Escaped(s)
    ensures forall i :: 0 <= i < |Escaped(s)| && Escaped(s)[i] == '&' ==> EntityAt(Escaped(s), i)
  {
    if s != [] {
      EscapedSafe(s[1..]);
      var head := if IsMarkup(s[0]) then Entity(s[0]) else [s[0]];
      SafeHead(s[0]);
      SafeAppend(head, Escaped(s[1..]));
    }
  }

  /** One escaped character is safe text. */
  lemma SafeHead(c: char)
    ensures SafeText(if IsMarkup(c) then Entity(c) else [c])
  {
    if IsMarkup(c) {
      EntitySafe(Entity(c));
    }
  }

  /** An entity is safe text: its only `&` is its first character. */
  lemma EntitySafe(e: string)
    requires e in {"&amp;", "&quot;", "&#39;", "&lt;", "&gt;"}
    ensures SafeText(e)
  {
    assert e[0..] == e;
    assert forall i :: 1 <= i < |e| ==> e[i] != '&';
  }

  /** Safe text stays safe when joined. */
  lemma SafeAppend(a: string, b: string)
    requires SafeText(a) && SafeText(b)
    ensures SafeText(a + b)
  {
    var t := a + b;
    forall i | 0 <= i < |t| && t[i] == '&'
      ensures EntityAt(t, i)
    {
      if i < |a| {
        assert a[i] == '&';
        PrefixStaysPrefix(a[i..], b);
        assert t[i..] == a[i..] + b;
      } else {
        assert b[i - |a|] == '&';
        assert t[i..] == b[i - |a|..];
      }
    }
  }

  /** An entity at the start of u is still there once text is appended. */
  lemma PrefixStaysPrefix(u: string, v: string)
    requires EntityAt(u, 0)
    ensures EntityAt(u + v, 0)
  {
    assert u[0..] == u && (u + v)[0..] == u + v;
  }

  /** Text without any of the five characters is left as it is. */
  lemma {:induction false} PlainTextUnchanged(s: string)
    requires forall k :: 0 <= k < |s| ==> !IsMarkup(s[k])
    ensures HtmlEscape(s) == s
  {
    PlainEscapedUnchanged(s);
  }

  lemma {:induction false} PlainEscapedUnchanged(s: string)
    requires forall k :: 0 <= k < |s| ==> !IsMarkup(s[k])
    ensures Escaped(s) == s
  {
    if s != [] {
      PlainEscapedUnchanged(s[1..]);
      assert s == [s[0]] + s[1..];
    }
  }

  /** The reverse replacements from the k-th on take a text from stage k to
      stage 5, which is the text itself. */
  lemma {:induction false} UnescapeStaged(k: nat, s: string)
    requires k <= 5
    ensures UnescapeFrom(k, Staged(k, s)) == s
    decreases 5 - k
  {
    if k < 5 {
      StagedStep(k, s);
      UnescapeStaged(k + 1, s);
    } else {
      StagedLast(s);
    }
  }

  /** Replacing the entities back, `&amp;` last, recovers the original. */
  lemma UnescapeEscape(s: string)
    ensures Unescape(HtmlEscape(s)) == s
  {
    StagedFirst(s);
    UnescapeStaged(0, s);
  }
}
