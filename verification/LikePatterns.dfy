/** Search terms as LIKE patterns: what sanitizeSearchTerm of the filter engine is for (FilterEngine.ts). */
module LikePatterns {

  /** White space as String.prototype.trim sees it (section 12.2 of ECMA-262). */
  predicate IsSpace(c: char) {
    var n := c as int;
    || 0x09 <= n <= 0x0D || n == 0x20 || n == 0xA0 || n == 0x1680 || 0x2000 <= n <= 0x200A
    || n == 0x2028 || n == 0x2029 || n == 0x202F || n == 0x205F || n == 0x3000 || n == 0xFEFF
  }

  function TrimStart(s: string): string {
    if s != "" && IsSpace(s[0]) then TrimStart(s[1..]) else s
  }

  function TrimEnd(s: string): string {
    if s != "" && IsSpace(s[|s| - 1]) then TrimEnd(s[..|s| - 1]) else s
  }

  function Trim(s: string): string { TrimEnd(TrimStart(s)) }

  predicate IsSpecial(c: char) { c == '%' || c == '_' || c == '\\' }

  function EscapeChar(c: char): string { if IsSpecial(c) then ['\\', c] else [c] }

  /** replace(/[%_\\]/g, "\\$&"). */
  function Escape(s: string): string {
    if s == "" then "" else EscapeChar(s[0]) + Escape(s[1..])
  }

  function SanitizeSearchTerm(search: string): string { Trim(Escape(search)) }

  /** Case-insensitive comparison of characters, for the letters of ASCII. */
  function Fold(c: char): char {
    if 'A' <= c <= 'Z' then (c as int + 32) as char else c
  }

  /** PostgreSQL's ILIKE with the backslash as escape character. */
  predicate MatchesLike(pattern: string, text: string)
    decreases |pattern| + |text|
  {
    if pattern == "" then text == ""
    else if pattern[0] == '%' then
      MatchesLike(pattern[1..], text) || (text != "" && MatchesLike(pattern, text[1..]))
    else if pattern[0] == '_' then text != "" && MatchesLike(pattern[1..], text[1..])
    else if pattern[0] == '\\' && |pattern| > 1 then
      text != "" && Fold(text[0]) == Fold(pattern[1]) && MatchesLike(pattern[2..], text[1..])
    else text != "" && Fold(text[0]) == Fold(pattern[0]) && MatchesLike(pattern[1..], text[1..])
  }

  /** The Prisma filter "contains", which puts the term between two wildcards. */
  predicate Contains(term: string, text: string) { MatchesLike("%" + term + "%", text) }

  predicate StartsWith(s: string, text: string) {
    if s == "" then true
    else text != "" && Fold(text[0]) == Fold(s[0]) && StartsWith(s[1..], text[1..])
  }

  /** s occurs in text, letter case aside. */
  predicate Occurs(s: string, text: string) {
    StartsWith(s, text) || (text != "" && Occurs(s, text[1..]))
  }

  lemma {:induction false} TrailingWildcard(text: string)
    ensures MatchesLike("%", text)
  {
    if text == "" {
      assert "%"[1..] == "";
    } else {
      TrailingWildcard(text[1..]);
    }
  }

  /** One escaped character at the front of a pattern matches just itself. */
  lemma EscapedCharacter(c: char, rest: string, text: string)
    ensures MatchesLike(EscapeChar(c) + rest, text)
       <==> text != "" && Fold(text[0]) == Fold(c) && MatchesLike(rest, text[1..])
  {
    hide Fold;
    var pattern := EscapeChar(c) + rest;
    if IsSpecial(c) {
      assert pattern[0] == '\\' && pattern[1] == c && pattern[2..] == rest;
    } else {
      assert pattern[0] == c && pattern[1..] == rest;
    }
  }

  /** An escaped term matches exactly itself at the front of a text. */
  lemma {:induction false} EscapedIsLiteral(s: string, text: string)
    ensures MatchesLike(Escape(s) + "%", text) <==> StartsWith(s, text)
  {
    hide Fold, MatchesLike, EscapeChar;
    if s == "" {
      assert Escape(s) + "%" == "%";
      TrailingWildcard(text);
    } else {
      var rest := Escape(s[1..]) + "%";
      assert Escape(s) + "%" == EscapeChar(s[0]) + rest;
      EscapedCharacter(s[0], rest, text);
      if text != "" {
        EscapedIsLiteral(s[1..], text[1..]);
      }
    }
  }

  lemma {:induction false} EscapedContains(s: string, text: string)
    ensures Contains(Escape(s), text) <==> Occurs(s, text)
  {
    var pattern := "%" + Escape(s) + "%";
    assert pattern[1..] == Escape(s) + "%";
    EscapedIsLiteral(s, text);
    if text != "" {
      EscapedContains(s, text[1..]);
    }
  }

  lemma {:induction false} EscapeAppend(s: string, c: char)
    ensures Escape(s + [c]) == Escape(s) + EscapeChar(c)
  {
    if s == "" {
      assert s + [c] == [c] && [c][1..] == "";
    } else {
      assert (s + [c])[0] == s[0] && (s + [c])[1..] == s[1..] + [c];
      EscapeAppend(s[1..], c);
    }
  }

  lemma {:induction false} TrimStartEscape(s: string)
    ensures TrimStart(Escape(s)) == Escape(TrimStart(s))
  {
    if s != "" && IsSpace(s[0]) {
      assert Escape(s)[1..] == Escape(s[1..]);
      TrimStartEscape(s[1..]);
    }
  }

  lemma {:induction false} TrimEndEscape(s: string)
    ensures TrimEnd(Escape(s)) == Escape(TrimEnd(s))
  {
    if s != "" {
      var front, c := s[..|s| - 1], s[|s| - 1];
      assert s == front + [c];
      EscapeAppend(front, c);
      if IsSpace(c) {
        assert Escape(s)[..|Escape(s)| - 1] == Escape(front);
        TrimEndEscape(front);
      } else {
        assert Escape(s)[|Escape(s)| - 1] == c;
      }
    }
  }

  lemma {:induction false} TrimmedStart(s: string)
    ensures TrimStart(s) == "" || !IsSpace(TrimStart(s)[0])
  {
    if s != "" && IsSpace(s[0]) {
      TrimmedStart(s[1..]);
    }
  }

  /** Trimming the end keeps the first character, if anything is left. */
  lemma {:induction false} TrimmedEnd(s: string)
    ensures TrimEnd(s) == "" || (s != "" && TrimEnd(s)[0] == s[0] && !IsSpace(TrimEnd(s)[|TrimEnd(s)| - 1]))
  {
    if s != "" && IsSpace(s[|s| - 1]) {
      TrimmedEnd(s[..|s| - 1]);
    }
  }

  predicate AllSpace(s: string) { forall i :: 0 <= i < |s| ==> IsSpace(s[i]) }

  lemma {:induction false} TrimStartIsSuffix(s: string) returns (before: string)
    ensures s == before + TrimStart(s) && AllSpace(before)
  {
    before := "";
    if s != "" && IsSpace(s[0]) {
      var rest := TrimStartIsSuffix(s[1..]);
      before := [s[0]] + rest;
      assert s == [s[0]] + s[1..];
    } else {
      assert "" + s == s;
    }
  }

  lemma {:induction false} TrimEndIsPrefix(s: string) returns (after: string)
    ensures s == TrimEnd(s) + after && AllSpace(after)
  {
    after := "";
    if s != "" && IsSpace(s[|s| - 1]) {
      var rest := TrimEndIsPrefix(s[..|s| - 1]);
      after := rest + [s[|s| - 1]];
      assert s == s[..|s| - 1] + [s[|s| - 1]];
    } else {
      assert s + "" == s;
    }
  }

  /** Trimming takes white space from both ends, all of it and nothing else. */
  lemma TrimTakesSpace(s: string) returns (before: string, after: string)
    ensures s == before + Trim(s) + after && AllSpace(before) && AllSpace(after)
    ensures Trim(s) != "" ==> !IsSpace(Trim(s)[0]) && !IsSpace(Trim(s)[|Trim(s)| - 1])
  {
    before := TrimStartIsSuffix(s);
    after := TrimEndIsPrefix(TrimStart(s));
    TrimmedStart(s);
    TrimmedEnd(TrimStart(s));
    assert s == before + (Trim(s) + after) == before + Trim(s) + after;
  }

  lemma TrimIdempotent(s: string)
    ensures Trim(Trim(s)) == Trim(s)
  {
    TrimmedStart(s);
    TrimmedEnd(TrimStart(s));
  }

  /**
   A sanitized term is found exactly in the texts in which the trimmed term occurs literally: percent signs,
   underscores and backslashes typed by the user match only themselves.
   */
  lemma SanitizedSearchIsLiteral(search: string, text: string)
    ensures Contains(SanitizeSearchTerm(search), text) <==> Occurs(Trim(search), text)
  {
    TrimStartEscape(search);
    TrimEndEscape(TrimStart(search));
    EscapedContains(Trim(search), text);
  }

  /* ---- terms that are not escaped ---- */

  predicate IsPlain(s: string) { forall c :: c in s ==> !IsSpecial(c) }

  lemma {:induction false} PlainIsEscaped(s: string)
    requires IsPlain(s)
    ensures Escape(s) == s
  {
    if s != "" {
      PlainIsEscaped(s[1..]);
      assert s[0] in s;
    }
  }

  /** A text that a pattern matches although it is not the pattern: wildcards replaced, escapes taken. */
  function Instance(pattern: string): string {
    if pattern == "" then ""
    else if pattern[0] == '%' then Instance(pattern[1..])
    else if pattern[0] == '_' then "x" + Instance(pattern[1..])
    else if pattern == "\\" then "%"
    else if pattern[0] == '\\' then [pattern[1]] + Instance(pattern[2..])
    else [pattern[0]] + Instance(pattern[1..])
  }

  lemma {:induction false} InstanceIsShort(s: string)
    ensures |Instance(s)| <= |s|
  {
    if s != "" {
      InstanceIsShort(s[1..]);
      if |s| > 1 {
        InstanceIsShort(s[2..]);
      }
    }
  }

  lemma {:induction false} InstanceMatches(s: string)
    ensures MatchesLike(s + "%", Instance(s))
  {
    var pattern, text := s + "%", Instance(s);
    if s == "" {
      TrailingWildcard("");
    } else if s == "\\" {
      assert pattern[2..] == "" && text[1..] == "";
    } else if s[0] == '\\' {
      assert pattern[2..] == s[2..] + "%" && text[1..] == Instance(s[2..]);
      InstanceMatches(s[2..]);
    } else {
      assert pattern[1..] == s[1..] + "%";
      InstanceMatches(s[1..]);
      if s[0] != '%' {
        assert text[1..] == Instance(s[1..]);
      }
    }
  }

  lemma {:induction false} StartIsNoLonger(s: string, text: string)
    requires StartsWith(s, text)
    ensures |s| <= |text|
  {
    if s != "" {
      StartIsNoLonger(s[1..], text[1..]);
    }
  }

  /** The instance does not begin with a term that has a special character. */
  lemma {:induction false} InstanceDiffers(s: string)
    requires !IsPlain(s)
    ensures !StartsWith(s, Instance(s))
  {
    var text := Instance(s);
    InstanceIsShort(s[1..]);
    if StartsWith(s, text) {
      StartIsNoLonger(s, text);
      if s[0] == '\\' && |s| > 1 {
        InstanceIsShort(s[2..]);
      } else if !IsSpecial(s[0]) {
        assert s == [s[0]] + s[1..];
        assert text[1..] == Instance(s[1..]);
        InstanceDiffers(s[1..]);
      }
    }
  }

  lemma {:induction false} OccursInShort(s: string, text: string)
    requires Occurs(s, text) && |text| <= |s|
    ensures StartsWith(s, text)
  {
    if !StartsWith(s, text) {
      OccursInShort(s, text[1..]);
      StartIsNoLonger(s, text[1..]);
    }
  }

  /**
   A term that is not escaped is found exactly where it occurs literally, in all texts, if and only if it has no percent
   sign, no underscore and no backslash.
   */
  lemma UnescapedIsLiteralIff(s: string)
    ensures (forall text :: Contains(s, text) <==> Occurs(s, text)) <==> IsPlain(s)
  {
    if IsPlain(s) {
      PlainIsEscaped(s);
      forall text ensures Contains(s, text) <==> Occurs(s, text) {
        EscapedContains(s, text);
      }
    } else {
      var text := Instance(s);
      InstanceMatches(s);
      assert ("%" + s + "%")[1..] == s + "%";
      assert Contains(s, text);
      InstanceIsShort(s);
      InstanceDiffers(s);
      if Occurs(s, text) {
        OccursInShort(s, text);
      }
    }
  }

  /** For example an underscore is found in every text but the empty one. */
  lemma {:induction false} UnderscoreMatchesAny(text: string)
    ensures Contains("_", text) <==> text != ""
  {
    var rest := "_%";
    assert "%" + "_" + "%" == "%" + rest && ("%" + rest)[1..] == rest && rest[1..] == "%";
    if text != "" {
      TrailingWildcard(text[1..]);
    }
    assert MatchesLike(rest, text) <==> text != "";
    assert MatchesLike("%" + rest, text) <==> text != "";
  }
}
