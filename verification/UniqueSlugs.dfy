/** Slug normalisation and the search for a free slug (generateUniqueSlug.ts). */
module UniqueSlugs {
  import opened Wrappers

  predicate IsDigit(c: char) { '0' <= c <= '9' }

  predicate IsAlnum(c: char) { 'a' <= c <= 'z' || IsDigit(c) }

  /** replace(/[^a-z0-9]+/g, "-"): every maximal run of other characters becomes one hyphen. */
  function Hyphenate(text: string, inRun: bool): string {
    if text == "" then ""
    else if IsAlnum(text[0]) then [text[0]] + Hyphenate(text[1..], false)
    else (if inRun then "" else "-") + Hyphenate(text[1..], true)
  }

  function TrimLeft(s: string): string {
    if s != "" && s[0] == '-' then TrimLeft(s[1..]) else s
  }

  function TrimRight(s: string): string {
    if s != "" && s[|s| - 1] == '-' then TrimRight(s[..|s| - 1]) else s
  }

  /** replace(/--+/g, "-"). */
  function Collapse(s: string): string {
    if |s| < 2 then s
    else if s[0] == '-' && s[1] == '-' then Collapse(s[1..])
    else [s[0]] + Collapse(s[1..])
  }

  /** The part of baseSlugify after lowercasing, NFKD and the removal of diacritics. */
  function BaseSlugify(text: string): string {
    Collapse(TrimRight(TrimLeft(Hyphenate(text, false))))
  }

  /** Letters, digits and single hyphens, no two in a row. */
  predicate NoDoubleHyphen(s: string) {
    && (forall i :: 0 <= i < |s| ==> IsAlnum(s[i]) || s[i] == '-')
    && (forall i :: 0 <= i < |s| - 1 ==> s[i] != '-' || s[i + 1] != '-')
  }

  predicate IsSlug(s: string) {
    NoDoubleHyphen(s) && (s != "" ==> s[0] != '-' && s[|s| - 1] != '-')
  }

  /** The letters and digits of a text, in order. */
  function Letters(s: string): string {
    if s == "" then "" else (if IsAlnum(s[0]) then [s[0]] else "") + Letters(s[1..])
  }

  lemma {:induction false} HyphenateShape(text: string, inRun: bool)
    ensures NoDoubleHyphen(Hyphenate(text, inRun))
    ensures inRun && Hyphenate(text, inRun) != "" ==> Hyphenate(text, inRun)[0] != '-'
  {
    if text != "" {
      HyphenateShape(text[1..], !IsAlnum(text[0]));
    }
  }

  lemma {:induction false} HyphenateKeepsLetters(text: string, inRun: bool)
    ensures Letters(Hyphenate(text, inRun)) == Letters(text)
  {
    if text != "" {
      HyphenateKeepsLetters(text[1..], !IsAlnum(text[0]));
      var rest := Hyphenate(text[1..], !IsAlnum(text[0]));
      if IsAlnum(text[0]) {
        assert ([text[0]] + rest)[1..] == rest;
      } else {
        assert ("-" + rest)[1..] == rest;
        assert "" + rest == rest;
      }
    }
  }

  lemma {:induction false} TrimLeftShape(s: string)
    requires NoDoubleHyphen(s)
    ensures NoDoubleHyphen(TrimLeft(s)) && (TrimLeft(s) != "" ==> TrimLeft(s)[0] != '-')
    ensures Letters(TrimLeft(s)) == Letters(s)
  {
    if s != "" && s[0] == '-' {
      TrimLeftShape(s[1..]);
    }
  }

  lemma {:induction false} TrailingHyphen(s: string)
    ensures Letters(s + "-") == Letters(s)
  {
    if s == "" {
      assert s + "-" == "-";
    } else {
      assert (s + "-")[0] == s[0] && (s + "-")[1..] == s[1..] + "-";
      TrailingHyphen(s[1..]);
    }
  }

  lemma {:induction false} TrimRightShape(s: string)
    requires NoDoubleHyphen(s) && (s != "" ==> s[0] != '-')
    ensures IsSlug(TrimRight(s)) && Letters(TrimRight(s)) == Letters(s)
  {
    if s != "" && s[|s| - 1] == '-' {
      TrimRightShape(s[..|s| - 1]);
      TrailingHyphen(s[..|s| - 1]);
      assert s[..|s| - 1] + "-" == s;
    }
  }

  lemma {:induction false} CollapseIdle(s: string)
    requires NoDoubleHyphen(s)
    ensures Collapse(s) == s
  {
    if |s| >= 2 {
      CollapseIdle(s[1..]);
    }
  }

  lemma {:induction false} HyphenateIdle(s: string)
    requires NoDoubleHyphen(s)
    ensures Hyphenate(s, false) == s
    ensures s != "" && s[0] != '-' ==> Hyphenate(s, true) == s
  {
    if s != "" {
      HyphenateIdle(s[1..]);
    }
  }

  /* ---- the words of a text ---- */

  /** The maximal runs of letters and digits, in order. */
  function Words(text: string): (words: seq<string>)
    ensures text != "" && IsAlnum(text[0]) ==> words != []
  {
    if text == "" then []
    else if !IsAlnum(text[0]) then Words(text[1..])
    else if |text| == 1 || !IsAlnum(text[1]) then [[text[0]]] + Words(text[1..])
    else
      var rest := Words(text[1..]);
      [[text[0]] + rest[0]] + rest[1..]
  }

  function JoinWords(words: seq<string>): string {
    if words == [] then ""
    else if |words| == 1 then words[0]
    else words[0] + "-" + JoinWords(words[1..])
  }

  predicate IsWord(w: string) { w != "" && forall i :: 0 <= i < |w| ==> IsAlnum(w[i]) }

  lemma {:induction false} WordsAreWords(text: string)
    ensures forall w :: w in Words(text) ==> IsWord(w)
    ensures Words(text) == [] ==> forall i :: 0 <= i < |text| ==> !IsAlnum(text[i])
  {
    if text != "" {
      WordsAreWords(text[1..]);
      var rest := Words(text[1..]);
      if IsAlnum(text[0]) && |text| > 1 && IsAlnum(text[1]) {
        assert rest[0] in rest && IsWord(rest[0]);
        assert IsWord([text[0]] + rest[0]);
        assert forall w :: w in rest[1..] ==> w in rest;
      } else if IsAlnum(text[0]) {
        assert IsWord([text[0]]);
      }
    }
  }

  /** What hyphenation leaves after the last word. */
  function Tail(text: string): string {
    if Words(text) != [] && !IsAlnum(text[|text| - 1]) then "-" else ""
  }

  lemma JoinFront(c: char, words: seq<string>)
    requires words != []
    ensures JoinWords([[c] + words[0]] + words[1..]) == [c] + JoinWords(words)
  {
    var longer := [[c] + words[0]] + words[1..];
    assert longer[1..] == words[1..];
    if |words| > 1 {
      assert ([c] + words[0]) + "-" + JoinWords(words[1..]) == [c] + (words[0] + "-" + JoinWords(words[1..]));
    }
  }

  /** Hyphenated without a leading run, a text is its words with hyphens between them, and perhaps one at the end. */
  lemma {:induction false} HyphenateIsWords(text: string)
    ensures Hyphenate(text, true) == JoinWords(Words(text)) + Tail(text)
  {
    if text != "" {
      var rest := text[1..];
      HyphenateIsWords(rest);
      if !IsAlnum(text[0]) {
        assert rest != "" ==> text[|text| - 1] == rest[|rest| - 1];
      } else if rest == "" {
        assert Words(text) == [[text[0]]];
      } else if IsAlnum(rest[0]) {
        JoinFront(text[0], Words(rest));
        assert Hyphenate(rest, false) == Hyphenate(rest, true);
        assert text[|text| - 1] == rest[|rest| - 1];
      } else {
        WordsAreWords(rest);
        assert Hyphenate(rest, false) == "-" + Hyphenate(rest, true);
        assert text[|text| - 1] == rest[|rest| - 1];
        assert ([[text[0]]] + Words(rest))[1..] == Words(rest);
        AfterWord(text[0], Words(rest), Tail(rest));
      }
    }
  }

  lemma AfterWord(c: char, words: seq<string>, tail: string)
    requires words == [] ==> tail == ""
    ensures [c] + ("-" + (JoinWords(words) + tail)) == JoinWords([[c]] + words) + if words == [] then "-" else tail
  {
    var longer := [[c]] + words;
    assert longer[1..] == words;
    if words == [] {
      assert JoinWords(longer) == [c];
      assert JoinWords(words) + tail == "";
    } else {
      assert JoinWords(longer) == [c] + "-" + JoinWords(words);
      assert [c] + ("-" + (JoinWords(words) + tail)) == [c] + "-" + JoinWords(words) + tail;
    }
  }

  lemma {:induction false} JoinEndsInWord(words: seq<string>)
    requires words != [] && forall w :: w in words ==> IsWord(w)
    ensures JoinWords(words) != "" && IsAlnum(JoinWords(words)[|JoinWords(words)| - 1])
  {
    assert words[0] in words;
    if |words| > 1 {
      assert forall w :: w in words[1..] ==> w in words;
      JoinEndsInWord(words[1..]);
    }
  }

  lemma TrimLeftSkipsRun(text: string)
    ensures TrimLeft(Hyphenate(text, false)) == Hyphenate(text, true)
  {
    if text != "" && !IsAlnum(text[0]) {
      HyphenateShape(text[1..], true);
      assert ("-" + Hyphenate(text[1..], true))[1..] == Hyphenate(text[1..], true);
    }
  }

  lemma TrimRightOfWord(s: string)
    requires s == "" || IsAlnum(s[|s| - 1])
    ensures TrimRight(s + "") == s
    ensures s != "" ==> TrimRight(s + "-") == s
  {
    assert s + "" == s;
    assert (s + "-")[..|s|] == s;
  }

  lemma NothingToCollapse(text: string)
    ensures BaseSlugify(text) == TrimRight(TrimLeft(Hyphenate(text, false)))
  {
    var hyphenated := Hyphenate(text, false);
    HyphenateShape(text, false);
    TrimLeftShape(hyphenated);
    TrimRightShape(TrimLeft(hyphenated));
    CollapseIdle(TrimRight(TrimLeft(hyphenated)));
  }

  /** The base slug of a text is its words, in order, with one hyphen between any two. */
  lemma BaseSlugIsWords(text: string)
    ensures BaseSlugify(text) == JoinWords(Words(text))
  {
    hide Hyphenate, TrimLeft, TrimRight, Collapse, BaseSlugify, JoinWords, IsWord, Words;
    NothingToCollapse(text);
    TrimLeftSkipsRun(text);
    HyphenateIsWords(text);
    WordsAreWords(text);
    if Words(text) == [] {
      NoWords();
    } else {
      JoinEndsInWord(Words(text));
    }
    TrimRightOfWord(JoinWords(Words(text)));
  }

  lemma NoWords()
    ensures JoinWords([]) == ""
  {
  }

  /**
   The base slug of any text is well formed and keeps exactly the letters and digits of the text in order;
   a well-formed slug is its own base slug, so normalising twice changes nothing.
   */
  lemma BaseSlugifyNormalises(text: string)
    ensures IsSlug(BaseSlugify(text))
    ensures Letters(BaseSlugify(text)) == Letters(text)
    ensures IsSlug(text) ==> BaseSlugify(text) == text
  {
    var hyphenated := Hyphenate(text, false);
    HyphenateShape(text, false);
    HyphenateKeepsLetters(text, false);
    TrimLeftShape(hyphenated);
    TrimRightShape(TrimLeft(hyphenated));
    CollapseIdle(TrimRight(TrimLeft(hyphenated)));
    if IsSlug(text) {
      HyphenateIdle(text);
    }
  }

  /* ---- decimal numerals ---- */

  function Digit(d: nat): char
    requires d < 10
  {
    '0' + d as char
  }

  /** A number inserted into a template string. */
  function Print(n: nat): string {
    if n < 10 then [Digit(n)] else Print(n / 10) + [Digit(n % 10)]
  }

  predicate AllDigits(s: string) { forall i :: 0 <= i < |s| ==> IsDigit(s[i]) }

  /** parseInt(s, 10) on digits, leading zeros included, on unbounded numbers. */
  function Parse(s: string): nat
    requires AllDigits(s)
  {
    if s == "" then 0 else 10 * Parse(s[..|s| - 1]) + (s[|s| - 1] - '0') as nat
  }

  lemma {:induction false} PrintParse(n: nat)
    ensures Print(n) != "" && AllDigits(Print(n)) && Parse(Print(n)) == n
  {
    if n >= 10 {
      PrintParse(n / 10);
      assert Print(n)[..|Print(n)| - 1] == Print(n / 10);
    } else {
      assert Print(n)[..0] == "";
    }
  }

  /** The number a value matching ^base(?:-(\d+))?$ carries; the base is a slug, so it has no regex operator. */
  function Suffix(value: string, base: string): Option<nat> {
    if value == base then Some(0)
    else if base + "-" <= value && |value| > |base| + 1 && AllDigits(value[|base| + 1..])
    then Some(Parse(value[|base| + 1..]))
    else None
  }

  /** A value carries a number if it is the base, for 0, or the base, a hyphen and digits that read as the number. */
  lemma SuffixMeans(value: string, base: string, n: nat)
    ensures Suffix(value, base) == Some(n) <==>
      || (value == base && n == 0)
      || (exists digits :: digits != "" && AllDigits(digits) && Parse(digits) == n && value == base + "-" + digits)
  {
    if base + "-" <= value {
      assert value == base + "-" + value[|base| + 1..];
    }
    if digits :| digits != "" && AllDigits(digits) && Parse(digits) == n && value == base + "-" + digits {
      assert value[|base| + 1..] == digits;
    }
  }

  lemma {:induction false} LeadingZero(s: string)
    requires AllDigits(s)
    ensures AllDigits("0" + s) && Parse("0" + s) == Parse(s)
  {
    if s == "" {
      assert "0" + s == "0" && "0"[..0] == "";
    } else {
      var n := |s| - 1;
      LeadingZero(s[..n]);
      assert ("0" + s)[..|s|] == "0" + s[..n];
    }
  }

  /** max is the greatest number carried by a slug of the table, or 0. */
  ghost predicate IsMaxSuffix(max: nat, slugs: set<string>, base: string) {
    && (forall v :: v in slugs && Suffix(v, base).Some? ==> Suffix(v, base).value <= max)
    && (max == 0 || exists v :: v in slugs && Suffix(v, base) == Some(max))
  }

  lemma NumberedSuffix(base: string, n: nat)
    ensures Suffix(base + "-" + Print(n), base) == Some(n)
  {
    PrintParse(n);
    assert (base + "-" + Print(n))[|base| + 1..] == Print(n);
    assert base + "-" <= base + "-" + Print(n);
  }

  /** The slug returned is absent from the whole table, although only the slugs with the base as prefix are read. */
  method GenerateUniqueSlug(text: string, table: set<string>) returns (slug: string)
    ensures slug !in table
    ensures BaseSlugify(text) !in table ==> slug == BaseSlugify(text)
    ensures BaseSlugify(text) in table ==>
              var base := BaseSlugify(text);
              exists max: nat :: IsMaxSuffix(max, table, base) && slug == base + "-" + Print(max + 1)
  {
    var baseSlug := BaseSlugify(text);
    var existingSlugs := set s | s in table && baseSlug <= s;
    if baseSlug !in existingSlugs {
      return baseSlug;
    }
    var maxSuffix := 0;
    var rest := existingSlugs;
    while rest != {}
      invariant rest <= existingSlugs
      invariant IsMaxSuffix(maxSuffix, existingSlugs - rest, baseSlug)
      decreases rest
    {
      var value :| value in rest;
      var match_ := Suffix(value, baseSlug);
      if match_.Some? {
        var num := match_.value;
        if num > maxSuffix {
          maxSuffix := num;
        }
      }
      rest := rest - {value};
    }
    assert IsMaxSuffix(maxSuffix, table, baseSlug) by {
      assert existingSlugs - rest == existingSlugs;
    }
    slug := baseSlug + "-" + Print(maxSuffix + 1);
    NumberedSuffix(baseSlug, maxSuffix + 1);
  }

  ghost predicate Distinct(slugs: seq<string>) {
    forall i, j :: 0 <= i < j < |slugs| ==> slugs[i] != slugs[j]
  }

  /** Any sequence of creations keeps all slugs of a table pairwise distinct and moves none. */
  method CreateAll(slugs: seq<string>, texts: seq<string>) returns (created: seq<string>)
    requires Distinct(slugs)
    ensures Distinct(created)
    ensures |created| == |slugs| + |texts| && slugs <= created
    ensures forall i :: 0 <= i < |texts| ==> BaseSlugify(texts[i]) <= created[|slugs| + i]
  {
    created := slugs;
    for i := 0 to |texts|
      invariant Distinct(created)
      invariant |created| == |slugs| + i && slugs <= created
      invariant forall k :: 0 <= k < i ==> BaseSlugify(texts[k]) <= created[|slugs| + k]
    {
      var slug := GenerateUniqueSlug(texts[i], set s | s in created);
      created := created + [slug];
    }
  }
}
