/** The slug form of an A2A agent path, for ASCII input. */
module AgentPaths {
  import opened Ascii
  import opened Options

  predicate IsSlugChar(c: char) {
    'a' <= c <= 'z' || '0' <= c <= '9'
  }

  predicate IsSpace(c: char) {
    c == ' ' || '\t' <= c <= '\r' || '\U{1c}' <= c <= '\U{1f}'
  }

  function DropLeading(s: string, p: char -> bool): string {
    if s != [] && p(s[0]) then DropLeading(s[1..], p) else s
  }

  function DropTrailing(s: string, p: char -> bool): string {
    if s != [] && p(s[|s| - 1]) then DropTrailing(s[..|s| - 1], p) else s
  }

  function Strip(s: string, p: char -> bool): string {
    DropTrailing(DropLeading(s, p), p)
  }

  /** Each maximal run of other characters becomes one dash. */
  function Dashed(s: string): string {
    if s == [] then []
    else
      var init := Dashed(s[..|s| - 1]);
      var c := s[|s| - 1];
      if IsSlugChar(c) then init + [c]
      else if init != [] && init[|init| - 1] == '-' then init
      else init + ['-']
  }

  /** `normalize_a2a_agent_path`; None is the `ValueError`. */
  function Normalize(path: Option<string>): Option<string> {
    match path
    case None => None
    case Some(value) =>
      var slug := Strip(Dashed(Lower(Strip(value, IsSpace))), c => c == '-');
      if slug == [] then None else Some(slug)
  }

  /** Words of lower-case letters and digits joined by single dashes. */
  predicate IsSlug(s: string) {
    && s != [] && s[0] != '-' && s[|s| - 1] != '-'
    && Spaced(s)
  }

  predicate Spaced(s: string) {
    && (forall i :: 0 <= i < |s| ==> IsSlugChar(s[i]) || s[i] == '-')
    && (forall i :: 0 <= i < |s| - 1 ==> s[i] != '-' || s[i + 1] != '-')
  }

  lemma {:induction false} DashedIsSpaced(s: string)
    ensures Spaced(Dashed(s))
  {
    if s != [] {
      DashedIsSpaced(s[..|s| - 1]);
    }
  }

  lemma {:induction false} DashedFixesSpaced(s: string)
    requires Spaced(s)
    ensures Dashed(s) == s
  {
    if s != [] {
      var init := s[..|s| - 1];
      DashedFixesSpaced(init);
      assert s == init + [s[|s| - 1]];
      assert init != [] ==> init[|init| - 1] == s[|s| - 2];
    }
  }

  lemma {:induction false} DropLeadingSpaced(s: string)
    requires Spaced(s)
    ensures var t := DropLeading(s, c => c == '-'); Spaced(t) && (t != [] ==> t[0] != '-')
  {
    if s != [] && s[0] == '-' {
      DropLeadingSpaced(s[1..]);
    }
  }

  lemma {:induction false} DropTrailingSpaced(s: string)
    requires Spaced(s) && (s != [] ==> s[0] != '-')
    ensures var t := DropTrailing(s, c => c == '-'); Spaced(t) && (t != [] ==> t[0] != '-' && t[|t| - 1] != '-')
  {
    if s != [] && s[|s| - 1] == '-' {
      DropTrailingSpaced(s[..|s| - 1]);
    }
  }

  /** Every normalised path is a slug. */
  lemma NormalizeYieldsSlug(path: Option<string>)
    ensures Normalize(path).Some? ==> IsSlug(Normalize(path).value)
  {
    if path.Some? {
      var d := Dashed(Lower(Strip(path.value, IsSpace)));
      DashedIsSpaced(Lower(Strip(path.value, IsSpace)));
      DropLeadingSpaced(d);
      DropTrailingSpaced(DropLeading(d, c => c == '-'));
    }
  }

  /** The slugs are exactly the paths that normalisation leaves as they are. */
  lemma NormalizeFixesExactlySlugs(s: string)
    ensures Normalize(Some(s)) == Some(s) <==> IsSlug(s)
  {
    if IsSlug(s) {
      assert Strip(s, IsSpace) == s;
      assert Lower(s) == s;
      DashedFixesSpaced(s);
    } else {
      NormalizeYieldsSlug(Some(s));
    }
  }

  /** Normalising twice is normalising once. */
  lemma NormalizeIsIdempotent(path: Option<string>)
    requires Normalize(path).Some?
    ensures Normalize(Normalize(path)) == Normalize(path)
  {
    NormalizeYieldsSlug(path);
    NormalizeFixesExactlySlugs(Normalize(path).value);
  }

  // ---------------------------------------------------------------- what a slug keeps of a path

  datatype Letter = Letter(letter: char, startsWord: bool)

  /** The letters and digits in order, each with whether others come between it and the one before it. */
  function Letters(s: string): seq<Letter> {
    if s == [] then [] else Extended(Letters(s[..|s| - 1]), s[..|s| - 1], s[|s| - 1])
  }

  function Extended(letters: seq<Letter>, before: string, c: char): seq<Letter> {
    if !IsSlugChar(c) then letters
    else letters + [Letter(c, letters != [] && before != [] && !IsSlugChar(before[|before| - 1]))]
  }

  lemma LettersMore(s: string, c: char)
    ensures Letters(s + [c]) == Extended(Letters(s), s, c)
  {
    hide Extended;
    assert (s + [c])[..|s|] == s;
  }

  lemma DashedMore(s: string, c: char)
    ensures Dashed(s + [c]) ==
            if IsSlugChar(c) then Dashed(s) + [c]
            else if Dashed(s) != [] && Dashed(s)[|Dashed(s)| - 1] == '-' then Dashed(s)
            else Dashed(s) + ['-']
  {
    assert (s + [c])[..|s|] == s;
  }

  /** Dashing `s` keeps its letters, and what it ends in. */
  ghost predicate Keeps(s: string, dashed: string) {
    && Letters(dashed) == Letters(s) && (s == [] <==> dashed == [])
    && (s != [] ==> (IsSlugChar(s[|s| - 1]) <==> IsSlugChar(dashed[|dashed| - 1])))
    && (dashed != [] && !IsSlugChar(dashed[|dashed| - 1]) ==> dashed[|dashed| - 1] == '-')
  }

  lemma KeepsMore(s: string, dashed: string, c: char)
    requires Keeps(s, dashed)
    ensures Keeps(s + [c], if IsSlugChar(c) then dashed + [c]
                           else if dashed != [] && dashed[|dashed| - 1] == '-' then dashed
                           else dashed + ['-'])
  {
    LettersMore(s, c);
    LettersMore(dashed, c);
    LettersMore(dashed, '-');
    hide Letters;
  }

  lemma {:induction false} LettersOfDashed(s: string)
    ensures Keeps(s, Dashed(s))
  {
    if s != [] {
      LettersOfDashed(s[..|s| - 1]);
      KeepsMore(s[..|s| - 1], Dashed(s[..|s| - 1]), s[|s| - 1]);
      DashedMore(s[..|s| - 1], s[|s| - 1]);
      assert s == s[..|s| - 1] + [s[|s| - 1]];
      hide Keeps, Dashed;
    }
  }

  lemma {:induction false} LettersAfterFirst(s: string)
    requires s != [] && !IsSlugChar(s[0])
    ensures Letters(s[1..]) == Letters(s)
  {
    if |s| > 1 {
      LettersAfterFirst(s[..|s| - 1]);
      assert s[..|s| - 1][1..] == s[1..][..|s| - 2];
    }
  }

  lemma {:induction false} LettersOfStripped(s: string, p: char -> bool)
    requires forall c :: p(c) ==> !IsSlugChar(c)
    ensures Letters(DropLeading(s, p)) == Letters(s) == Letters(DropTrailing(s, p))
    decreases |s|
  {
    if s != [] && p(s[0]) {
      LettersAfterFirst(s);
      LettersOfStripped(s[1..], p);
    }
    if s != [] && p(s[|s| - 1]) {
      LettersOfStripped(s[..|s| - 1], p);
    }
  }

  lemma {:induction false} LowerOfTrimmed(s: string)
    ensures Lower(DropLeading(s, IsSpace)) == DropLeading(Lower(s), IsSpace)
    ensures Lower(DropTrailing(s, IsSpace)) == DropTrailing(Lower(s), IsSpace)
    decreases |s|
  {
    if s != [] {
      assert Lower(s)[0] == LowerChar(s[0]) && Lower(s)[|s| - 1] == LowerChar(s[|s| - 1]);
      assert Lower(s)[1..] == Lower(s[1..]) && Lower(s)[..|s| - 1] == Lower(s[..|s| - 1]);
      hide Lower;
      LowerOfTrimmed(s[1..]);
      LowerOfTrimmed(s[..|s| - 1]);
    }
  }

  /** Normalising keeps the letters and digits of the path, in lower case and in order, with a break between two of them
    * exactly where the path has one; it refuses exactly the paths without any. */
  lemma NormalizeKeepsLetters(path: string)
    ensures Normalize(Some(path)).None? <==> Letters(Lower(path)) == []
    ensures Normalize(Some(path)).Some? ==> Letters(Normalize(Some(path)).value) == Letters(Lower(path))
  {
    var stripped := Lower(Strip(path, IsSpace));
    LowerOfTrimmed(path);
    LowerOfTrimmed(DropLeading(path, IsSpace));
    LettersOfStripped(Lower(path), IsSpace);
    LettersOfStripped(Lower(DropLeading(path, IsSpace)), IsSpace);
    LettersOfDashed(stripped);
    LettersOfStripped(Dashed(stripped), c => c == '-');
    LettersOfStripped(DropLeading(Dashed(stripped), c => c == '-'), c => c == '-');
    NormalizeYieldsSlug(Some(path));
    if Normalize(Some(path)).Some? {
      SlugHasLetters(Normalize(Some(path)).value);
    }
  }

  lemma SlugHasLetters(s: string)
    requires IsSlug(s)
    ensures Letters(s) != []
  {
    assert IsSlugChar(s[|s| - 1]);
  }

  /** And that determines the slug. */
  lemma {:induction false} LettersDetermineSlug(s: string, t: string)
    requires IsSlug(s) && IsSlug(t) && Letters(s) == Letters(t)
    ensures s == t
    decreases |s|
  {
    var a, b := s[..|s| - 1], t[..|t| - 1];
    assert IsSlugChar(s[|s| - 1]) && IsSlugChar(t[|t| - 1]);
    assert Letters(s)[|Letters(s)| - 1].letter == s[|s| - 1] && Letters(t)[|Letters(t)| - 1].letter == t[|t| - 1];
    assert Letters(a) == Letters(s)[..|Letters(s)| - 1] && Letters(b) == Letters(t)[..|Letters(t)| - 1];
    InitOfSlug(s);
    InitOfSlug(t);
    if Letters(a) != [] {
      if a[|a| - 1] == '-' {
        LettersDetermineSlug(a[..|a| - 1], b[..|b| - 1]);
        assert a == a[..|a| - 1] + ['-'] && b == b[..|b| - 1] + ['-'];
      } else {
        LettersDetermineSlug(a, b);
      }
    }
    assert s == a + [s[|s| - 1]] && t == b + [t[|t| - 1]];
  }

  /** Without its last letter a slug is a slug, up to a dash, or nothing. */
  lemma InitOfSlug(s: string)
    requires IsSlug(s)
    ensures var a := s[..|s| - 1];
            if Letters(a) == [] then a == []
            else if a[|a| - 1] == '-' then IsSlug(a[..|a| - 1]) && Letters(a[..|a| - 1]) == Letters(a)
            else a != [] && IsSlug(a) && IsSlugChar(a[|a| - 1])
  {
    var a := s[..|s| - 1];
    if a != [] && a[|a| - 1] == '-' {
      assert s[|s| - 2] == '-' && a[0] == s[0];
      assert |a| > 1 && a[|a| - 2] != '-';
      SlugHasLetters(a[..|a| - 1]);
    } else if a != [] {
      SlugHasLetters(a);
    }
  }

  /** The characters that make words, and those that are trimmed. */
  lemma CharactersExactly(c: char)
    ensures IsSlugChar(c) <==> c in "abcdefghijklmnopqrstuvwxyz0123456789"
    ensures IsSpace(c) <==> c in " \t\n\U{b}\U{c}\r\U{1c}\U{1d}\U{1e}\U{1f}"
  {
  }
}
