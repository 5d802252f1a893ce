/** Matching a command's tokens against the argv patterns of a policy rule. */
module ArgvMatcher {
  import opened Texts
  import opened Entities

  /** The library functions the matcher calls: shell globbing of one token, and lower case. */
  datatype Library = Library(glob: (string, string) -> bool, lower: string -> string)

  // ----- Normalizing the command -----

  function Slashed(s: string): (r: string)
    ensures |r| == |s|
    ensures forall i | 0 <= i < |s| :: r[i] == if s[i] == '\\' then '/' else s[i]
  {
    if s == "" then "" else [if s[0] == '\\' then '/' else s[0]] + Slashed(s[1..])
  }

  /** `rsplit("/", 1)[-1]`. */
  function BaseName(s: string): (r: string)
    ensures '/' !in r
  {
    if s == "" || s[|s| - 1] == '/' then "" else BaseName(s[..|s| - 1]) + [s[|s| - 1]]
  }

  /** It is what follows the last slash, or everything. */
  lemma {:induction false} BaseNameIsASuffix(s: string) returns (n: nat)
    ensures n <= |s| && BaseName(s) == s[n..] && (n > 0 ==> s[n - 1] == '/')
  {
    n := |s|;
    assert s[|s|..] == "";
    if s != "" && s[|s| - 1] != '/' {
      var init := s[..|s| - 1];
      n := BaseNameIsASuffix(init);
      assert s[n..] == init[n..] + [s[|s| - 1]];
    }
  }

  predicate Tokens(raw: Json) {
    && raw.JList? && raw.items != []
    && forall i | 0 <= i < |raw.items| :: raw.items[i].JText? && raw.items[i].text != ""
  }

  function NormalToken(lib: Library, i: nat, token: string): string {
    lib.lower(if i == 0 then BaseName(Slashed(token)) else Slashed(token))
  }

  /** `_normalized_argv`; None also where the argument is no list of non-empty texts. */
  method NormalizedArgv(lib: Library, raw: Option<Json>) returns (r: Option<seq<string>>)
    ensures r.Some? <==> raw.Some? && Tokens(raw.value)
    ensures r.Some? ==>
      && |r.value| == |raw.value.items|
      && forall i | 0 <= i < |r.value| :: r.value[i] == NormalToken(lib, i, raw.value.items[i].text)
  {
    if raw.None? || !raw.value.JList? || raw.value.items == [] {
      return None;
    }
    var items := raw.value.items;
    for i := 0 to |items|
      invariant forall j | 0 <= j < i :: items[j].JText? && items[j].text != ""
    {
      if !items[i].JText? || items[i].text == "" {
        return None;
      }
    }
    var normalized: seq<string> := [];
    for i := 0 to |items|
      invariant |normalized| == i
      invariant forall j | 0 <= j < i :: normalized[j] == Slashed(items[j].text)
    {
      normalized := normalized + [Slashed(items[i].text)];
    }
    normalized := normalized[0 := BaseName(normalized[0])];
    var lowered: seq<string> := [];
    for i := 0 to |items|
      invariant |lowered| == i
      invariant forall j | 0 <= j < i :: lowered[j] == NormalToken(lib, j, items[j].text)
    {
      lowered := lowered + [lib.lower(normalized[i])];
    }
    r := Some(lowered);
  }

  lemma BaseNameOf(s: string, c: char)
    ensures BaseName(s + [c]) == if c == '/' then "" else BaseName(s) + [c]
  {
    assert (s + [c])[..|s + [c]| - 1] == s;
  }

  lemma NoBaseName()
    ensures BaseName("") == ""
  {
  }

  lemma {:induction false} BaseNameDropsTheDirectory(directory: string, name: string)
    ensures BaseName(directory + "/" + name) == BaseName(name)
  {
    hide BaseName;
    if name == "" {
      BaseNameOf(directory, '/');
      assert directory + "/" + "" == directory + ['/'];
      NoBaseName();
    } else {
      var n := |name| - 1;
      assert directory + "/" + name == (directory + "/" + name[..n]) + [name[n]] && name == name[..n] + [name[n]];
      BaseNameOf(directory + "/" + name[..n], name[n]);
      BaseNameOf(name[..n], name[n]);
      BaseNameDropsTheDirectory(directory, name[..n]);
    }
  }

  /** A rule sees the program, not where it is: a directory before it, written with either
      separator, makes no difference. */
  lemma DirectoryDoesNotMatter(lib: Library, directory: string, separator: char, name: string)
    requires separator == '/' || separator == '\\'
    ensures NormalToken(lib, 0, directory + [separator] + name) == NormalToken(lib, 0, name)
  {
    hide BaseName, Slashed;
    assert Slashed(directory + [separator] + name) == Slashed(directory) + "/" + Slashed(name);
    BaseNameDropsTheDirectory(Slashed(directory), Slashed(name));
  }

  // ----- Matching -----

  const ANY := "**"

  /** The inner `matches` of `_argv_pattern_matches`, on a lowered pattern. */
  predicate Matches(lib: Library, argv: seq<string>, pattern: seq<string>, i: nat, j: nat)
    requires i <= |argv| && j <= |pattern|
    decreases |pattern| - j, 1
  {
    if j == |pattern| then i == |argv|
    else if pattern[j] == ANY then exists next | i <= next <= |argv| :: MatchesAfter(lib, argv, pattern, next, j)
    else i < |argv| && lib.glob(argv[i], pattern[j]) && MatchesAfter(lib, argv, pattern, i + 1, j)
  }

  /** The recursive call, past the j-th pattern token. */
  predicate MatchesAfter(lib: Library, argv: seq<string>, pattern: seq<string>, i: nat, j: nat)
    requires i <= |argv| && j < |pattern|
    decreases |pattern| - j, 0
  {
    Matches(lib, argv, pattern, i, j + 1)
  }

  function Lowered(lib: Library, pattern: seq<string>): (r: seq<string>)
    ensures |r| == |pattern| && forall i | 0 <= i < |r| :: r[i] == lib.lower(pattern[i])
  {
    seq(|pattern|, i requires 0 <= i < |pattern| => lib.lower(pattern[i]))
  }

  predicate ArgvPatternMatches(lib: Library, argv: seq<string>, pattern: seq<string>) {
    Matches(lib, argv, Lowered(lib, pattern), 0, 0)
  }

  // ----- What it decides -----

  /** The words one pattern token stands for: any words, or one word its glob accepts. */
  predicate TokenAccepts(lib: Library, token: string, words: seq<string>) {
    token == ANY || (|words| == 1 && lib.glob(words[0], token))
  }

  function Joined(pieces: seq<seq<string>>): seq<string> {
    if pieces == [] then [] else pieces[0] + Joined(pieces[1..])
  }

  predicate PiecesFit(lib: Library, pieces: seq<seq<string>>, pattern: seq<string>) {
    |pieces| == |pattern| && forall k | 0 <= k < |pattern| :: TokenAccepts(lib, pattern[k], pieces[k])
  }

  /** The concatenation of the languages of the tokens: the words fall into pieces, one
      accepted by each token. */
  ghost predicate InLanguage(lib: Library, words: seq<string>, pattern: seq<string>) {
    exists pieces :: PiecesFit(lib, pieces, pattern) && Joined(pieces) == words
  }

  ghost predicate StartsWith(lib: Library, words: seq<string>, token: string, rest: seq<string>, n: nat)
    requires n <= |words|
  {
    TokenAccepts(lib, token, words[..n]) && InLanguage(lib, words[n..], rest)
  }

  /** The language of a pattern, by its first token. */
  lemma FirstPiece(lib: Library, words: seq<string>, token: string, rest: seq<string>)
    ensures InLanguage(lib, words, [token] + rest) <==>
            exists n | 0 <= n <= |words| :: StartsWith(lib, words, token, rest, n)
  {
    var pattern := [token] + rest;
    if InLanguage(lib, words, pattern) {
      var pieces :| PiecesFit(lib, pieces, pattern) && Joined(pieces) == words;
      var n := |pieces[0]|;
      assert TokenAccepts(lib, pattern[0], pieces[0]);
      forall k | 0 <= k < |rest|
        ensures TokenAccepts(lib, rest[k], pieces[1..][k])
      {
        assert pattern[k + 1] == rest[k];
      }
      assert words[..n] == pieces[0] && words[n..] == Joined(pieces[1..]);
      assert StartsWith(lib, words, token, rest, n);
    }
    if n :| 0 <= n <= |words| && StartsWith(lib, words, token, rest, n) {
      var tail :| PiecesFit(lib, tail, rest) && Joined(tail) == words[n..];
      var pieces := [words[..n]] + tail;
      assert pieces[1..] == tail;
      assert PiecesFit(lib, pieces, pattern) && Joined(pieces) == words;
    }
  }

  /** Some first piece of the words fits the token, and the others the rest. */
  ghost predicate Begins(lib: Library, words: seq<string>, token: string, rest: seq<string>) {
    exists n | 0 <= n <= |words| :: StartsWith(lib, words, token, rest, n)
  }

  /** After the j-th token, from each position on, the matcher decides the rest's language. */
  ghost predicate DecidesRest(lib: Library, argv: seq<string>, pattern: seq<string>, i: nat, j: nat, rest: seq<string>)
    requires i <= |argv| && j < |pattern|
  {
    forall n: nat | i <= n <= |argv| :: MatchesAfter(lib, argv, pattern, n, j) <==> InLanguage(lib, argv[n..], rest)
  }

  lemma StartsAt(lib: Library, argv: seq<string>, pattern: seq<string>, i: nat, j: nat, rest: seq<string>, n: nat)
    requires i <= n <= |argv| && j < |pattern| && DecidesRest(lib, argv, pattern, i, j, rest)
    ensures StartsWith(lib, argv[i..], pattern[j], rest, n - i) <==>
            TokenAccepts(lib, pattern[j], argv[i..n]) && MatchesAfter(lib, argv, pattern, n, j)
  {
    hide InLanguage, TokenAccepts, MatchesAfter;
    assert argv[i..][..n - i] == argv[i..n] && argv[i..][n - i..] == argv[n..];
  }

  /** The case of a `**`. */
  lemma AnyMatches(lib: Library, argv: seq<string>, pattern: seq<string>, i: nat, j: nat, rest: seq<string>)
    requires i <= |argv| && j < |pattern| && pattern[j] == ANY && DecidesRest(lib, argv, pattern, i, j, rest)
    ensures Matches(lib, argv, pattern, i, j) <==> Begins(lib, argv[i..], ANY, rest)
  {
    AnyAccepts(lib);
    hide StartsWith, MatchesAfter, TokenAccepts, DecidesRest;
    var words := argv[i..];
    if next :| i <= next <= |argv| && MatchesAfter(lib, argv, pattern, next, j) {
      StartsAt(lib, argv, pattern, i, j, rest, next);
      assert StartsWith(lib, words, ANY, rest, next - i);
    }
    if n :| 0 <= n <= |words| && StartsWith(lib, words, ANY, rest, n) {
      StartsAt(lib, argv, pattern, i, j, rest, i + n);
      assert MatchesAfter(lib, argv, pattern, i + n, j);
    }
  }

  /** The case of a token for one word. */
  lemma OneMatches(lib: Library, argv: seq<string>, pattern: seq<string>, i: nat, j: nat, rest: seq<string>)
    requires i <= |argv| && j < |pattern| && pattern[j] != ANY && DecidesRest(lib, argv, pattern, i, j, rest)
    ensures Matches(lib, argv, pattern, i, j) <==> Begins(lib, argv[i..], pattern[j], rest)
  {
    hide StartsWith, MatchesAfter, DecidesRest;
    var words, token := argv[i..], pattern[j];
    if i < |argv| && lib.glob(argv[i], token) && MatchesAfter(lib, argv, pattern, i + 1, j) {
      StartsAt(lib, argv, pattern, i, j, rest, i + 1);
      assert StartsWith(lib, words, token, rest, 1);
    }
    if n :| 0 <= n <= |words| && StartsWith(lib, words, token, rest, n) {
      StartsAt(lib, argv, pattern, i, j, rest, i + n);
      assert n == 1 && argv[i..i + n][0] == argv[i];
    }
  }

  lemma MatchesByCase(lib: Library, argv: seq<string>, pattern: seq<string>, i: nat, j: nat)
    requires i <= |argv| && j < |pattern| && DecidesRest(lib, argv, pattern, i, j, pattern[j + 1..])
    ensures Matches(lib, argv, pattern, i, j) <==> InLanguage(lib, argv[i..], pattern[j..])
  {
    var words, token, rest := argv[i..], pattern[j], pattern[j + 1..];
    FirstPiece(lib, words, token, rest);
    assert pattern[j..] == [token] + rest;
    hide StartsWith, Matches, InLanguage, DecidesRest;
    if token == ANY {
      AnyMatches(lib, argv, pattern, i, j, rest);
    } else {
      OneMatches(lib, argv, pattern, i, j, rest);
    }
  }

  /** The matcher decides membership in the pattern's language. */
  lemma {:induction false} MatchesIsMembership(lib: Library, argv: seq<string>, pattern: seq<string>, i: nat, j: nat)
    requires i <= |argv| && j <= |pattern|
    ensures Matches(lib, argv, pattern, i, j) <==> InLanguage(lib, argv[i..], pattern[j..])
    decreases |pattern| - j
  {
    if j == |pattern| {
      assert pattern[j..] == [];
      OnlyNothing(lib, argv[i..]);
    } else {
      hide InLanguage, Matches;
      var rest := pattern[j + 1..];
      forall n: nat | i <= n <= |argv|
        ensures MatchesAfter(lib, argv, pattern, n, j) <==> InLanguage(lib, argv[n..], rest)
      {
        MatchesIsMembership(lib, argv, pattern, n, j + 1);
      }
      MatchesByCase(lib, argv, pattern, i, j);
    }
  }

  lemma OnlyNothing(lib: Library, words: seq<string>)
    ensures InLanguage(lib, words, []) <==> words == []
  {
    assert PiecesFit(lib, [], []) && Joined([]) == [];
  }

  lemma AnyAccepts(lib: Library)
    ensures forall words :: TokenAccepts(lib, ANY, words)
  {
  }

  lemma ArgvMatchesIffInLanguage(lib: Library, argv: seq<string>, pattern: seq<string>)
    ensures ArgvPatternMatches(lib, argv, pattern) <==> InLanguage(lib, argv, Lowered(lib, pattern))
  {
    MatchesIsMembership(lib, argv, Lowered(lib, pattern), 0, 0);
    assert argv[0..] == argv && Lowered(lib, pattern)[0..] == Lowered(lib, pattern);
  }

  // ----- Patterns in sequence -----

  ghost predicate Splits(lib: Library, words: seq<string>, p: seq<string>, q: seq<string>, n: nat)
    requires n <= |words|
  {
    InLanguage(lib, words[..n], p) && InLanguage(lib, words[n..], q)
  }

  lemma {:induction false} JoinedSplits(a: seq<seq<string>>, b: seq<seq<string>>)
    ensures Joined(a + b) == Joined(a) + Joined(b)
  {
    if a == [] {
      assert a + b == b;
    } else {
      assert (a + b)[0] == a[0] && (a + b)[1..] == a[1..] + b;
      JoinedSplits(a[1..], b);
    }
  }

  lemma PiecesSplit(lib: Library, a: seq<seq<string>>, b: seq<seq<string>>, p: seq<string>, q: seq<string>)
    requires |a| == |p| && |b| == |q|
    ensures PiecesFit(lib, a + b, p + q) <==> PiecesFit(lib, a, p) && PiecesFit(lib, b, q)
  {
    hide TokenAccepts;
    if PiecesFit(lib, a + b, p + q) {
      forall k | 0 <= k < |p|
        ensures TokenAccepts(lib, p[k], a[k])
      {
        assert TokenAccepts(lib, (p + q)[k], (a + b)[k]);
      }
      forall k | 0 <= k < |q|
        ensures TokenAccepts(lib, q[k], b[k])
      {
        assert TokenAccepts(lib, (p + q)[|p| + k], (a + b)[|p| + k]);
      }
    }
  }

  lemma LanguageOfSequence(lib: Library, words: seq<string>, p: seq<string>, q: seq<string>)
    ensures InLanguage(lib, words, p + q) <==> exists n | 0 <= n <= |words| :: Splits(lib, words, p, q, n)
  {
    hide PiecesFit, Joined;
    if InLanguage(lib, words, p + q) {
      var pieces :| PiecesFit(lib, pieces, p + q) && Joined(pieces) == words;
      PiecesCount(lib, pieces, p + q);
      var a, b := pieces[..|p|], pieces[|p|..];
      assert pieces == a + b;
      PiecesSplit(lib, a, b, p, q);
      JoinedSplits(a, b);
      assert words[..|Joined(a)|] == Joined(a) && words[|Joined(a)|..] == Joined(b);
      assert Splits(lib, words, p, q, |Joined(a)|);
    }
    if n :| 0 <= n <= |words| && Splits(lib, words, p, q, n) {
      var a :| PiecesFit(lib, a, p) && Joined(a) == words[..n];
      var b :| PiecesFit(lib, b, q) && Joined(b) == words[n..];
      PiecesCount(lib, a, p);
      PiecesCount(lib, b, q);
      PiecesSplit(lib, a, b, p, q);
      JoinedSplits(a, b);
      assert PiecesFit(lib, a + b, p + q) && Joined(a + b) == words;
    }
  }

  lemma PiecesCount(lib: Library, pieces: seq<seq<string>>, pattern: seq<string>)
    requires PiecesFit(lib, pieces, pattern)
    ensures |pieces| == |pattern|
  {
  }

  /** A pattern written as two parts matches exactly the commands that fall into two parts. */
  lemma ArgvMatchesSequence(lib: Library, argv: seq<string>, p: seq<string>, q: seq<string>)
    ensures ArgvPatternMatches(lib, argv, p + q) <==>
            exists n | 0 <= n <= |argv| :: ArgvMatchesParts(lib, argv, p, q, n)
  {
    var p', q' := Lowered(lib, p), Lowered(lib, q);
    assert Lowered(lib, p + q) == p' + q';
    ArgvMatchesIffInLanguage(lib, argv, p + q);
    LanguageOfSequence(lib, argv, p', q');
    hide InLanguage, ArgvPatternMatches;
    forall n: nat | n <= |argv|
      ensures Splits(lib, argv, p', q', n) <==> ArgvMatchesParts(lib, argv, p, q, n)
    {
      ArgvMatchesIffInLanguage(lib, argv[..n], p);
      ArgvMatchesIffInLanguage(lib, argv[n..], q);
    }
  }

  predicate ArgvMatchesParts(lib: Library, argv: seq<string>, p: seq<string>, q: seq<string>, n: nat)
    requires n <= |argv|
  {
    ArgvPatternMatches(lib, argv[..n], p) && ArgvPatternMatches(lib, argv[n..], q)
  }

  // ----- The same by filling a table -----

  /** A cell of the table of positions, given by its neighbours in the row and the column. */
  predicate Cell(lib: Library, argv: seq<string>, pattern: seq<string>, i: nat, j: nat)
    requires i <= |argv| && j <= |pattern|
    decreases |pattern| - j, |argv| - i
  {
    if j == |pattern| then i == |argv|
    else if pattern[j] == ANY then
      Cell(lib, argv, pattern, i, j + 1) || (i < |argv| && Cell(lib, argv, pattern, i + 1, j))
    else i < |argv| && lib.glob(argv[i], pattern[j]) && Cell(lib, argv, pattern, i + 1, j + 1)
  }

  /** The recursive matcher, which tries every continuation after a `**`, decides what the
      table of one cell a position does. */
  lemma {:induction false} MatchesIsTheTable(lib: Library, argv: seq<string>, pattern: seq<string>, i: nat, j: nat)
    requires i <= |argv| && j <= |pattern|
    ensures Matches(lib, argv, pattern, i, j) <==> Cell(lib, argv, pattern, i, j)
    decreases |pattern| - j, |argv| - i
  {
    if j < |pattern| {
      if pattern[j] == ANY {
        MatchesIsTheTable(lib, argv, pattern, i, j + 1);
        assert MatchesAfter(lib, argv, pattern, i, j) <==> Cell(lib, argv, pattern, i, j + 1);
        if i < |argv| {
          MatchesIsTheTable(lib, argv, pattern, i + 1, j);
        }
      } else if i < |argv| {
        MatchesIsTheTable(lib, argv, pattern, i + 1, j + 1);
      }
    }
  }
}
