/**
 * The connector's topic-pattern matcher (`mqtt_topic_to_regex`).
 *
 * A subscription pattern is turned into a regular expression by textual
 * replacement: every `+` becomes `[^/]+`, every `#` becomes `.+`, and the
 * result is anchored with `^` and `$`. Nothing else is escaped and nothing
 * is validated. This module gives
 *   - `Matches`, the character-level meaning of a pattern;
 *   - `RegexSource`, the regular-expression text the connector builds;
 *   - `Compile` and `RegexMatches`, the compiled regex as a token sequence
 *     and how the regex engine runs it;
 * and proves that the three agree, over patterns that contain no other
 * regex metacharacter, and the wildcard properties the connector relies on.
 *
 * The rule is the connector's, not the one in sections 4.7.1.2 and 4.7.1.3
 * of OASIS MQTT 3.1.1: `#` needs at least one character (so `sport/#` does
 * not match `sport`) and `+` is not confined to a whole level (`a+`
 * matches `abc`).
 */
module TopicMatcher {
  import opened Values

  // ---------------------------------------------------------------------
  // The meaning of a pattern, one character at a time
  // ---------------------------------------------------------------------

  /**
   * `+` consumes one or more characters other than `/`, `#` consumes one
   * or more characters of any kind, every other character matches itself,
   * and the whole topic must be consumed.
   */
  predicate Matches(pattern: string, topic: string)
    decreases |topic|
  {
    if pattern == [] then topic == []
    else if topic == [] then false
    else if pattern[0] == '+' then
      topic[0] != '/' && (Matches(pattern[1..], topic[1..]) || Matches(pattern, topic[1..]))
    else if pattern[0] == '#' then
      Matches(pattern[1..], topic[1..]) || Matches(pattern, topic[1..])
    else
      topic[0] == pattern[0] && Matches(pattern[1..], topic[1..])
  }

  /** The number of level separators in a topic or pattern. */
  function Separators(s: string): nat
  {
    if s == [] then 0 else (if s[0] == '/' then 1 else 0) + Separators(s[1..])
  }

  // ---------------------------------------------------------------------
  // The regular expression the connector builds
  // ---------------------------------------------------------------------

  const NOT_SLASH_RUN: string := "[^/]+"
  const ANY_RUN: string := ".+"

  /** `str.replace` with a one-character needle: every occurrence of `c` becomes `replacement`. */
  function Replace(s: string, c: char, replacement: string): string
  {
    if s == [] then [] else (if s[0] == c then replacement else [s[0]]) + Replace(s[1..], c, replacement)
  }

  /** The text handed to `re.compile` for a pattern. */
  function RegexSource(pattern: string): string
  {
    "^" + Replace(Replace(pattern, '+', NOT_SLASH_RUN), '#', ANY_RUN) + "$"
  }

  predicate IsRegexMeta(c: char)
  {
    c in ".^$*+?{}[]\\|()"
  }

  /**
   * The characters a pattern may use for the model to describe the
   * connector's regex exactly: the two wildcards, and any character that
   * the regex syntax reads as itself (no metacharacter, no newline).
   */
  predicate PatternChar(c: char)
  {
    c == '+' || c == '#' || (!IsRegexMeta(c) && c != '\n')
  }

  predicate ValidPattern(pattern: string)
  {
    forall i :: 0 <= i < |pattern| ==> PatternChar(pattern[i])
  }

  // ---------------------------------------------------------------------
  // The compiled regex and how the regex engine runs it
  // ---------------------------------------------------------------------

  /** `Lit(c)` is a literal character, `NotSlashRun` is `[^/]+`, `AnyRun` is `.+`. */
  datatype Token = Lit(c: char) | NotSlashRun | AnyRun

  function TokenOf(c: char): Token
  {
    if c == '+' then NotSlashRun else if c == '#' then AnyRun else Lit(c)
  }

  /** The compiled form of a pattern. */
  function Compile(pattern: string): seq<Token>
  {
    if pattern == [] then [] else [TokenOf(pattern[0])] + Compile(pattern[1..])
  }

  /**
   * A full match (`^ … $`) of a token sequence against a topic, with the
   * backtracking of a regex engine: a run token consumes one character
   * and then either ends or goes on.
   */
  predicate RegexMatches(regex: seq<Token>, topic: string)
    decreases |topic|
  {
    if regex == [] then topic == []
    else if topic == [] then false
    else match regex[0]
      case Lit(c) => topic[0] == c && RegexMatches(regex[1..], topic[1..])
      case NotSlashRun =>
        topic[0] != '/' && (RegexMatches(regex[1..], topic[1..]) || RegexMatches(regex, topic[1..]))
      case AnyRun => RegexMatches(regex[1..], topic[1..]) || RegexMatches(regex, topic[1..])
  }

  function Prepend(t: Token, r: Option<seq<Token>>): Option<seq<Token>>
  {
    match r
    case None => None
    case Some(ts) => Some([t] + ts)
  }

  /**
   * Reads the body of a regex built from literal characters, `[^/]+` and
   * `.+`; any other regex syntax is outside this reading and gives `None`.
   */
  function ParseBody(s: string): Option<seq<Token>>
    decreases |s|
  {
    if s == [] then Some([])
    else if |s| >= 5 && s[..5] == NOT_SLASH_RUN then Prepend(NotSlashRun, ParseBody(s[5..]))
    else if |s| >= 2 && s[..2] == ANY_RUN then Prepend(AnyRun, ParseBody(s[2..]))
    else if IsRegexMeta(s[0]) || s[0] == '\n' then None
    else Prepend(Lit(s[0]), ParseBody(s[1..]))
  }

  /** Reads an anchored regex `^ body $`. */
  function ParseRegex(src: string): Option<seq<Token>>
  {
    if |src| >= 2 && src[0] == '^' && src[|src| - 1] == '$' then ParseBody(src[1..|src| - 1])
    else None
  }

  // ---------------------------------------------------------------------
  // The three descriptions agree
  // ---------------------------------------------------------------------

  /** Running the compiled regex is matching the pattern. */
  lemma {:induction false} CompiledRegexAgrees(pattern: string, topic: string)
    ensures RegexMatches(Compile(pattern), topic) == Matches(pattern, topic)
    decreases |topic|
  {
    if pattern != [] && topic != [] {
      var r := Compile(pattern);
      assert r[0] == TokenOf(pattern[0]) && r[1..] == Compile(pattern[1..]);
      CompiledRegexAgrees(pattern[1..], topic[1..]);
      CompiledRegexAgrees(pattern, topic[1..]);
    }
  }

  /** The regex text the connector builds reads back as the compiled pattern. */
  lemma RegexSourceIsCompiled(pattern: string)
    requires ValidPattern(pattern)
    ensures ParseRegex(RegexSource(pattern)) == Some(Compile(pattern))
  {
    var body := Replace(Replace(pattern, '+', NOT_SLASH_RUN), '#', ANY_RUN);
    BodyIsPieces(pattern);
    ParsePieces(pattern);
    var src := RegexSource(pattern);
    assert src == "^" + body + "$";
    assert src[1..|src| - 1] == body;
  }

  function Piece(c: char): string
  {
    if c == '+' then NOT_SLASH_RUN else if c == '#' then ANY_RUN else [c]
  }

  function Pieces(pattern: string): string
  {
    if pattern == [] then [] else Piece(pattern[0]) + Pieces(pattern[1..])
  }

  lemma {:induction false} ReplaceAppend(a: string, b: string, c: char, replacement: string)
    ensures Replace(a + b, c, replacement) == Replace(a, c, replacement) + Replace(b, c, replacement)
  {
    if a == [] {
      assert a + b == b;
    } else {
      assert (a + b)[0] == a[0] && (a + b)[1..] == a[1..] + b;
      ReplaceAppend(a[1..], b, c, replacement);
    }
  }

  lemma {:induction false} ReplaceAbsent(s: string, c: char, replacement: string)
    requires c !in s
    ensures Replace(s, c, replacement) == s
  {
    if s != [] {
      assert s == [s[0]] + s[1..];
      ReplaceAbsent(s[1..], c, replacement);
    }
  }

  /**
   * The second replacement does not touch what the first one inserted,
   * because `[^/]+` has no `#`: the two passes amount to replacing each
   * character of the pattern by its piece.
   */
  lemma {:induction false} BodyIsPieces(pattern: string)
    ensures Replace(Replace(pattern, '+', NOT_SLASH_RUN), '#', ANY_RUN) == Pieces(pattern)
  {
    if pattern != [] {
      var first := if pattern[0] == '+' then NOT_SLASH_RUN else [pattern[0]];
      var rest := Replace(pattern[1..], '+', NOT_SLASH_RUN);
      assert Replace(pattern, '+', NOT_SLASH_RUN) == first + rest;
      ReplaceAppend(first, rest, '#', ANY_RUN);
      if pattern[0] == '+' {
        assert '#' !in NOT_SLASH_RUN;
        ReplaceAbsent(NOT_SLASH_RUN, '#', ANY_RUN);
      } else {
        assert first[1..] == [];
      }
      BodyIsPieces(pattern[1..]);
    }
  }

  lemma ParsePiece(c: char, rest: string)
    requires PatternChar(c)
    ensures ParseBody(Piece(c) + rest) == Prepend(TokenOf(c), ParseBody(rest))
  {
    var s := Piece(c) + rest;
    if c == '+' {
      assert s[..5] == NOT_SLASH_RUN && s[5..] == rest;
    } else if c == '#' {
      assert s[0] == '.';
      assert |s| >= 5 ==> s[..5][0] == '.';
      assert s[..2] == ANY_RUN && s[2..] == rest;
    } else {
      assert s[0] == c && s[1..] == rest;
      assert |s| >= 5 ==> s[..5][0] == c;
      assert |s| >= 2 ==> s[..2][0] == c;
    }
  }

  lemma {:induction false} ParsePieces(pattern: string)
    requires ValidPattern(pattern)
    ensures ParseBody(Pieces(pattern)) == Some(Compile(pattern))
  {
    if pattern != [] {
      assert PatternChar(pattern[0]);
      ParsePiece(pattern[0], Pieces(pattern[1..]));
      assert ValidPattern(pattern[1..]) by {
        forall i | 0 <= i < |pattern[1..]| ensures PatternChar(pattern[1..][i]) {
          assert pattern[1..][i] == pattern[i + 1];
        }
      }
      ParsePieces(pattern[1..]);
    }
  }

  // ---------------------------------------------------------------------
  // What the wildcards match
  // ---------------------------------------------------------------------

  /** A match of `+` ends a non-empty run of non-`/` characters into a match of the rest. */
  lemma {:induction false} PlusMatchSplits(rest: string, topic: string)
    requires Matches(['+'] + rest, topic)
    ensures exists k :: 0 < k <= |topic| && '/' !in topic[..k] && Matches(rest, topic[k..])
    decreases |topic|
  {
    var p := ['+'] + rest;
    assert p[0] == '+' && p[1..] == rest;
    if Matches(rest, topic[1..]) {
      assert topic[..1] == [topic[0]];
    } else {
      PlusMatchSplits(rest, topic[1..]);
      var j :| 0 < j <= |topic[1..]| && '/' !in topic[1..][..j] && Matches(rest, topic[1..][j..]);
      assert topic[..j + 1] == [topic[0]] + topic[1..][..j];
      assert topic[j + 1..] == topic[1..][j..];
    }
  }

  /** `+` accepts any non-empty run of non-`/` characters followed by a match of the rest. */
  lemma {:induction false} PlusMatchJoins(rest: string, topic: string, k: nat)
    requires 0 < k <= |topic| && '/' !in topic[..k] && Matches(rest, topic[k..])
    ensures Matches(['+'] + rest, topic)
    decreases k
  {
    var p := ['+'] + rest;
    assert p[0] == '+' && p[1..] == rest;
    assert topic[..k][0] == topic[0];
    if k > 1 {
      assert topic[1..][..k - 1] == topic[..k][1..];
      assert topic[1..][k - 1..] == topic[k..];
      PlusMatchJoins(rest, topic[1..], k - 1);
    }
  }

  /** `+` consumes a non-empty run of characters none of which is `/`. */
  lemma PlusMatchesOneOrMoreWithinLevel(rest: string, topic: string)
    ensures Matches(['+'] + rest, topic) <==>
      exists k :: 0 < k <= |topic| && '/' !in topic[..k] && Matches(rest, topic[k..])
  {
    if Matches(['+'] + rest, topic) {
      PlusMatchSplits(rest, topic);
    }
    if exists k :: 0 < k <= |topic| && '/' !in topic[..k] && Matches(rest, topic[k..]) {
      var k :| 0 < k <= |topic| && '/' !in topic[..k] && Matches(rest, topic[k..]);
      PlusMatchJoins(rest, topic, k);
    }
  }

  /** `#` consumes a non-empty run of arbitrary characters, `/` included. */
  lemma {:induction false} HashMatchesOneOrMore(rest: string, topic: string)
    ensures Matches(['#'] + rest, topic) <==>
      exists k :: 0 < k <= |topic| && Matches(rest, topic[k..])
    decreases |topic|
  {
    var p := ['#'] + rest;
    assert p[0] == '#' && p[1..] == rest;
    if topic != [] {
      HashMatchesOneOrMore(rest, topic[1..]);
      if Matches(p, topic) && !Matches(rest, topic[1..]) {
        var j :| 0 < j <= |topic[1..]| && Matches(rest, topic[1..][j..]);
        assert topic[j + 1..] == topic[1..][j..];
      }
      if exists k :: 0 < k <= |topic| && Matches(rest, topic[k..]) {
        var k :| 0 < k <= |topic| && Matches(rest, topic[k..]);
        if k > 1 {
          assert topic[1..][k - 1..] == topic[k..];
        }
      }
    }
  }

  /** Every pattern character consumes at least one topic character. */
  lemma {:induction false} MatchNeverShorter(pattern: string, topic: string)
    requires Matches(pattern, topic)
    ensures |topic| >= |pattern|
    decreases |topic|
  {
    if pattern != [] {
      if Matches(pattern[1..], topic[1..]) {
        MatchNeverShorter(pattern[1..], topic[1..]);
      } else {
        MatchNeverShorter(pattern, topic[1..]);
      }
    }
  }

  /**
   * Matching is anchored at both ends: without wildcards a pattern matches
   * the one topic equal to it, and no proper prefix or extension of it.
   */
  lemma {:induction false} LiteralPatternMatchesOnlyItself(pattern: string, topic: string)
    requires '+' !in pattern && '#' !in pattern
    ensures Matches(pattern, topic) <==> topic == pattern
    decreases |topic|
  {
    if pattern != [] && topic != [] {
      assert pattern[0] != '+' && pattern[0] != '#';
      assert '+' !in pattern[1..] && '#' !in pattern[1..];
      LiteralPatternMatchesOnlyItself(pattern[1..], topic[1..]);
      assert topic == pattern <==> topic[0] == pattern[0] && topic[1..] == pattern[1..];
    }
  }

  /** A common wildcard-free prefix can be stripped from pattern and topic alike. */
  lemma {:induction false} LiteralPrefix(prefix: string, pattern: string, topic: string)
    requires '+' !in prefix && '#' !in prefix
    ensures Matches(prefix + pattern, prefix + topic) <==> Matches(pattern, topic)
  {
    if prefix != [] {
      var p, t := prefix + pattern, prefix + topic;
      assert p[0] == prefix[0] && p[1..] == prefix[1..] + pattern;
      assert t[0] == prefix[0] && t[1..] == prefix[1..] + topic;
      assert '+' !in prefix[1..] && '#' !in prefix[1..];
      LiteralPrefix(prefix[1..], pattern, topic);
    } else {
      assert prefix + pattern == pattern && prefix + topic == topic;
    }
  }

  /**
   * Without `#`, a match never crosses a level boundary: the topic has
   * exactly the pattern's separators, because `+` consumes none.
   */
  lemma {:induction false} WithoutHashLevelsAgree(pattern: string, topic: string)
    requires '#' !in pattern
    requires Matches(pattern, topic)
    ensures Separators(topic) == Separators(pattern)
    decreases |topic|
  {
    if pattern != [] {
      assert '#' !in pattern[1..];
      if pattern[0] == '+' {
        if Matches(pattern[1..], topic[1..]) {
          WithoutHashLevelsAgree(pattern[1..], topic[1..]);
        } else {
          WithoutHashLevelsAgree(pattern, topic[1..]);
        }
      } else {
        WithoutHashLevelsAgree(pattern[1..], topic[1..]);
      }
    }
  }

  // ---------------------------------------------------------------------
  // The connector's own examples
  // ---------------------------------------------------------------------

  /** `a/+/c` matches `a/b/c` and neither `a/b/b/c` nor `a/c`. */
  lemma SingleLevelExample()
    ensures Matches("a/+/c", "a/b/c")
    ensures !Matches("a/+/c", "a/b/b/c")
    ensures !Matches("a/+/c", "a/c")
  {
    if Matches("a/+/c", "a/b/b/c") {
      WithoutHashLevelsAgree("a/+/c", "a/b/b/c");
    }
    if Matches("a/+/c", "a/c") {
      MatchNeverShorter("a/+/c", "a/c");
    }
  }

  /** `a/#` matches `a/b/c` but neither `a` nor `a/`; `sport/#` does not match `sport`. */
  lemma MultiLevelExample()
    ensures Matches("a/#", "a/b/c")
    ensures !Matches("a/#", "a") && !Matches("a/#", "a/")
    ensures !Matches("sport/#", "sport")
  {
    if Matches("a/#", "a/") {
      MatchNeverShorter("a/#", "a/");
    }
    if Matches("sport/#", "sport") {
      MatchNeverShorter("sport/#", "sport");
    }
  }

  /** `+` is not confined to a whole level: `a+` matches `abc`. */
  lemma PlusInsideLevelExample()
    ensures Matches("a+", "abc")
  {
  }

  /** `+` between wildcard-free text matches any non-empty level name there. */
  lemma PlusMatchesAnyLevelName(prefix: string, suffix: string, name: string)
    requires '+' !in prefix && '#' !in prefix && '+' !in suffix && '#' !in suffix
    requires name != [] && '/' !in name
    ensures Matches(prefix + ['+'] + suffix, prefix + name + suffix)
  {
    var topic := name + suffix;
    assert topic[..|name|] == name && topic[|name|..] == suffix;
    LiteralPatternMatchesOnlyItself(suffix, suffix);
    PlusMatchJoins(suffix, topic, |name|);
    LiteralPrefix(prefix, ['+'] + suffix, topic);
    assert prefix + ['+'] + suffix == prefix + (['+'] + suffix);
    assert prefix + name + suffix == prefix + topic;
  }

  /** A trailing `#` after wildcard-free text matches any non-empty remainder. */
  lemma HashMatchesAnyRemainder(prefix: string, remainder: string)
    requires '+' !in prefix && '#' !in prefix
    requires remainder != []
    ensures Matches(prefix + ['#'], prefix + remainder)
  {
    assert remainder[|remainder|..] == [];
    HashMatchesOneOrMore([], remainder);
    assert ['#'] + [] == ['#'];
    LiteralPrefix(prefix, ['#'], remainder);
  }

  /**
   * Overlapping patterns: the topic `prefix + name + suffix` (for example
   * `sensors/1/temp`) is matched both by `prefix + "+" + suffix`
   * (`sensors/+/temp`) and by `prefix + "#"` (`sensors/#`).
   */
  lemma OverlappingPatterns(prefix: string, suffix: string, name: string)
    requires '+' !in prefix && '#' !in prefix && '+' !in suffix && '#' !in suffix
    requires name != [] && '/' !in name
    ensures Matches(prefix + ['+'] + suffix, prefix + name + suffix)
    ensures Matches(prefix + ['#'], prefix + name + suffix)
  {
    PlusMatchesAnyLevelName(prefix, suffix, name);
    HashMatchesAnyRemainder(prefix, name + suffix);
    assert prefix + name + suffix == prefix + (name + suffix);
  }
}
