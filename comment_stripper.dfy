/**
 * `stripComments` of the language-configuration reader: one global
 * `replace` with the alternation
 *   (quoted string) | (quoted string) | (block comment) | (line comment)
 * and a callback that keeps strings, deletes block comments and keeps only
 * the line break that ends a line comment.
 *
 * The scanner below reproduces what that regular expression matches,
 * position by position: at each position the alternatives are tried in
 * order, a match is replaced and scanning resumes after it, and where no
 * alternative matches one character is copied and scanning resumes at the
 * next. `quotes` is the set of quote characters whose strings are protected.
 */
module CommentStripper {
  import opened Wrappers
  import opened Strings

  /** The characters JavaScript's `.` does not match. */
  predicate IsLineTerminator(c: char) {
    c == '\n' || c == '\r' || c == '\U{2028}' || c == '\U{2029}'
  }

  /**
   * End (exclusive) of the string literal opened by a quote character `q`:
   * `q(?:[^\\q]*(?:\\.)?)*q`, scanning from index `i` of the body. A
   * backslash takes the next character with it unless that is a line
   * terminator or the input ends; the first unescaped `q` closes the
   * literal. Anything else means this alternative does not match.
   */
  function QuotedEnd(s: string, q: char, i: nat): (e: Option<nat>)
    requires i <= |s|
    ensures e.Some? ==> i < e.value <= |s|
    decreases |s| - i
  {
    if i == |s| then None
    else if s[i] == q then Some(i + 1)
    else if s[i] == '\\' then
      if i + 1 < |s| && !IsLineTerminator(s[i + 1]) then QuotedEnd(s, q, i + 2) else None
    else QuotedEnd(s, q, i + 1)
  }

  /**
   * End (exclusive) of a block comment whose body starts at `i`:
   * `\/\*(?:\r?\n|.)*?\*\/`. The lazy body stops at the first `*` `/`;
   * a carriage return not followed by a line feed, U+2028 and U+2029 are
   * matched by neither `\r?\n` nor `.`, so reaching one means no match.
   */
  function BlockEnd(s: string, i: nat): (e: Option<nat>)
    requires i <= |s|
    ensures e.Some? ==> i + 2 <= e.value <= |s|
    decreases |s| - i
  {
    if i + 1 < |s| && s[i] == '*' && s[i + 1] == '/' then Some(i + 2)
    else if i == |s| then None
    else if s[i] == '\r' then
      if i + 1 < |s| && s[i + 1] == '\n' then BlockEnd(s, i + 2) else None
    else if s[i] == '\n' then BlockEnd(s, i + 1)
    else if IsLineTerminator(s[i]) then None
    else BlockEnd(s, i + 1)
  }

  /**
   * End (exclusive) of a line comment whose text starts at `i`:
   * `\/{2,}.*?(?:(?:\r?\n)|$)`. It ends after the first line feed (with
   * the carriage return before it, if any) or at the end of the input; a
   * lone carriage return, U+2028 or U+2029 first means no match.
   */
  function LineEnd(s: string, i: nat): (e: Option<nat>)
    requires i <= |s|
    ensures e.Some? ==> i <= e.value <= |s|
    decreases |s| - i
  {
    if i == |s| then Some(i)
    else if s[i] == '\n' then Some(i + 1)
    else if s[i] == '\r' then
      if i + 1 < |s| && s[i + 1] == '\n' then Some(i + 2) else None
    else if IsLineTerminator(s[i]) then None
    else LineEnd(s, i + 1)
  }

  /** Which alternative matched at the start of the input, and how long the match is. */
  datatype Match = StringLiteral(len: nat) | BlockComment(len: nat) | LineComment(len: nat)

  /** The match of the alternation at index 0 of `s`, if one of its alternatives matches there. */
  function MatchAt(quotes: set<char>, s: string): (m: Option<Match>)
    ensures m.Some? ==> 2 <= m.value.len <= |s|
    ensures m.Some? && m.value.StringLiteral? ==> s[0] in quotes
    ensures m.Some? && !m.value.StringLiteral? ==> s[0] == '/'
  {
    if |s| > 0 && s[0] in quotes then
      match QuotedEnd(s, s[0], 1)
      case Some(e) => Some(StringLiteral(e))
      case None => None
    else if HasPrefix(s, "/*") then
      match BlockEnd(s, 2)
      case Some(e) => Some(BlockComment(e))
      case None => None
    else if HasPrefix(s, "//") then
      match LineEnd(s, 2)
      case Some(e) => Some(LineComment(e))
      case None => None
    else None
  }

  /** What the replace callback returns for the match `m` at the start of `s`. */
  function Replacement(s: string, m: Match): string
    requires m.len <= |s|
  {
    match m
    case StringLiteral(n) => s[..n]
    case BlockComment(_) => ""
    case LineComment(n) =>
      if n > 2 && s[n - 1] == '\n' then (if s[n - 2] == '\r' then "\r\n" else "\n") else ""
  }

  /** The global replace: scan left to right, replacing every match. */
  function Strip(quotes: set<char>, s: string): string
    decreases |s|
  {
    if s == [] then []
    else match MatchAt(quotes, s)
      case Some(m) => Replacement(s, m) + Strip(quotes, s[m.len..])
      case None => [s[0]] + Strip(quotes, s[1..])
  }

  /** `stripComments` as written: both string alternatives are the single-quote one. */
  function StripComments(content: string): string {
    Strip({'\''}, content)
  }

  /** `stripComments` as intended: double-quoted and single-quoted strings are both protected. */
  function StripCommentsCorrected(content: string): string {
    Strip({'"', '\''}, content)
  }

  // ---------------------------------------------------------------------
  // Properties of the scanner

  /** Every replacement is at most as long as what it replaces. */
  lemma ReplacementNoLonger(s: string, m: Match)
    requires 2 <= m.len <= |s|
    ensures |Replacement(s, m)| <= m.len
  {
  }

  /** The output is never longer than the input. */
  lemma {:induction false} StripNoLonger(quotes: set<char>, s: string)
    ensures |Strip(quotes, s)| <= |s|
    decreases |s|
  {
    if s != [] {
      match MatchAt(quotes, s)
      case Some(m) =>
        ReplacementNoLonger(s, m);
        StripNoLonger(quotes, s[m.len..]);
      case None =>
        StripNoLonger(quotes, s[1..]);
    }
  }

  /** Where no match can begin, the first character is copied and scanning goes on after it. */
  lemma StripPlainChar(quotes: set<char>, c: char, rest: string)
    requires c != '/' && c !in quotes
    ensures Strip(quotes, [c] + rest) == [c] + Strip(quotes, rest)
  {
    var s := [c] + rest;
    assert MatchAt(quotes, s).None?;
    assert s[1..] == rest;
  }

  /** A prefix with no slash and no protected quote is copied unchanged. */
  lemma {:induction false} StripPlainPrefix(quotes: set<char>, p: string, rest: string)
    requires forall i :: 0 <= i < |p| ==> p[i] != '/' && p[i] !in quotes
    ensures Strip(quotes, p + rest) == p + Strip(quotes, rest)
    decreases |p|
  {
    if p != [] {
      assert p + rest == [p[0]] + (p[1..] + rest);
      StripPlainChar(quotes, p[0], p[1..] + rest);
      StripPlainPrefix(quotes, p[1..], rest);
      calc {
        Strip(quotes, p + rest);
        [p[0]] + Strip(quotes, p[1..] + rest);
        [p[0]] + (p[1..] + Strip(quotes, rest));
        { assert [p[0]] + p[1..] == p; }
        p + Strip(quotes, rest);
      }
    } else {
      assert p + rest == rest;
      assert p + Strip(quotes, rest) == Strip(quotes, rest);
    }
  }

  /** The scanner of a quoted body skips a well-formed body up to the closing quote. */
  lemma {:induction false} QuotedEndOfBody(s: string, q: char, i: nat, b: string)
    requires q != '\\' && IsStringBody(q, b) && i + |b| < |s| && s[i..i + |b|] == b && s[i + |b|] == q
    ensures QuotedEnd(s, q, i) == Some(i + |b| + 1)
    decreases |b|
  {
    if b != [] {
      assert s[i] == b[0];
      if b[0] == '\\' {
        assert s[i + 1] == b[1];
        assert s[i + 2..i + |b|] == b[2..];
        QuotedEndOfBody(s, q, i + 2, b[2..]);
      } else {
        assert s[i + 1..i + |b|] == b[1..];
        QuotedEndOfBody(s, q, i + 1, b[1..]);
      }
    }
  }

  /**
   * The body of a string literal quoted with `q`, as the group
   * `(?:[^\\q]*(?:\\.)?)*` reads it: characters other than a backslash and
   * `q`, and backslash escapes of any character but a line terminator.
   */
  predicate IsStringBody(q: char, b: string)
    decreases |b|
  {
    if b == [] then true
    else if b[0] == '\\' then |b| >= 2 && !IsLineTerminator(b[1]) && IsStringBody(q, b[2..])
    else b[0] != q && IsStringBody(q, b[1..])
  }

  /** A complete string literal in a protected quote is copied verbatim, comment markers inside it included. */
  lemma StripKeepsStringLiteral(quotes: set<char>, q: char, b: string, rest: string)
    requires q in quotes && q != '/' && q != '\\' && IsStringBody(q, b)
    ensures Strip(quotes, [q] + b + [q] + rest) == [q] + b + [q] + Strip(quotes, rest)
  {
    var s := [q] + b + [q] + rest;
    assert s[1..1 + |b|] == b;
    QuotedEndOfBody(s, q, 1, b);
    assert MatchAt(quotes, s) == Some(StringLiteral(|b| + 2));
    assert s[..|b| + 2] == [q] + b + [q];
    assert s[|b| + 2..] == rest;
  }

  /**
   * The body of a block comment the lazy `(?:\r?\n|.)*?` can cross: no
   * `*` `/` inside, every carriage return followed by a line feed, and no
   * U+2028 or U+2029.
   */
  predicate IsBlockBody(b: string) {
    && (forall i :: 0 <= i < |b| - 1 ==> !(b[i] == '*' && b[i + 1] == '/'))
    && (forall i :: 0 <= i < |b| && b[i] == '\r' ==> i + 1 < |b| && b[i + 1] == '\n')
    && (forall i :: 0 <= i < |b| ==> b[i] != '\U{2028}' && b[i] != '\U{2029}')
  }

  lemma {:induction false} BlockEndOfBody(s: string, b: string, i: nat)
    requires IsBlockBody(b) && |s| >= |b| + 4 && s[2..2 + |b|] == b && s[2 + |b|] == '*' && s[3 + |b|] == '/'
    requires 2 <= i <= 2 + |b| && (i == 2 || s[i - 1] != '\r')
    ensures BlockEnd(s, i) == Some(|b| + 4)
    decreases |s| - i
  {
    if i < 2 + |b| {
      assert s[i] == b[i - 2];
      if i + 1 < 2 + |b| {
        assert s[i + 1] == b[i - 1];
      }
      if s[i] == '\r' {
        assert s[i + 1] == '\n';
        BlockEndOfBody(s, b, i + 2);
      } else {
        BlockEndOfBody(s, b, i + 1);
      }
    }
  }

  /** A complete block comment is deleted. */
  lemma StripDeletesBlockComment(quotes: set<char>, b: string, rest: string)
    requires '/' !in quotes && IsBlockBody(b)
    ensures Strip(quotes, "/*" + b + "*/" + rest) == Strip(quotes, rest)
  {
    var s := "/*" + b + "*/" + rest;
    assert s[2..2 + |b|] == b;
    assert s[2 + |b|] == '*' && s[3 + |b|] == '/';
    BlockEndOfBody(s, b, 2);
    assert MatchAt(quotes, s) == Some(BlockComment(|b| + 4));
    assert s[|b| + 4..] == rest;
  }

  /** The text of a line comment that `.` can cross: no line terminator. */
  predicate IsLineText(b: string) {
    forall i :: 0 <= i < |b| ==> !IsLineTerminator(b[i])
  }

  lemma {:induction false} LineEndOfText(s: string, b: string, i: nat)
    requires IsLineText(b) && |s| >= |b| + 2 && s[2..2 + |b|] == b
    requires 2 <= i <= 2 + |b|
    ensures LineEnd(s, i) == LineEnd(s, 2 + |b|)
    decreases 2 + |b| - i
  {
    if i < 2 + |b| {
      assert s[i] == b[i - 2];
      LineEndOfText(s, b, i + 1);
    }
  }

  /** A line comment ended by a line feed leaves just the line feed. */
  lemma StripLineCommentLf(quotes: set<char>, b: string, rest: string)
    requires '/' !in quotes && IsLineText(b)
    ensures Strip(quotes, "//" + b + "\n" + rest) == "\n" + Strip(quotes, rest)
  {
    var s := "//" + b + "\n" + rest;
    assert s[2..2 + |b|] == b;
    assert s[2 + |b|] == '\n';
    LineEndOfText(s, b, 2);
    assert LineEnd(s, 2) == Some(|b| + 3);
    assert s[0] == '/' && s[..2] == "//";
    assert MatchAt(quotes, s) == Some(LineComment(|b| + 3));
    assert s[|b| + 3..] == rest;
  }

  /** A line comment ended by a carriage return and a line feed leaves both. */
  lemma StripLineCommentCrLf(quotes: set<char>, b: string, rest: string)
    requires '/' !in quotes && IsLineText(b)
    ensures Strip(quotes, "//" + b + "\r\n" + rest) == "\r\n" + Strip(quotes, rest)
  {
    var s := "//" + b + "\r\n" + rest;
    assert s[2..2 + |b|] == b;
    assert s[2 + |b|] == '\r' && s[3 + |b|] == '\n';
    LineEndOfText(s, b, 2);
    assert LineEnd(s, 2) == Some(|b| + 4);
    assert s[0] == '/' && s[..2] == "//";
    assert MatchAt(quotes, s) == Some(LineComment(|b| + 4));
    assert s[|b| + 4..] == rest;
  }

  /** A line comment that runs to the end of the input is deleted. */
  lemma StripLineCommentAtEnd(quotes: set<char>, b: string)
    requires '/' !in quotes && IsLineText(b)
    ensures Strip(quotes, "//" + b) == ""
  {
    var s := "//" + b;
    assert s[2..2 + |b|] == b;
    LineEndOfText(s, b, 2);
    assert MatchAt(quotes, s) == Some(LineComment(|b| + 2));
    assert s[|b| + 2..] == [];
  }

  /** An input without a slash is returned unchanged. */
  lemma {:induction false} StripWithoutSlash(quotes: set<char>, s: string)
    requires forall i :: 0 <= i < |s| ==> s[i] != '/'
    ensures Strip(quotes, s) == s
    decreases |s|
  {
    if s != [] {
      match MatchAt(quotes, s)
      case Some(m) =>
        assert m.StringLiteral?;
        StripWithoutSlash(quotes, s[m.len..]);
        assert s[..m.len] + s[m.len..] == s;
      case None =>
        StripWithoutSlash(quotes, s[1..]);
        assert [s[0]] + s[1..] == s;
    }
  }

  // ---------------------------------------------------------------------
  // The double-quote alternative

  /**
   * As written, a `//` inside a double-quoted JSON string starts a line
   * comment: everything from it to the end of the line is lost, so
   * `{"a":"http://x"}` becomes `{"a":"http:`.
   */
  lemma StripCommentsCutsDoubleQuoted(p: string, u: string)
    requires forall i :: 0 <= i < |p| ==> p[i] != '/' && p[i] != '\''
    requires IsLineText(u)
    ensures StripComments(p + "//" + u) == p
  {
    StripPlainPrefix({'\''}, p, "//" + u);
    StripLineCommentAtEnd({'\''}, u);
    assert p + "//" + u == p + ("//" + u);
  }

  /** Corrected, double-quoted string literals are copied verbatim like single-quoted ones. */
  lemma StripCorrectedKeepsDoubleQuoted(b: string, rest: string)
    requires IsStringBody('"', b)
    ensures StripCommentsCorrected("\"" + b + "\"" + rest) == "\"" + b + "\"" + StripCommentsCorrected(rest)
  {
    StripKeepsStringLiteral({'"', '\''}, '"', b, rest);
  }

  /** A JSON string: `b` between double quotes. */
  function DoubleQuoted(b: string): string {
    "\"" + b + "\""
  }

  /** Corrected, a double-quoted literal in front of text the scanner keeps is kept too. */
  lemma StripCorrectedKeepsQuotedThen(b: string, rest: string)
    requires IsStringBody('"', b) && StripCommentsCorrected(rest) == rest
    ensures StripCommentsCorrected(DoubleQuoted(b) + rest) == DoubleQuoted(b) + rest
  {
    StripCorrectedKeepsDoubleQuoted(b, rest);
    assert "\"" + b + "\"" + rest == DoubleQuoted(b) + rest;
  }

  /** Corrected, a character that opens no match, in front of text the scanner keeps, is kept too. */
  lemma StripCorrectedKeepsCharThen(c: char, rest: string)
    requires c != '/' && c != '"' && c != '\''
    requires StripCommentsCorrected(rest) == rest
    ensures StripCommentsCorrected([c] + rest) == [c] + rest
  {
    StripPlainPrefix({'"', '\''}, [c], rest);
  }

  /**
   * Corrected, a one-member JSON object of two double-quoted strings is kept
   * whole whatever the strings hold (a URL with `//`, say), where the
   * as-written function cuts it.
   */
  lemma StripCorrectedKeepsJsonMember(k: string, v: string)
    requires IsStringBody('"', k) && IsStringBody('"', v)
    ensures var json := "{" + DoubleQuoted(k) + ":" + DoubleQuoted(v) + "}";
      StripCommentsCorrected(json) == json
  {
    var close: string := ['}'];
    StripCorrectedKeepsCharThen('}', []);
    StripCorrectedKeepsQuotedThen(v, close);
    var value := DoubleQuoted(v) + close;
    StripCorrectedKeepsCharThen(':', value);
    var member := [':'] + value;
    StripCorrectedKeepsQuotedThen(k, member);
    var pair := DoubleQuoted(k) + member;
    StripCorrectedKeepsCharThen('{', pair);
    JsonMemberRegrouped(DoubleQuoted(k), DoubleQuoted(v));
  }

  lemma JsonMemberRegrouped(qk: string, qv: string)
    ensures "{" + qk + ":" + qv + "}" == ['{'] + (qk + ([':'] + (qv + ['}'])))
  {
  }

}
