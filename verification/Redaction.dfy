/** Hiding secrets in task output: every `"key" : "value"` with a secret key, in any
    letter case, becomes `"key":"[REDACTED]"`. Texts are sequences of Unicode scalar
    values, as the pattern sees them. */
module Redaction {
  import opened Types

  // ---------- the pattern ----------

  const WORDS := ["password", "token", "psk", "private_key", "uuid"]

  /** `c` matches the lower-case letter `l` when case is ignored: two letters have a
      third form, the Kelvin sign and the long s. */
  predicate Folds(c: char, l: char) {
    || c == l
    || ('a' <= l <= 'z' && c as int == l as int - 32)
    || (l == 'k' && c == '\U{212A}')
    || (l == 's' && c == '\U{017F}')
  }

  predicate FoldsTo(key: string, word: string) {
    |key| == |word| && forall i :: 0 <= i < |key| ==> Folds(key[i], word[i])
  }

  predicate Keyword(key: string) {
    exists i :: 0 <= i < |WORDS| && FoldsTo(key, WORDS[i])
  }

  predicate Blank(c: char) {
    c == '\t' || c == '\n' || c == '\U{000C}' || c == '\r' || c == ' '
  }

  predicate Blanks(s: string) {
    forall i :: 0 <= i < |s| ==> Blank(s[i])
  }

  predicate NoQuote(s: string) {
    forall i :: 0 <= i < |s| ==> s[i] != '"'
  }

  const Q := "\""

  /** What the pattern matches, as a text. */
  function Pair(key: string, gap: string, space: string, value: string): string {
    Q + (key + Q + (gap + ":" + (space + Q + (value + Q))))
  }

  ghost predicate Matches(m: string, key: string) {
    && Keyword(key)
    && exists gap, space, value ::
         Blanks(gap) && Blanks(space) && NoQuote(value) && m == Pair(key, gap, space, value)
  }

  lemma KeywordText(key: string)
    requires Keyword(key)
    ensures key != "" && NoQuote(key) && !Blank(key[0]) && key[0] != ':'
  {
  }

  // ---------- the matcher ----------

  /** How far a match has got, after its opening quote. */
  datatype Stage = InKey(read: string) | AfterKey(key: string) | AfterColon(key: string) | InValue(key: string)

  datatype Found = Found(key: string, length: nat)

  function Longer(found: Option<Found>, n: nat): Option<Found> {
    match found
    case None => None
    case Some(f) => Some(f.(length := f.length + n))
  }

  /** Reads on from a stage; `length` counts the characters read here. */
  function Scan(q: Stage, s: string): (r: Option<Found>)
    ensures r.Some? ==> 0 < r.value.length <= |s|
    decreases |s|
  {
    if s == "" then None
    else
      match q
      case InKey(read) =>
        if s[0] != '"' then Longer(Scan(InKey(read + [s[0]]), s[1..]), 1)
        else if Keyword(read) then Longer(Scan(AfterKey(read), s[1..]), 1)
        else None
      case AfterKey(key) =>
        if Blank(s[0]) then Longer(Scan(q, s[1..]), 1)
        else if s[0] == ':' then Longer(Scan(AfterColon(key), s[1..]), 1)
        else None
      case AfterColon(key) =>
        if Blank(s[0]) then Longer(Scan(q, s[1..]), 1)
        else if s[0] == '"' then Longer(Scan(InValue(key), s[1..]), 1)
        else None
      case InValue(key) =>
        if s[0] == '"' then Some(Found(key, 1))
        else Longer(Scan(q, s[1..]), 1)
  }

  /** The match at the very start of `s`, if there is one. */
  function Match(s: string): (r: Option<Found>)
    ensures r.Some? ==> 0 < r.value.length <= |s|
  {
    if s == "" || s[0] != '"' then None else Longer(Scan(InKey(""), s[1..]), 1)
  }

  // ---------- the matcher decides the pattern ----------

  lemma {:induction false} ScanValue(key: string, value: string, rest: string)
    requires NoQuote(value)
    ensures Scan(InValue(key), value + Q + rest) == Some(Found(key, |value| + 1))
  {
    if value == "" {
      assert value + Q + rest == Q + rest;
    } else {
      ScanValue(key, value[1..], rest);
      assert (value + Q + rest)[1..] == value[1..] + Q + rest;
    }
  }

  lemma {:induction false} ScanSpace(key: string, space: string, rest: string)
    requires Blanks(space)
    ensures Scan(AfterColon(key), space + Q + rest) == Longer(Scan(InValue(key), rest), |space| + 1)
  {
    if space == "" {
      assert (space + Q + rest)[1..] == rest;
    } else {
      ScanSpace(key, space[1..], rest);
      assert (space + Q + rest)[1..] == space[1..] + Q + rest;
    }
  }

  lemma {:induction false} ScanGap(key: string, gap: string, rest: string)
    requires Blanks(gap)
    ensures Scan(AfterKey(key), gap + ":" + rest) == Longer(Scan(AfterColon(key), rest), |gap| + 1)
  {
    if gap == "" {
      assert (gap + ":" + rest)[1..] == rest;
    } else {
      ScanGap(key, gap[1..], rest);
      assert (gap + ":" + rest)[1..] == gap[1..] + ":" + rest;
    }
  }

  lemma {:induction false} ScanKey(read: string, key: string, rest: string)
    requires NoQuote(key) && Keyword(read + key)
    ensures Scan(InKey(read), key + Q + rest) == Longer(Scan(AfterKey(read + key), rest), |key| + 1)
    decreases |key|
  {
    hide Keyword;
    if key == "" {
      assert read + key == read;
      assert (key + Q + rest)[1..] == rest;
    } else {
      assert read + key == (read + [key[0]]) + key[1..];
      ScanKey(read + [key[0]], key[1..], rest);
      assert (key + Q + rest)[1..] == key[1..] + Q + rest;
    }
  }

  /** A text that starts with a pair matches there, with that key and length. */
  lemma PairMatches(key: string, gap: string, space: string, value: string, rest: string)
    requires Keyword(key) && Blanks(gap) && Blanks(space) && NoQuote(value)
    ensures Match(Pair(key, gap, space, value) + rest) == Some(Found(key, |Pair(key, gap, space, value)|))
  {
    hide Keyword, Scan, Blanks, NoQuote;
    ScanValue(key, value, rest);
    SpaceMatches(key, space, value + Q, rest);
    GapMatches(key, gap, space + Q + (value + Q), rest);
    KeyMatches(key, gap + ":" + (space + Q + (value + Q)), rest);
  }

  lemma SpaceMatches(key: string, space: string, m: string, rest: string)
    requires Blanks(space) && Scan(InValue(key), m + rest) == Some(Found(key, |m|))
    ensures Scan(AfterColon(key), (space + Q + m) + rest) == Some(Found(key, |space + Q + m|))
  {
    hide Scan;
    ScanSpace(key, space, m + rest);
    Regroup(space, Q, m, rest);
  }

  lemma GapMatches(key: string, gap: string, m: string, rest: string)
    requires Blanks(gap) && Scan(AfterColon(key), m + rest) == Some(Found(key, |m|))
    ensures Scan(AfterKey(key), (gap + ":" + m) + rest) == Some(Found(key, |gap + ":" + m|))
  {
    hide Scan;
    ScanGap(key, gap, m + rest);
    Regroup(gap, ":", m, rest);
  }

  lemma KeyMatches(key: string, m: string, rest: string)
    requires Keyword(key) && Scan(AfterKey(key), m + rest) == Some(Found(key, |m|))
    ensures var head := key + Q + m; Match((Q + head) + rest) == Some(Found(key, |Q + head|))
  {
    hide Scan, Keyword;
    HeadScanned(key, m, rest);
    Quoted(key + Q + m, rest);
  }

  lemma HeadScanned(key: string, m: string, rest: string)
    requires Keyword(key) && Scan(AfterKey(key), m + rest) == Some(Found(key, |m|))
    ensures Scan(InKey(""), (key + Q + m) + rest) == Some(Found(key, |key + Q + m|))
  {
    KeywordText(key);
    EmptyPrefix(key);
    hide Scan, Keyword, NoQuote;
    ScanKey("", key, m + rest);
    Regroup(key, Q, m, rest);
  }

  lemma EmptyPrefix(s: string)
    ensures "" + s == s
  {
  }

  lemma Quoted(head: string, rest: string)
    ensures var s := (Q + head) + rest; s != "" && s[0] == '"' && s[1..] == head + rest
  {
  }

  lemma Regroup(a: string, b: string, c: string, d: string)
    ensures (a + b + c) + d == a + b + (c + d)
  {
  }

  lemma {:induction false} ValueScanned(key: string, s: string) returns (value: string)
    requires Scan(InValue(key), s).Some?
    ensures var f := Scan(InValue(key), s).value; f.key == key && NoQuote(value) && s[..f.length] == value + Q
    decreases |s|
  {
    if s[0] == '"' {
      value := "";
    } else {
      var v := ValueScanned(key, s[1..]);
      value := [s[0]] + v;
    }
  }

  lemma {:induction false} SpaceScanned(key: string, s: string) returns (space: string, value: string)
    requires Scan(AfterColon(key), s).Some?
    ensures var f := Scan(AfterColon(key), s).value;
            f.key == key && Blanks(space) && NoQuote(value) && s[..f.length] == space + Q + (value + Q)
    decreases |s|
  {
    if s[0] == '"' {
      value := ValueScanned(key, s[1..]);
      space := "";
    } else {
      var sp;
      sp, value := SpaceScanned(key, s[1..]);
      space := [s[0]] + sp;
    }
  }

  lemma {:induction false} GapScanned(key: string, s: string) returns (gap: string, space: string, value: string)
    requires Scan(AfterKey(key), s).Some?
    ensures var f := Scan(AfterKey(key), s).value;
            && f.key == key && Blanks(gap) && Blanks(space) && NoQuote(value)
            && s[..f.length] == gap + ":" + (space + Q + (value + Q))
    decreases |s|
  {
    if s[0] == ':' {
      space, value := SpaceScanned(key, s[1..]);
      gap := "";
    } else {
      var g;
      g, space, value := GapScanned(key, s[1..]);
      gap := [s[0]] + g;
    }
  }

  lemma {:induction false} KeyScanned(read: string, s: string)
    returns (key: string, gap: string, space: string, value: string)
    requires Scan(InKey(read), s).Some?
    ensures var f := Scan(InKey(read), s).value;
            && Keyword(f.key) && f.key == read + key && Blanks(gap) && Blanks(space) && NoQuote(value)
            && s[..f.length] == key + Q + (gap + ":" + (space + Q + (value + Q)))
    decreases |s|
  {
    hide Keyword;
    if s[0] == '"' {
      gap, space, value := GapScanned(read, s[1..]);
      key := "";
    } else {
      var k;
      k, gap, space, value := KeyScanned(read + [s[0]], s[1..]);
      key := [s[0]] + k;
    }
  }

  /** The matcher finds a match of `n` characters with `key` exactly when the pattern
      matches those characters; so at most one length and key match at a place. */
  lemma MatcherDecidesPattern(s: string, key: string, n: nat)
    requires n <= |s|
    ensures Match(s) == Some(Found(key, n)) <==> Matches(s[..n], key)
  {
    hide Keyword, Scan;
    if Match(s) == Some(Found(key, n)) {
      var k, gap, space, value := KeyScanned("", s[1..]);
      assert s[..n] == Q + s[1..][..n - 1];
      assert s[..n] == Pair(key, gap, space, value);
    }
    if Matches(s[..n], key) {
      var gap, space, value :| Blanks(gap) && Blanks(space) && NoQuote(value) && s[..n] == Pair(key, gap, space, value);
      PairMatches(key, gap, space, value, s[n..]);
      assert s == s[..n] + s[n..];
    }
  }

  // ---------- redaction ----------

  const REDACTED := "[REDACTED]"

  function Replacement(key: string): string {
    Pair(key, "", "", REDACTED)
  }

  /** Leftmost matches, from left to right, without overlap. */
  function Redact(s: string): string
    decreases |s|
  {
    if s == "" then ""
    else
      match Match(s)
      case Some(f) => Replacement(f.key) + Redact(s[f.length..])
      case None => [s[0]] + Redact(s[1..])
  }

  /** A text as the scan divides it: single characters and matches. */
  datatype Piece = Plain(c: char) | Hit(key: string, text: string)

  function Pieces(s: string): seq<Piece>
    decreases |s|
  {
    if s == "" then []
    else
      match Match(s)
      case Some(f) => [Hit(f.key, s[..f.length])] + Pieces(s[f.length..])
      case None => [Plain(s[0])] + Pieces(s[1..])
  }

  function Original(p: Piece): string {
    match p case Plain(c) => [c] case Hit(_, text) => text
  }

  function Hidden(p: Piece): Piece {
    match p case Plain(c) => p case Hit(key, _) => Hit(key, Replacement(key))
  }

  function Joined(ps: seq<Piece>): string {
    if ps == [] then "" else Original(ps[0]) + Joined(ps[1..])
  }

  function AllHidden(ps: seq<Piece>): seq<Piece> {
    if ps == [] then [] else [Hidden(ps[0])] + AllHidden(ps[1..])
  }

  lemma ReplacementMatches(key: string, rest: string)
    requires Keyword(key)
    ensures Match(Replacement(key) + rest) == Some(Found(key, |Replacement(key)|))
  {
    PairMatches(key, "", "", REDACTED, rest);
  }

  lemma FoundKeyword(s: string)
    requires Match(s).Some?
    ensures Keyword(Match(s).value.key)
  {
    var k, gap, space, value := KeyScanned("", s[1..]);
    hide Keyword, Scan;
  }

  /** The pieces make up the text, nothing lost or repeated, and the result is the
      same pieces with the matches replaced. */
  lemma {:induction false} OnlyMatchesChange(s: string)
    ensures Joined(Pieces(s)) == s
    ensures Joined(AllHidden(Pieces(s))) == Redact(s)
    decreases |s|
  {
    hide Match, Replacement;
    if s != "" {
      var n := if Match(s).Some? then Match(s).value.length else 1;
      OnlyMatchesChange(s[n..]);
      FirstPiece(s);
      hide Pieces, Redact;
    }
  }

  /** The piece at the front of a text. */
  lemma FirstPiece(s: string)
    requires s != ""
    ensures var n := if Match(s).Some? then Match(s).value.length else 1;
            var p := if Match(s).Some? then Hit(Match(s).value.key, s[..n]) else Plain(s[0]);
            && Pieces(s) == [p] + Pieces(s[n..])
            && Redact(s) == Original(Hidden(p)) + Redact(s[n..])
            && Original(p) + s[n..] == s
  {
    hide Match, Replacement;
    var n := if Match(s).Some? then Match(s).value.length else 1;
    Halves(s, n);
  }

  lemma Halves(s: string, n: nat)
    requires 0 < n <= |s|
    ensures s[..n] + s[n..] == s && s[..1] == [s[0]]
  {
  }

  /** Every piece that is replaced is a match, with its key. */
  lemma {:induction false} PiecesAreMatches(s: string)
    ensures forall p <- Pieces(s) :: p.Hit? ==> Matches(p.text, p.key)
    decreases |s|
  {
    hide Match, Matches;
    if s != "" {
      if Match(s).Some? {
        var f := Match(s).value;
        MatcherDecidesPattern(s, f.key, f.length);
        PiecesAreMatches(s[f.length..]);
      } else {
        PiecesAreMatches(s[1..]);
      }
    }
  }

  // ---------- which texts are secrets ----------

  /** A letter in lower case, also from its third form. */
  function LowerLetter(c: char): char {
    if 'A' <= c <= 'Z' then c + ' '
    else if c == '\U{212A}' then 'k'
    else if c == '\U{017F}' then 's'
    else c
  }

  function LowerCase(s: string): string {
    seq(|s|, i requires 0 <= i < |s| => LowerLetter(s[i]))
  }

  lemma FoldsIsLowerCase(c: char, l: char)
    requires 'a' <= l <= 'z' || l == '_'
    ensures Folds(c, l) <==> LowerLetter(c) == l
  {
  }

  lemma WordFolds(key: string, word: string)
    requires forall i :: 0 <= i < |word| ==> 'a' <= word[i] <= 'z' || word[i] == '_'
    ensures FoldsTo(key, word) <==> LowerCase(key) == word
  {
    hide Folds, LowerLetter;
    if |key| == |word| {
      forall i | 0 <= i < |key|
        ensures Folds(key[i], word[i]) <==> LowerCase(key)[i] == word[i]
      {
        FoldsIsLowerCase(key[i], word[i]);
      }
    }
  }

  /** The keys are the five words in any letter case. */
  lemma KeywordsAre(key: string)
    ensures Keyword(key) <==> LowerCase(key) in {"password", "token", "psk", "private_key", "uuid"}
  {
    WordFolds(key, "password");
    WordFolds(key, "token");
    WordFolds(key, "psk");
    WordFolds(key, "private_key");
    WordFolds(key, "uuid");
    hide FoldsTo, LowerCase;
    assert Keyword(key) <==> FoldsTo(key, WORDS[0]) || FoldsTo(key, WORDS[1]) || FoldsTo(key, WORDS[2])
                             || FoldsTo(key, WORDS[3]) || FoldsTo(key, WORDS[4]);
  }

  /** Wherever it stands at the front of what is left to scan, a secret is hidden, and the
      scan goes on behind it. */
  lemma SecretsAreHidden(key: string, gap: string, space: string, value: string, rest: string)
    requires LowerCase(key) in {"password", "token", "psk", "private_key", "uuid"}
    requires forall i :: 0 <= i < |gap + space| ==> (gap + space)[i] in "\t\n\U{000C}\r "
    requires forall i :: 0 <= i < |value| ==> value[i] != '"'
    ensures Redact("\"" + key + "\"" + gap + ":" + space + "\"" + value + "\"" + rest) ==
            "\"" + key + "\":\"[REDACTED]\"" + Redact(rest)
  {
    KeywordsAre(key);
    BlanksAre(gap, space);
    hide Match, Keyword, LowerCase, Redact, Pair;
    PairMatches(key, gap, space, value, rest);
    FrontIsHidden(Pair(key, gap, space, value), key, rest);
    PairWritten(key, gap, space, value, rest);
    ReplacementWritten(key, Redact(rest));
  }

  lemma FrontIsHidden(front: string, key: string, rest: string)
    requires Match(front + rest) == Some(Found(key, |front|))
    ensures Redact(front + rest) == Replacement(key) + Redact(rest)
  {
    hide Match, Replacement;
    assert (front + rest)[|front|..] == rest;
  }

  lemma ReplacementWritten(key: string, rest: string)
    ensures Replacement(key) + rest == "\"" + key + "\":\"[REDACTED]\"" + rest
  {
  }

  lemma BlanksAre(gap: string, space: string)
    requires forall i :: 0 <= i < |gap + space| ==> (gap + space)[i] in "\t\n\U{000C}\r "
    ensures Blanks(gap) && Blanks(space)
  {
    assert forall i :: 0 <= i < |gap| ==> (gap + space)[i] == gap[i];
    assert forall i :: 0 <= i < |space| ==> (gap + space)[|gap| + i] == space[i];
  }

  lemma PairWritten(key: string, gap: string, space: string, value: string, rest: string)
    ensures Pair(key, gap, space, value) + rest == "\"" + key + "\"" + gap + ":" + space + "\"" + value + "\"" + rest
  {
  }

  /** And nothing else is hidden. */
  lemma {:induction false} HitsAreSecrets(s: string)
    ensures forall p <- Pieces(s) :: p.Hit? ==> LowerCase(p.key) in {"password", "token", "psk", "private_key", "uuid"}
    decreases |s|
  {
    hide Match, LowerCase;
    if s != "" {
      if Match(s).Some? {
        FoundKeyword(s);
        KeywordsAre(Match(s).value.key);
        HitsAreSecrets(s[Match(s).value.length..]);
      } else {
        HitsAreSecrets(s[1..]);
      }
    }
  }

  // ---------- a second pass ----------

  /** What is true of the characters after a stage: redacting them opens no match
      that was not there. */
  lemma {:induction false} RedactingOpensNoMatch(q: Stage, s: string)
    requires Scan(q, s).None?
    ensures Scan(q, Redact(s)).None?
    decreases |s|
  {
    hide Keyword;
    if s != "" {
      if Match(s).Some? {
        MatchAfterStage(q, s);
      } else {
        var t := [s[0]] + Redact(s[1..]);
        assert Redact(s) == t && t[1..] == Redact(s[1..]);
        if Scan(Next(q, s[0]), s[1..]).None? {
          RedactingOpensNoMatch(Next(q, s[0]), s[1..]);
        }
      }
    }
  }

  /** The stage after one more character, while the match is still possible. */
  function Next(q: Stage, c: char): Stage {
    match q
    case InKey(read) => if c != '"' then InKey(read + [c]) else AfterKey(read)
    case AfterKey(key) => if c == ':' then AfterColon(key) else q
    case AfterColon(key) => if c == '"' then InValue(key) else q
    case InValue(_) => q
  }

  /** A match that starts where another is under way decides that one at its opening
      quote or right behind it, before its key ends. */
  lemma MatchAfterStage(q: Stage, s: string)
    requires Match(s).Some? && Scan(q, s).None?
    ensures Scan(q, Redact(s)).None?
  {
    var f := Match(s).value;
    FoundKeyword(s);
    KeywordText(f.key);
    var k, gap, space, value := KeyScanned("", s[1..]);
    hide Keyword;
    assert k == f.key;
    assert s[1] == f.key[0];
    var t := Redact(s);
    assert t[0] == '"' && t[1] == f.key[0];
    if q.InKey? {
      assert Scan(AfterKey(q.read), t[1..]).None?;
    } else if q.AfterColon? {
      assert s[1..][..f.length - 1] == k + Q + (gap + ":" + (space + Q + (value + Q)));
      var rest := (gap + ":" + (space + Q + (value + Q))) + s[f.length..];
      Regroup(k, Q, gap + ":" + (space + Q + (value + Q)), s[f.length..]);
      assert s[1..] == s[1..][..f.length - 1] + s[1..][f.length - 1..];
      assert s[1..] == k + Q + rest;
      ScanValue(q.key, k, rest);
      assert false;
    }
  }

  /** Redacting twice is redacting once, and a rescan of the result finds the same
      keys in the same order, every one with the value hidden. */
  lemma {:induction false} RescanFindsHidden(s: string)
    ensures Redact(Redact(s)) == Redact(s)
    ensures Pieces(Redact(s)) == AllHidden(Pieces(s))
    decreases |s|
  {
    hide Scan, Keyword, Replacement;
    if s != "" {
      if Match(s).Some? {
        var f := Match(s).value;
        RescanFindsHidden(s[f.length..]);
        FoundKeyword(s);
        HiddenHead(f.key, Redact(s[f.length..]));
      } else {
        RescanFindsHidden(s[1..]);
        PlainHead(s);
      }
    }
  }

  lemma HiddenHead(key: string, rest: string)
    requires Keyword(key)
    ensures Redact(Replacement(key) + rest) == Replacement(key) + Redact(rest)
    ensures Pieces(Replacement(key) + rest) == [Hit(key, Replacement(key))] + Pieces(rest)
  {
    ReplacementMatches(key, rest);
    var s := Replacement(key) + rest;
    assert s[|Replacement(key)|..] == rest && s[..|Replacement(key)|] == Replacement(key);
    hide Match, Keyword;
  }

  lemma PlainHead(s: string)
    requires s != "" && Match(s).None?
    ensures Match([s[0]] + Redact(s[1..])).None?
    ensures ([s[0]] + Redact(s[1..]))[1..] == Redact(s[1..])
  {
    var t := [s[0]] + Redact(s[1..]);
    assert t[1..] == Redact(s[1..]);
    if s[0] == '"' {
      RedactingOpensNoMatch(InKey(""), s[1..]);
    }
    hide Scan;
  }

  // ---------- the texts of a task record ----------

  function Width(c: char): nat {
    if c < '\U{0080}' then 1 else if c < '\U{0800}' then 2 else if c <= '\U{FFFF}' then 3 else 4
  }

  /** The length in UTF-8. */
  function ByteLength(s: string): nat {
    if s == "" then 0 else Width(s[0]) + ByteLength(s[1..])
  }

  lemma {:induction false} ShortText(s: string)
    ensures ByteLength(s) <= 4 * |s|
  {
    if s != "" {
      ShortText(s[1..]);
    }
  }

  const OUTPUT_LIMIT := 32768
  const PROBLEM_LIMIT := 8192

  /** `cut` stands for taking the first bytes of a text, which can divide a character. */
  function Truncate(s: string, max: nat, cut: (string, nat) -> string): string {
    if ByteLength(s) <= max then s else cut(s, max) + "\n[truncated]"
  }

  function StoredText(s: string, max: nat, cut: (string, nat) -> string): string {
    Truncate(Redact(s), max, cut)
  }

  lemma {:induction false} PlainTextStays(s: string)
    requires NoQuote(s)
    ensures Redact(s) == s
  {
    if s != "" {
      PlainTextStays(s[1..]);
    }
  }

  /** Short texts without quotes are stored as they are. */
  lemma PlainTextIsStored(s: string, max: nat, cut: (string, nat) -> string)
    requires NoQuote(s) && 4 * |s| <= max
    ensures StoredText(s, max, cut) == s
  {
    PlainTextStays(s);
    ShortText(s);
  }

  /** Only the empty text is stored as empty. */
  lemma EmptyIsEmpty(s: string, max: nat, cut: (string, nat) -> string)
    ensures StoredText(s, max, cut) == "" <==> s == ""
  {
  }

  /** What a command left behind. */
  datatype Outcome = Outcome(failure: Option<string>, stdout: string, stderr: string)

  function ErrorText(o: Outcome): string {
    match o.failure
    case Some(problem) => o.stderr + "\n" + problem
    case None => o.stderr
  }

  /** `executeLocal` redacts most of what it hands to `finishTask`, which redacts
      again; what is stored is what one pass over the command's own texts gives. */
  lemma StoredTextIsOnePass(o: Outcome, cut: (string, nat) -> string)
    ensures StoredText(Redact(o.stdout), OUTPUT_LIMIT, cut) == StoredText(o.stdout, OUTPUT_LIMIT, cut)
    ensures StoredText(Redact(ErrorText(o)), PROBLEM_LIMIT, cut) == StoredText(ErrorText(o), PROBLEM_LIMIT, cut)
  {
    RescanFindsHidden(o.stdout);
    RescanFindsHidden(ErrorText(o));
    hide Redact;
  }
}
