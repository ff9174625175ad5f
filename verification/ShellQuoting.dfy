/** The join command that the controller offers for copying into a shell, and what a
    POSIX shell makes of it. The lexer follows "Quoting" and "Token Recognition",
    sections 2.2 and 2.3 of the POSIX.1-2017 Shell Command Language; it gives up on
    what would be expanded rather than taken literally. */
module ShellQuoting {
  import opened Types

  datatype Token = Word(text: string) | Op(c: char)

  // ---------- the shell ----------

  predicate BlankChar(c: char) { c == ' ' || c == '\t' }

  predicate Operator(c: char) { c in "|&;<>()\n" }

  /** Unquoted, these start an expansion, or cannot occur at all. `~` and `#` do so
      only where a word begins. */
  predicate Expands(c: char, wordBegins: bool) {
    c in "$`*?[\0" || (wordBegins && (c == '~' || c == '#'))
  }

  predicate Ordinary(c: char) {
    !BlankChar(c) && !Operator(c) && c !in "'\"\\" && !Expands(c, true)
  }

  function TextSoFar(word: Option<string>): string {
    if word.Some? then word.value else ""
  }

  function Ended(word: Option<string>): seq<Token> {
    if word.Some? then [Word(word.value)] else []
  }

  function Before(first: seq<Token>, rest: Option<seq<Token>>): Option<seq<Token>> {
    match rest
    case None => None
    case Some(ts) => Some(first + ts)
  }

  /** Outside quotes; `word` is the word under way. */
  function Lex(s: string, word: Option<string>): Option<seq<Token>>
    decreases |s|
  {
    if s == "" then Some(Ended(word))
    else if BlankChar(s[0]) then Before(Ended(word), Lex(s[1..], None))
    else if Operator(s[0]) then Before(Ended(word) + [Op(s[0])], Lex(s[1..], None))
    else if s[0] == '\'' then InSingle(s[1..], TextSoFar(word))
    else if s[0] == '"' then InDouble(s[1..], TextSoFar(word))
    else if s[0] == '\\' then
      if |s| == 1 || s[1] == '\0' then None
      else if s[1] == '\n' then Lex(s[2..], word)
      else Lex(s[2..], Some(TextSoFar(word) + [s[1]]))
    else if Expands(s[0], word.None?) then None
    else Lex(s[1..], Some(TextSoFar(word) + [s[0]]))
  }

  /** Between single quotes every character stands for itself. */
  function InSingle(s: string, word: string): Option<seq<Token>>
    decreases |s|
  {
    if s == "" || s[0] == '\0' then None
    else if s[0] == '\'' then Lex(s[1..], Some(word))
    else InSingle(s[1..], word + [s[0]])
  }

  /** Between double quotes a backslash is special only before $ ` " \ newline. */
  function InDouble(s: string, word: string): Option<seq<Token>>
    decreases |s|
  {
    if s == "" || s[0] in "$`\0" then None
    else if s[0] == '"' then Lex(s[1..], Some(word))
    else if s[0] == '\\' && |s| > 1 && s[1] in "$`\"\\" then InDouble(s[2..], word + [s[1]])
    else if s[0] == '\\' && |s| > 1 && s[1] == '\n' then InDouble(s[2..], word)
    else InDouble(s[1..], word + [s[0]])
  }

  function Tokens(s: string): Option<seq<Token>> {
    Lex(s, None)
  }

  // ---------- quoting ----------

  /** Every single quote becomes '"'"' and nothing else changes. */
  function Escaped(value: string): string {
    if value == "" then ""
    else (if value[0] == '\'' then "'\"'\"'" else [value[0]]) + Escaped(value[1..])
  }

  function ShellQuote(value: string): string {
    "'" + Escaped(value) + "'"
  }

  predicate NulFree(value: string) {
    forall i :: 0 <= i < |value| ==> value[i] != '\0'
  }

  lemma {:induction false} EscapedReads(value: string, rest: string, word: string)
    ensures InSingle(Escaped(value) + "'" + rest, word) ==
            if NulFree(value) then Lex(rest, Some(word + value)) else None
    decreases |value|
  {
    var s := Escaped(value) + "'" + rest;
    if value == "" {
      assert s[1..] == rest;
      assert word + value == word;
    } else {
      var tail := Escaped(value[1..]) + "'" + rest;
      EscapedReads(value[1..], rest, word + [value[0]]);
      assert value == [value[0]] + value[1..];
      assert word + value == (word + [value[0]]) + value[1..];
      if value[0] == '\'' {
        assert s == "'\"'\"'" + tail;
        QuoteReads(tail, word);
      } else {
        assert s == [value[0]] + tail;
        assert s[1..] == tail;
      }
    }
  }

  /** The five characters that stand for a quote: close, quote it, open again. */
  lemma QuoteReads(tail: string, word: string)
    ensures InSingle("'\"'\"'" + tail, word) == InSingle(tail, word + "'")
  {
    var s := "'\"'\"'" + tail;
    assert s[1..][0] == '"' && s[1..][1..] == "'\"'" + tail;
    var t := "'\"'" + tail;
    assert t[1..] == "\"'" + tail;
    var u := "\"'" + tail;
    assert u[1..] == "'" + tail;
    assert ("'" + tail)[1..] == tail;
    assert Lex(s[1..], Some(word)) == InDouble(t, word);
    assert InDouble(t, word) == InDouble(u, word + ['\'']);
    assert InDouble(u, word + ['\'']) == Lex("'" + tail, Some(word + ['\'']));
  }

  /** Whatever is around it, quoted text adds exactly itself to the word under way;
      text with a NUL makes the line unreadable. */
  lemma QuotedReads(value: string, rest: string, word: Option<string>)
    ensures Lex(ShellQuote(value) + rest, word) ==
            if NulFree(value) then Lex(rest, Some(TextSoFar(word) + value)) else None
  {
    var s := ShellQuote(value) + rest;
    assert s[1..] == Escaped(value) + "'" + rest;
    EscapedReads(value, rest, TextSoFar(word));
  }

  /** A shell reads the quoted text as one word, the text itself: exactly when the
      text has no NUL, which no shell word can hold. */
  lemma QuotingRoundTrip(value: string)
    ensures Tokens(ShellQuote(value)) == Some([Word(value)]) <==> NulFree(value)
  {
    QuotedReads(value, "", None);
    assert ShellQuote(value) + "" == ShellQuote(value);
    assert "" + value == value;
  }

  // ---------- the join command ----------

  const REPOSITORY := "R1ddle1337/sb-manager-web"
  const INSTALL_URL := "https://github.com/" + REPOSITORY + "/raw/main/install.sh"

  const RUN_INSTALLER := " | sudo bash -s -- --agent "

  function JoinCommand(baseURL: string, token: string): string {
    "curl -fsSL " + ShellQuote(INSTALL_URL) + RUN_INSTALLER + ShellQuote(baseURL) + " " + ShellQuote(token)
  }

  lemma {:induction false} OrdinaryReads(text: string, rest: string, word: Option<string>)
    requires text != "" && forall i :: 0 <= i < |text| ==> Ordinary(text[i])
    ensures Lex(text + rest, word) == Lex(rest, Some(TextSoFar(word) + text))
    decreases |text|
  {
    var s := text + rest;
    assert s[1..] == text[1..] + rest;
    if |text| > 1 {
      OrdinaryReads(text[1..], rest, Some(TextSoFar(word) + [text[0]]));
      assert TextSoFar(word) + text == TextSoFar(word) + [text[0]] + text[1..];
    } else {
      assert text[1..] + rest == rest;
      assert TextSoFar(word) + text == TextSoFar(word) + [text[0]];
    }
  }

  /** An ordinary word and the blank behind it. */
  lemma WordReads(text: string, rest: string)
    requires text != "" && forall i :: 0 <= i < |text| ==> Ordinary(text[i])
    ensures Lex(text + (" " + rest), None) == Before([Word(text)], Lex(rest, None))
  {
    OrdinaryReads(text, " " + rest, None);
    assert (" " + rest)[1..] == rest;
    assert "" + text == text;
  }

  /** A quoted word and the blank behind it. */
  lemma QuotedWordReads(value: string, rest: string)
    ensures Lex(ShellQuote(value) + (" " + rest), None) ==
            if NulFree(value) then Before([Word(value)], Lex(rest, None)) else None
  {
    QuotedReads(value, " " + rest, None);
    assert (" " + rest)[1..] == rest;
    assert "" + value == value;
  }

  lemma BeforeTwice(a: seq<Token>, b: seq<Token>, rest: Option<seq<Token>>)
    ensures Before(a, Before(b, rest)) == Before(a + b, rest)
  {
    if rest.Some? {
      assert a + (b + rest.value) == a + b + rest.value;
    }
  }

  /** Ordinary words, each with a blank behind it. */
  function Spaced(words: seq<string>): string {
    if words == [] then "" else words[0] + " " + Spaced(words[1..])
  }

  function Words(words: seq<string>): seq<Token> {
    if words == [] then [] else [Word(words[0])] + Words(words[1..])
  }

  predicate Plain(word: string) {
    word != "" && forall i :: 0 <= i < |word| ==> Ordinary(word[i])
  }

  lemma {:induction false} SpacedReads(words: seq<string>, rest: string)
    requires forall w <- words :: Plain(w)
    ensures Lex(Spaced(words) + rest, None) == Before(Words(words), Lex(rest, None))
  {
    hide Lex;
    if words == [] {
      assert "" + rest == rest;
      if Lex(rest, None).Some? {
        assert [] + Lex(rest, None).value == Lex(rest, None).value;
      }
    } else {
      var tail := Spaced(words[1..]);
      assert words[0] in words && forall w <- words[1..] :: w in words;
      SpacedReads(words[1..], rest);
      WordReads(words[0], tail + rest);
      assert Spaced(words) + rest == words[0] + (" " + (tail + rest));
      BeforeTwice([Word(words[0])], Words(words[1..]), Lex(rest, None));
    }
  }

  const FETCH := ["curl", "-fsSL"]
  const INSTALL := ["sudo", "bash", "-s", "--", "--agent"]

  lemma PlainWords()
    ensures forall w <- FETCH + INSTALL :: Plain(w)
  {
  }

  lemma SpacedStep(word: string, words: seq<string>)
    ensures Spaced([word] + words) == word + " " + Spaced(words)
  {
  }

  lemma FetchText()
    ensures "curl -fsSL " == Spaced(FETCH)
  {
  }

  lemma AgentText()
    ensures "-s -- --agent " == Spaced(["-s", "--", "--agent"])
  {
  }

  lemma SudoText()
    ensures RUN_INSTALLER == " | " + ("sudo" + " " + ("bash" + " " + "-s -- --agent "))
  {
  }

  lemma InstallText()
    ensures RUN_INSTALLER == " | " + Spaced(INSTALL)
  {
    AgentText();
    SudoText();
    SpacedStep("bash", ["-s", "--", "--agent"]);
    SpacedStep("sudo", ["bash", "-s", "--", "--agent"]);
    hide Spaced, RUN_INSTALLER;
    assert ["bash"] + ["-s", "--", "--agent"] == ["bash", "-s", "--", "--agent"];
    assert ["sudo"] + ["bash", "-s", "--", "--agent"] == INSTALL;
  }

  lemma Regroup(a: string, b: string, c: string, d: string, e: string, f: string)
    ensures a + b + c + d + e + f == a + (b + (c + (d + (e + f))))
  {
  }

  /** A quoted word, then a pipe. */
  lemma PipeReads(value: string, rest: string)
    requires NulFree(value)
    ensures Lex(ShellQuote(value) + (" | " + rest), None) == Before([Word(value), Op('|')], Lex(rest, None))
  {
    QuotedReads(value, " | " + rest, None);
    assert "" + value == value;
    BarReads(value, rest);
    hide Lex, ShellQuote, NulFree;
  }

  lemma BarReads(word: string, rest: string)
    ensures Lex(" | " + rest, Some(word)) == Before([Word(word), Op('|')], Lex(rest, None))
  {
    var s := " | " + rest;
    var t := "| " + rest;
    assert s[1..] == t && t[1..] == " " + rest && (" " + rest)[1..] == rest;
    assert Lex(s, Some(word)) == Before([Word(word)], Lex(t, None));
    assert Ended(None) + [Op('|')] == [Op('|')];
    assert Lex(t, None) == Before([Op('|')], Lex(" " + rest, None));
    assert Lex(" " + rest, None) == Before([], Lex(rest, None));
    hide Lex;
    assert [Op('|')] + [] == [Op('|')] && [Word(word)] + [Op('|')] == [Word(word), Op('|')];
    BeforeTwice([Op('|')], [], Lex(rest, None));
    BeforeTwice([Word(word)], [Op('|')], Lex(rest, None));
  }

  lemma ArgumentsRead(baseURL: string, token: string)
    ensures Lex(ShellQuote(baseURL) + (" " + ShellQuote(token)), None) ==
            if NulFree(baseURL) && NulFree(token) then Some([Word(baseURL), Word(token)]) else None
  {
    QuotedWordReads(baseURL, ShellQuote(token));
    QuotedReads(token, "", None);
    assert ShellQuote(token) + "" == ShellQuote(token) && "" + token == token;
    assert Lex("", Some(token)) == Some([Word(token)]);
    assert [Word(baseURL)] + [Word(token)] == [Word(baseURL), Word(token)];
    hide Lex, ShellQuote;
  }

  lemma InstallURLIsPlain()
    ensures NulFree(INSTALL_URL)
  {
  }

  /** Whatever host name the request carried, the command downloads the installer
      and passes it the base URL and the token as its last two words. */
  lemma JoinCommandReads(baseURL: string, token: string)
    ensures Tokens(JoinCommand(baseURL, token)) ==
            if NulFree(baseURL) && NulFree(token)
            then Some(Words(FETCH) + [Word(INSTALL_URL), Op('|')] + Words(INSTALL) + [Word(baseURL), Word(token)])
            else None
  {
    hide Lex, ShellQuote, Plain, Spaced, Words, INSTALL_URL;
    var base, last := ShellQuote(baseURL), ShellQuote(token);
    var args := base + (" " + last);
    var install := Spaced(INSTALL) + args;
    InstallURLIsPlain();
    PlainWords();
    FetchText();
    InstallText();
    Regroup("curl -fsSL ", ShellQuote(INSTALL_URL), RUN_INSTALLER, base, " ", last);
    assert RUN_INSTALLER + args == " | " + install;
    ArgumentsRead(baseURL, token);
    SpacedReads(INSTALL, args);
    PipeReads(INSTALL_URL, install);
    SpacedReads(FETCH, ShellQuote(INSTALL_URL) + (" | " + install));
    BeforeTwice([Word(INSTALL_URL), Op('|')], Words(INSTALL), Lex(args, None));
    BeforeTwice(Words(FETCH), [Word(INSTALL_URL), Op('|')] + Words(INSTALL), Lex(args, None));
    assert Words(FETCH) + ([Word(INSTALL_URL), Op('|')] + Words(INSTALL)) ==
           Words(FETCH) + [Word(INSTALL_URL), Op('|')] + Words(INSTALL);
  }
}
