/** The regular expressions and argument checks that requests and commands pass
    through. A text is a sequence of bytes, one character each. */
module Patterns {
  import opened Digits

  predicate Lower(c: char) { 'a' <= c <= 'z' }
  predicate Letter(c: char) { Lower(c) || 'A' <= c <= 'Z' }

  /** ^[0-9A-Za-z][0-9A-Za-z._+-]{0,63}$ */
  predicate ValidVersion(s: string) {
    && 1 <= |s| <= 64
    && (Letter(s[0]) || IsDigit(s[0]))
    && forall i :: 1 <= i < |s| ==> Letter(s[i]) || IsDigit(s[i]) || s[i] in "._+-"
  }

  /** ^[a-z0-9][a-z0-9._-]{0,47}$ */
  predicate SafeID(s: string) {
    && 1 <= |s| <= 48
    && (Lower(s[0]) || IsDigit(s[0]))
    && forall i :: 1 <= i < |s| ==> Lower(s[i]) || IsDigit(s[i]) || s[i] in "._-"
  }

  /** A label of [A-Za-z0-9]([A-Za-z0-9-]{0,61}[A-Za-z0-9])? */
  predicate DomainLabel(s: string) {
    && 1 <= |s| <= 63
    && (Letter(s[0]) || IsDigit(s[0]))
    && (Letter(s[|s| - 1]) || IsDigit(s[|s| - 1]))
    && forall i :: 0 <= i < |s| ==> Letter(s[i]) || IsDigit(s[i]) || s[i] == '-'
  }

  /** One or more labels, each with a dot, before [A-Za-z]{2,63}. */
  predicate SafeDomain(s: string) {
    exists i :: 0 <= i < |s| && s[i] == '.' && DomainLabel(s[..i]) &&
      (SafeDomain(s[i + 1..]) || TopLevel(s[i + 1..]))
  }

  predicate TopLevel(s: string) {
    2 <= |s| <= 63 && forall i :: 0 <= i < |s| ==> Letter(s[i])
  }

  predicate SingleLine(s: string) {
    forall i :: 0 <= i < |s| ==> s[i] != '\r' && s[i] != '\n' && s[i] != '\0'
  }

  // ---------- the patterns, character by character ----------

  predicate Alphanumeric(c: char) {
    '0' <= c <= '9' || 'A' <= c <= 'Z' || 'a' <= c <= 'z'
  }

  /** Versions are alphanumeric texts with dots, underscores, pluses and dashes behind the
      first character. */
  lemma VersionsAre(s: string)
    ensures ValidVersion(s) <==>
            && 1 <= |s| <= 64 && Alphanumeric(s[0])
            && forall i :: 1 <= i < |s| ==>
               Alphanumeric(s[i]) || s[i] == '.' || s[i] == '_' || s[i] == '+' || s[i] == '-'
  {
  }

  /** Joining two versions by one of these characters gives a version. */
  lemma VersionsJoin(s: string, sep: char, t: string)
    requires ValidVersion(s) && ValidVersion(t) && sep in {'.', '_', '+', '-'} && |s| + |t| < 64
    ensures ValidVersion(s + [sep] + t)
  {
    var joined := s + [sep] + t;
    assert joined[0] == s[0];
    forall i | 1 <= i < |joined|
      ensures Letter(joined[i]) || IsDigit(joined[i]) || joined[i] in "._+-"
    {
      if i == |s| {
        assert joined[i] == sep;
      }
    }
  }

  lemma IDsAre(s: string)
    ensures SafeID(s) <==>
            && 1 <= |s| <= 48 && s[0] != '.' && s[0] != '_' && s[0] != '-'
            && forall i :: 0 <= i < |s| ==>
               '0' <= s[i] <= '9' || 'a' <= s[i] <= 'z' || s[i] == '.' || s[i] == '_' || s[i] == '-'
  {
  }

  /** A dot behind every label. */
  function Dotted(labels: seq<string>): string {
    if labels == [] then "" else labels[0] + "." + Dotted(labels[1..])
  }

  predicate IsLabel(s: string) {
    && 1 <= |s| <= 63 && s[0] != '-' && s[|s| - 1] != '-'
    && forall i :: 0 <= i < |s| ==> Alphanumeric(s[i]) || s[i] == '-'
  }

  predicate IsTop(s: string) {
    2 <= |s| <= 63 && forall i :: 0 <= i < |s| ==> 'A' <= s[i] <= 'Z' || 'a' <= s[i] <= 'z'
  }

  lemma LabelsAre(s: string)
    ensures DomainLabel(s) <==> IsLabel(s)
    ensures TopLevel(s) <==> IsTop(s)
  {
  }

  ghost predicate IsDomain(s: string) {
    exists labels, top :: labels != [] && (forall l <- labels :: IsLabel(l)) && IsTop(top) && s == Dotted(labels) + top
  }

  lemma FirstLabel(s: string) returns (first: string, rest: string)
    requires SafeDomain(s)
    ensures s == first + "." + rest && IsLabel(first) && (SafeDomain(rest) || IsTop(rest))
  {
    var i :| 0 <= i < |s| && s[i] == '.' && DomainLabel(s[..i]) && (SafeDomain(s[i + 1..]) || TopLevel(s[i + 1..]));
    hide *;
    first, rest := s[..i], s[i + 1..];
    CutAt(s, i);
    LabelsAre(first);
    LabelsAre(rest);
  }

  lemma CutAt(s: string, i: nat)
    requires i < |s| && s[i] == '.'
    ensures s == s[..i] + "." + s[i + 1..]
  {
  }

  lemma {:induction false} DomainSplits(s: string) returns (labels: seq<string>, top: string)
    requires SafeDomain(s)
    ensures labels != [] && (forall l <- labels :: IsLabel(l)) && IsTop(top) && s == Dotted(labels) + top
    decreases |s|
  {
    hide SafeDomain, IsLabel, IsTop;
    var first, rest := FirstLabel(s);
    if IsTop(rest) {
      labels, top := [first], rest;
      assert Dotted(labels) == first + "." + "";
    } else {
      var more;
      more, top := DomainSplits(rest);
      labels := [first] + more;
      assert labels[1..] == more;
    }
  }

  lemma {:induction false} DomainJoins(labels: seq<string>, top: string)
    requires labels != [] && (forall l <- labels :: IsLabel(l)) && IsTop(top)
    ensures SafeDomain(Dotted(labels) + top)
    decreases |labels|
  {
    var s, n := Dotted(labels) + top, |labels[0]|;
    LabelsAre(labels[0]);
    LabelsAre(top);
    hide DomainLabel, TopLevel, IsLabel, IsTop;
    assert s[..n] == labels[0] && s[n] == '.' && s[n + 1..] == Dotted(labels[1..]) + top;
    if labels[1..] == [] {
      assert s[n + 1..] == top;
    } else {
      DomainJoins(labels[1..], top);
    }
  }

  /** Domains are labels, each with a dot, before a top level of letters. */
  lemma DomainsAre(s: string)
    ensures SafeDomain(s) <==> IsDomain(s)
  {
    hide SafeDomain, IsLabel, IsTop, Dotted;
    if SafeDomain(s) {
      var labels, top := DomainSplits(s);
    }
    if IsDomain(s) {
      var labels, top :| labels != [] && (forall l <- labels :: IsLabel(l)) && IsTop(top) && s == Dotted(labels) + top;
      DomainJoins(labels, top);
    }
  }
}
