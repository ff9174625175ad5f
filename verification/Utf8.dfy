/** Texts as bytes: the encoding in which the lengths of stored texts are counted. */
module Utf8 {
  import opened Types
  import opened Redaction

  /** The bytes of one character. */
  function Bytes(c: char): seq<nat> {
    var n := c as int;
    if n < 0x80 then [n]
    else if n < 0x800 then [0xC0 + n / 64, 0x80 + n % 64]
    else if n < 0x10000 then [0xE0 + n / 4096, 0x80 + n / 64 % 64, 0x80 + n % 64]
    else [0xF0 + n / 262144, 0x80 + n / 4096 % 64, 0x80 + n / 64 % 64, 0x80 + n % 64]
  }

  function Encoded(s: string): seq<nat> {
    if s == "" then [] else Bytes(s[0]) + Encoded(s[1..])
  }

  /** The number at the front of some bytes, and how many bytes it takes. */
  function First(bytes: seq<nat>): Option<(int, nat)> {
    if bytes == [] then None
    else
      var b := bytes[0];
      if b < 0x80 then Some((b, 1))
      else if b < 0xE0 then if |bytes| < 2 then None else Some(((b - 0xC0) * 64 + (bytes[1] - 0x80), 2))
      else if b < 0xF0 then
        if |bytes| < 3 then None
        else Some(((b - 0xE0) * 4096 + (bytes[1] - 0x80) * 64 + (bytes[2] - 0x80), 3))
      else if |bytes| < 4 then None
      else Some(((b - 0xF0) * 262144 + (bytes[1] - 0x80) * 4096 + (bytes[2] - 0x80) * 64 + (bytes[3] - 0x80), 4))
  }

  /** The front of an encoded text is its first character, and nothing else is. */
  lemma FirstCharacter(c: char, rest: seq<nat>)
    ensures First(Bytes(c) + rest) == Some((c as int, Width(c)))
    ensures |Bytes(c)| == Width(c)
    ensures forall b <- Bytes(c) :: b < 256
  {
    var n := c as int;
    if 0x800 <= n < 0x10000 {
      Digits64(n, n / 4096);
    } else if n >= 0x10000 {
      Digits64(n, n / 4096);
      assert n / 4096 == n / 262144 * 64 + n / 4096 % 64;
    }
  }

  lemma Digits64(n: int, top: int)
    requires n >= 0 && top == n / 4096
    ensures n == top * 4096 + n / 64 % 64 * 64 + n % 64
  {
  }

  /** Two texts with the same bytes are the same, and the length in bytes is what limits
      are compared with. */
  lemma {:induction false} TextRoundTrip(s: string, t: string)
    ensures |Encoded(s)| == ByteLength(s)
    ensures Encoded(s) == Encoded(t) ==> s == t
  {
    if s != "" && t != "" {
      TextRoundTrip(s[1..], t[1..]);
      FirstCharacter(s[0], Encoded(s[1..]));
      FirstCharacter(t[0], Encoded(t[1..]));
      hide Bytes, First, Width;
      if Encoded(s) == Encoded(t) {
        assert Encoded(s)[|Bytes(s[0])|..] == Encoded(s[1..]);
        assert Encoded(t)[|Bytes(t[0])|..] == Encoded(t[1..]);
      }
    } else if s != "" {
      TextRoundTrip(s[1..], t);
      FirstCharacter(s[0], Encoded(s[1..]));
      hide Bytes, First, Width;
    } else if t != "" {
      FirstCharacter(t[0], Encoded(t[1..]));
      hide Bytes, First, Width;
    }
  }

  lemma {:induction false} ByteLengthAppend(s: string, t: string)
    ensures ByteLength(s + t) == ByteLength(s) + ByteLength(t)
  {
    if s == "" {
      assert s + t == t;
    } else {
      ByteLengthAppend(s[1..], t);
      assert (s + t)[1..] == s[1..] + t;
    }
  }

  /** A text that fits is stored redacted and otherwise as it is; of a longer one the
      beginning is stored with a mark behind it, and nothing stored exceeds the limit by
      more than the mark. */
  lemma StoredTextFits(s: string, max: nat, cut: (string, nat) -> string)
    requires |Encoded(cut(Redact(s), max))| <= max
    ensures var t := StoredText(s, max, cut);
            && |Encoded(t)| <= max + 12
            && t == if |Encoded(Redact(s))| <= max then Redact(s) else cut(Redact(s), max) + "\n[truncated]"
  {
    hide Redact, Encoded;
    TextRoundTrip(Redact(s), "");
    TextRoundTrip(cut(Redact(s), max), "");
    TextRoundTrip(StoredText(s, max, cut), "");
    MarkLength();
    ByteLengthAppend(cut(Redact(s), max), "\n[truncated]");
    hide ByteLength;
  }

  lemma MarkLength()
    ensures ByteLength("\n[truncated]") == 12
  {
    hide ByteLength;
    PlainLength("\n[truncated]");
  }

  lemma {:induction false} PlainLength(s: string)
    requires forall i :: 0 <= i < |s| ==> s[i] < '\U{0080}'
    ensures ByteLength(s) == |s|
  {
    if s != "" {
      PlainLength(s[1..]);
    }
  }
}
