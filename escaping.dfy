/**
 * The text escapes applied before a title or a detail is stored as a vertex
 * property, and the decode applied when a stored recipe detail is read back.
 *
 * Each is a global `String.prototype.replace` with a regular expression:
 *   - `replace(/'/g, "\\'")` puts a backslash in front of every single quote;
 *   - `replace(/\n/g, "\\\\n")` turns every line feed into the three
 *     characters backslash, backslash, `n`;
 *   - `replace(/\\n/g, "\n")` turns every two-character pair backslash, `n`
 *     into a line feed, scanning left to right without overlaps.
 */
module Escaping {

  /** Number of occurrences of `c` in `s`. */
  function Occurrences(s: string, c: char): nat {
    if s == [] then 0 else (if s[0] == c then 1 else 0) + Occurrences(s[1..], c)
  }

  // ---------------------------------------------------------------------------
  // Single quotes
  // ---------------------------------------------------------------------------

  /** `replace(/'/g, "\\'")`: a backslash is put in front of every single quote. */
  function EscapeQuotes(s: string): string {
    if s == [] then []
    else (if s[0] == '\'' then ['\\', '\''] else [s[0]]) + EscapeQuotes(s[1..])
  }

  /**
   * Every quote of the escaped text sits right after a backslash (so it
   * never starts with a quote), the text grows by exactly one character per
   * quote, and no character other than a backslash is introduced.
   */
  lemma {:induction false} EscapeQuotesShape(s: string)
    ensures var r := EscapeQuotes(s);
            && |r| == |s| + Occurrences(s, '\'')
            && (forall i :: 0 <= i < |r| && r[i] == '\'' ==> 0 < i && r[i - 1] == '\\')
            && (forall c :: c in r ==> c in s || c == '\\')
            && (forall c :: c in s ==> c in r)
            && (s != [] && s[0] != '\'' ==> r != [] && r[0] == s[0])
  {
    if s != [] {
      EscapeQuotesShape(s[1..]);
      var rest := EscapeQuotes(s[1..]);
      assert forall c :: c in s[1..] ==> c in s;
      assert forall c :: c in s ==> c == s[0] || c in s[1..];
      var r := EscapeQuotes(s);
      if s[0] == '\'' {
        assert r == ['\\', '\''] + rest;
        assert forall i :: 2 <= i < |r| ==> r[i] == rest[i - 2];
      } else {
        assert r == [s[0]] + rest;
        assert forall i :: 1 <= i < |r| ==> r[i] == rest[i - 1];
      }
    }
  }

  /** Removes the backslash of every backslash-quote pair, scanning left to right. */
  function UnescapeQuotes(s: string): string {
    if |s| >= 2 && s[0] == '\\' && s[1] == '\'' then ['\''] + UnescapeQuotes(s[2..])
    else if s == [] then []
    else [s[0]] + UnescapeQuotes(s[1..])
  }

  /** The quote escape loses nothing: undoing it gives back the original text. */
  lemma {:induction false} UnescapeEscapeQuotes(s: string)
    ensures UnescapeQuotes(EscapeQuotes(s)) == s
  {
    if s != [] {
      var rest := EscapeQuotes(s[1..]);
      UnescapeEscapeQuotes(s[1..]);
      EscapeQuotesShape(s[1..]);
      if s[0] == '\'' {
        assert EscapeQuotes(s) == ['\\', '\''] + rest;
        assert (['\\', '\''] + rest)[2..] == rest;
      } else {
        assert EscapeQuotes(s) == [s[0]] + rest;
        assert ([s[0]] + rest)[1..] == rest;
        if s[0] == '\\' && rest != [] {
          // the character after a kept backslash is never a bare quote
          assert rest[0] != '\'';
        }
      }
    }
  }

  /** Two different texts never escape to the same stored text. */
  lemma EscapeQuotesInjective(s: string, t: string)
    requires EscapeQuotes(s) == EscapeQuotes(t)
    ensures s == t
  {
    UnescapeEscapeQuotes(s);
    UnescapeEscapeQuotes(t);
  }

  // ---------------------------------------------------------------------------
  // Line feeds
  // ---------------------------------------------------------------------------

  /** `replace(/\n/g, "\\\\n")`: every line feed becomes backslash, backslash, `n`. */
  function EscapeNewlines(s: string): string {
    if s == [] then []
    else (if s[0] == '\n' then ['\\', '\\', 'n'] else [s[0]]) + EscapeNewlines(s[1..])
  }

  /** The escaped text holds no line feed, each line feed became three characters, and a text without one is kept. */
  lemma {:induction false} EscapeNewlinesShape(s: string)
    ensures var r := EscapeNewlines(s);
            && '\n' !in r
            && |r| == |s| + 2 * Occurrences(s, '\n')
            && ('\n' !in s ==> r == s)
  {
    if s != [] {
      EscapeNewlinesShape(s[1..]);
      assert '\n' !in s ==> '\n' !in s[1..];
    }
  }

  /**
   * The newline escape is not injective: a line feed and the three
   * characters it is written as are stored identically.
   */
  lemma EscapeNewlinesConflates()
    ensures EscapeNewlines("\n") == EscapeNewlines("\\\\n")
    ensures "\n" != "\\\\n"
  {
    assert EscapeNewlines("") == "";
    assert EscapeNewlines("n") == "n";
    assert EscapeNewlines("\\n") == "\\n";
  }

  /** No backslash is immediately followed by the letter `n`. */
  predicate NoEscapedNewline(s: string) {
    forall i :: 0 <= i < |s| - 1 ==> !(s[i] == '\\' && s[i + 1] == 'n')
  }

  /** `replace(/\\n/g, "\n")`: every backslash-`n` pair becomes a line feed, scanning left to right. */
  function DecodeNewlines(s: string): string {
    if |s| >= 2 && s[0] == '\\' && s[1] == 'n' then ['\n'] + DecodeNewlines(s[2..])
    else if s == [] then []
    else [s[0]] + DecodeNewlines(s[1..])
  }

  /**
   * The decoded text is never longer, keeps a text without backslashes as it
   * is, keeps or decodes its first character, and holds no backslash-`n`
   * pair any more.
   */
  lemma {:induction false} DecodeNewlinesShape(s: string)
    ensures var r := DecodeNewlines(s);
            && |r| <= |s|
            && ('\\' !in s ==> r == s)
            && (s != [] ==> r != [] && (r[0] == s[0] || r[0] == '\n'))
            && NoEscapedNewline(r)
  {
    var r := DecodeNewlines(s);
    if |s| >= 2 && s[0] == '\\' && s[1] == 'n' {
      DecodeNewlinesShape(s[2..]);
      var rest := DecodeNewlines(s[2..]);
      assert r == ['\n'] + rest;
      assert forall i :: 1 <= i < |r| ==> r[i] == rest[i - 1];
    } else if s != [] {
      DecodeNewlinesShape(s[1..]);
      assert '\\' !in s ==> '\\' !in s[1..];
      var rest := DecodeNewlines(s[1..]);
      assert r == [s[0]] + rest;
      assert forall i :: 1 <= i < |r| ==> r[i] == rest[i - 1];
    }
  }

  /** A text with no backslash-`n` pair is left unchanged by the decode. */
  lemma {:induction false} DecodeWithoutEscapes(s: string)
    requires NoEscapedNewline(s)
    ensures DecodeNewlines(s) == s
  {
    if s != [] {
      assert NoEscapedNewline(s[1..]) by {
        forall i | 0 <= i < |s[1..]| - 1
          ensures !(s[1..][i] == '\\' && s[1..][i + 1] == 'n')
        {
          assert s[1..][i] == s[i + 1] && s[1..][i + 1] == s[i + 2];
        }
      }
      DecodeWithoutEscapes(s[1..]);
      if |s| >= 2 {
        assert !(s[0] == '\\' && s[1] == 'n');
      }
    }
  }

  /** Decoding twice is the same as decoding once. */
  lemma DecodeNewlinesIdempotent(s: string)
    ensures DecodeNewlines(DecodeNewlines(s)) == DecodeNewlines(s)
  {
    DecodeNewlinesShape(s);
    DecodeWithoutEscapes(DecodeNewlines(s));
  }
}
