/** The Python string primitives the worker relies on:
    `s.split(sep)` with one separator character, `s.split()` with no
    argument, and `sep.join(parts)`. */
module Text {

  /** Python's `str.isspace()` for one character: the characters that
      `str.split()` with no argument treats as separators. */
  predicate IsSpace(c: char) {
    || ('\t' <= c <= '\r')
    || ('\U{1C}' <= c <= ' ')
    || c == '\U{85}' || c == '\U{A0}' || c == '\U{1680}'
    || ('\U{2000}' <= c <= '\U{200A}')
    || c == '\U{2028}' || c == '\U{2029}' || c == '\U{202F}'
    || c == '\U{205F}' || c == '\U{3000}'
  }

  predicate IsNewline(c: char) {
    c == '\n'
  }

  /** No character of `s` is a separator. */
  predicate NoSeparator(s: string, isSep: char -> bool) {
    forall i :: 0 <= i < |s| ==> !isSep(s[i])
  }

  /** A token as `str.split()` returns it: non-empty, no whitespace. */
  predicate IsWord(s: string) {
    s != [] && NoSeparator(s, IsSpace)
  }

  /** `s.split(sep)`: cuts `s` at every separator character; there is
      always at least one piece, and empty pieces are kept. */
  function Split(s: string, isSep: char -> bool): (parts: seq<string>)
    ensures |parts| >= 1
    ensures forall k :: 0 <= k < |parts| ==> NoSeparator(parts[k], isSep)
  {
    if s == [] then [""]
    else
      var rest := Split(s[1..], isSep);
      if isSep(s[0]) then [""] + rest
      else [[s[0]] + rest[0]] + rest[1..]
  }

  /** `sep.join(parts)` for a one-character separator: the text starts
      with the first piece, and holds the separator right after it when
      there are several pieces. */
  function Join(parts: seq<string>, sep: char): (r: string)
    ensures |parts| == 0 ==> r == ""
    ensures |parts| >= 1 ==> parts[0] <= r
    ensures |parts| >= 2 ==> |r| > |parts[0]| && r[|parts[0]|] == sep
  {
    if |parts| == 0 then ""
    else if |parts| == 1 then parts[0]
    else parts[0] + [sep] + Join(parts[1..], sep)
  }

  /** The non-empty pieces, in order. */
  function NonEmpty(parts: seq<string>): (r: seq<string>)
    ensures forall k :: 0 <= k < |r| ==> r[k] != [] && r[k] in parts
  {
    if parts == [] then []
    else if parts[0] == [] then NonEmpty(parts[1..])
    else [parts[0]] + NonEmpty(parts[1..])
  }

  /** `s.split()`: the maximal runs of non-whitespace characters; leading,
      trailing and repeated whitespace produce no empty token. */
  function Words(s: string): (words: seq<string>)
    ensures forall k :: 0 <= k < |words| ==> IsWord(words[k])
  {
    NonEmpty(Split(s, IsSpace))
  }

  /** Splitting text that starts with a separator-free prefix `p`: the
      prefix is glued to the first piece of the rest. */
  lemma {:induction false} SplitPrefix(p: string, t: string, isSep: char -> bool)
    requires NoSeparator(p, isSep)
    ensures Split(p + t, isSep) == [p + Split(t, isSep)[0]] + Split(t, isSep)[1..]
  {
    if p != [] {
      assert (p + t)[1..] == p[1..] + t;
      SplitPrefix(p[1..], t, isSep);
      assert [p[0]] + (p[1..] + Split(t, isSep)[0]) == p + Split(t, isSep)[0];
    } else {
      var st := Split(t, isSep);
      assert p + t == t && p + st[0] == st[0];
      assert [st[0]] + st[1..] == st;
    }
  }

  /** Split undoes Join when no piece holds a separator. */
  lemma {:induction false} SplitJoin(parts: seq<string>, sep: char, isSep: char -> bool)
    requires |parts| >= 1 && isSep(sep)
    requires forall k :: 0 <= k < |parts| ==> NoSeparator(parts[k], isSep)
    ensures Split(Join(parts, sep), isSep) == parts
  {
    if |parts| == 1 {
      SplitPrefix(parts[0], "", isSep);
      assert parts[0] + "" == parts[0];
    } else {
      var rest := Join(parts[1..], sep);
      SplitJoin(parts[1..], sep, isSep);
      assert Split([sep] + rest, isSep) == [""] + parts[1..] by {
        assert ([sep] + rest)[1..] == rest;
      }
      assert Join(parts, sep) == parts[0] + ([sep] + rest);
      SplitPrefix(parts[0], [sep] + rest, isSep);
      assert parts[0] + "" == parts[0];
      assert [parts[0]] + parts[1..] == parts;
    }
  }

  /** Prepending to the first piece prepends to the joined text. */
  lemma JoinPrependFirst(x: string, parts: seq<string>, sep: char)
    requires |parts| >= 1
    ensures Join([x + parts[0]] + parts[1..], sep) == x + Join(parts, sep)
  {
  }

  /** Joining the lines of `s` with newlines gives `s` back:
      `'\n'.join(s.split('\n')) == s`. */
  lemma {:induction false} JoinSplitLines(s: string)
    ensures Join(Split(s, IsNewline), '\n') == s
  {
    if s != [] {
      var rest := Split(s[1..], IsNewline);
      JoinSplitLines(s[1..]);
      if IsNewline(s[0]) {
        assert Split(s, IsNewline) == [""] + rest;
        assert ([""] + rest)[1..] == rest;
        assert s == [s[0]] + s[1..];
      } else {
        JoinPrependFirst([s[0]], rest, '\n');
        assert s == [s[0]] + s[1..];
      }
    }
  }

  /** Joining separator-free pieces with a non-separator adds no separator. */
  lemma {:induction false} JoinNoSeparator(parts: seq<string>, sep: char, isSep: char -> bool)
    requires !isSep(sep)
    requires forall k :: 0 <= k < |parts| ==> NoSeparator(parts[k], isSep)
    ensures NoSeparator(Join(parts, sep), isSep)
  {
    if |parts| > 1 {
      JoinNoSeparator(parts[1..], sep, isSep);
      var j := Join(parts, sep);
      var rest := Join(parts[1..], sep);
      assert j == parts[0] + [sep] + rest;
      forall i | 0 <= i < |j| ensures !isSep(j[i]) {
        if i < |parts[0]| {
          assert j[i] == parts[0][i];
        } else if i > |parts[0]| {
          assert j[i] == rest[i - |parts[0]| - 1];
        }
      }
    }
  }

  lemma {:induction false} NonEmptyKeepsWords(parts: seq<string>)
    requires forall k :: 0 <= k < |parts| ==> parts[k] != []
    ensures NonEmpty(parts) == parts
  {
    if parts != [] {
      NonEmptyKeepsWords(parts[1..]);
    }
  }

  /** `' '.join(words).split() == words` for a list of tokens. */
  lemma WordsJoin(words: seq<string>)
    requires forall k :: 0 <= k < |words| ==> IsWord(words[k])
    ensures Words(Join(words, ' ')) == words
  {
    if words == [] {
      assert Split("", IsSpace) == [""];
    } else {
      SplitJoin(words, ' ', IsSpace);
      NonEmptyKeepsWords(words);
    }
  }

  /** A word contains no newline, so no joined run of words does either. */
  lemma WordsLineHasNoNewline(words: seq<string>)
    requires forall k :: 0 <= k < |words| ==> IsWord(words[k])
    ensures NoSeparator(Join(words, ' '), IsNewline)
  {
    forall k | 0 <= k < |words| ensures NoSeparator(words[k], IsNewline) {
      assert NoSeparator(words[k], IsSpace);
    }
    JoinNoSeparator(words, ' ', IsNewline);
  }

  /** The equations that fix `s.split()` on every input: no token in
      empty text, leading whitespace is skipped, a lone token is itself,
      and a token followed by whitespace is cut off there. */
  lemma WordsOfEmpty()
    ensures Words("") == []
  {
    assert Split("", IsSpace) == [""];
    assert [""][1..] == [];
  }

  lemma WordsSkipSpace(c: char, s: string)
    requires IsSpace(c)
    ensures Words([c] + s) == Words(s)
  {
    assert ([c] + s)[1..] == s;
    var rest := Split(s, IsSpace);
    assert Split([c] + s, IsSpace) == [""] + rest;
    assert ([""] + rest)[1..] == rest;
  }

  lemma WordsOfWord(w: string)
    requires IsWord(w)
    ensures Words(w) == [w]
  {
    SplitPrefix(w, "", IsSpace);
    assert w + "" == w;
    assert Split(w, IsSpace) == [w];
    assert [w][1..] == [];
    assert NonEmpty([w]) == [w] + NonEmpty([]);
  }

  lemma WordsCons(w: string, c: char, s: string)
    requires IsWord(w) && IsSpace(c)
    ensures Words(w + [c] + s) == [w] + Words(s)
  {
    var rest := Split(s, IsSpace);
    assert ([c] + s)[1..] == s;
    assert Split([c] + s, IsSpace) == [""] + rest;
    assert w + [c] + s == w + ([c] + s);
    SplitPrefix(w, [c] + s, IsSpace);
    assert ([""] + rest)[1..] == rest;
    assert w + "" == w;
    var parts := [w] + rest;
    assert parts[1..] == rest;
  }
}
