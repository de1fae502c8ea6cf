/** Spell correction of recognised text (`OCRThread.post_process_text`):
    the text is cut into lines at '\n', each line into whitespace-separated
    tokens; every token longer than two characters that the dictionary
    rejects is replaced by the dictionary's first suggestion, if it has one;
    tokens are rejoined with single spaces and lines with '\n'.
    This module holds the specification; the loop that computes it is
    `Worker.OcrThread.PostProcessText`. */
module SpellCorrection {
  import opened Text

  /** The lexical dictionary (an enchant `Dict`): a membership check and an
      ordered suggestion list. Both are opaque to the worker. */
  datatype Lexicon = Lexicon(check: string -> bool, suggest: string -> seq<string>)

  /** A token the worker rewrites: longer than two characters, rejected by
      the dictionary, and with at least one suggestion. */
  predicate Replaceable(lex: Lexicon, token: string) {
    |token| > 2 && !lex.check(token) && lex.suggest(token) != []
  }

  /** A short token, or one the dictionary accepts, is kept; a replaceable
      token becomes the dictionary's first suggestion, so a changed token
      is always one of its suggestions. */
  function CorrectWord(lex: Lexicon, token: string): (r: string)
    ensures |token| <= 2 ==> r == token
    ensures lex.check(token) ==> r == token
    ensures r != token ==> r in lex.suggest(token)
    ensures Replaceable(lex, token) ==> r == lex.suggest(token)[0]
  {
    if Replaceable(lex, token) then lex.suggest(token)[0] else token
  }

  function CorrectWords(lex: Lexicon, tokens: seq<string>): seq<string> {
    seq(|tokens|, k requires 0 <= k < |tokens| => CorrectWord(lex, tokens[k]))
  }

  function CorrectLine(lex: Lexicon, line: string): string {
    Join(CorrectWords(lex, Words(line)), ' ')
  }

  /** The text `post_process_text` returns: as many lines as the input,
      unless a suggestion brings a line break of its own. */
  function PostProcessed(lex: Lexicon, text: string): (r: string)
    ensures SuggestsNoNewline(lex) ==> |Split(r, IsNewline)| == |Split(text, IsNewline)|
  {
    var lines := Split(text, IsNewline);
    CorrectedLinesSplit(lex, lines);
    Join(seq(|lines|, i requires 0 <= i < |lines| => CorrectLine(lex, lines[i])), '\n')
  }

  /** The same text with every run of intra-line whitespace replaced by a
      single space and leading and trailing whitespace of each line removed;
      line breaks are kept. */
  function Collapsed(text: string): string {
    var lines := Split(text, IsNewline);
    Join(seq(|lines|, i requires 0 <= i < |lines| => Join(Words(lines[i]), ' ')), '\n')
  }

  /** The dictionary's first suggestion never holds a line break. */
  ghost predicate SuggestsNoNewline(lex: Lexicon) {
    forall w :: lex.suggest(w) != [] ==> NoSeparator(lex.suggest(w)[0], IsNewline)
  }

  /** The dictionary's first suggestion is always a single token. */
  ghost predicate SuggestsWords(lex: Lexicon) {
    forall w :: lex.suggest(w) != [] ==> IsWord(lex.suggest(w)[0])
  }

  predicate Accepted(lex: Lexicon, token: string) {
    |token| <= 2 || lex.check(token)
  }

  /** Every token of every line is short or already in the dictionary. */
  ghost predicate AllAccepted(lex: Lexicon, text: string) {
    var lines := Split(text, IsNewline);
    forall i, k | 0 <= i < |lines| && 0 <= k < |Words(lines[i])| :: Accepted(lex, Words(lines[i])[k])
  }

  /** Text built from lines of tokens splits back into those lines, and
      each line back into its tokens. */
  lemma LinesOfTokens(lineWords: seq<seq<string>>)
    requires |lineWords| >= 1
    requires forall i, k :: 0 <= i < |lineWords| && 0 <= k < |lineWords[i]| ==> IsWord(lineWords[i][k])
    ensures var lines := seq(|lineWords|, i requires 0 <= i < |lineWords| => Join(lineWords[i], ' '));
            && Split(Join(lines, '\n'), IsNewline) == lines
            && forall i :: 0 <= i < |lines| ==> Words(lines[i]) == lineWords[i]
  {
    var lines := seq(|lineWords|, i requires 0 <= i < |lineWords| => Join(lineWords[i], ' '));
    forall i | 0 <= i < |lines| ensures NoSeparator(lines[i], IsNewline) && Words(lines[i]) == lineWords[i] {
      WordsLineHasNoNewline(lineWords[i]);
      WordsJoin(lineWords[i]);
    }
    SplitJoin(lines, '\n', IsNewline);
  }

  /** Corrected lines hold no line break, so joining them with '\n' and
      splitting again gives them back. */
  lemma CorrectedLinesSplit(lex: Lexicon, lines: seq<string>)
    requires |lines| >= 1
    ensures var out := seq(|lines|, i requires 0 <= i < |lines| => CorrectLine(lex, lines[i]));
            SuggestsNoNewline(lex) ==> Split(Join(out, '\n'), IsNewline) == out
  {
    var out := seq(|lines|, i requires 0 <= i < |lines| => CorrectLine(lex, lines[i]));
    if SuggestsNoNewline(lex) {
      forall i | 0 <= i < |out| ensures NoSeparator(out[i], IsNewline) {
        var ws := CorrectWords(lex, Words(lines[i]));
        forall k | 0 <= k < |ws| ensures NoSeparator(ws[k], IsNewline) {
          var t := Words(lines[i])[k];
          if !Replaceable(lex, t) {
            assert IsWord(t);
            assert forall j :: 0 <= j < |t| ==> !IsSpace(t[j]);
          }
        }
        JoinNoSeparator(ws, ' ', IsNewline);
      }
      SplitJoin(out, '\n', IsNewline);
    }
  }

  /** Post-processing keeps the lines, provided no suggestion introduces a
      line break: the i-th output line is the corrected i-th input line. */
  lemma LineCount(lex: Lexicon, text: string)
    requires SuggestsNoNewline(lex)
    ensures var lines := Split(text, IsNewline);
            Split(PostProcessed(lex, text), IsNewline)
              == seq(|lines|, i requires 0 <= i < |lines| => CorrectLine(lex, lines[i]))
  {
    CorrectedLinesSplit(lex, Split(text, IsNewline));
  }

  /** Seen from the output text: line i has as many tokens as input line i,
      and token k of it is token k of the input line, or that token's first
      suggestion exactly when the token is replaceable. Short tokens keep
      their position verbatim. */
  lemma LineShape(lex: Lexicon, text: string)
    requires SuggestsWords(lex)
    ensures var ins := Split(text, IsNewline);
            var outs := Split(PostProcessed(lex, text), IsNewline);
            && |outs| == |ins|
            && (forall i :: 0 <= i < |ins| ==> |Words(outs[i])| == |Words(ins[i])|)
            && (forall i, k :: 0 <= i < |ins| && 0 <= k < |Words(ins[i])| ==>
                  (Replaceable(lex, Words(ins[i])[k]) ==> Words(outs[i])[k] == lex.suggest(Words(ins[i])[k])[0]) &&
                  (!Replaceable(lex, Words(ins[i])[k]) ==> Words(outs[i])[k] == Words(ins[i])[k]))
            && (forall i, k :: 0 <= i < |ins| && 0 <= k < |Words(ins[i])| && |Words(ins[i])[k]| <= 2 ==>
                  Words(outs[i])[k] == Words(ins[i])[k])
  {
    var ins := Split(text, IsNewline);
    var lineWords := seq(|ins|, i requires 0 <= i < |ins| => CorrectWords(lex, Words(ins[i])));
    forall i, k | 0 <= i < |lineWords| && 0 <= k < |lineWords[i]| ensures IsWord(lineWords[i][k]) {
      var t := Words(ins[i])[k];
      if Replaceable(lex, t) {
        assert lex.suggest(t) != [];
      }
    }
    LinesOfTokens(lineWords);
    var lines := seq(|lineWords|, i requires 0 <= i < |lineWords| => Join(lineWords[i], ' '));
    var corrected := seq(|ins|, i requires 0 <= i < |ins| => CorrectLine(lex, ins[i]));
    forall i | 0 <= i < |ins| ensures lines[i] == corrected[i] {
      assert lineWords[i] == CorrectWords(lex, Words(ins[i]));
    }
    assert lines == corrected;
  }

  /** When every token is short or already in the dictionary, nothing is
      replaced: the output is the input with intra-line whitespace
      collapsed. */
  lemma AcceptedTextIsCollapsed(lex: Lexicon, text: string)
    requires AllAccepted(lex, text)
    ensures PostProcessed(lex, text) == Collapsed(text)
  {
    var lines := Split(text, IsNewline);
    forall i | 0 <= i < |lines| ensures CorrectLine(lex, lines[i]) == Join(Words(lines[i]), ' ') {
      var ws := Words(lines[i]);
      assert CorrectWords(lex, ws) == ws;
    }
    assert seq(|lines|, i requires 0 <= i < |lines| => CorrectLine(lex, lines[i]))
        == seq(|lines|, i requires 0 <= i < |lines| => Join(Words(lines[i]), ' '));
  }

  /** Collapsing keeps the lines and the tokens of every line. */
  lemma CollapsedKeepsTokens(text: string)
    ensures var ins := Split(text, IsNewline);
            var outs := Split(Collapsed(text), IsNewline);
            && |outs| == |ins|
            && forall i :: 0 <= i < |ins| ==> outs[i] == Join(Words(ins[i]), ' ') && Words(outs[i]) == Words(ins[i])
  {
    var ins := Split(text, IsNewline);
    var lineWords := seq(|ins|, i requires 0 <= i < |ins| => Words(ins[i]));
    LinesOfTokens(lineWords);
    var lines := seq(|lineWords|, i requires 0 <= i < |lineWords| => Join(lineWords[i], ' '));
    var collapsed := seq(|ins|, i requires 0 <= i < |ins| => Join(Words(ins[i]), ' '));
    forall i | 0 <= i < |ins| ensures lines[i] == collapsed[i] {
      assert lineWords[i] == Words(ins[i]);
    }
    assert lines == collapsed;
  }

  /** Collapsing twice is collapsing once. */
  lemma CollapsedIdempotent(text: string)
    ensures Collapsed(Collapsed(text)) == Collapsed(text)
  {
    var ins := Split(text, IsNewline);
    var outs := Split(Collapsed(text), IsNewline);
    CollapsedKeepsTokens(text);
    assert seq(|outs|, i requires 0 <= i < |outs| => Join(Words(outs[i]), ' '))
        == seq(|ins|, i requires 0 <= i < |ins| => Join(Words(ins[i]), ' '));
  }

  /** On text whose every token is short or in the dictionary, running the
      correction twice gives the same text as running it once. */
  lemma PostProcessIdempotent(lex: Lexicon, text: string)
    requires AllAccepted(lex, text)
    ensures PostProcessed(lex, PostProcessed(lex, text)) == PostProcessed(lex, text)
  {
    AcceptedTextIsCollapsed(lex, text);
    CollapsedKeepsTokens(text);
    assert AllAccepted(lex, Collapsed(text));
    AcceptedTextIsCollapsed(lex, Collapsed(text));
    CollapsedIdempotent(text);
  }
}
