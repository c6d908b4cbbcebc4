/**
  How the words of a message are put down: one space between two words of a line,
  none at the ends of a line, and one character for each line break.
 */
module MessageShape {
  import opened Text
  import opened MessageSplitter

  /** Words and line breaks, written out. */
  function Render(ts: seq<Token>): string {
    if ts == [] then ""
    else
      var before := Render(Init(ts));
      match Last(ts)
      case Word(w) => before + (if before == "" || Last(before) == '\n' then "" else " ") + w
      case Newline => before + "\n"
      case Break => before
  }

  /** The message is its words and line breaks, and nothing more. */
  predicate Neat(c: string) {
    Render(Tokens(c)) == c
  }

  lemma RenderGrows(ts: seq<Token>, t: Token)
    ensures Render(ts + [t]) ==
              match t
              case Word(w) => Render(ts) + (if Render(ts) == "" || Last(Render(ts)) == '\n' then "" else " ") + w
              case Newline => Render(ts) + "\n"
              case Break => Render(ts)
  {
    assert Init(ts + [t]) == ts && Last(ts + [t]) == t;
  }

  lemma NeatWithWord(cur: string, w: string)
    requires Neat(cur) && IsWord(w)
    ensures Neat(cur + Separator(cur) + w)
  {
    TokensAfterWord(cur, w);
    RenderGrows(Tokens(cur), Word(w));
  }

  lemma NeatWithNewline(cur: string)
    requires Neat(cur)
    ensures Neat(cur + ['\n'])
  {
    SpaceAppended(cur, '\n');
    RenderGrows(Tokens(cur), Newline);
  }

  lemma WordIsNeat(w: string)
    requires IsWord(w)
    ensures Neat("") && Neat(w)
  {
    assert Render([]) == "";
    NeatWithWord("", w);
    assert "" + Separator("") + w == w;
  }

  ghost predicate AllNeat(chunks: seq<string>) {
    forall i :: 0 <= i < |chunks| ==> Neat(chunks[i])
  }

  ghost predicate Tidy(s: State) {
    AllNeat(s.chunks) && Neat(s.cur) && (s.lastNewline <==> s.cur != "" && Last(s.cur) == '\n')
  }

  lemma TidyAfterFlush(s: State)
    requires Tidy(s)
    ensures Tidy(AfterFlush(s)) && AfterFlush(s).cur == "" && AllNeat(AfterFlush(s).chunks)
  {
    assert Render([]) == "";
  }

  lemma TidyAfterWord(s: State, w: string, maxLen: nat)
    requires Tidy(s) && IsWord(w)
    ensures Tidy(AfterWord(s, w, maxLen))
  {
    if NoRoom(s, w, maxLen) {
      TidyAfterFlush(s);
      WordIsNeat(w);
      assert AfterWord(s, w, maxLen).cur == "" + "" + w == w;
    } else {
      assert Glue(s) == Separator(s.cur);
      NeatWithWord(s.cur, w);
      assert Last(s.cur + Glue(s) + w) == Last(w);
    }
  }

  lemma TidyAfterNewline(s: State, maxLen: nat)
    requires Tidy(s)
    ensures Tidy(AfterNewline(s, maxLen))
  {
    TidyAfterFlush(s);
    NeatWithNewline(s.cur);
  }

  lemma PiecesAreNeat(w: string, maxLen: nat)
    requires IsWord(w) && Cuttable(w, maxLen)
    ensures AllNeat(HardSplit(w, maxLen)) && HardSplit(w, maxLen) != []
    ensures forall i :: 0 <= i < |HardSplit(w, maxLen)| ==> IsWord(HardSplit(w, maxLen)[i])
  {
    PiecesAreMessages(w, maxLen);
    var ps := HardSplit(w, maxLen);
    forall i | 0 <= i < |ps|
      ensures IsWord(ps[i]) && Neat(ps[i])
    {
      assert Plain(ps[i]) && ps[i] != "";
      WordIsNeat(ps[i]);
    }
  }

  lemma TidyAfterToken(s: State, w: string, maxLen: nat)
    requires Tidy(s) && IsWord(w)
    ensures Tidy(AfterToken(s, w, maxLen))
  {
    if Cuttable(w, maxLen) && s.open == [] {
      TidyAfterFlush(s);
      PiecesAreNeat(w, maxLen);
      assert IsWord(Last(HardSplit(w, maxLen)));
    } else {
      TidyAfterWord(s, w, maxLen);
    }
  }

  lemma {:induction false} TidyAfterWords(s: State, words: seq<string>, maxLen: nat)
    requires Tidy(s) && forall i :: 0 <= i < |words| ==> IsWord(words[i])
    ensures Tidy(AfterWords(s, words, maxLen))
  {
    if words != [] {
      TidyAfterWords(s, Init(words), maxLen);
      TidyAfterToken(AfterWords(s, Init(words), maxLen), Last(words), maxLen);
    }
  }

  lemma {:induction false} TidyAfterLines(lines: seq<string>, maxLen: nat)
    ensures Tidy(AfterLines(lines, maxLen))
  {
    if lines == [] {
      assert Render([]) == "";
    } else {
      TidyAfterLines(Init(lines), maxLen);
      var s := AfterLines(Init(lines), maxLen);
      TidyAfterNewline(s, maxLen);
      FieldsAreWords(Last(lines));
      TidyAfterWords(if |lines| > 1 then AfterNewline(s, maxLen) else s, Fields(Last(lines)), maxLen);
    }
  }

  /** Every message of a text that had to be split is its words and line breaks written out, without a character more. */
  lemma MessagesAreNeat(text: string, maxLen: int, i: nat)
    requires 0 < maxLen < Bytes(text) && i < |Split(text, maxLen)|
    ensures var c := Split(text, maxLen)[i]; c == Render(Tokens(c))
  {
    TidyAfterLines(Lines(text), maxLen);
    TidyAfterFlush(AfterLines(Lines(text), maxLen));
    assert AllNeat(Split(text, maxLen));
  }

  // ---------------------------------------------------------------- entities

  /** A delimiter that opens and closes with the same character. */
  predicate Toggles(d: char) {
    d == '*' || d == '_' || d == '`' || d == '~'
  }

  lemma StackGrows(s: string, c: char)
    ensures Stack(s + [c]) == Push(Stack(s), c)
  {
    assert Init(s + [c]) == s;
  }

  lemma OpenThenClosed(open: seq<char>, d: char, close: char)
    requires (Toggles(d) && close == d && (open != [] ==> Last(open) != d)) || (d == '[' && close == ']')
    ensures Push(open, d) == open + [d] && Push(open + [d], close) == open
  {
    assert Last(open + [d]) == d && Init(open + [d]) == open;
  }

  lemma NoDelimiterIn(w: string)
    requires forall i :: 0 <= i < |w| ==> !Toggles(w[i]) && w[i] != '[' && w[i] != ']'
    ensures !HasDelimiter(w)
  {
  }

  /** Text without delimiters changes nothing; an entity is open from its opening delimiter to its closing one, and then gone. */
  lemma EntityOpensAndCloses(s: string, d: char, w: string, close: char)
    requires forall i :: 0 <= i < |w| ==> !Toggles(w[i]) && w[i] != '[' && w[i] != ']'
    requires (Toggles(d) && close == d && (Stack(s) != [] ==> Last(Stack(s)) != d)) || (d == '[' && close == ']')
    ensures Stack(s + w) == Stack(s)
    ensures Stack(s + [d] + w) == Stack(s) + [d]
    ensures Stack(s + [d] + w + [close]) == Stack(s)
  {
    NoDelimiterIn(w);
    PlainStack(s, w);
    StackGrows(s, d);
    PlainStack(s + [d], w);
    StackGrows(s + [d] + w, close);
    OpenThenClosed(Stack(s), d, close);
  }
}
