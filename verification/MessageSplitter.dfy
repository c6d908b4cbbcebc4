/**
  Splitting a broadcast text into messages.  The splitter prefers breaks between
  words, never closes a message inside an open Markdown entity unless the text
  ends there, and cuts a word only when it could not fit any message.
 */
module MessageSplitter {
  import opened Text

  // ---------------------------------------------------- what a split must keep

  /** The tokens of finished messages, each followed by a break. */
  function Closed(chunks: seq<string>): seq<Token> {
    if chunks == [] then [] else Closed(Init(chunks)) + Tokens(Last(chunks)) + [Break]
  }

  predicate AtStart(os: seq<Token>) {
    os == [] || Last(os) == Break
  }

  /** A word that fits no message and holds no delimiter. */
  predicate Cuttable(w: string, maxLen: nat) {
    Bytes(w) > maxLen && !HasDelimiter(w)
  }

  /** The pieces of a cut word, each but the last a message of its own. */
  function PieceTokens(ps: seq<string>): seq<Token> {
    if ps == [] then [] else Closed(Init(ps)) + [Word(Last(ps))]
  }

  /**
    The output os says what the input ts says: the same words and line breaks in
    the same order, except that message breaks are added, a line break at the start
    of a message is dropped, and a cuttable word becomes its pieces.
   */
  predicate Faithful(ts: seq<Token>, os: seq<Token>, maxLen: nat)
    decreases |ts|, |os|
  {
    || (ts == [] && os == [])
    || (os != [] && Last(os) == Break && Faithful(ts, Init(os), maxLen))
    || (ts != [] && os != [] && Last(os) == Last(ts) && Faithful(Init(ts), Init(os), maxLen))
    || (ts != [] && Last(ts) == Newline && AtStart(os) && Faithful(Init(ts), os, maxLen))
    || (ts != [] && Last(ts).Word? && WordWasCut(Last(ts).word, os, maxLen)
        && Faithful(Init(ts), BeforePieces(Last(ts).word, os, maxLen), maxLen))
  }

  predicate WordWasCut(w: string, os: seq<Token>, maxLen: nat) {
    var pieces := PieceTokens(HardSplit(w, maxLen));
    Cuttable(w, maxLen) && |pieces| <= |os| && os[|os| - |pieces|..] == pieces && AtStart(os[..|os| - |pieces|])
  }

  function BeforePieces(w: string, os: seq<Token>, maxLen: nat): seq<Token>
    requires WordWasCut(w, os, maxLen)
  {
    os[..|os| - |PieceTokens(HardSplit(w, maxLen))|]
  }

  /** The first word of a message. */
  function First(c: string): string {
    if Tokens(c) != [] && Tokens(c)[0].Word? then Tokens(c)[0].word else ""
  }

  predicate StartsWithWord(c: string) {
    Tokens(c) != [] && Tokens(c)[0].Word?
  }

  /** The last thing appended to c, a line break or a word, came while an entity was open at k. */
  predicate AppendedAt(c: string, k: nat)
    requires 0 < k < |c|
  {
    && Stack(c[..k]) != []
    && (|| c[k..] == "\n"
        || (c[k] == ' ' && IsWord(c[k + 1..]))
        || (c[k - 1] == '\n' && IsWord(c[k..])))
  }

  ghost predicate AppendedWhileOpen(c: string) {
    exists k :: 0 < k < |c| && AppendedAt(c, k)
  }

  /** When a message may be too long. */
  ghost predicate Bounded(c: string, maxLen: nat) {
    Bytes(c) <= maxLen || AppendedWhileOpen(c) || (IsWord(c) && HasDelimiter(c)) || |c| == 1
  }

  /** The break before b was needed: its first word had no room in a, or is a piece as long as fits. */
  predicate Tight(a: string, b: string, maxLen: nat) {
    Bytes(a) + 1 + Bytes(First(b)) > maxLen || Bytes(First(b)) + 4 > maxLen
  }

  ghost predicate GoodChunks(chunks: seq<string>, maxLen: nat) {
    && (forall i :: 0 <= i < |chunks| ==> StartsWithWord(chunks[i]) && Bounded(chunks[i], maxLen))
    && (forall i :: 0 < i < |chunks| ==> Tight(chunks[i - 1], chunks[i], maxLen))
  }

  predicate Balanced(chunks: seq<string>) {
    forall i :: 0 <= i < |chunks| ==> Stack(chunks[i]) == []
  }

  // ----------------------------------------------------- building it step by step

  /** The finished messages and the current one are a good split of what was read. */
  ghost predicate Good(maxLen: nat, chunks: seq<string>, cur: string, read: seq<Token>) {
    && GoodChunks(chunks, maxLen) && Balanced(chunks)
    && Faithful(read, Closed(chunks) + Tokens(cur), maxLen)
    && (cur != "" ==> StartsWithWord(cur) && Bounded(cur, maxLen))
    && (cur != "" && chunks != [] ==> Tight(Last(chunks), cur, maxLen))
  }

  lemma TokenRead(ts: seq<Token>, os: seq<Token>, t: Token, maxLen: nat)
    requires Faithful(ts, os, maxLen)
    ensures Faithful(ts + [t], os + [t], maxLen)
  {
    assert Init(ts + [t]) == ts && Init(os + [t]) == os;
  }

  lemma BreakAdded(ts: seq<Token>, os: seq<Token>, maxLen: nat)
    requires Faithful(ts, os, maxLen)
    ensures Faithful(ts, os + [Break], maxLen)
  {
    assert Init(os + [Break]) == os;
  }

  lemma NewlineDropped(ts: seq<Token>, os: seq<Token>, maxLen: nat)
    requires Faithful(ts, os, maxLen) && AtStart(os)
    ensures Faithful(ts + [Newline], os, maxLen)
  {
    assert Init(ts + [Newline]) == ts;
  }

  lemma WordCut(ts: seq<Token>, os: seq<Token>, w: string, maxLen: nat)
    requires Faithful(ts, os, maxLen) && AtStart(os) && Cuttable(w, maxLen)
    ensures Faithful(ts + [Word(w)], os + PieceTokens(HardSplit(w, maxLen)), maxLen)
  {
    var pieces := PieceTokens(HardSplit(w, maxLen));
    assert Init(ts + [Word(w)]) == ts;
    assert (os + pieces)[|os|..] == pieces && (os + pieces)[..|os|] == os;
  }

  lemma ClosedAtStart(chunks: seq<string>)
    ensures AtStart(Closed(chunks))
  {
  }

  lemma ClosedGrows(chunks: seq<string>, c: string)
    ensures Closed(chunks + [c]) == Closed(chunks) + Tokens(c) + [Break]
  {
    assert Init(chunks + [c]) == chunks;
  }

  lemma {:induction false} ClosedConcat(a: seq<string>, b: seq<string>)
    ensures Closed(a + b) == Closed(a) + Closed(b)
  {
    if b == [] {
      assert a + b == a;
    } else {
      var (front, c) := (Init(b), Last(b));
      assert b == front + [c] && a + b == (a + front) + [c];
      calc {
        Closed((a + front) + [c]);
        { ClosedGrows(a + front, c); }
        Closed(a + front) + Tokens(c) + [Break];
        { ClosedConcat(a, front); }
        Closed(a) + Closed(front) + Tokens(c) + [Break];
        Closed(a) + (Closed(front) + Tokens(c) + [Break]);
        { ClosedGrows(front, c); }
        Closed(a) + Closed(front + [c]);
      }
    }
  }

  /** The current message closed is faithful to the same input. */
  lemma FaithfulClosed(maxLen: nat, chunks: seq<string>, cur: string, read: seq<Token>)
    requires Faithful(read, Closed(chunks) + Tokens(cur), maxLen)
    ensures Faithful(read, Closed(chunks + [cur]), maxLen)
  {
    ClosedGrows(chunks, cur);
    BreakAdded(read, Closed(chunks) + Tokens(cur), maxLen);
  }

  lemma MessageAdded(maxLen: nat, chunks: seq<string>, cur: string)
    requires GoodChunks(chunks, maxLen) && StartsWithWord(cur) && Bounded(cur, maxLen)
    requires chunks != [] ==> Tight(Last(chunks), cur, maxLen)
    ensures GoodChunks(chunks + [cur], maxLen)
  {
  }

  lemma BalancedAdded(chunks: seq<string>, cur: string)
    requires Balanced(chunks) && Stack(cur) == []
    ensures Balanced(chunks + [cur])
  {
  }

  /** flush between entities. */
  lemma Flushed(maxLen: nat, chunks: seq<string>, cur: string, read: seq<Token>)
    requires Good(maxLen, chunks, cur, read) && cur != "" && Stack(cur) == []
    ensures Good(maxLen, chunks + [cur], "", read)
  {
    FaithfulClosed(maxLen, chunks, cur, read);
    MessageAdded(maxLen, chunks, cur);
    BalancedAdded(chunks, cur);
    assert Closed(chunks + [cur]) + Tokens("") == Closed(chunks + [cur]);
  }

  function Separator(cur: string): string {
    if cur == "" || Last(cur) == '\n' then "" else " "
  }

  lemma TokensAfterWord(cur: string, w: string)
    requires IsWord(w)
    ensures Tokens(cur + Separator(cur) + w) == Tokens(cur) + [Word(w)]
  {
    var base := cur + Separator(cur);
    if Separator(cur) == " " {
      SpaceAppended(cur, ' ');
    } else {
      assert base == cur;
    }
    WordAppended(base, w);
  }

  lemma SameStart(c: string, c': string)
    requires StartsWithWord(c) && Tokens(c) <= Tokens(c')
    ensures StartsWithWord(c') && First(c') == First(c)
  {
  }

  lemma WordIntoEntity(cur: string, w: string)
    requires Stack(cur) != [] && cur != "" && IsWord(w)
    ensures AppendedWhileOpen(cur + Separator(cur) + w)
  {
    var next := cur + Separator(cur) + w;
    assert next[..|cur|] == cur;
    assert next[|cur|..] == Separator(cur) + w;
    if Separator(cur) == " " {
      assert next[|cur| + 1..] == w;
    } else {
      assert next[|cur|..] == w;
    }
    assert AppendedAt(next, |cur|);
  }

  /** A word goes into the current message: it fits, or an entity is open. */
  lemma WordAdded(maxLen: nat, chunks: seq<string>, cur: string, read: seq<Token>, w: string)
    requires Good(maxLen, chunks, cur, read) && cur != "" && IsWord(w)
    requires Stack(cur) != [] || Bytes(cur + Separator(cur) + w) <= maxLen
    ensures Good(maxLen, chunks, cur + Separator(cur) + w, read + [Word(w)])
  {
    var next := cur + Separator(cur) + w;
    TokensAfterWord(cur, w);
    SameStart(cur, next);
    assert Closed(chunks) + Tokens(next) == Closed(chunks) + Tokens(cur) + [Word(w)];
    TokenRead(read, Closed(chunks) + Tokens(cur), Word(w), maxLen);
    if Stack(cur) != [] {
      WordIntoEntity(cur, w);
    }
  }

  /** A word starts a message: it fits alone, or is an over-long one with a delimiter. */
  lemma WordStarts(maxLen: nat, chunks: seq<string>, read: seq<Token>, w: string)
    requires Good(maxLen, chunks, "", read) && IsWord(w)
    requires Bytes(w) <= maxLen || HasDelimiter(w)
    requires chunks != [] ==> Bytes(Last(chunks)) + 1 + Bytes(w) > maxLen
    ensures Good(maxLen, chunks, w, read + [Word(w)])
  {
    WordAppended("", w);
    assert "" + w == w;
    assert Tokens(w) == [Word(w)];
    assert Closed(chunks) + Tokens("") == Closed(chunks);
    TokenRead(read, Closed(chunks), Word(w), maxLen);
  }

  lemma NewlineAdded(maxLen: nat, chunks: seq<string>, cur: string, read: seq<Token>)
    requires Good(maxLen, chunks, cur, read) && cur != ""
    requires Stack(cur) != [] || Bytes(cur) + 1 <= maxLen
    ensures Good(maxLen, chunks, cur + ['\n'], read + [Newline])
  {
    var next := cur + ['\n'];
    SpaceAppended(cur, '\n');
    assert Closed(chunks) + Tokens(next) == Closed(chunks) + Tokens(cur) + [Newline];
    TokenRead(read, Closed(chunks) + Tokens(cur), Newline, maxLen);
    assert First(next) == First(cur);
    assert Init(next) == cur;
    if Stack(cur) != [] {
      assert next[..|cur|] == cur && next[|cur|..] == "\n";
      assert AppendedAt(next, |cur|);
    }
  }

  lemma NewlineSkipped(maxLen: nat, chunks: seq<string>, read: seq<Token>)
    requires Good(maxLen, chunks, "", read)
    ensures Good(maxLen, chunks, "", read + [Newline])
  {
    assert Closed(chunks) + Tokens("") == Closed(chunks);
    ClosedAtStart(chunks);
    NewlineDropped(read, Closed(chunks), maxLen);
  }

  predicate Plain(w: string) {
    forall i :: 0 <= i < |w| ==> !IsSpace(w[i]) && w[i] !in DELIMITERS
  }

  predicate PlainWords(ps: seq<string>) {
    forall i :: 0 <= i < |ps| ==> ps[i] != "" && Plain(ps[i])
  }

  /** Pieces of a plain word are plain words. */
  lemma {:induction false} PiecesArePlain(w: string, maxLen: nat)
    requires Plain(w)
    ensures PlainWords(HardSplit(w, maxLen))
    decreases |w|
  {
    if w != "" {
      var k := if Fit(w, maxLen) == 0 then 1 else Fit(w, maxLen);
      PiecesArePlain(w[k..], maxLen);
      assert PlainWords([w[..k]] + HardSplit(w[k..], maxLen));
    }
  }

  /** A plain word alone is a good message and leaves nothing open. */
  lemma PlainAlone(p: string, maxLen: nat)
    requires IsWord(p) && !HasDelimiter(p)
    ensures Tokens(p) == [Word(p)] && First(p) == p && StartsWithWord(p) && Stack(p) == []
  {
    WordAppended("", p);
    PlainStack("", p);
    assert "" + p == p;
  }

  lemma PlainWordsAreMessages(ps: seq<string>, maxLen: nat)
    requires PlainWords(ps) && GoodPieces(ps, maxLen)
    ensures GoodChunks(ps, maxLen) && Balanced(ps)
    ensures forall i :: 0 <= i < |ps| ==> First(ps[i]) == ps[i] && Tokens(ps[i]) == [Word(ps[i])]
  {
    forall i | 0 <= i < |ps|
      ensures First(ps[i]) == ps[i] && Tokens(ps[i]) == [Word(ps[i])] && Stack(ps[i]) == []
    {
      PlainAlone(ps[i], maxLen);
    }
  }

  /** The pieces of a cut word would be good messages by themselves. */
  lemma PiecesAreMessages(w: string, maxLen: nat)
    requires IsWord(w) && Cuttable(w, maxLen)
    ensures var ps := HardSplit(w, maxLen);
            && ps != [] && GoodChunks(ps, maxLen) && Balanced(ps) && PlainWords(ps)
            && Tokens(Last(ps)) == [Word(Last(ps))]
            && Bytes(First(ps[0])) + 4 > maxLen
  {
    var ps := HardSplit(w, maxLen);
    assert Plain(w) by {
      forall i | 0 <= i < |w|
        ensures !IsSpace(w[i]) && w[i] !in DELIMITERS
      {
      }
    }
    PiecesRejoin(w, maxLen);
    PiecesArePlain(w, maxLen);
    PlainWordsAreMessages(ps, maxLen);
  }

  lemma BalancedJoined(a: seq<string>, b: seq<string>)
    requires Balanced(a) && Balanced(b)
    ensures Balanced(a + b)
  {
  }

  lemma MessagesJoined(a: seq<string>, b: seq<string>, maxLen: nat)
    requires GoodChunks(a, maxLen) && GoodChunks(b, maxLen) && Balanced(a) && Balanced(b)
    requires a != [] && b != [] ==> Tight(Last(a), b[0], maxLen)
    ensures GoodChunks(a + b, maxLen) && Balanced(a + b)
  {
    var all := a + b;
    BalancedJoined(a, b);
    forall i | 0 <= i < |all|
      ensures StartsWithWord(all[i]) && Bounded(all[i], maxLen)
    {
      assert all[i] == if i < |a| then a[i] else b[i - |a|];
    }
    forall i | 0 < i < |all|
      ensures Tight(all[i - 1], all[i], maxLen)
    {
      if i > |a| {
        assert all[i - 1] == b[i - |a| - 1] && all[i] == b[i - |a|];
      }
    }
  }

  /** The last of some good messages may be the current one. */
  lemma LastIsCurrent(all: seq<string>, maxLen: nat)
    requires all != [] && GoodChunks(all, maxLen) && Balanced(all)
    ensures GoodChunks(Init(all), maxLen) && Balanced(Init(all))
    ensures StartsWithWord(Last(all)) && Bounded(Last(all), maxLen) && Stack(Last(all)) == []
    ensures Init(all) != [] ==> Tight(Last(Init(all)), Last(all), maxLen)
  {
  }

  /** The pieces of a cut word follow the messages so far. */
  lemma PiecesFollow(maxLen: nat, chunks: seq<string>, w: string)
    requires GoodChunks(chunks, maxLen) && Balanced(chunks) && IsWord(w) && Cuttable(w, maxLen)
    ensures var ps := HardSplit(w, maxLen);
            && ps != [] && PlainWords(ps) && Tokens(Last(ps)) == [Word(Last(ps))]
            && GoodChunks(chunks + ps, maxLen) && Balanced(chunks + ps)
  {
    PiecesAreMessages(w, maxLen);
    MessagesJoined(chunks, HardSplit(w, maxLen), maxLen);
  }

  /** All but the last of them are messages, the last is the current one. */
  lemma PiecesPlaced(maxLen: nat, chunks: seq<string>, read: seq<Token>, w: string)
    requires Good(maxLen, chunks, "", read) && IsWord(w) && Cuttable(w, maxLen)
    ensures var ps := HardSplit(w, maxLen);
            && ps != [] && PlainWords(ps) && Stack(Last(ps)) == []
            && Good(maxLen, chunks + Init(ps), Last(ps), read + [Word(w)])
  {
    var ps := HardSplit(w, maxLen);
    PiecesFollow(maxLen, chunks, w);
    LastIsCurrent(chunks + ps, maxLen);
    assert Init(chunks + ps) == chunks + Init(ps) && Last(chunks + ps) == Last(ps);
    PiecesRead(maxLen, chunks, read, w);
  }

  lemma PiecesRead(maxLen: nat, chunks: seq<string>, read: seq<Token>, w: string)
    requires Faithful(read, Closed(chunks) + Tokens(""), maxLen) && Cuttable(w, maxLen)
    requires var ps := HardSplit(w, maxLen); ps != [] && Tokens(Last(ps)) == [Word(Last(ps))]
    ensures var ps := HardSplit(w, maxLen);
            Faithful(read + [Word(w)], Closed(chunks + Init(ps)) + Tokens(Last(ps)), maxLen)
  {
    var ps := HardSplit(w, maxLen);
    assert Closed(chunks) + Tokens("") == Closed(chunks);
    ClosedAtStart(chunks);
    WordCut(read, Closed(chunks), w, maxLen);
    ClosedConcat(chunks, Init(ps));
    assert Closed(chunks + Init(ps)) + Tokens(Last(ps)) == Closed(chunks) + PieceTokens(ps);
  }

  // ---------------------------------------------------------------- the code

  /** splitMessage's variables. */
  datatype State = State(chunks: seq<string>, cur: string, open: seq<char>, lastNewline: bool)

  const Start := State([], "", [], false)

  function AfterFlush(s: State): State {
    if s.cur == "" then s.(lastNewline := false) else State(s.chunks + [s.cur], "", [], false)
  }

  /** updateEntities. */
  function Opened(open: seq<char>, seg: string): seq<char> {
    if seg == "" then open else Push(Opened(open, Init(seg)), Last(seg))
  }

  function Append(s: State, glue: string, word: string): State {
    State(s.chunks, s.cur + glue + word, Opened(s.open, word), false)
  }

  function Glue(s: State): string {
    if s.cur != "" && !s.lastNewline then " " else ""
  }

  predicate NoRoom(s: State, word: string, maxLen: nat) {
    s.open == [] && s.cur != "" && Bytes(s.cur) + |Glue(s)| + Bytes(word) > maxLen
  }

  function AfterWord(s: State, word: string, maxLen: nat): State {
    if NoRoom(s, word, maxLen) then Append(AfterFlush(s), "", word) else Append(s, Glue(s), word)
  }

  function AfterNewline(s: State, maxLen: nat): State {
    if s.cur == "" then s
    else if s.open == [] && Bytes(s.cur) + 1 > maxLen then AfterFlush(s)
    else s.(cur := s.cur + ['\n'], lastNewline := true)
  }

  function AfterPieces(s: State, pieces: seq<string>): State {
    if pieces == [] then AfterFlush(s)
    else State(AfterFlush(s).chunks + Init(pieces), Last(pieces), [], false)
  }

  /** One word of the text, cut if it must and may be. */
  function AfterToken(s: State, w: string, maxLen: nat): State {
    if Cuttable(w, maxLen) && s.open == [] then AfterPieces(s, HardSplit(w, maxLen)) else AfterWord(s, w, maxLen)
  }

  function AfterWords(s: State, words: seq<string>, maxLen: nat): State {
    if words == [] then s else AfterToken(AfterWords(s, Init(words), maxLen), Last(words), maxLen)
  }

  function AfterLines(lines: seq<string>, maxLen: nat): State {
    if lines == [] then Start
    else
      var s := AfterLines(Init(lines), maxLen);
      AfterWords(if |lines| > 1 then AfterNewline(s, maxLen) else s, Fields(Last(lines)), maxLen)
  }

  /** splitMessage. */
  function Split(text: string, maxLen: int): seq<string> {
    if maxLen <= 0 || Bytes(text) <= maxLen then [text]
    else AfterFlush(AfterLines(Lines(text), maxLen)).chunks
  }

  /** The variables agree with one another and with what was read. */
  ghost predicate Sound(maxLen: nat, s: State, read: seq<Token>) {
    && Good(maxLen, s.chunks, s.cur, read)
    && s.open == Stack(s.cur)
    && (s.lastNewline <==> s.cur != "" && Last(s.cur) == '\n')
    && (s.cur == "" && s.chunks != [] ==> Bytes(Last(s.chunks)) + 1 > maxLen)
  }

  lemma {:induction false} OpenedIsStack(a: string, b: string)
    ensures Opened(Stack(a), b) == Stack(a + b)
  {
    if b == "" {
      assert a + b == a;
    } else {
      var (front, c) := (Init(b), Last(b));
      OpenedIsStack(a, front);
      assert Init(a + b) == a + front;
    }
  }

  lemma SumOfBytes(cur: string, word: string)
    ensures Bytes(cur + Separator(cur) + word) == Bytes(cur) + |Separator(cur)| + Bytes(word)
  {
    BytesConcat(cur + Separator(cur), word);
    BytesConcat(cur, Separator(cur));
  }

  lemma StackOfWord(cur: string, word: string)
    ensures Opened(Stack(cur), word) == Stack(cur + Separator(cur) + word)
  {
    PlainStack(cur, Separator(cur));
    OpenedIsStack(cur + Separator(cur), word);
  }

  lemma FirstWordSound(maxLen: nat, s: State, read: seq<Token>, word: string)
    requires Good(maxLen, s.chunks, "", read) && IsWord(word) && s.cur == "" && s.open == []
    requires Bytes(word) <= maxLen || HasDelimiter(word)
    requires s.chunks != [] ==> Bytes(Last(s.chunks)) + 1 + Bytes(word) > maxLen
    ensures Append(s, "", word).cur == word != ""
    ensures Sound(maxLen, Append(s, "", word), read + [Word(word)])
  {
    WordStarts(maxLen, s.chunks, read, word);
    OpenedIsStack("", word);
    assert s.cur + "" + word == word && "" + word == word;
  }

  lemma NextWordSound(maxLen: nat, s: State, read: seq<Token>, word: string)
    requires Sound(maxLen, s, read) && IsWord(word) && s.cur != "" && !NoRoom(s, word, maxLen)
    ensures Append(s, Glue(s), word).cur != ""
    ensures Sound(maxLen, Append(s, Glue(s), word), read + [Word(word)])
  {
    assert Glue(s) == Separator(s.cur);
    SumOfBytes(s.cur, word);
    StackOfWord(s.cur, word);
    WordAdded(maxLen, s.chunks, s.cur, read, word);
    assert Last(s.cur + Glue(s) + word) == Last(word);
  }

  lemma WordKeepsSound(maxLen: nat, s: State, read: seq<Token>, word: string)
    requires Sound(maxLen, s, read) && IsWord(word)
    requires Bytes(word) <= maxLen || s.open != [] || HasDelimiter(word)
    ensures AfterWord(s, word, maxLen).cur != ""
    ensures Sound(maxLen, AfterWord(s, word, maxLen), read + [Word(word)])
  {
    if NoRoom(s, word, maxLen) {
      Flushed(maxLen, s.chunks, s.cur, read);
      FirstWordSound(maxLen, AfterFlush(s), read, word);
    } else if s.cur == "" {
      FirstWordSound(maxLen, s, read, word);
    } else {
      NextWordSound(maxLen, s, read, word);
    }
  }

  lemma NewlineKeepsSound(maxLen: nat, s: State, read: seq<Token>)
    requires Sound(maxLen, s, read)
    ensures Sound(maxLen, AfterNewline(s, maxLen), read + [Newline])
  {
    if s.cur == "" {
      NewlineSkipped(maxLen, s.chunks, read);
    } else if s.open == [] && Bytes(s.cur) + 1 > maxLen {
      Flushed(maxLen, s.chunks, s.cur, read);
      NewlineSkipped(maxLen, s.chunks + [s.cur], read);
    } else {
      NewlineAdded(maxLen, s.chunks, s.cur, read);
      PlainStack(s.cur, ['\n']);
    }
  }

  lemma PiecesKeepSound(maxLen: nat, s: State, read: seq<Token>, word: string)
    requires Sound(maxLen, s, read) && IsWord(word) && Cuttable(word, maxLen) && s.open == []
    ensures AfterPieces(s, HardSplit(word, maxLen)).cur != ""
    ensures Sound(maxLen, AfterPieces(s, HardSplit(word, maxLen)), read + [Word(word)])
  {
    if s.cur != "" {
      Flushed(maxLen, s.chunks, s.cur, read);
    }
    PiecesPlaced(maxLen, AfterFlush(s).chunks, read, word);
  }

  lemma NoEmptyPiece(w: string, maxLen: nat)
    ensures forall i :: 0 <= i < |HardSplit(w, maxLen)| ==> HardSplit(w, maxLen)[i] != ""
  {
    PiecesRejoin(w, maxLen);
  }

  class Splitter {
    const maxLen: nat
    var chunks: seq<string>
    var cur: string
    var open: seq<char>
    var lastNewline: bool

    ghost function Now(): State
      reads this
    {
      State(chunks, cur, open, lastNewline)
    }

    constructor (maxLen: nat)
      ensures this.maxLen == maxLen && Now() == Start
    {
      this.maxLen := maxLen;
      chunks, cur, open, lastNewline := [], "", [], false;
    }

    method Flush()
      modifies this
      ensures Now() == AfterFlush(old(Now()))
    {
      if cur != "" {
        chunks := chunks + [cur];
        cur := "";
        open := [];
      }
      lastNewline := false;
    }

    method UpdateEntities(seg: string)
      modifies `open
      ensures open == Opened(old(open), seg)
    {
      for i := 0 to |seg|
        invariant open == Opened(old(open), seg[..i])
      {
        assert Init(seg[..i + 1]) == seg[..i];
        var r := seg[i];
        match r
        case '[' => open := open + ['['];
        case ']' =>
          if |open| > 0 && open[|open| - 1] == '[' {
            open := open[..|open| - 1];
          } else {
            open := open + [']'];
          }
        case '*' | '_' | '`' | '~' =>
          if |open| > 0 && open[|open| - 1] == r {
            open := open[..|open| - 1];
          } else {
            open := open + [r];
          }
        case _ =>
      }
      assert seg[..|seg|] == seg;
    }

    method AddWord(word: string)
      modifies this
      ensures Now() == AfterWord(old(Now()), word, maxLen)
    {
      var sep := if cur != "" && !lastNewline then 1 else 0;
      if open == [] && cur != "" && Bytes(cur) + sep + Bytes(word) > maxLen {
        Flush();
      }
      if cur != "" && !lastNewline {
        cur := cur + " ";
      }
      cur := cur + word;
      lastNewline := false;
      UpdateEntities(word);
    }

    /** The break between two lines. */
    method AddNewline()
      modifies this
      ensures Now() == AfterNewline(old(Now()), maxLen)
    {
      if cur != "" {
        if open == [] && Bytes(cur) + 1 > maxLen {
          Flush();
        } else {
          cur := cur + ['\n'];
          lastNewline := true;
        }
      }
    }

    /** An over-long plain word outside any entity. */
    method AddPieces(word: string)
      requires open == []
      modifies this
      ensures Now() == AfterPieces(old(Now()), HardSplit(word, maxLen))
    {
      Flush();
      ghost var before := Now();
      var pieces := HardSplitToken(word, maxLen);
      NoEmptyPiece(word, maxLen);
      for i := 0 to |pieces|
        invariant Now() == if i == 0 then before else State(before.chunks + pieces[..i - 1], pieces[i - 1], [], false)
      {
        if cur != "" {
          Flush();
          assert before.chunks + pieces[..i] == before.chunks + pieces[..i - 1] + [pieces[i - 1]];
        }
        cur := pieces[i];
      }
    }
  }

  method ContainsEntityChar(s: string) returns (found: bool)
    ensures found <==> HasDelimiter(s)
  {
    for i := 0 to |s|
      invariant forall j :: 0 <= j < i ==> s[j] !in DELIMITERS
    {
      match s[i]
      case '*' | '_' | '`' | '~' | '[' | ']' => return true;
      case _ =>
    }
    found := false;
  }

  /** One more piece cut off the front of what is left. */
  lemma PieceCut(out: seq<string>, runes: string, maxLen: nat, take: nat)
    requires runes != "" && take == if Fit(runes, maxLen) == 0 then 1 else Fit(runes, maxLen)
    ensures out + [runes[..take]] + HardSplit(runes[take..], maxLen) == out + HardSplit(runes, maxLen)
  {
  }

  method HardSplitToken(word: string, maxLen: nat) returns (out: seq<string>)
    ensures out == HardSplit(word, maxLen)
  {
    out := [];
    var runes := word;
    while |runes| > 0
      invariant out + HardSplit(runes, maxLen) == HardSplit(word, maxLen)
    {
      var take := 0;
      while take < |runes| && Bytes(runes[..take + 1]) <= maxLen
        invariant 0 <= take <= |runes| && Bytes(runes[..take]) <= maxLen
      {
        take := take + 1;
      }
      FitIsLongest(runes, maxLen, take);
      if take == 0 {
        take := 1;
      }
      PieceCut(out, runes, maxLen, take);
      out := out + [runes[..take]];
      runes := runes[take..];
    }
  }

  method AddWords(s: Splitter, words: seq<string>)
    modifies s
    ensures s.Now() == AfterWords(old(s.Now()), words, s.maxLen)
  {
    for k := 0 to |words|
      invariant s.Now() == AfterWords(old(s.Now()), words[..k], s.maxLen)
    {
      assert Init(words[..k + 1]) == words[..k];
      var delimited := ContainsEntityChar(words[k]);
      if Bytes(words[k]) > s.maxLen && s.open == [] && !delimited {
        s.AddPieces(words[k]);
      } else {
        s.AddWord(words[k]);
      }
    }
    assert words[..|words|] == words;
  }

  method SplitMessage(text: string, maxLen: int) returns (result: seq<string>)
    ensures result == Split(text, maxLen)
  {
    if maxLen <= 0 || Bytes(text) <= maxLen {
      return [text];
    }
    var s := new Splitter(maxLen);
    var lines := Lines(text);
    for li := 0 to |lines|
      invariant fresh(s) && s.maxLen == maxLen && s.Now() == AfterLines(lines[..li], maxLen)
    {
      assert Init(lines[..li + 1]) == lines[..li];
      if li > 0 {
        s.AddNewline();
      }
      AddWords(s, Fields(lines[li]));
    }
    assert lines[..|lines|] == lines;
    s.Flush();
    result := s.chunks;
  }

  // ------------------------------------------------------------ what it gives

  lemma TokenKeepsSound(maxLen: nat, s: State, read: seq<Token>, w: string)
    requires Sound(maxLen, s, read) && IsWord(w)
    ensures Sound(maxLen, AfterToken(s, w, maxLen), read + [Word(w)])
  {
    if Cuttable(w, maxLen) && s.open == [] {
      PiecesKeepSound(maxLen, s, read, w);
    } else {
      WordKeepsSound(maxLen, s, read, w);
    }
  }

  lemma WrapGrows(read: seq<Token>, words: seq<string>)
    requires words != []
    ensures read + Wrap(words) == read + Wrap(Init(words)) + [Word(Last(words))]
  {
  }

  lemma {:induction false} WordsKeepSound(maxLen: nat, s: State, read: seq<Token>, words: seq<string>)
    requires Sound(maxLen, s, read)
    requires forall i :: 0 <= i < |words| ==> IsWord(words[i])
    ensures Sound(maxLen, AfterWords(s, words, maxLen), read + Wrap(words))
  {
    assert read + Wrap([]) == read;
    if words != [] {
      var (front, w) := (Init(words), Last(words));
      var m, before := AfterWords(s, front, maxLen), read + Wrap(front);
      WordsKeepSound(maxLen, s, read, front);
      TokenKeepsSound(maxLen, m, before, w);
      WrapGrows(read, words);
    }
  }

  lemma {:induction false} LinesKeepSound(maxLen: nat, lines: seq<string>)
    requires forall i :: 0 <= i < |lines| ==> '\n' !in lines[i]
    ensures Sound(maxLen, AfterLines(lines, maxLen), LineTokens(lines))
  {
    if lines != [] {
      var (front, l) := (Init(lines), Last(lines));
      LinesKeepSound(maxLen, front);
      var s, read := AfterLines(front, maxLen), LineTokens(front);
      FieldsAreWords(l);
      if |lines| > 1 {
        NewlineKeepsSound(maxLen, s, read);
        WordsKeepSound(maxLen, AfterNewline(s, maxLen), read + [Newline], Fields(l));
      } else {
        WordsKeepSound(maxLen, s, read, Fields(l));
      }
    }
  }

  lemma LastFlush(maxLen: nat, chunks: seq<string>, cur: string, read: seq<Token>, result: seq<string>)
    requires Good(maxLen, chunks, cur, read)
    requires result == if cur == "" then chunks else chunks + [cur]
    ensures Faithful(read, Closed(result), maxLen) && GoodChunks(result, maxLen)
    ensures forall i :: 0 <= i < |result| - 1 ==> Stack(result[i]) == []
  {
    if cur == "" {
      assert Closed(chunks) + Tokens("") == Closed(chunks);
    } else {
      FaithfulClosed(maxLen, chunks, cur, read);
      MessageAdded(maxLen, chunks, cur);
    }
  }

  /**
    A text longer than the limit is split faithfully into messages that start with
    a word, waste no room, are too long only for an open entity or one unbreakable
    word, and leave no entity open except perhaps in the last.
   */
  lemma SplitIsGood(text: string, maxLen: int)
    ensures maxLen <= 0 || Bytes(text) <= maxLen ==> Split(text, maxLen) == [text]
    ensures 0 < maxLen < Bytes(text) ==>
              var r := Split(text, maxLen);
              && Faithful(Tokens(text), Closed(r), maxLen)
              && GoodChunks(r, maxLen)
              && forall i :: 0 <= i < |r| - 1 ==> Stack(r[i]) == []
  {
    if 0 < maxLen < Bytes(text) {
      LinesEnd(text);
      LinesKeepSound(maxLen, Lines(text));
      LinesHoldTheTokens(text);
      var s := AfterLines(Lines(text), maxLen);
      LastFlush(maxLen, s.chunks, s.cur, Tokens(text), Split(text, maxLen));
    }
  }

  // ------------------------------------------------- nothing written gets lost

  function NonSpace(s: string): string {
    if s == "" then "" else NonSpace(Init(s)) + if IsSpace(Last(s)) then "" else [Last(s)]
  }

  function Letters(ts: seq<Token>): string {
    if ts == [] then "" else Letters(Init(ts)) + if Last(ts).Word? then Last(ts).word else ""
  }

  lemma {:induction false} LettersConcat(a: seq<Token>, b: seq<Token>)
    ensures Letters(a + b) == Letters(a) + Letters(b)
  {
    if b == [] {
      assert a + b == a;
    } else {
      var (front, last) := (Init(b), Last(b));
      assert Init(a + b) == a + front && Last(a + b) == last;
      LettersConcat(a, front);
      var end := if last.Word? then last.word else "";
      assert Letters(a) + (Letters(front) + end) == (Letters(a) + Letters(front)) + end;
    }
  }

  lemma NonSpaceGrows(s: string, c: char)
    ensures NonSpace(s + [c]) == NonSpace(s) + if IsSpace(c) then "" else [c]
  {
    assert Init(s + [c]) == s;
  }

  lemma {:induction false} NonSpaceConcat(a: string, b: string)
    ensures NonSpace(a + b) == NonSpace(a) + NonSpace(b)
  {
    if b == "" {
      assert a + b == a;
    } else {
      var (front, c) := (Init(b), Last(b));
      assert a + b == (a + front) + [c] && b == front + [c];
      NonSpaceConcat(a, front);
      NonSpaceGrows(a + front, c);
      NonSpaceGrows(front, c);
    }
  }

  lemma LettersExtended(ts: seq<Token>, inWord: bool, c: char)
    ensures Letters(Extend(ts, inWord, c)) == Letters(ts) + if IsSpace(c) then "" else [c]
  {
    var r := Extend(ts, inWord, c);
    if r != ts {
      assert Init(r) == if inWord && ts != [] && Last(ts).Word? && !IsSpace(c) then Init(ts) else ts;
    }
  }

  lemma {:induction false} LettersOfText(s: string)
    ensures Letters(Tokens(s)) == NonSpace(s)
  {
    if s != "" {
      LettersOfText(Init(s));
      LettersExtended(Tokens(Init(s)), InWord(Init(s)), Last(s));
    }
  }

  lemma {:induction false} JoinGrows(parts: seq<string>, c: string)
    ensures Join(parts + [c]) == Join(parts) + c
  {
    if parts != [] {
      assert (parts + [c])[1..] == parts[1..] + [c];
      JoinGrows(parts[1..], c);
    }
  }

  /** One more message spells one more text. */
  lemma MessageSpells(chunks: seq<string>, c: string)
    requires Letters(Closed(chunks)) == NonSpace(Join(chunks))
    ensures Letters(Closed(chunks + [c])) == NonSpace(Join(chunks + [c]))
  {
    calc {
      Letters(Closed(chunks + [c]));
      { ClosedGrows(chunks, c); }
      Letters(Closed(chunks) + Tokens(c) + [Break]);
      { LettersConcat(Closed(chunks) + Tokens(c), [Break]); }
      Letters(Closed(chunks) + Tokens(c)) + Letters([Break]);
      { assert Letters([Break]) == ""; }
      Letters(Closed(chunks) + Tokens(c));
      { LettersConcat(Closed(chunks), Tokens(c)); }
      Letters(Closed(chunks)) + Letters(Tokens(c));
      { LettersOfText(c); }
      NonSpace(Join(chunks)) + NonSpace(c);
      { NonSpaceConcat(Join(chunks), c); }
      NonSpace(Join(chunks) + c);
      { JoinGrows(chunks, c); }
      NonSpace(Join(chunks + [c]));
    }
  }

  lemma {:induction false} LettersOfMessages(chunks: seq<string>)
    ensures Letters(Closed(chunks)) == NonSpace(Join(chunks))
  {
    if chunks != [] {
      LettersOfMessages(Init(chunks));
      MessageSpells(Init(chunks), Last(chunks));
      assert chunks == Init(chunks) + [Last(chunks)];
    }
  }

  predicate Unspaced(w: string) {
    forall i :: 0 <= i < |w| ==> !IsSpace(w[i])
  }

  lemma {:induction false} PlainIsNonSpace(w: string)
    requires Unspaced(w)
    ensures NonSpace(w) == w
  {
    if w != "" {
      var (front, c) := (Init(w), w[|w| - 1]);
      calc {
        NonSpace(w);
        { assert w == front + [c]; }
        NonSpace(front + [c]);
        { NonSpaceGrows(front, c); }
        NonSpace(front) + [c];
        { PlainIsNonSpace(front); }
        front + [c];
        w;
      }
    }
  }

  lemma PiecesSpell(ps: seq<string>)
    requires PlainWords(ps)
    ensures Letters(PieceTokens(ps)) == NonSpace(Join(ps))
  {
    if ps != [] {
      var (front, p) := (Init(ps), Last(ps));
      assert Plain(p);
      calc {
        Letters(PieceTokens(ps));
        Letters(Closed(front) + [Word(p)]);
        { LettersConcat(Closed(front), [Word(p)]); }
        Letters(Closed(front)) + Letters([Word(p)]);
        { assert Letters([Word(p)]) == Letters([]) + p; }
        Letters(Closed(front)) + p;
        { LettersOfMessages(front); PlainIsNonSpace(p); }
        NonSpace(Join(front)) + NonSpace(p);
        { NonSpaceConcat(Join(front), p); }
        NonSpace(Join(front) + p);
        { JoinGrows(front, p); assert ps == front + [p]; }
        NonSpace(Join(ps));
      }
    }
  }

  lemma PiecesSpellTheWord(w: string, before: seq<Token>, maxLen: nat)
    requires Plain(w)
    ensures Letters(before + PieceTokens(HardSplit(w, maxLen))) == Letters(before) + w
  {
    PiecesRejoin(w, maxLen);
    PiecesArePlain(w, maxLen);
    PiecesSpell(HardSplit(w, maxLen));
    PlainIsNonSpace(w);
    LettersConcat(before, PieceTokens(HardSplit(w, maxLen)));
  }

  ghost predicate WordsOnly(ts: seq<Token>) {
    forall i :: 0 <= i < |ts| && ts[i].Word? ==> IsWord(ts[i].word)
  }

  lemma {:induction false} FaithfulKeepsLetters(ts: seq<Token>, os: seq<Token>, maxLen: nat)
    requires Faithful(ts, os, maxLen) && WordsOnly(ts)
    ensures Letters(ts) == Letters(os)
    decreases |ts|, |os|
  {
    if ts == [] && os == [] {
    } else if os != [] && Last(os) == Break && Faithful(ts, Init(os), maxLen) {
      FaithfulKeepsLetters(ts, Init(os), maxLen);
    } else if ts != [] && os != [] && Last(os) == Last(ts) && Faithful(Init(ts), Init(os), maxLen) {
      FaithfulKeepsLetters(Init(ts), Init(os), maxLen);
    } else if ts != [] && Last(ts) == Newline && AtStart(os) && Faithful(Init(ts), os, maxLen) {
      FaithfulKeepsLetters(Init(ts), os, maxLen);
    } else {
      var w := Last(ts).word;
      var before := BeforePieces(w, os, maxLen);
      FaithfulKeepsLetters(Init(ts), before, maxLen);
      CutWordIsPlain(w, maxLen);
      PiecesSpellTheWord(w, before, maxLen);
      CutAgain(w, os, maxLen);
    }
  }

  lemma CutAgain(w: string, os: seq<Token>, maxLen: nat)
    requires WordWasCut(w, os, maxLen)
    ensures BeforePieces(w, os, maxLen) + PieceTokens(HardSplit(w, maxLen)) == os
  {
  }

  lemma CutWordIsPlain(w: string, maxLen: nat)
    requires IsWord(w) && Cuttable(w, maxLen)
    ensures Plain(w)
  {
    forall i | 0 <= i < |w|
      ensures !IsSpace(w[i]) && w[i] !in DELIMITERS
    {
    }
  }

  lemma {:induction false} TextIsWords(s: string)
    ensures WordsOnly(Tokens(s))
  {
    if s != "" {
      TextIsWords(Init(s));
    }
  }

  /** Every character that is not a space arrives, once and in order. */
  lemma NothingLost(text: string, maxLen: int)
    ensures NonSpace(Join(Split(text, maxLen))) == NonSpace(text)
  {
    var r := Split(text, maxLen);
    SplitIsGood(text, maxLen);
    if 0 < maxLen < Bytes(text) {
      TextIsWords(text);
      FaithfulKeepsLetters(Tokens(text), Closed(r), maxLen);
      LettersOfText(text);
      LettersOfMessages(r);
    } else {
      assert Join([text]) == text + Join([]) == text;
    }
  }

  /**
    A text longer than the limit yields no message at all exactly when it is blank;
    a recipient of such a campaign is marked sent without a send.
   */
  lemma NoMessagesForBlankText(text: string, maxLen: int)
    requires 0 < maxLen < Bytes(text)
    ensures Split(text, maxLen) == [] <==> NonSpace(text) == ""
  {
    var r := Split(text, maxLen);
    SplitIsGood(text, maxLen);
    NothingLost(text, maxLen);
    if r != [] {
      assert StartsWithWord(r[0]);
      TextIsWords(r[0]);
      LettersOfText(r[0]);
      FirstWordShows(Tokens(r[0]));
      assert Join(r) == r[0] + Join(r[1..]);
      NonSpaceConcat(r[0], Join(r[1..]));
    }
  }

  lemma {:induction false} FirstWordShows(ts: seq<Token>)
    requires ts != [] && ts[0].Word? && WordsOnly(ts)
    ensures Letters(ts) != ""
  {
    if |ts| == 1 {
      assert Letters(ts) == Letters([]) + ts[0].word;
    } else {
      FirstWordShows(Init(ts));
    }
  }

  /** With room for any one character, only entities and delimited words make a message too long. */
  lemma OversizeOnlyForEntities(text: string, maxLen: int, i: nat)
    requires 4 <= maxLen < Bytes(text) && i < |Split(text, maxLen)|
    ensures var c := Split(text, maxLen)[i];
            Bytes(c) > maxLen ==> AppendedWhileOpen(c) || (IsWord(c) && HasDelimiter(c))
  {
    SplitIsGood(text, maxLen);
    var c := Split(text, maxLen)[i];
    assert Bounded(c, maxLen);
    if |c| == 1 {
      assert Bytes(c) == Bytes(Init(c)) + Width(Last(c)) && Init(c) == "";
    }
  }
}
