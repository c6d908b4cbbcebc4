/**
  Text as the splitter sees it: UTF-8 sizes, the words and line breaks of a text,
  the stack of open Markdown entities, and cutting an over-long word.
 */
module Text {
  const DELIMITERS := ['*', '_', '`', '~', '[', ']']

  datatype Token = Word(word: string) | Newline | Break

  function Last<T>(s: seq<T>): T
    requires s != []
  {
    s[|s| - 1]
  }

  function Init<T>(s: seq<T>): seq<T>
    requires s != []
  {
    s[..|s| - 1]
  }

  // ------------------------------------------------------------------- sizes

  /** Bytes of a character in UTF-8. */
  function Width(c: char): (w: nat)
    ensures 1 <= w <= 4
    ensures (w == 1 <==> c as int < 0x80) && (w <= 2 <==> c as int < 0x800) && (w <= 3 <==> c as int < 0x1_0000)
  {
    if c < '\U{80}' then 1 else if c < '\U{800}' then 2 else if c < '\U{10000}' then 3 else 4
  }

  function Bytes(s: string): nat {
    if s == "" then 0 else Bytes(Init(s)) + Width(Last(s))
  }

  lemma {:induction false} BytesConcat(a: string, b: string)
    ensures Bytes(a + b) == Bytes(a) + Bytes(b)
  {
    if b == "" {
      assert a + b == a;
    } else {
      assert Init(a + b) == a + Init(b);
      BytesConcat(a, Init(b));
    }
  }

  lemma BytesAtLeast(s: string)
    ensures Bytes(s) >= |s|
  {
    if s != "" {
      BytesAtLeast(Init(s));
    }
  }

  // ------------------------------------------------------------------- words

  /** unicode.IsSpace. */
  predicate IsSpace(c: char) {
    || '\t' <= c <= '\r' || c == ' ' || c == '\U{85}' || c == '\U{A0}' || c == '\U{1680}'
    || '\U{2000}' <= c <= '\U{200A}' || c == '\U{2028}' || c == '\U{2029}'
    || c == '\U{202F}' || c == '\U{205F}' || c == '\U{3000}'
  }

  predicate IsWord(w: string) {
    w != "" && forall i :: 0 <= i < |w| ==> !IsSpace(w[i])
  }

  /** The text ends inside a word. */
  predicate InWord(s: string) {
    s != "" && !IsSpace(Last(s))
  }

  /** One more character: it joins the last word, starts a word, or separates. */
  function Extend(ts: seq<Token>, inWord: bool, c: char): (r: seq<Token>)
    ensures !IsSpace(c) ==> r != [] && Last(r).Word?
  {
    if c == '\n' then ts + [Newline]
    else if IsSpace(c) then ts
    else if inWord && ts != [] && Last(ts).Word? then Init(ts) + [Word(Last(ts).word + [c])]
    else ts + [Word([c])]
  }

  /** The words of a text and its line breaks, in order. */
  function Tokens(s: string): (r: seq<Token>)
    ensures InWord(s) ==> r != [] && Last(r).Word?
  {
    if s == "" then [] else Extend(Tokens(Init(s)), InWord(Init(s)), Last(s))
  }

  /** strings.Fields. */
  function Fields(s: string): (r: seq<string>)
    ensures s != "" && !IsSpace(Last(s)) ==> r != []
  {
    if s == "" then []
    else
      var (before, c) := (Fields(Init(s)), Last(s));
      if IsSpace(c) then before
      else if Init(s) == "" || IsSpace(Last(Init(s))) then before + [[c]]
      else Init(before) + [Last(before) + [c]]
  }

  function Wrap(words: seq<string>): seq<Token> {
    seq(|words|, i requires 0 <= i < |words| => Word(words[i]))
  }

  lemma WordGrows(words: seq<string>, c: char)
    requires words != [] && !IsSpace(c) && forall i :: 0 <= i < |words| ==> IsWord(words[i])
    ensures IsWord(Last(words) + [c])
    ensures Wrap(Init(words) + [Last(words) + [c]]) == Init(Wrap(words)) + [Word(Last(words) + [c])]
  {
    assert IsWord(Last(words));
  }

  lemma {:induction false} FieldsAreWords(s: string)
    ensures forall i :: 0 <= i < |Fields(s)| ==> IsWord(Fields(s)[i])
    ensures '\n' !in s ==> Tokens(s) == Wrap(Fields(s))
  {
    if s != "" {
      var (words, c) := (Fields(Init(s)), Last(s));
      FieldsAreWords(Init(s));
      if !IsSpace(c) && Init(s) != "" && !IsSpace(Last(Init(s))) {
        assert Fields(s) == Init(words) + [Last(words) + [c]];
        WordGrows(words, c);
      }
    }
  }

  /** strings.Split at line breaks. */
  function Lines(s: string): (r: seq<string>)
    ensures r != []
  {
    if s == "" then [""]
    else if Last(s) == '\n' then Lines(Init(s)) + [""]
    else Init(Lines(Init(s))) + [Last(Lines(Init(s))) + [Last(s)]]
  }

  /** The words of the lines, with a line break between two lines. */
  function LineTokens(lines: seq<string>): seq<Token> {
    if lines == [] then []
    else LineTokens(Init(lines)) + (if |lines| > 1 then [Newline] else []) + Tokens(Last(lines))
  }

  /** The last line is what follows the last line break, and no line holds one. */
  lemma {:induction false} LinesEnd(s: string)
    ensures forall i :: 0 <= i < |Lines(s)| ==> '\n' !in Lines(s)[i]
    ensures s == "" || Last(s) == '\n' ==> Last(Lines(s)) == ""
    ensures s != "" && Last(s) != '\n' ==> Last(Lines(s)) != "" && Last(Last(Lines(s))) == Last(s)
  {
    if s != "" {
      LinesEnd(Init(s));
    }
  }

  lemma LastLineGrows(lines: seq<string>, l': string)
    requires lines != []
    ensures LineTokens(Init(lines) + [l']) ==
              LineTokens(Init(lines)) + (if |lines| > 1 then [Newline] else []) + Tokens(l')
  {
    assert Init(Init(lines) + [l']) == Init(lines);
  }

  lemma LineAdded(lines: seq<string>, l: string)
    ensures LineTokens(lines + [l]) == LineTokens(lines) + (if lines != [] then [Newline] else []) + Tokens(l)
  {
    assert Init(lines + [l]) == lines;
  }

  lemma ExtendBehind(front: seq<Token>, ts: seq<Token>, inWord: bool, c: char)
    requires inWord ==> ts != [] && Last(ts).Word?
    ensures front + Extend(ts, inWord, c) == Extend(front + ts, inWord, c)
  {
    if ts != [] {
      assert Last(front + ts) == Last(ts) && Init(front + ts) == front + Init(ts);
    }
  }

  lemma TokensGrow(s: string, c: char)
    ensures Tokens(s + [c]) == Extend(Tokens(s), InWord(s), c)
  {
    assert Init(s + [c]) == s;
  }

  lemma CharAdded(lines: seq<string>, c: char)
    requires lines != []
    ensures LineTokens(Init(lines) + [Last(lines) + [c]]) == Extend(LineTokens(lines), InWord(Last(lines)), c)
  {
    var l := Last(lines);
    var front := LineTokens(Init(lines)) + if |lines| > 1 then [Newline] else [];
    assert LineTokens(Init(lines) + [l + [c]]) == front + Tokens(l + [c]) by {
      LastLineGrows(lines, l + [c]);
    }
    assert LineTokens(lines) == front + Tokens(l);
    TokensGrow(l, c);
    ExtendBehind(front, Tokens(l), InWord(l), c);
  }

  /** The lines, taken apart into words, hold exactly the tokens of the text. */
  lemma {:induction false} LinesHoldTheTokens(s: string)
    ensures LineTokens(Lines(s)) == Tokens(s)
  {
    if s != "" {
      var (before, c) := (Init(s), Last(s));
      LinesHoldTheTokens(before);
      LinesEnd(before);
      if c == '\n' {
        LineAdded(Lines(before), "");
      } else {
        CharAdded(Lines(before), c);
      }
    }
  }

  /** A word after nothing or after a space is one more token. */
  lemma {:induction false} WordAppended(a: string, w: string)
    requires IsWord(w) && (a == "" || IsSpace(Last(a)))
    ensures Tokens(a + w) == Tokens(a) + [Word(w)]
  {
    var (v, c) := (Init(w), Last(w));
    assert w == v + [c] && a + w == (a + v) + [c];
    TokensGrow(a + v, c);
    if v == "" {
      assert a + v == a && w == [c];
    } else {
      WordAppended(a, v);
      assert Last(a + v) == Last(v);
      assert Init(Tokens(a) + [Word(v)]) == Tokens(a);
    }
  }

  lemma SpaceAppended(a: string, c: char)
    requires IsSpace(c)
    ensures Tokens(a + [c]) == Tokens(a) + if c == '\n' then [Newline] else []
  {
    assert Init(a + [c]) == a;
  }

  // ---------------------------------------------------------------- entities

  /** One character's effect on the stack of open entities. */
  function Push(open: seq<char>, c: char): seq<char> {
    if c == '[' then open + ['[']
    else if c == ']' then if open != [] && Last(open) == '[' then Init(open) else open + [']']
    else if c in DELIMITERS then if open != [] && Last(open) == c then Init(open) else open + [c]
    else open
  }

  /** The entities a text leaves open. */
  function Stack(s: string): seq<char> {
    if s == "" then [] else Push(Stack(Init(s)), Last(s))
  }

  predicate HasDelimiter(s: string) {
    exists i :: 0 <= i < |s| && s[i] in DELIMITERS
  }

  lemma {:induction false} PlainStack(a: string, b: string)
    requires !HasDelimiter(b)
    ensures Stack(a + b) == Stack(a)
  {
    if b == "" {
      assert a + b == a;
    } else {
      assert Last(b) == b[|b| - 1] && !HasDelimiter(Init(b));
      assert Init(a + b) == a + Init(b);
      PlainStack(a, Init(b));
    }
  }

  // -------------------------------------------------------------- hard split

  /** How many leading characters fit. */
  function Fit(w: string, maxLen: nat): (k: nat)
    ensures k <= |w|
  {
    if w == "" || Width(w[0]) > maxLen then 0 else 1 + Fit(w[1..], maxLen - Width(w[0]))
  }

  lemma FrontBytes(w: string, j: nat)
    requires 0 < j <= |w|
    ensures Bytes(w[..j]) == Width(w[0]) + Bytes(w[1..][..j - 1])
  {
    assert w[..j] == [w[0]] + w[1..][..j - 1];
    BytesConcat([w[0]], w[1..][..j - 1]);
    assert Bytes([w[0]]) == Bytes("") + Width(w[0]);
  }

  lemma {:induction false} FitIsLongest(w: string, maxLen: nat, k: nat)
    requires k <= |w|
    ensures Fit(w, maxLen) == k <==> Bytes(w[..k]) <= maxLen && (k < |w| ==> Bytes(w[..k + 1]) > maxLen)
    decreases |w|
  {
    if w != "" {
      if k > 0 {
        FrontBytes(w, k);
      }
      if k < |w| {
        FrontBytes(w, k + 1);
      }
      if k > 0 && Width(w[0]) <= maxLen {
        FitIsLongest(w[1..], maxLen - Width(w[0]), k - 1);
      }
    }
  }

  /** The pieces of an over-long word, each as long as fits but at least one character. */
  function HardSplit(w: string, maxLen: nat): seq<string>
    decreases |w|
  {
    if w == "" then []
    else
      var k := if Fit(w, maxLen) == 0 then 1 else Fit(w, maxLen);
      [w[..k]] + HardSplit(w[k..], maxLen)
  }

  function Join(parts: seq<string>): string {
    if parts == [] then "" else parts[0] + Join(parts[1..])
  }

  predicate GoodPieces(ps: seq<string>, maxLen: nat) {
    && (forall i :: 0 <= i < |ps| ==> ps[i] != "" && (Bytes(ps[i]) <= maxLen || |ps[i]| == 1))
    && (forall i :: 0 <= i < |ps| - 1 ==> Bytes(ps[i]) + Bytes(ps[i + 1]) > maxLen && Bytes(ps[i]) + 4 > maxLen)
  }

  /** Where a cut falls, the next character would not have fitted. */
  lemma CutIsTight(w: string, maxLen: nat, k: nat, next: string)
    requires w != "" && k == (if Fit(w, maxLen) == 0 then 1 else Fit(w, maxLen)) < |w|
    requires next != "" && next <= w[k..]
    ensures Bytes(w[..k]) + Bytes(next) > maxLen && Bytes(w[..k]) + 4 > maxLen
  {
    FitIsLongest(w, maxLen, Fit(w, maxLen));
    FrontBytes(next, |next|);
    assert next[..|next|] == next && next[0] == w[k];
    assert Init(w[..k + 1]) == w[..k];
    if Fit(w, maxLen) == 0 {
      assert Bytes(w[..k]) > maxLen;
    }
  }

  lemma PieceAdded(p: string, rest: seq<string>, maxLen: nat)
    requires p != "" && (Bytes(p) <= maxLen || |p| == 1) && GoodPieces(rest, maxLen)
    requires rest != [] ==> Bytes(p) + Bytes(rest[0]) > maxLen && Bytes(p) + 4 > maxLen
    ensures GoodPieces([p] + rest, maxLen)
  {
    var ps := [p] + rest;
    forall i | 0 <= i < |ps| - 1
      ensures Bytes(ps[i]) + Bytes(ps[i + 1]) > maxLen && Bytes(ps[i]) + 4 > maxLen
    {
      assert ps[i + 1] == rest[i];
      if i > 0 {
        assert ps[i] == rest[i - 1];
      }
    }
  }

  lemma FirstPiece(w: string, maxLen: nat, k: nat, rest: seq<string>)
    requires w != "" && k == (if Fit(w, maxLen) == 0 then 1 else Fit(w, maxLen))
    requires k < |w| ==> rest != [] && rest[0] != "" && rest[0] <= w[k..]
    requires k == |w| ==> rest == []
    ensures w == w[..k] + w[k..] && w[..k] != ""
    ensures Bytes(w[..k]) <= maxLen || |w[..k]| == 1
    ensures k < |w| ==> Bytes(w[..k]) + Bytes(rest[0]) > maxLen
    ensures k < |w| ==> Bytes(w[..k]) + 4 > maxLen
    ensures k == |w| ==> w[..k] == w
  {
    FitIsLongest(w, maxLen, Fit(w, maxLen));
    if k < |w| {
      CutIsTight(w, maxLen, k, rest[0]);
    }
  }

  /** Pieces rejoin to the word, fit unless they are one character, and waste no room. */
  lemma {:induction false} PiecesRejoin(w: string, maxLen: nat)
    ensures Join(HardSplit(w, maxLen)) == w
    ensures GoodPieces(HardSplit(w, maxLen), maxLen)
    ensures w != "" ==> HardSplit(w, maxLen) != [] && HardSplit(w, maxLen)[0] <= w
    ensures Bytes(w) > maxLen ==> w != "" && Bytes(HardSplit(w, maxLen)[0]) + 4 > maxLen
    decreases |w|
  {
    if w != "" {
      var k := if Fit(w, maxLen) == 0 then 1 else Fit(w, maxLen);
      PiecesRejoin(w[k..], maxLen);
      var rest := HardSplit(w[k..], maxLen);
      FirstPiece(w, maxLen, k, rest);
      PieceAdded(w[..k], rest, maxLen);
      assert HardSplit(w, maxLen) == [w[..k]] + rest;
      assert Join([w[..k]] + rest) == w[..k] + Join(rest);
    }
  }
}
