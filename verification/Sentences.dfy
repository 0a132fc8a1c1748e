/** Splitting a text into sentences at ". ", and why splitting the rejoined sentences gives them back. */
module Sentences {
  /** The characters `str.strip` removes. */
  predicate IsSpace(c: char) {
    var n := c as int;
    || 9 <= n <= 13 || 28 <= n <= 32 || n == 0x85 || n == 0xA0 || n == 0x1680
    || 0x2000 <= n <= 0x200A || n == 0x2028 || n == 0x2029 || n == 0x202F || n == 0x205F || n == 0x3000
  }

  function Strip(s: string): (r: string)
    ensures |r| <= |s|
    ensures r != "" ==> !IsSpace(r[0]) && !IsSpace(r[|r| - 1])
    decreases |s|
  {
    if s == "" then ""
    else if IsSpace(s[0]) then Strip(s[1..])
    else if IsSpace(s[|s| - 1]) then Strip(s[..|s| - 1])
    else s
  }

  /** Newlines become spaces. */
  function Flatten(text: string): (flat: string)
    ensures |flat| == |text|
    ensures forall k :: 0 <= k < |text| ==> flat[k] == if text[k] == '\n' then ' ' else text[k]
  {
    seq(|text|, k requires 0 <= k < |text| => if text[k] == '\n' then ' ' else text[k])
  }

  predicate IsBreak(text: string, k: nat) {
    k + 1 < |text| && text[k] == '.' && text[k + 1] == ' '
  }

  /** The first ". ", or the length of the text. */
  function FirstBreak(text: string, from: nat): (k: nat)
    requires from <= |text|
    ensures from <= k <= |text|
    ensures k < |text| ==> IsBreak(text, k)
    ensures forall j: nat :: from <= j < k ==> !IsBreak(text, j)
    decreases |text| - from
  {
    if from == |text| || IsBreak(text, from) then from else FirstBreak(text, from + 1)
  }

  function Split(text: string): (pieces: seq<string>)
    ensures pieces != []
    decreases |text|
  {
    var k := FirstBreak(text, 0);
    if k == |text| then [text] else [text[..k]] + Split(text[k + 2..])
  }

  function Join(pieces: seq<string>): string {
    if pieces == [] then ""
    else if |pieces| == 1 then pieces[0]
    else pieces[0] + ". " + Join(pieces[1..])
  }

  /** The stripped pieces that are not blank. */
  function Kept(pieces: seq<string>): seq<string> {
    if pieces == [] then []
    else (if Strip(pieces[0]) != "" then [Strip(pieces[0])] else []) + Kept(pieces[1..])
  }

  function SplitSentences(text: string): seq<string> {
    Kept(Split(Flatten(text)))
  }

  ghost predicate Unbroken(s: string) {
    forall j: nat :: j < |s| ==> !IsBreak(s, j)
  }

  /** What a sentence looks like: not empty, no space at either end, with neither ". " nor a newline inside. */
  ghost predicate IsSentence(s: string) {
    s != "" && !IsSpace(s[0]) && !IsSpace(s[|s| - 1]) && Unbroken(s) && '\n' !in s
  }

  ghost predicate AllSentences(pieces: seq<string>) {
    forall k :: 0 <= k < |pieces| ==> IsSentence(pieces[k])
  }

  // ---- Splitting loses nothing ----

  /** Joining the pieces rebuilds the text, and no piece contains a break. */
  lemma {:induction false} JoinSplit(text: string)
    ensures Join(Split(text)) == text
    ensures forall k :: 0 <= k < |Split(text)| ==> Unbroken(Split(text)[k])
    ensures '\n' !in text ==> forall k :: 0 <= k < |Split(text)| ==> '\n' !in Split(text)[k]
    decreases |text|
  {
    var k := FirstBreak(text, 0);
    if k < |text| {
      var first, rest := text[..k], text[k + 2..];
      JoinSplit(rest);
      assert text == first + ". " + rest;
      assert Split(text)[1..] == Split(rest);
      forall j: nat | j < |first| ensures !IsBreak(first, j) {
        assert !IsBreak(text, j);
      }
    }
  }

  lemma UnbrokenPart(s: string, from: nat, to: nat)
    requires Unbroken(s) && from <= to <= |s|
    ensures Unbroken(s[from..to])
  {
    var part := s[from..to];
    forall j: nat | j < |part| ensures !IsBreak(part, j) {
      assert !IsBreak(s, from + j);
    }
  }

  lemma {:induction false} StripKeeps(s: string)
    requires Unbroken(s)
    ensures Unbroken(Strip(s)) && Strip(Strip(s)) == Strip(s)
    ensures '\n' !in s ==> '\n' !in Strip(s)
    decreases |s|
  {
    if s != "" {
      if IsSpace(s[0]) {
        UnbrokenPart(s, 1, |s|);
        assert s[1..] == s[1..|s|];
        StripKeeps(s[1..]);
      } else if IsSpace(s[|s| - 1]) {
        UnbrokenPart(s, 0, |s| - 1);
        assert s[..|s| - 1] == s[0..|s| - 1];
        StripKeeps(s[..|s| - 1]);
      }
    }
  }

  lemma {:induction false} KeptAreSentences(pieces: seq<string>)
    requires forall k :: 0 <= k < |pieces| ==> Unbroken(pieces[k]) && '\n' !in pieces[k]
    ensures AllSentences(Kept(pieces))
  {
    if pieces != [] {
      StripKeeps(pieces[0]);
      KeptAreSentences(pieces[1..]);
    }
  }

  /** Every sentence of every text is non-empty, stripped, and free of ". " and newlines. */
  lemma SplitGivesSentences(text: string)
    ensures AllSentences(SplitSentences(text))
    ensures Join(Split(Flatten(text))) == Flatten(text)
  {
    JoinSplit(Flatten(text));
    KeptAreSentences(Split(Flatten(text)));
  }

  ghost predicate Blank(s: string) {
    forall k :: 0 <= k < |s| ==> IsSpace(s[k])
  }

  /** The piece is the sentence with nothing but spaces around it. */
  ghost predicate Pads(piece: string, sentence: string) {
    exists from, to :: Around(piece, from, to, sentence)
  }

  predicate Around(piece: string, from: int, to: int, sentence: string) {
    && 0 <= from <= to <= |piece| && piece[from..to] == sentence
    && (forall k :: 0 <= k < from ==> IsSpace(piece[k]))
    && (forall k :: to <= k < |piece| ==> IsSpace(piece[k]))
  }

  /** `at` tells which piece each sentence comes from: they keep their order, and a piece without a sentence is blank.
      The pieces before `from` are left out. */
  ghost predicate Accounts(pieces: seq<string>, sentences: seq<string>, at: seq<nat>, from: nat) {
    && |at| == |sentences|
    && (forall k :: 0 <= k < |at| ==> from <= at[k] < |pieces| && Pads(pieces[at[k]], sentences[k]))
    && (forall j, k :: 0 <= j < k < |at| ==> at[j] < at[k])
    && (forall i :: from <= i < |pieces| && i !in at ==> Blank(pieces[i]))
  }

  /** One more space in front. */
  lemma AroundMore(s: string, from: int, to: int, sentence: string)
    requires s != "" && IsSpace(s[0]) && Around(s[1..], from, to, sentence)
    ensures Around(s, from + 1, to + 1, sentence)
  {
    assert s[1..][from..to] == s[from + 1..to + 1];
  }

  lemma {:induction false} StripPads(s: string) returns (from: nat, to: nat)
    ensures Around(s, from, to, Strip(s))
    ensures Strip(s) == "" ==> Blank(s)
    decreases |s|
  {
    from, to := 0, |s|;
    if s != "" && IsSpace(s[0]) {
      from, to := StripPads(s[1..]);
      AroundMore(s, from, to, Strip(s));
      from, to := from + 1, to + 1;
    } else if s != "" && IsSpace(s[|s| - 1]) {
      from, to := StripPads(s[..|s| - 1]);
      assert s[..|s| - 1][from..to] == s[from..to];
    }
  }

  lemma {:induction false} KeptAccounts(pieces: seq<string>) returns (at: seq<nat>)
    ensures Accounts(pieces, Kept(pieces), at, 0)
  {
    if pieces == [] {
      at := [];
    } else {
      at := KeptAccounts(pieces[1..]);
      at := OneLater(pieces, Kept(pieces[1..]), at);
      var from, to := StripPads(pieces[0]);
      if Strip(pieces[0]) == "" {
        BlankFirst(pieces, Kept(pieces[1..]), at);
      } else {
        at := WithFirst(pieces, Strip(pieces[0]), Kept(pieces[1..]), at);
      }
    }
  }

  lemma BlankFirst(pieces: seq<string>, sentences: seq<string>, at: seq<nat>)
    requires pieces != [] && Blank(pieces[0]) && Accounts(pieces, sentences, at, 1)
    ensures Accounts(pieces, sentences, at, 0)
    ensures Accounts(pieces, [] + sentences, at, 0)
  {
    assert [] + sentences == sentences;
  }

  /** The same places with one piece more in front. */
  lemma OneLater(pieces: seq<string>, sentences: seq<string>, later: seq<nat>) returns (at: seq<nat>)
    requires pieces != [] && Accounts(pieces[1..], sentences, later, 0)
    ensures Accounts(pieces, sentences, at, 1)
  {
    at := seq(|later|, k requires 0 <= k < |later| => later[k] + 1);
    forall i: nat | 1 <= i < |pieces| && !Blank(pieces[i]) ensures i in at {
      assert pieces[1..][i - 1] == pieces[i];
      var k :| 0 <= k < |later| && later[k] == i - 1;
      assert at[k] == i;
    }
  }

  lemma WithFirst(pieces: seq<string>, sentence: string, sentences: seq<string>, later: seq<nat>)
    returns (at: seq<nat>)
    requires pieces != [] && Pads(pieces[0], sentence) && Accounts(pieces, sentences, later, 1)
    ensures Accounts(pieces, [sentence] + sentences, at, 0)
  {
    at := [0] + later;
    forall i | 0 <= i < |pieces| && i !in at ensures Blank(pieces[i]) {
      assert at[0] == 0 && i !in later;
    }
  }

  /** Nothing but spaces is lost: the sentences are, in order, what is left of the pieces of the text once the spaces
      around them are gone, and every piece without a sentence is blank. The pieces are what the breaks leave of the
      text with its newlines replaced. */
  lemma NothingIsLost(text: string) returns (pieces: seq<string>, at: seq<nat>)
    ensures Accounts(pieces, SplitSentences(text), at, 0)
    ensures var flat := Join(pieces);
      |flat| == |text| && forall k :: 0 <= k < |text| ==> flat[k] == if text[k] == '\n' then ' ' else text[k]
    ensures forall k :: 0 <= k < |pieces| ==> Unbroken(pieces[k])
  {
    pieces := Split(Flatten(text));
    JoinSplit(Flatten(text));
    at := KeptAccounts(pieces);
  }

  lemma {:induction false} BlankVanishes(s: string)
    requires Blank(s)
    ensures Strip(s) == ""
    decreases |s|
  {
    if s != "" {
      BlankVanishes(s[1..]);
    }
  }

  lemma OnePiece(text: string)
    requires Unbroken(Flatten(text))
    ensures SplitSentences(text) == if Strip(Flatten(text)) != "" then [Strip(Flatten(text))] else []
  {
    FirstBreakIs(Flatten(text), |text|);
    assert Split(Flatten(text)) == [Flatten(text)];
    assert [Flatten(text)][1..] == [] && Kept([]) == [];
  }

  /** A text of spaces, tabs and line ends alone has no sentence. */
  lemma BlankText(text: string)
    requires forall k :: 0 <= k < |text| ==> text[k] in " \t\r\n"
    ensures SplitSentences(text) == []
  {
    OnePiece(text);
    BlankVanishes(Flatten(text));
  }

  /** A text of visible ASCII characters alone is one sentence. */
  lemma VisibleText(text: string)
    requires text != "" && forall k :: 0 <= k < |text| ==> '!' <= text[k] <= '~'
    ensures SplitSentences(text) == [text]
  {
    assert Flatten(text) == text;
    OnePiece(text);
  }

  // ---- Splitting the rejoined sentences ----

  lemma EmptyText()
    ensures SplitSentences("") == []
  {
    assert Flatten("") == "";
    assert FirstBreak("", 0) == 0 && Split("") == [""];
    assert Kept([""]) == [];
  }

  lemma FirstBreakIs(text: string, k: nat)
    requires k <= |text| && (k < |text| ==> IsBreak(text, k))
    requires forall j: nat :: j < k ==> !IsBreak(text, j)
    ensures FirstBreak(text, 0) == k
  {
    var f := FirstBreak(text, 0);
    assert f < k ==> !IsBreak(text, f);
  }

  /** A text that starts with an unbroken piece and a break. */
  lemma FirstBreakAfter(first: string, rest: string)
    requires Unbroken(first)
    ensures FirstBreak(first + ". " + rest, 0) == |first|
  {
    var text := first + ". " + rest;
    forall j: nat | j < |first| ensures !IsBreak(text, j) {
      assert !IsBreak(first, j);
    }
    assert IsBreak(text, |first|);
    FirstBreakIs(text, |first|);
  }

  lemma {:induction false} SplitJoin(sentences: seq<string>)
    requires sentences != [] && AllSentences(sentences)
    ensures Split(Join(sentences)) == sentences
    ensures '\n' !in Join(sentences)
  {
    var first := sentences[0];
    var text := Join(sentences);
    if |sentences| == 1 {
      FirstBreakIs(text, |text|);
    } else {
      var rest := Join(sentences[1..]);
      SplitJoin(sentences[1..]);
      assert text == first + ". " + rest;
      assert text[..|first|] == first && text[|first| + 2..] == rest;
      FirstBreakAfter(first, rest);
    }
  }

  lemma {:induction false} KeptSentences(sentences: seq<string>)
    requires AllSentences(sentences)
    ensures Kept(sentences) == sentences
  {
    if sentences != [] {
      KeptSentences(sentences[1..]);
    }
  }

  /** Round trip: for every text, joining its sentences with ". " and splitting again gives the same sentences. */
  lemma ResplitIsIdentity(text: string)
    ensures SplitSentences(Join(SplitSentences(text))) == SplitSentences(text)
  {
    var sentences := SplitSentences(text);
    SplitGivesSentences(text);
    if sentences == [] {
      EmptyText();
    } else {
      SplitJoin(sentences);
      KeptSentences(sentences);
      assert Flatten(Join(sentences)) == Join(sentences);
    }
  }
}
