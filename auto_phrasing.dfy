/** The auto-phrasing token filter: greedy recognition of dictionary phrases in a
    token stream, with a replay queue for the tokens of an abandoned match. */
module AutoPhrasing {
  import opened Tokens

  // ---------------------------------------------------------------------------
  // Character helpers
  // ---------------------------------------------------------------------------

  /** The four characters the filter treats as word separators. */
  predicate IsSpaceChar(ch: char) {
    ch == ' ' || ch == '\t' || ch == '\n' || ch == '\r'
  }

  /** startsWith(buffer, phrase): phrase is a prefix of buffer. */
  method StartsWith(buffer: string, phrase: string) returns (r: bool)
    ensures r <==> phrase <= buffer
  {
    if |phrase| > |buffer| {
      return false;
    }
    var i := 0;
    while i < |phrase|
      invariant 0 <= i <= |phrase|
      invariant buffer[..i] == phrase[..i]
    {
      if buffer[i] != phrase[i] {
        assert buffer[..|phrase|][i] != phrase[i];
        return false;
      }
      i := i + 1;
    }
    assert phrase == phrase[..i];
    return true;
  }

  /** equals(buffer, phrase): exact character equality. */
  method CharsEqual(buffer: string, phrase: string) returns (r: bool)
    ensures r <==> buffer == phrase
  {
    if |phrase| != |buffer| {
      return false;
    }
    var i := 0;
    while i < |phrase|
      invariant 0 <= i <= |phrase|
      invariant buffer[..i] == phrase[..i]
    {
      if buffer[i] != phrase[i] {
        return false;
      }
      i := i + 1;
    }
    assert buffer == buffer[..i] && phrase == phrase[..i];
    return true;
  }

  /** What endsWith actually tests: the phrase is strictly shorter than the buffer
      and, leaving out its first two characters, is a suffix of the buffer. */
  predicate TailMatches(buffer: string, phrase: string) {
    |phrase| < |buffer| && (|phrase| <= 2 || phrase[2..] == buffer[|buffer| - (|phrase| - 2)..])
  }

  /** The j-th character counted from the end (1 is the last). */
  function FromEnd(s: string, j: int): char
    requires 1 <= j <= |s|
  {
    s[|s| - j]
  }

  /** The suffix reading of endsWith agrees with its index loop, which compares
      offsets 1 .. |phrase| - 2 counted from the end. */
  lemma TailMatchesByIndex(buffer: string, phrase: string)
    requires |phrase| < |buffer|
    ensures TailMatches(buffer, phrase) <==>
            forall j :: 1 <= j < |phrase| - 1 ==> FromEnd(buffer, j) == FromEnd(phrase, j)
  {
    if |phrase| > 2 {
      var tail := phrase[2..];
      var suffix := buffer[|buffer| - (|phrase| - 2)..];
      assert |tail| == |suffix|;
      if tail == suffix {
        forall j | 1 <= j < |phrase| - 1
          ensures FromEnd(buffer, j) == FromEnd(phrase, j)
        {
          assert tail[|phrase| - 2 - j] == suffix[|phrase| - 2 - j];
        }
      }
      if forall j :: 1 <= j < |phrase| - 1 ==> FromEnd(buffer, j) == FromEnd(phrase, j) {
        forall k | 0 <= k < |tail|
          ensures tail[k] == suffix[k]
        {
          var j := |phrase| - 2 - k;
          assert FromEnd(buffer, j) == FromEnd(phrase, j);
        }
      }
    }
  }

  /** endsWith(buffer, phrase), boundary for boundary as the source writes it. */
  method EndsWith(buffer: string, phrase: string) returns (r: bool)
    ensures r == TailMatches(buffer, phrase)
  {
    if |phrase| >= |buffer| {
      return false;
    }
    TailMatchesByIndex(buffer, phrase);
    var i := 1;
    while i < |phrase| - 1
      invariant 1 <= i
      invariant i <= |phrase| - 1 || i == 1
      invariant forall j :: 1 <= j < i ==> FromEnd(buffer, j) == FromEnd(phrase, j)
    {
      if buffer[|buffer| - i] != phrase[|phrase| - i] {
        return false;
      }
      i := i + 1;
    }
    return true;
  }

  /** A phrase never "ends with" itself, and two-character phrases match any
      longer buffer: the loop compares no character at all. */
  lemma TailMatchesQuirks(buffer: string, phrase: string)
    ensures !TailMatches(buffer, buffer)
    ensures |phrase| <= 2 < |buffer| ==> TailMatches(buffer, phrase)
  {
  }

  // ---------------------------------------------------------------------------
  // The phrase buffer: joining words and splitting them back
  // ---------------------------------------------------------------------------

  /** How getCurrentBuffer extends the phrase buffer with a new token. */
  function AppendWord(phrase: string, word: string): string {
    if word == [] then phrase
    else if phrase == [] then word
    else phrase + [' '] + word
  }

  /** Words joined by single spaces. */
  function Join(words: seq<string>): string
    decreases |words|
  {
    if |words| == 0 then []
    else if |words| == 1 then words[0]
    else words[0] + [' '] + Join(words[1..])
  }

  /** A non-empty token without separator characters. */
  predicate IsWord(w: string) {
    w != [] && forall i :: 0 <= i < |w| ==> !IsSpaceChar(w[i])
  }

  predicate AllWords(ws: seq<string>) {
    forall i :: 0 <= i < |ws| ==> IsWord(ws[i])
  }

  /** Feeding words one at a time through getCurrentBuffer builds their
      space-joined phrase. */
  lemma {:induction false} AppendWordJoins(words: seq<string>, w: string)
    requires AllWords(words) && IsWord(w)
    ensures AppendWord(Join(words), w) == Join(words + [w])
    decreases |words|
  {
    if |words| == 0 {
      assert words + [w] == [w];
    } else if |words| == 1 {
      assert (words + [w])[1..] == [w];
    } else {
      assert (words + [w])[1..] == words[1..] + [w];
      AppendWordJoins(words[1..], w);
      assert Join(words[1..]) != [] by {
        assert words[1..][0] == words[1];
      }
    }
  }

  /** A token put back for individual re-emission, with the offsets it will carry. */
  datatype Replay = Replay(tok: string, startPos: int, endPos: int)

  function Last<T>(s: seq<T>): T
    requires s != []
  {
    s[|s| - 1]
  }

  /** Whether discardCharTokens replays a word that is not the phrase's last:
      always before anything was emitted, otherwise unless the last emitted
      text "ends with" it. */
  predicate Kept(w: string, lastEmitted: Option<string>) {
    lastEmitted.None? || !TailMatches(lastEmitted.value, w)
  }

  /** The tokens discardCharTokens appends for p from character index i on, the
      current word having started at index lastSp. */
  function Cuts(p: string, i: nat, lastSp: nat, startPos: int, endPos: int, lastEmitted: Option<string>): seq<Replay>
    requires lastSp <= i <= |p|
    decreases |p| - i
  {
    if i == |p| then
      [Replay(p[lastSp..], endPos - (|p| - lastSp), endPos)]
    else if IsSpaceChar(p[i]) && i > lastSp then
      var tok := p[lastSp..i];
      (if Kept(tok, lastEmitted) then [Replay(tok, startPos + lastSp, startPos + lastSp + |tok|)] else [])
      + Cuts(p, i + 1, i + 1, startPos, endPos, lastEmitted)
    else
      Cuts(p, i + 1, lastSp, startPos, endPos, lastEmitted)
  }

  /** All tokens discardCharTokens appends for phrase p when the current end
      offset is endPos. */
  function Discarded(p: string, endPos: int, lastEmitted: Option<string>): seq<Replay> {
    Cuts(p, 0, 0, endPos - |p|, endPos, lastEmitted)
  }

  /** Token t is the piece of p its offsets point at, relative to startPos, and
      lies at or after index from. */
  predicate Located(p: string, startPos: int, from: nat, t: Replay) {
    && from <= t.startPos - startPos <= t.endPos - startPos <= |p|
    && t.tok == p[t.startPos - startPos .. t.endPos - startPos]
  }

  /** The last cut token is the final word, ending at endPos. */
  lemma {:induction false} CutsLast(p: string, i: nat, lastSp: nat, startPos: int, endPos: int, lastEmitted: Option<string>)
    requires lastSp <= i <= |p|
    ensures |Cuts(p, i, lastSp, startPos, endPos, lastEmitted)| >= 1
    ensures Last(Cuts(p, i, lastSp, startPos, endPos, lastEmitted)).endPos == endPos
    ensures Last(Cuts(p, i, lastSp, startPos, endPos, lastEmitted)).startPos == endPos - |Last(Cuts(p, i, lastSp, startPos, endPos, lastEmitted)).tok|
    decreases |p| - i
  {
    if i == |p| {
    } else if IsSpaceChar(p[i]) && i > lastSp {
      CutsLast(p, i + 1, i + 1, startPos, endPos, lastEmitted);
      var rest := Cuts(p, i + 1, i + 1, startPos, endPos, lastEmitted);
      var tok := p[lastSp..i];
      if lastEmitted.None? || !TailMatches(lastEmitted.value, tok) {
        var head := Replay(tok, startPos + lastSp, startPos + lastSp + |tok|);
        assert Cuts(p, i, lastSp, startPos, endPos, lastEmitted) == [head] + rest;
      } else {
        assert Cuts(p, i, lastSp, startPos, endPos, lastEmitted) == rest;
      }
    } else {
      CutsLast(p, i + 1, lastSp, startPos, endPos, lastEmitted);
    }
  }

  /** Every cut token is the piece of p its offsets point at, startPos being
      endPos - |p|. */
  lemma {:induction false} CutsLocate(p: string, i: nat, lastSp: nat, startPos: int, endPos: int, lastEmitted: Option<string>)
    requires lastSp <= i <= |p|
    requires startPos == endPos - |p|
    ensures forall j :: 0 <= j < |Cuts(p, i, lastSp, startPos, endPos, lastEmitted)| ==> Located(p, startPos, lastSp, Cuts(p, i, lastSp, startPos, endPos, lastEmitted)[j])
    decreases |p| - i
  {
    if i == |p| {
      var r := Cuts(p, i, lastSp, startPos, endPos, lastEmitted);
      assert r == [Replay(p[lastSp..], endPos - (|p| - lastSp), endPos)];
      assert Located(p, startPos, lastSp, r[0]);
    } else if IsSpaceChar(p[i]) && i > lastSp {
      CutsLocate(p, i + 1, i + 1, startPos, endPos, lastEmitted);
      var rest := Cuts(p, i + 1, i + 1, startPos, endPos, lastEmitted);
      var tok := p[lastSp..i];
      var head := Replay(tok, startPos + lastSp, startPos + lastSp + |tok|);
      assert Located(p, startPos, lastSp, head);
      forall j | 0 <= j < |rest| ensures Located(p, startPos, lastSp, rest[j]) {
        assert Located(p, startPos, i + 1, rest[j]);
      }
      if lastEmitted.None? || !TailMatches(lastEmitted.value, tok) {
        var r := [head] + rest;
        assert Cuts(p, i, lastSp, startPos, endPos, lastEmitted) == r;
        forall j | 0 <= j < |r| ensures Located(p, startPos, lastSp, r[j]) {
          if j > 0 {
            assert r[j] == rest[j - 1];
          }
        }
      } else {
        assert Cuts(p, i, lastSp, startPos, endPos, lastEmitted) == rest;
      }
    } else {
      CutsLocate(p, i + 1, lastSp, startPos, endPos, lastEmitted);
    }
  }

  /** A non-final word that endsWith the last emitted text is left out. */
  lemma {:induction false} CutsKeep(p: string, i: nat, lastSp: nat, startPos: int, endPos: int, lastEmitted: Option<string>)
    requires lastSp <= i <= |p|
    requires lastEmitted.Some?
    ensures forall j :: 0 <= j < |Cuts(p, i, lastSp, startPos, endPos, lastEmitted)| - 1 ==> !TailMatches(lastEmitted.value, Cuts(p, i, lastSp, startPos, endPos, lastEmitted)[j].tok)
    decreases |p| - i
  {
    if i == |p| {
    } else if IsSpaceChar(p[i]) && i > lastSp {
      CutsKeep(p, i + 1, i + 1, startPos, endPos, lastEmitted);
      var rest := Cuts(p, i + 1, i + 1, startPos, endPos, lastEmitted);
      var tok := p[lastSp..i];
      if !TailMatches(lastEmitted.value, tok) {
        var r := [Replay(tok, startPos + lastSp, startPos + lastSp + |tok|)] + rest;
        assert Cuts(p, i, lastSp, startPos, endPos, lastEmitted) == r;
        assert forall j :: 1 <= j < |r| ==> r[j] == rest[j - 1];
      } else {
        assert Cuts(p, i, lastSp, startPos, endPos, lastEmitted) == rest;
      }
    } else {
      CutsKeep(p, i + 1, lastSp, startPos, endPos, lastEmitted);
    }
  }

  /** Scanning over characters that end no word changes nothing. */
  lemma {:induction false} CutsSkip(p: string, i: nat, j: nat, lastSp: nat, startPos: int, endPos: int, lastEmitted: Option<string>)
    requires lastSp <= i <= j <= |p|
    requires forall k :: i <= k < j ==> !IsSpaceChar(p[k])
    ensures Cuts(p, i, lastSp, startPos, endPos, lastEmitted) == Cuts(p, j, lastSp, startPos, endPos, lastEmitted)
    decreases j - i
  {
    if i < j {
      CutsSkip(p, i + 1, j, lastSp, startPos, endPos, lastEmitted);
    }
  }

  /** The token texts of a sequence of replay tokens. */
  function Texts(r: seq<Replay>): (ts: seq<string>)
    ensures |ts| == |r|
    ensures forall j :: 0 <= j < |r| ==> ts[j] == r[j].tok
  {
    if r == [] then [] else [r[0].tok] + Texts(r[1..])
  }

  /** The words of ws that are Kept, in order. */
  function KeptWords(ws: seq<string>, lastEmitted: Option<string>): seq<string>
    decreases |ws|
  {
    if ws == [] then []
    else (if Kept(ws[0], lastEmitted) then [ws[0]] else []) + KeptWords(ws[1..], lastEmitted)
  }

  /** KeptWords of a word followed by more words. */
  lemma KeptWordsCons(w: string, ws: seq<string>, lastEmitted: Option<string>)
    ensures KeptWords([w] + ws, lastEmitted) == (if Kept(w, lastEmitted) then [w] else []) + KeptWords(ws, lastEmitted)
  {
    assert ([w] + ws)[1..] == ws;
  }

  /** A word is in KeptWords exactly when it is in ws and Kept. */
  lemma {:induction false} KeptWordsFilter(ws: seq<string>, lastEmitted: Option<string>, w: string)
    ensures w in KeptWords(ws, lastEmitted) <==> w in ws && Kept(w, lastEmitted)
    decreases |ws|
  {
    if ws != [] {
      KeptWordsFilter(ws[1..], lastEmitted, w);
      assert ws == [ws[0]] + ws[1..];
    }
  }

  /** Before anything was emitted every word is kept. */
  lemma {:induction false} KeptWordsAll(ws: seq<string>)
    ensures KeptWords(ws, None) == ws
    decreases |ws|
  {
    if ws != [] {
      KeptWordsAll(ws[1..]);
      assert ws == [ws[0]] + ws[1..];
    }
  }

  /** The first word of a space-joined tail of the phrase, and the separator
      after it. */
  lemma JoinHead(p: string, lastSp: nat, words: seq<string>)
    requires lastSp <= |p|
    requires |words| >= 2 && AllWords(words)
    requires p[lastSp..] == Join(words)
    ensures lastSp + |words[0]| < |p|
    ensures p[lastSp..lastSp + |words[0]|] == words[0]
    ensures IsSpaceChar(p[lastSp + |words[0]|])
    ensures p[lastSp + |words[0]| + 1..] == Join(words[1..])
    ensures forall k :: lastSp <= k < lastSp + |words[0]| ==> !IsSpaceChar(p[k])
  {
    var w := words[0];
    var j := lastSp + |w|;
    assert p[lastSp..] == w + [' '] + Join(words[1..]);
    forall k | lastSp <= k < j ensures !IsSpaceChar(p[k]) {
      assert p[k] == p[lastSp..][k - lastSp];
    }
    assert p[j] == p[lastSp..][|w|];
    assert p[j + 1..] == p[lastSp..][|w| + 1..];
  }

  /** Splitting a space-joined tail of the phrase gives back its Kept words
      before the last, then the last word. */
  lemma {:induction false} CutsJoin(p: string, lastSp: nat, words: seq<string>, startPos: int, endPos: int, lastEmitted: Option<string>)
    requires lastSp <= |p|
    requires |words| >= 1 && AllWords(words)
    requires p[lastSp..] == Join(words)
    ensures Texts(Cuts(p, lastSp, lastSp, startPos, endPos, lastEmitted)) == ReplayWords(words, lastEmitted)
    decreases |words|
  {
    var w := words[0];
    if |words| == 1 {
      CutsWord(p, lastSp, w, startPos, endPos, lastEmitted);
    } else {
      var j := lastSp + |w|;
      JoinHead(p, lastSp, words);
      CutsHead(p, lastSp, words, startPos, endPos, lastEmitted);
      assert AllWords(words[1..]);
      CutsJoin(p, j + 1, words[1..], startPos, endPos, lastEmitted);
    }
  }

  /** The words a phrase of words is replayed as: the Kept words before the
      last, then the last word. */
  function ReplayWords(words: seq<string>, lastEmitted: Option<string>): (r: seq<string>)
    requires |words| >= 1
    decreases |words|
  {
    if |words| == 1 then words
    else (if Kept(words[0], lastEmitted) then [words[0]] else []) + ReplayWords(words[1..], lastEmitted)
  }

  /** ReplayWords keeps the Kept words before the last, and the last word. */
  lemma {:induction false} ReplayWordsKept(words: seq<string>, lastEmitted: Option<string>)
    requires |words| >= 1
    ensures ReplayWords(words, lastEmitted) == KeptWords(words[..|words| - 1], lastEmitted) + [Last(words)]
    decreases |words|
  {
    if |words| == 1 {
      assert words[..0] == [];
    } else {
      ReplayWordsKept(words[1..], lastEmitted);
      var more := words[1..][..|words[1..]| - 1];
      assert words[..|words| - 1] == [words[0]] + more;
      KeptWordsCons(words[0], more, lastEmitted);
    }
  }

  /** A tail of the phrase that is one word is cut as that word. */
  lemma CutsWord(p: string, lastSp: nat, w: string, startPos: int, endPos: int, lastEmitted: Option<string>)
    requires lastSp <= |p|
    requires IsWord(w) && p[lastSp..] == w
    ensures Texts(Cuts(p, lastSp, lastSp, startPos, endPos, lastEmitted)) == [w]
  {
    forall k | lastSp <= k < |p| ensures !IsSpaceChar(p[k]) {
      assert p[k] == p[lastSp..][k - lastSp];
    }
    CutsSkip(p, lastSp, |p|, lastSp, startPos, endPos, lastEmitted);
  }

  /** The first word of a space-joined tail is replayed when Kept, and the cut
      goes on after its separator. */
  lemma CutsHead(p: string, lastSp: nat, words: seq<string>, startPos: int, endPos: int, lastEmitted: Option<string>)
    requires lastSp <= |p|
    requires |words| >= 2 && AllWords(words)
    requires p[lastSp..] == Join(words)
    ensures lastSp + |words[0]| < |p|
    ensures Texts(Cuts(p, lastSp, lastSp, startPos, endPos, lastEmitted))
            == (if Kept(words[0], lastEmitted) then [words[0]] else [])
               + Texts(Cuts(p, lastSp + |words[0]| + 1, lastSp + |words[0]| + 1, startPos, endPos, lastEmitted))
  {
    var w := words[0];
    var j := lastSp + |w|;
    JoinHead(p, lastSp, words);
    CutsSkip(p, lastSp, j, lastSp, startPos, endPos, lastEmitted);
    var rest := Cuts(p, j + 1, j + 1, startPos, endPos, lastEmitted);
    var head := Replay(w, startPos + lastSp, startPos + lastSp + |w|);
    if Kept(w, lastEmitted) {
      assert Cuts(p, j, lastSp, startPos, endPos, lastEmitted) == [head] + rest;
      assert Texts([head] + rest) == [w] + Texts(rest);
    } else {
      assert Cuts(p, j, lastSp, startPos, endPos, lastEmitted) == rest;
    }
  }

  /** discardCharTokens undoes getCurrentBuffer: a phrase built from
      separator-free words splits back into its Kept words before the last,
      then the last word; before anything was emitted, into exactly the words. */
  lemma {:induction false} DiscardedSplitsJoin(words: seq<string>, endPos: int, lastEmitted: Option<string>)
    requires |words| >= 1 && AllWords(words)
    ensures Texts(Discarded(Join(words), endPos, lastEmitted))
            == KeptWords(words[..|words| - 1], lastEmitted) + [Last(words)]
    ensures lastEmitted.None? ==> Texts(Discarded(Join(words), endPos, lastEmitted)) == words
  {
    assert Join(words)[0..] == Join(words);
    CutsJoin(Join(words), 0, words, endPos - |Join(words)|, endPos, lastEmitted);
    ReplayWordsKept(words, lastEmitted);
    KeptWordsAll(words[..|words| - 1]);
    assert words[..|words| - 1] + [Last(words)] == words;
  }

  // ---------------------------------------------------------------------------
  // The phrase dictionary
  // ---------------------------------------------------------------------------

  /** Index of the first separator at or after from, or |p| if there is none. */
  function SpaceIndex(p: string, from: nat): (k: nat)
    requires from <= |p|
    ensures from <= k <= |p|
    ensures forall j :: from <= j < k ==> !IsSpaceChar(p[j])
    ensures k < |p| ==> IsSpaceChar(p[k])
    decreases |p| - from
  {
    if from == |p| then |p|
    else if IsSpaceChar(p[from]) then from
    else SpaceIndex(p, from + 1)
  }

  /** The dictionary key of a phrase: the characters before its first separator;
      a phrase without a separator loses its last character. */
  function FirstTerm(p: string): (r: string)
    requires p != []
    ensures r < p
    ensures forall j :: 0 <= j < |r| ==> !IsSpaceChar(r[j])
    ensures (exists j :: 0 <= j < |p| && IsSpaceChar(p[j])) ==> IsSpaceChar(p[|r|])
    ensures (forall j :: 0 <= j < |p| ==> !IsSpaceChar(p[j])) ==> |r| == |p| - 1
  {
    var k := SpaceIndex(p, 0);
    if k < |p| then p[..k] else p[..|p| - 1]
  }

  /** getFirstTerm; None stands for the NegativeArraySizeException an empty phrase
      raises. */
  method GetFirstTerm(phrase: string) returns (r: Option<string>)
    ensures r.None? <==> phrase == []
    ensures r.Some? ==> phrase != [] && r.value == FirstTerm(phrase)
  {
    var spNdx := 0;
    var found := false;
    while spNdx < |phrase| && !found
      invariant 0 <= spNdx <= |phrase|
      invariant !found ==> forall j :: 0 <= j < spNdx ==> !IsSpaceChar(phrase[j])
      invariant found ==> spNdx >= 1 && SpaceIndex(phrase, 0) == spNdx - 1
    {
      var ch := phrase[spNdx];
      spNdx := spNdx + 1;
      if IsSpaceChar(ch) {
        found := true;
      }
    }
    if spNdx == 0 {
      return None;
    }
    if !found {
      assert SpaceIndex(phrase, 0) == |phrase|;
    }
    return Some(phrase[..spNdx - 1]);
  }

  /** The dictionary index built by convertPhraseSet: every phrase filed under
      its first term, and nothing else. */
  ghost predicate IndexesPhrases(m: map<string, set<string>>, phrases: set<string>)
  {
    && (forall p :: p in phrases ==> p != [] && FirstTerm(p) in m && p in m[FirstTerm(p)])
    && (forall k, p :: k in m && p in m[k] ==> p in phrases && p != [] && FirstTerm(p) == k)
  }

  /** convertPhraseSet; None stands for the exception getFirstTerm raises on an
      empty phrase. */
  method ConvertPhraseSet(phraseSet: set<string>) returns (r: Option<map<string, set<string>>>)
    ensures r.None? <==> [] in phraseSet
    ensures r.Some? ==> IndexesPhrases(r.value, phraseSet)
  {
    var phraseMap: map<string, set<string>> := map[];
    var todo := phraseSet;
    while todo != {}
      invariant todo <= phraseSet
      invariant [] in phraseSet ==> [] in todo
      invariant IndexesPhrases(phraseMap, phraseSet - todo)
      decreases todo
    {
      var phrase :| phrase in todo;
      var firstTerm := GetFirstTerm(phrase);
      if firstTerm.None? {
        return None;
      }
      var key := firstTerm.value;
      var itsPhrases := if key in phraseMap then phraseMap[key] else {};
      ghost var before := phraseMap;
      ghost var oldTodo := todo;
      phraseMap := phraseMap[key := itsPhrases + {phrase}];
      todo := todo - {phrase};
      forall k, p | k in phraseMap && p in phraseMap[k]
        ensures p in phraseSet - todo && p != [] && FirstTerm(p) == k
      {
        if p != phrase {
          assert k in before && p in before[k];
          assert p in phraseSet - oldTodo;
        }
      }
    }
    assert phraseSet - todo == phraseSet;
    return Some(phraseMap);
  }

  /** The candidates remove(b) keeps. */
  predicate Survives(b: string, p: string) {
    (p != b && b <= p) || TailMatches(b, p)
  }

  /** remove(b): a fresh set holding exactly the candidates that strictly extend b
      or that b "ends with"; b itself is never kept. */
  method Remove(candidates: set<string>, b: string) returns (r: set<string>)
    ensures r == set p | p in candidates && Survives(b, p)
    ensures b !in r
  {
    r := {};
    var todo := candidates;
    while todo != {}
      invariant todo <= candidates
      invariant r == set p | p in candidates - todo && Survives(b, p)
      decreases todo
    {
      var phrase :| phrase in todo;
      var same := CharsEqual(phrase, b);
      var prefixed := StartsWith(phrase, b);
      var tail := EndsWith(b, phrase);
      if (!same && prefixed) || tail {
        r := r + {phrase};
      }
      todo := todo - {phrase};
    }
  }

  /** The loop at lines 209-214: does some candidate start with the buffer? */
  method HasPhraseStartingWith(candidates: set<string>, buffer: string) returns (found: bool)
    ensures found <==> exists p :: p in candidates && buffer <= p
  {
    var todo, done := candidates, {};
    while todo != {}
      invariant todo + done == candidates
      invariant forall p :: p in done ==> !(buffer <= p)
      decreases todo
    {
      var phrase :| phrase in todo;
      var starts := StartsWith(phrase, buffer);
      if starts {
        return true;
      }
      todo, done := todo - {phrase}, done + {phrase};
    }
    return false;
  }

  // ---------------------------------------------------------------------------
  // Whitespace replacement
  // ---------------------------------------------------------------------------

  /** s with every occurrence of from replaced by to. */
  function MapChar(s: string, from: char, to: char): (r: string)
    ensures |r| == |s|
    ensures forall i :: 0 <= i < |s| ==> r[i] == (if s[i] == from then to else s[i])
  {
    if s == [] then [] else [if s[0] == from then to else s[0]] + MapChar(s[1..], from, to)
  }

  /** fixWhitespace undoes replaceWhiteSpace on a text that does not already
      contain the replacement character. */
  lemma ReplaceThenFix(s: string, c: char)
    requires c == ' ' || forall i :: 0 <= i < |s| ==> s[i] != c
    ensures MapChar(MapChar(s, ' ', c), c, ' ') == s
  {
    var r := MapChar(MapChar(s, ' ', c), c, ' ');
    assert forall i :: 0 <= i < |s| ==> r[i] == s[i];
  }

  /** replaceWhiteSpace: spaces become the replacement character. */
  method ReplaceWhiteSpace(token: string, c: char) returns (r: string)
    ensures r == MapChar(token, ' ', c)
  {
    var replaced := new char[|token|];
    var i := 0;
    while i < |token|
      invariant 0 <= i <= |token|
      invariant forall j :: 0 <= j < i ==> replaced[j] == (if token[j] == ' ' then c else token[j])
    {
      if token[i] == ' ' {
        replaced[i] := c;
      } else {
        replaced[i] := token[i];
      }
      i := i + 1;
    }
    r := replaced[..];
  }

  /** fixWhitespace: the identity without a replacement character, otherwise the
      replacement character turns back into a space. */
  method FixWhitespace(phrase: string, replaceWith: Option<char>) returns (r: string)
    ensures replaceWith.None? ==> r == phrase
    ensures replaceWith.Some? ==> r == MapChar(phrase, replaceWith.value, ' ')
  {
    if replaceWith.None? {
      return phrase;
    }
    var c := replaceWith.value;
    var fixed := new char[|phrase|];
    var i := 0;
    while i < |phrase|
      invariant 0 <= i <= |phrase|
      invariant forall j :: 0 <= j < i ==> fixed[j] == (if phrase[j] == c then ' ' else phrase[j])
    {
      if phrase[i] == c {
        fixed[i] := ' ';
      } else {
        fixed[i] := phrase[i];
      }
      i := i + 1;
    }
    r := fixed[..];
  }

  // ---------------------------------------------------------------------------
  // Emission
  // ---------------------------------------------------------------------------

  /** The text emit writes: spaces replaced when a replacement character is set. */
  function Replaced(token: string, replaceWith: Option<char>): (r: string)
    ensures |r| == |token|
    ensures replaceWith.None? ==> r == token
    ensures replaceWith.Some? ==> forall i :: 0 <= i < |token| && token[i] != ' ' ==> r[i] == token[i]
  {
    if replaceWith.None? then token else MapChar(token, ' ', replaceWith.value)
  }

  /** The attributes after emit(char[]) wrote text with position increment posInc
      over attributes a. */
  function Stamped(a: Token, text: string, posInc: int): (t: Token)
    ensures t.term == text && t.posInc == posInc
    ensures t.endOffset == a.endOffset && t.tokenType == a.tokenType
    ensures a.endOffset >= |text| ==> t.endOffset - t.startOffset == |text|
    ensures a.endOffset < |text| ==> t.startOffset == a.startOffset
    ensures a.WellFormed() && posInc >= 0 ==> t.WellFormed()
  {
    var start := if a.endOffset >= |text| then a.endOffset - |text| else a.startOffset;
    a.(term := text, startOffset := start, posInc := posInc)
  }

  /** The attributes after emit(Token) moved the offsets to those of replay token r. */
  function Placed(a: Token, r: Replay): (t: Token)
    ensures t.term == a.term && t.posInc == a.posInc && t.tokenType == a.tokenType
    ensures r.endPos > r.startPos >= 0 ==> t.startOffset == r.startPos && t.endOffset == r.endPos
    ensures !(r.endPos > r.startPos >= 0) ==> t == a
    ensures a.WellFormed() ==> t.WellFormed()
  {
    if r.endPos > r.startPos >= 0 then a.(startOffset := r.startPos, endOffset := r.endPos) else a
  }

  /** Every token discardCharTokens queues is the piece of the phrase its offsets
      point at, the phrase ending at endPos; the last one is the final word. */
  lemma DiscardedLocated(p: string, endPos: int, lastEmitted: Option<string>)
    ensures |Discarded(p, endPos, lastEmitted)| >= 1
    ensures forall j :: 0 <= j < |Discarded(p, endPos, lastEmitted)| ==>
              Located(p, endPos - |p|, 0, Discarded(p, endPos, lastEmitted)[j])
    ensures Last(Discarded(p, endPos, lastEmitted)).endPos == endPos
  {
    CutsLast(p, 0, 0, endPos - |p|, endPos, lastEmitted);
    CutsLocate(p, 0, 0, endPos - |p|, endPos, lastEmitted);
  }

  /** Only the final word of a discarded phrase may "end" the last emitted text. */
  lemma DiscardedSkips(p: string, endPos: int, lastEmitted: Option<string>)
    requires lastEmitted.Some?
    ensures forall j :: 0 <= j < |Discarded(p, endPos, lastEmitted)| - 1 ==>
              !TailMatches(lastEmitted.value, Discarded(p, endPos, lastEmitted)[j].tok)
  {
    CutsKeep(p, 0, 0, endPos - |p|, endPos, lastEmitted);
  }

  // ---------------------------------------------------------------------------
  // One pass of incrementToken, on the filter's fields as a value
  // ---------------------------------------------------------------------------

  /** What currentSetToCheck refers to: nothing, the very set the dictionary
      stores under key (so additions to it grow the dictionary), or a set of its
      own built by remove. */
  datatype Candidates = NotTracking | Shared(key: string) | Owned(phrases: set<string>)

  /** How one pass of incrementToken ends: with a result, or by recursing. */
  datatype Outcome = Return(result: bool) | Recurse

  /** The candidate phrases currentSetToCheck holds; none when it is null. */
  function CandidateSet(phraseMap: map<string, set<string>>, checking: Candidates): set<string> {
    match checking
    case NotTracking => {}
    case Shared(k) => if k in phraseMap then phraseMap[k] else {}
    case Owned(s) => s
  }

  /** The fields of the filter that incrementToken reads and writes, and the
      attributes it shares with upstream and the consumer. */
  datatype State = State(
    phraseMap: map<string, set<string>>,
    checking: Candidates,
    currentPhrase: string,
    unused: seq<Replay>,
    lastToken: Option<string>,
    lastEmitted: Option<string>,
    lastValid: Option<string>,
    positionIncr: int,
    consumed: nat,
    attrs: Token)
  {
    function CheckSet(): set<string> {
      CandidateSet(phraseMap, checking)
    }
  }

  /** The candidates remove(b) keeps. */
  function Narrowed(candidates: set<string>, b: string): set<string> {
    set p | p in candidates && Survives(b, p)
  }

  /** Some candidate still starts with the phrase buffer b. */
  predicate Continues(candidates: set<string>, b: string) {
    exists p :: p in candidates && b <= p
  }

  /** emit(char[]) on state s. */
  function Emitted(s: State, token: string, rw: Option<char>): State {
    var text := Replaced(token, rw);
    s.(attrs := Stamped(s.attrs, text, s.positionIncr + 1),
       positionIncr := s.positionIncr + 1,
       lastEmitted := Some(text))
  }

  /** Take the head of the replay queue and emit it with its own offsets. */
  function ReplayNext(s: State, rw: Option<char>): State
    requires s.unused != []
  {
    var e := Emitted(s.(unused := s.unused[1..]), s.unused[0].tok, rw);
    e.(attrs := Placed(e.attrs, s.unused[0]))
  }

  /** discardCharTokens on state s. */
  function Discard(s: State): State {
    s.(unused := s.unused + Discarded(s.currentPhrase, s.attrs.endOffset, s.lastEmitted))
  }

  /** A token that is a dictionary key starts a new phrase. */
  function Reseeded(s: State, next: string): State {
    if next in s.phraseMap then s.(checking := Shared(next), currentPhrase := next) else s
  }

  /** The phrases join currentSetToCheck: through the alias into the
      dictionary's own set, or into the set built by remove. */
  function Added(s: State, phrases: set<string>): State {
    match s.checking
    case Shared(k) => if k in s.phraseMap then s.(phraseMap := s.phraseMap[k := s.phraseMap[k] + phrases]) else s
    case Owned(c) => s.(checking := Owned(c + phrases))
    case NotTracking => s
  }

  /** Pull the next upstream token: it fills the attributes and, in single-token
      mode, is staged as lastToken. */
  function Pulled(s: State, input: seq<Token>, single: bool): State
    requires s.consumed < |input|
  {
    var n := input[s.consumed];
    s.(attrs := n, consumed := s.consumed + 1, lastToken := if single then Some(n.term) else s.lastToken)
  }

  /** Nothing is tracked and token next arrived. */
  function IdlePass(s: State, next: string, rw: Option<char>): (r: (State, Outcome))
    ensures r.0.consumed == s.consumed && r.0.phraseMap == s.phraseMap && r.1 != Return(false)
  {
    if next in s.phraseMap then (s.(checking := Shared(next), currentPhrase := next), Recurse)
    else (Emitted(s, next, rw).(lastToken := None), Return(true))
  }

  /** The phrase b is complete: it goes out, no valid phrase stays pending, the
      counter is taken back by one, and a key token starts a new phrase. */
  function Completed(s: State, next: string, b: string, rw: Option<char>): State {
    var e := Emitted(s, b, rw);
    Reseeded(e.(lastValid := None, positionIncr := e.positionIncr - 1), next)
  }

  /** The extended phrase b is a candidate. */
  function MatchedPass(s: State, next: string, b: string, single: bool, rw: Option<char>): (r: (State, Outcome))
    ensures r.0.consumed == s.consumed && r.0.phraseMap == s.phraseMap && r.1 != Return(false)
  {
    var rest := Narrowed(s.CheckSet(), b);
    var s1 := s.(checking := Owned(rest));
    if rest == {} then (Completed(s1, next, b, rw), Return(true))
    else if single then
      (s1.(lastToken := Some(b)), Return(true))
    else
      (Reseeded(s1.(lastValid := Some(b)), next), Recurse)
  }

  /** The phrase is given up: its words are queued for replay, tracking stops,
      and the first queued token goes out if there is one. */
  function Abandoned(s: State, rw: Option<char>): (r: (State, bool))
    ensures r.0.consumed == s.consumed && r.0.phraseMap == s.phraseMap
  {
    var d := Discard(s).(currentPhrase := [], checking := NotTracking);
    if d.unused != [] then (ReplayNext(d, rw), true) else (d, false)
  }

  /** No candidate extends the phrase any more. */
  function FallBackPass(s: State, single: bool, rw: Option<char>): (r: (State, Outcome))
    ensures r.0.consumed == s.consumed && r.0.phraseMap == s.phraseMap && r.1 != Return(false)
  {
    if s.lastValid.Some? then
      (Emitted(s, s.lastValid.value, rw).(lastValid := None), Return(true))
    else if !single then
      var a := Abandoned(s, rw);
      (a.0, if a.1 then Return(true) else Recurse)
    else
      (s.(checking := NotTracking), Recurse)
  }

  /** The extended phrase b is not a candidate. */
  function UnmatchedPass(s: State, next: string, b: string, single: bool, rw: Option<char>): (r: (State, Outcome))
    ensures r.0.consumed == s.consumed && r.1 != Return(false)
    ensures Grows(s.phraseMap, r.0.phraseMap)
  {
    var s1 := if next in s.phraseMap then Added(s, s.phraseMap[next]) else s;
    if Continues(s1.CheckSet(), b) then (s1, Recurse) else FallBackPass(s1, single, rw)
  }

  /** A phrase is tracked and token next arrived. */
  function TrackingPass(s: State, next: string, single: bool, rw: Option<char>): (r: (State, Outcome))
    ensures r.0.consumed == s.consumed && r.1 != Return(false)
    ensures Grows(s.phraseMap, r.0.phraseMap)
  {
    var b := AppendWord(s.currentPhrase, next);
    var s1 := s.(currentPhrase := b);
    if b in s1.CheckSet() then MatchedPass(s1, next, b, single, rw) else UnmatchedPass(s1, next, b, single, rw)
  }

  /** first picks a phrase of every non-empty set, as getFirst returns the
      element a non-empty set's iterator yields first. */
  ghost predicate Chooses(first: set<string> -> string) {
    forall c: set<string> :: c != {} ==> first(c) in c
  }

  /** Upstream is exhausted in single-token mode with candidates open: the first
      candidate (first stands for getFirst) is emitted when the phrase "ends
      with" it. */
  function FlushFirstPass(s: State, rw: Option<char>, first: set<string> -> string): (r: (State, bool))
    requires s.CheckSet() != {}
    ensures r.0.consumed == s.consumed && r.0.phraseMap == s.phraseMap
    ensures !r.1 ==> r.0 == s
  {
    var c := s.CheckSet();
    var phrase := first(c);
    if TailMatches(s.currentPhrase, phrase) then
      (Emitted(s.(checking := Owned(Narrowed(c, phrase))), phrase, rw), true)
    else (s, false)
  }

  /** Upstream is exhausted without single tokens, candidates open and some text
      emitted: unless the phrase is that text, its words are queued and the
      first is emitted, or dropped when the emitted text "ends with" the
      phrase. */
  function FlushReplayPass(s: State, rw: Option<char>): (r: (State, bool))
    requires s.lastEmitted.Some?
    ensures r.0.consumed == s.consumed && r.0.phraseMap == s.phraseMap
    ensures !r.1 ==> r.0.currentPhrase == s.currentPhrase && r.0.lastEmitted == s.lastEmitted
  {
    var le := s.lastEmitted.value;
    if (if rw.None? then le else MapChar(le, rw.value, ' ')) == s.currentPhrase then (s, false)
    else
      var d := Discard(s).(checking := NotTracking);
      if d.unused == [] then (d, false)
      else if TailMatches(le, s.currentPhrase) then (d.(unused := d.unused[1..]), false)
      else (ReplayNext(d, rw), true)
  }

  /** Upstream is exhausted while candidates are open. */
  function FlushCandidatesPass(s: State, single: bool, rw: Option<char>, first: set<string> -> string): (r: (State, bool))
    ensures r.0.consumed == s.consumed && r.0.phraseMap == s.phraseMap
    ensures !r.1 ==> r.0.currentPhrase == s.currentPhrase && r.0.lastEmitted == s.lastEmitted
  {
    if s.CheckSet() == {} then (s, false)
    else if single then FlushFirstPass(s, rw, first)
    else if s.lastEmitted.Some? then FlushReplayPass(s, rw)
    else (s, false)
  }

  /** Upstream is exhausted and nothing was emitted yet while a phrase was
      built. */
  function FlushPhrasePass(s: State, single: bool, rw: Option<char>): (r: (State, bool))
    ensures r.0.consumed == s.consumed && r.0.phraseMap == s.phraseMap
  {
    if s.lastEmitted.Some? || s.currentPhrase == [] then (s, false)
    else if s.currentPhrase in s.CheckSet() then
      (Emitted(s, s.currentPhrase, rw).(currentPhrase := []), true)
    else if !single then Abandoned(s, rw)
    else (s, false)
  }

  /** Upstream is exhausted. */
  function AtEndPass(s: State, single: bool, rw: Option<char>, first: set<string> -> string): (r: (State, bool))
    ensures r.0.consumed == s.consumed && r.0.phraseMap == s.phraseMap
  {
    if s.lastValid.Some? then (Emitted(s, s.lastValid.value, rw).(lastValid := None), true)
    else
      var f := FlushCandidatesPass(s, single, rw, first);
      if f.1 then f else FlushPhrasePass(f.0, single, rw)
  }

  /** A pass with no replay or pending token: pull the next upstream token and
      act on it, or flush at the end of the stream. */
  function PullPass(s: State, input: seq<Token>, single: bool, rw: Option<char>, first: set<string> -> string): (r: (State, Outcome))
    ensures r.0.consumed == s.consumed || (s.consumed < |input| && r.0.consumed == s.consumed + 1)
    ensures r.1.Recurse? ==> s.consumed < |input| && r.0.consumed == s.consumed + 1
    ensures r.1 == Return(false) ==> |input| <= s.consumed == r.0.consumed
    ensures Grows(s.phraseMap, r.0.phraseMap)
  {
    if |input| <= s.consumed then
      var e := AtEndPass(s, single, rw, first);
      (e.0, Return(e.1))
    else
      var s1 := Pulled(s, input, single);
      var next := input[s.consumed].term;
      if s1.CheckSet() == {} then IdlePass(s1, next, rw) else TrackingPass(s1, next, single, rw)
  }

  /** One pass of incrementToken over upstream input, up to its return or its
      recursive call: each recursion follows a pulled token, and only an
      exhausted upstream ends the stream. */
  function StepPass(s: State, input: seq<Token>, single: bool, rw: Option<char>, first: set<string> -> string): (r: (State, Outcome))
    ensures r.0.consumed == s.consumed || (s.consumed < |input| && r.0.consumed == s.consumed + 1)
    ensures r.1.Recurse? ==> s.consumed < |input| && r.0.consumed == s.consumed + 1
    ensures r.1 == Return(false) ==> |input| <= s.consumed == r.0.consumed
    ensures Grows(s.phraseMap, r.0.phraseMap)
  {
    if !single && s.unused != [] then (ReplayNext(s, rw), Return(true))
    else if s.lastToken.Some? then (Emitted(s, s.lastToken.value, rw).(lastToken := None), Return(true))
    else PullPass(s, input, single, rw, first)
  }

  /** incrementToken: passes until one returns. */
  function Run(s: State, input: seq<Token>, single: bool, rw: Option<char>, first: set<string> -> string): (State, bool)
    decreases |input| - s.consumed
  {
    var p := StepPass(s, input, single, rw, first);
    if p.1.Recurse? then Run(p.0, input, single, rw, first) else (p.0, p.1.result)
  }

  /** The dictionary keeps its keys and its entries only grow. */
  ghost predicate Grows(before: map<string, set<string>>, after: map<string, set<string>>) {
    after.Keys == before.Keys && forall k :: k in before ==> before[k] <= after[k]
  }

  // ---------------------------------------------------------------------------
  // What a pass does
  // ---------------------------------------------------------------------------

  /** A queued replay token goes out before anything else (without single
      tokens), then a staged single token; neither pulls from upstream. */
  lemma PendingFirst(s: State, input: seq<Token>, single: bool, rw: Option<char>, first: set<string> -> string)
    ensures !single && s.unused != [] ==>
              var r := StepPass(s, input, single, rw, first);
              && r.1 == Return(true) && r.0.unused == s.unused[1..] && r.0.consumed == s.consumed
              && r.0.attrs == Placed(Stamped(s.attrs, Replaced(s.unused[0].tok, rw), s.positionIncr + 1), s.unused[0])
    ensures (single || s.unused == []) && s.lastToken.Some? ==>
              var r := StepPass(s, input, single, rw, first);
              && r.1 == Return(true) && r.0.lastToken.None? && r.0.consumed == s.consumed
              && r.0.attrs == Stamped(s.attrs, Replaced(s.lastToken.value, rw), s.positionIncr + 1)
  {
  }

  /** With nothing tracked, a token that starts no phrase goes out as it is, at
      the next position. */
  lemma PlainWord(s: State, input: seq<Token>, single: bool, rw: Option<char>, first: set<string> -> string)
    requires (single || s.unused == []) && s.lastToken.None? && s.consumed < |input|
    requires s.CheckSet() == {} && input[s.consumed].term !in s.phraseMap
    ensures var r := StepPass(s, input, single, rw, first);
            && r.1 == Return(true) && r.0.lastToken.None? && r.0.consumed == s.consumed + 1
            && r.0.attrs == Stamped(input[s.consumed], Replaced(input[s.consumed].term, rw), s.positionIncr + 1)
  {
  }

  /** A token that completes a candidate no other candidate extends: the phrase
      goes out at the next position over the token's end offset, nothing stays
      pending, and the counter is taken back so that the phrase's words count
      as one position. */
  lemma CompletedMatch(s: State, input: seq<Token>, single: bool, rw: Option<char>, first: set<string> -> string)
    requires (single || s.unused == []) && s.lastToken.None? && s.consumed < |input|
    requires AppendWord(s.currentPhrase, input[s.consumed].term) in s.CheckSet()
    requires Narrowed(s.CheckSet(), AppendWord(s.currentPhrase, input[s.consumed].term)) == {}
    ensures var b := AppendWord(s.currentPhrase, input[s.consumed].term);
            var r := StepPass(s, input, single, rw, first);
            && r.1 == Return(true)
            && r.0.attrs == Stamped(input[s.consumed], Replaced(b, rw), s.positionIncr + 1)
            && r.0.positionIncr == s.positionIncr
            && r.0.lastValid.None? && r.0.lastEmitted == Some(Replaced(b, rw))
  {
    var b := AppendWord(s.currentPhrase, input[s.consumed].term);
    var s1 := Pulled(s, input, single);
    assert s1.CheckSet() == s.CheckSet();
    assert s1.(currentPhrase := b).CheckSet() == s.CheckSet();
  }

  /** In single-token mode a candidate that others extend is staged: the pass
      returns the upstream token unchanged, and the next pass emits the phrase
      at the next position. */
  lemma StagedMatch(s: State, input: seq<Token>, rw: Option<char>, first: set<string> -> string)
    requires s.lastToken.None? && s.consumed < |input|
    requires AppendWord(s.currentPhrase, input[s.consumed].term) in s.CheckSet()
    requires Narrowed(s.CheckSet(), AppendWord(s.currentPhrase, input[s.consumed].term)) != {}
    ensures var b := AppendWord(s.currentPhrase, input[s.consumed].term);
            var r := StepPass(s, input, true, rw, first);
            var r2 := StepPass(r.0, input, true, rw, first);
            && r.1 == Return(true) && r.0.attrs == input[s.consumed]
            && r.0.lastToken == Some(b) && r.0.CheckSet() == Narrowed(s.CheckSet(), b)
            && r2.1 == Return(true) && r2.0.lastToken.None? && r2.0.consumed == s.consumed + 1
            && r2.0.attrs == Stamped(input[s.consumed], Replaced(b, rw), s.positionIncr + 1)
  {
    var b := AppendWord(s.currentPhrase, input[s.consumed].term);
    var s1 := Pulled(s, input, true);
    assert s1.CheckSet() == s.CheckSet();
    assert s1.(currentPhrase := b).CheckSet() == s.CheckSet();
  }

  /** Without single tokens a candidate that others extend is remembered as the
      last valid phrase and the pass recurses, tracking the token's own phrases
      when it is a key and the narrowed candidates otherwise. */
  lemma PartialMatch(s: State, input: seq<Token>, rw: Option<char>, first: set<string> -> string)
    requires s.unused == [] && s.lastToken.None? && s.consumed < |input|
    requires AppendWord(s.currentPhrase, input[s.consumed].term) in s.CheckSet()
    requires Narrowed(s.CheckSet(), AppendWord(s.currentPhrase, input[s.consumed].term)) != {}
    ensures var n := input[s.consumed].term;
            var b := AppendWord(s.currentPhrase, n);
            var r := StepPass(s, input, false, rw, first);
            && r.1 == Recurse && r.0.lastValid == Some(b) && r.0.attrs == input[s.consumed]
            && r.0.positionIncr == s.positionIncr && r.0.consumed == s.consumed + 1
            && r.0.CheckSet() == (if n in s.phraseMap then s.phraseMap[n] else Narrowed(s.CheckSet(), b))
            && r.0.currentPhrase == (if n in s.phraseMap then n else b)
  {
    var b := AppendWord(s.currentPhrase, input[s.consumed].term);
    var s1 := Pulled(s, input, false);
    assert s1.CheckSet() == s.CheckSet();
    assert s1.(currentPhrase := b).CheckSet() == s.CheckSet();
  }

  /** Without single tokens the fall-back never recurses: the last valid phrase
      goes out, or else the phrase is queued word by word (it always yields at
      least its last word) and the first queued token goes out. */
  lemma FallBackEmits(s: State, rw: Option<char>)
    requires s.lastValid.None?
    ensures var r := FallBackPass(s, false, rw);
            var q := s.unused + Discarded(s.currentPhrase, s.attrs.endOffset, s.lastEmitted);
            && r.1 == Return(true) && q != []
            && r.0.unused == q[1..] && r.0.currentPhrase == [] && r.0.checking == NotTracking
            && r.0.attrs == Placed(Stamped(s.attrs, Replaced(q[0].tok, rw), s.positionIncr + 1), q[0])
  {
    DiscardedLocated(s.currentPhrase, s.attrs.endOffset, s.lastEmitted);
  }

  /** A token that extends no candidate and continues none, with a last valid
      phrase pending: that phrase goes out instead. */
  lemma AbandonedForLastValid(s: State, input: seq<Token>, single: bool, rw: Option<char>, first: set<string> -> string)
    requires (single || s.unused == []) && s.lastToken.None? && s.consumed < |input|
    requires s.CheckSet() != {} && s.lastValid.Some?
    requires s.checking.Shared? ==> s.checking.key in s.phraseMap
    requires AppendWord(s.currentPhrase, input[s.consumed].term) !in s.CheckSet()
    requires !Continues(s.CheckSet() + (if input[s.consumed].term in s.phraseMap then s.phraseMap[input[s.consumed].term] else {}),
                        AppendWord(s.currentPhrase, input[s.consumed].term))
    ensures var r := StepPass(s, input, single, rw, first);
            && r.1 == Return(true) && r.0.lastValid.None? && r.0.consumed == s.consumed + 1
            && r.0.attrs == Stamped(input[s.consumed], Replaced(s.lastValid.value, rw), s.positionIncr + 1)
  {
    var n := input[s.consumed].term;
    var b := AppendWord(s.currentPhrase, n);
    var s2 := Pulled(s, input, single).(currentPhrase := b);
    assert s2.CheckSet() == s.CheckSet();
    if n in s.phraseMap {
      assert Added(s2, s.phraseMap[n]).CheckSet() == s.CheckSet() + s.phraseMap[n];
    }
  }

  /** In single-token mode at the end of the stream, with no valid phrase
      pending: the first candidate goes out when the phrase "ends with" it, and
      it leaves the candidates. */
  lemma FlushedCandidate(s: State, input: seq<Token>, rw: Option<char>, first: set<string> -> string)
    requires s.lastToken.None? && |input| <= s.consumed && s.lastValid.None?
    requires Chooses(first)
    requires s.CheckSet() != {} && TailMatches(s.currentPhrase, first(s.CheckSet()))
    ensures var p := first(s.CheckSet());
            var r := StepPass(s, input, true, rw, first);
            && p in s.CheckSet()
            && r.1 == Return(true)
            && r.0.attrs == Stamped(s.attrs, Replaced(p, rw), s.positionIncr + 1)
            && r.0.CheckSet() == Narrowed(s.CheckSet(), p) && p !in r.0.CheckSet()
  {
  }

  /** Without single tokens at the end of the stream, nothing emitted yet and no
      valid phrase pending: a phrase that is a candidate goes out whole, and one
      that is not is replayed from its first word. */
  lemma FlushedPhrase(s: State, input: seq<Token>, rw: Option<char>, first: set<string> -> string)
    requires s.unused == [] && s.lastToken.None? && |input| <= s.consumed
    requires s.lastValid.None? && s.lastEmitted.None? && s.currentPhrase != []
    ensures var r := StepPass(s, input, false, rw, first);
            var q := Discarded(s.currentPhrase, s.attrs.endOffset, None);
            && r.1 == Return(true) && r.0.currentPhrase == []
            && (s.currentPhrase in s.CheckSet() ==>
                  r.0.attrs == Stamped(s.attrs, Replaced(s.currentPhrase, rw), s.positionIncr + 1))
            && (s.currentPhrase !in s.CheckSet() ==>
                  q != [] && r.0.unused == q[1..]
                  && r.0.attrs == Placed(Stamped(s.attrs, Replaced(q[0].tok, rw), s.positionIncr + 1), q[0]))
  {
    DiscardedLocated(s.currentPhrase, s.attrs.endOffset, None);
  }

  /** incrementToken reports the end of the stream only once upstream is
      exhausted, and never un-consumes a token. */
  lemma {:induction false} RunEndsAtEnd(s: State, input: seq<Token>, single: bool, rw: Option<char>, first: set<string> -> string)
    ensures s.consumed <= Run(s, input, single, rw, first).0.consumed
    ensures !Run(s, input, single, rw, first).1 ==> |input| <= Run(s, input, single, rw, first).0.consumed
    decreases |input| - s.consumed
  {
    var p := StepPass(s, input, single, rw, first);
    if p.1.Recurse? {
      RunEndsAtEnd(p.0, input, single, rw, first);
    }
  }

  /** Over a whole call of incrementToken the dictionary keeps its keys and its
      entries only grow. */
  lemma {:induction false} RunGrows(s: State, input: seq<Token>, single: bool, rw: Option<char>, first: set<string> -> string)
    ensures Grows(s.phraseMap, Run(s, input, single, rw, first).0.phraseMap)
    decreases |input| - s.consumed
  {
    var p := StepPass(s, input, single, rw, first);
    if p.1.Recurse? {
      RunGrows(p.0, input, single, rw, first);
    }
  }

  class AutoPhrasingTokenFilter {
    var phraseMap: map<string, set<string>>
    var checking: Candidates
    var currentPhrase: string
    var unused: seq<Replay>
    const emitSingleTokens: bool
    var lastToken: Option<string>
    var lastEmitted: Option<string>
    var lastValid: Option<string>
    var replaceWhitespaceWith: Option<char>
    var positionIncr: int
    /** The upstream stream, of which the first consumed tokens have been pulled. */
    var input: seq<Token>
    var consumed: nat
    /** The attributes shared with upstream and with the consumer. */
    var attrs: Token
    /** getFirst: the phrase a CharArraySet's iterator yields first. */
    const first: set<string> -> string

    /** The fields as one value. */
    function Snap(): State
      reads this
    {
      State(phraseMap, checking, currentPhrase, unused, lastToken, lastEmitted, lastValid, positionIncr, consumed, attrs)
    }

    /** The candidate phrases currentSetToCheck holds; none when it is null. */
    function CheckSet(): set<string>
      reads this`phraseMap, this`checking
    {
      CandidateSet(phraseMap, checking)
    }

    ghost predicate Valid()
      reads this
    {
      && positionIncr >= 0
      && consumed <= |input|
      && AllWellFormed(input)
      && attrs.WellFormed()
      && (checking.Shared? ==> checking.key in phraseMap)
      // a phrase is only built while something is tracked or emitted, so the
      // candidate lookup at the end of the stream never meets a null set
      && (lastEmitted.None? && currentPhrase != [] && lastToken.None? ==> !checking.NotTracking?)
      && Chooses(first)
    }

    /** The dictionary keeps its keys and its entries only grow. */
    ghost predicate Grown(before: map<string, set<string>>)
      reads this
    {
      Grows(before, phraseMap)
    }

    /** A filter over input; convertPhraseSet throws on an empty phrase, so the
        dictionary must not hold one. */
    constructor (input: seq<Token>, phraseSet: set<string>, emitSingleTokens: bool, first: set<string> -> string)
      requires [] !in phraseSet
      requires AllWellFormed(input)
      requires Chooses(first)
      ensures Valid()
      ensures IndexesPhrases(phraseMap, phraseSet)
      ensures this.input == input && consumed == 0 && this.emitSingleTokens == emitSingleTokens && this.first == first
      ensures checking == NotTracking && currentPhrase == [] && unused == [] && positionIncr == 0
      ensures lastToken.None? && lastEmitted.None? && lastValid.None? && replaceWhitespaceWith.None?
    {
      var m := ConvertPhraseSet(phraseSet);
      phraseMap := m.value;
      checking := NotTracking;
      currentPhrase := [];
      unused := [];
      this.emitSingleTokens := emitSingleTokens;
      lastToken := None;
      lastEmitted := None;
      lastValid := None;
      replaceWhitespaceWith := None;
      positionIncr := 0;
      this.input := input;
      consumed := 0;
      attrs := Token([], 0, 0, 1, "word");
      this.first := first;
    }

    method SetReplaceWhitespaceWith(c: Option<char>)
      requires Valid()
      modifies this`replaceWhitespaceWith
      ensures Valid()
      ensures replaceWhitespaceWith == c
    {
      replaceWhitespaceWith := c;
    }

    /** reset: forget the phrase, the candidates, the pending and emitted texts,
        the replay queue and the position counter, and start over on next.
        lastValid and any growth of the dictionary survive. */
    method Reset(next: seq<Token>)
      requires Valid()
      requires AllWellFormed(next)
      modifies this
      ensures Valid()
      ensures checking == NotTracking && currentPhrase == [] && unused == [] && positionIncr == 0
      ensures lastToken.None? && lastEmitted.None?
      ensures lastValid == old(lastValid) && phraseMap == old(phraseMap) && attrs == old(attrs)
      ensures replaceWhitespaceWith == old(replaceWhitespaceWith)
      ensures input == next && consumed == 0
    {
      checking := NotTracking;
      currentPhrase := [];
      lastToken := None;
      lastEmitted := None;
      unused := [];
      positionIncr := 0;
      input := next;
      consumed := 0;
    }

    /** nextToken: pull one upstream token into the attributes and return its
        text, or nothing once upstream is exhausted. */
    method NextToken() returns (t: Option<string>)
      requires Valid()
      modifies this`attrs, this`consumed
      ensures Valid()
      ensures old(consumed) < |input| ==>
                consumed == old(consumed) + 1 && attrs == input[old(consumed)] && t == Some(attrs.term)
      ensures old(consumed) == |input| ==> t.None? && consumed == old(consumed) && attrs == old(attrs)
    {
      if consumed == |input| {
        return None;
      }
      attrs := input[consumed];
      consumed := consumed + 1;
      return Some(attrs.term);
    }

    /** getCurrentBuffer: extend the phrase with the token and return a copy. */
    method GetCurrentBuffer(newToken: string) returns (r: string)
      modifies this`currentPhrase
      ensures currentPhrase == AppendWord(old(currentPhrase), newToken)
      ensures r == currentPhrase
    {
      if newToken != [] {
        if |currentPhrase| > 0 {
          currentPhrase := currentPhrase + [' '];
        }
        currentPhrase := currentPhrase + newToken;
      }
      r := currentPhrase;
    }

    /** emit(char[]): write the (replaced) text, move the start offset back from
        the end offset by its length, bump the position counter and remember the
        text as last emitted. */
    method Emit(token: string)
      requires Valid()
      modifies this`attrs, this`positionIncr, this`lastEmitted
      ensures Valid()
      ensures Snap() == Emitted(old(Snap()), token, replaceWhitespaceWith)
    {
      var text := token;
      if replaceWhitespaceWith.Some? {
        text := ReplaceWhiteSpace(token, replaceWhitespaceWith.value);
      }
      var start := attrs.startOffset;
      if attrs.endOffset >= |text| {
        start := attrs.endOffset - |text|;
      }
      positionIncr := positionIncr + 1;
      attrs := attrs.(term := text, startOffset := start, posInc := positionIncr);
      lastEmitted := Some(text);
    }

    /** unusedTokens.remove(0) and emit(Token): emit the head of the replay
        queue, then take its own offsets when they are a proper non-negative
        range. */
    method EmitNextReplay()
      requires Valid() && unused != []
      modifies this`unused, this`attrs, this`positionIncr, this`lastEmitted
      ensures Valid()
      ensures Snap() == ReplayNext(old(Snap()), replaceWhitespaceWith)
    {
      var r := unused[0];
      unused := unused[1..];
      Emit(r.tok);
      if r.endPos > r.startPos && r.startPos >= 0 {
        attrs := attrs.(startOffset := r.startPos, endOffset := r.endPos);
      }
    }

    /** Take the head of the replay queue. */
    method PopUnused() returns (r: Replay)
      requires unused != []
      modifies this`unused
      ensures r == old(unused)[0] && unused == old(unused)[1..]
    {
      r := unused[0];
      unused := unused[1..];
    }

    /** discardCharTokens: queue the words of the current phrase with the offsets
        they had in the text, as Discarded describes. */
    method DiscardCharTokens()
      modifies this`unused
      ensures unused == old(unused) + Discarded(currentPhrase, attrs.endOffset, lastEmitted)
    {
      var phrase := currentPhrase;
      var endPos := attrs.endOffset;
      var startPos := endPos - |phrase|;
      var lastSp: nat := 0;
      var i: nat := 0;
      ghost var added: seq<Replay> := [];
      while i < |phrase|
        invariant lastSp <= i <= |phrase|
        invariant unused == old(unused) + added
        invariant added + Cuts(phrase, i, lastSp, startPos, endPos, lastEmitted) == Discarded(phrase, endPos, lastEmitted)
      {
        if IsSpaceChar(phrase[i]) && i > lastSp {
          var tok := phrase[lastSp..i];
          ghost var rest := Cuts(phrase, i + 1, i + 1, startPos, endPos, lastEmitted);
          var skip := false;
          if lastEmitted.Some? {
            skip := EndsWith(lastEmitted.value, tok);
          }
          if !skip {
            var token := Replay(tok, startPos + lastSp, startPos + lastSp + |tok|);
            assert Cuts(phrase, i, lastSp, startPos, endPos, lastEmitted) == [token] + rest;
            assert added + ([token] + rest) == (added + [token]) + rest;
            unused := unused + [token];
            added := added + [token];
          } else {
            assert Cuts(phrase, i, lastSp, startPos, endPos, lastEmitted) == rest;
          }
          lastSp := i + 1;
        } else {
          assert Cuts(phrase, i, lastSp, startPos, endPos, lastEmitted) == Cuts(phrase, i + 1, lastSp, startPos, endPos, lastEmitted);
        }
        i := i + 1;
      }
      var tok := phrase[lastSp..];
      assert Cuts(phrase, i, lastSp, startPos, endPos, lastEmitted) == [Replay(tok, endPos - |tok|, endPos)];
      unused := unused + [Replay(tok, endPos - |tok|, endPos)];
    }

    /** The end-of-stream part of incrementToken (upstream returned no token):
        flush a pending valid phrase, a completed phrase or the replay queue. */
    method AtEnd() returns (r: bool)
      requires Valid() && lastToken.None?
      modifies this`checking, this`currentPhrase, this`unused, this`lastValid, this`attrs, this`positionIncr, this`lastEmitted
      ensures Valid()
      ensures (Snap(), r) == AtEndPass(old(Snap()), emitSingleTokens, replaceWhitespaceWith, first)
    {
      if lastValid.Some? {
        Emit(lastValid.value);
        lastValid := None;
        return true;
      }
      var done := FlushCandidates();
      if done {
        return true;
      }
      r := FlushPhrase();
    }

    /** Upstream ended while candidates were open. */
    method FlushCandidates() returns (r: bool)
      requires Valid() && lastToken.None?
      modifies this`checking, this`currentPhrase, this`unused, this`attrs, this`positionIncr, this`lastEmitted
      ensures Valid()
      ensures (Snap(), r) == FlushCandidatesPass(old(Snap()), emitSingleTokens, replaceWhitespaceWith, first)
    {
      var candidates := CheckSet();
      if emitSingleTokens && candidates != {} {
        r := FlushFirst();
      } else if !emitSingleTokens && candidates != {} {
        if lastEmitted.Some? {
          r := FlushReplay();
        } else {
          r := false;
        }
      } else {
        r := false;
      }
    }

    /** Single-token mode: emit the first candidate if the phrase "ends with" it. */
    method FlushFirst() returns (r: bool)
      requires Valid() && CheckSet() != {}
      modifies this`checking, this`currentPhrase, this`attrs, this`positionIncr, this`lastEmitted
      ensures Valid()
      ensures (Snap(), r) == FlushFirstPass(old(Snap()), replaceWhitespaceWith, first)
    {
      var candidates := CheckSet();
      var phrase := first(candidates);
      var lastTok := GetCurrentBuffer([]);
      var ends := EndsWith(lastTok, phrase);
      if ends {
        var rest := Remove(candidates, phrase);
        checking := Owned(rest);
        Emit(phrase);
        return true;
      }
      return false;
    }

    /** Without single tokens: unless the phrase is the last emitted text, queue
        its words and emit the first, or drop it when the last emitted text
        "ends with" the phrase. */
    method FlushReplay() returns (r: bool)
      requires Valid() && lastToken.None? && lastEmitted.Some?
      modifies this`checking, this`unused, this`attrs, this`positionIncr, this`lastEmitted
      ensures Valid()
      ensures (Snap(), r) == FlushReplayPass(old(Snap()), replaceWhitespaceWith)
    {
      var fixed := FixWhitespace(lastEmitted.value, replaceWhitespaceWith);
      var same := CharsEqual(fixed, currentPhrase);
      if same {
        return false;
      }
      DiscardCharTokens();
      checking := NotTracking;
      if unused == [] {
        return false;
      }
      var ends := EndsWith(lastEmitted.value, currentPhrase);
      if !ends {
        EmitNextReplay();
        return true;
      }
      var dropped := PopUnused();
      return false;
    }

    /** Upstream ended on a phrase while nothing was emitted yet: emit the phrase
        when it is a candidate, or else (without single tokens) queue its words
        and emit the first. */
    method FlushPhrase() returns (r: bool)
      requires Valid() && lastToken.None?
      modifies this`checking, this`currentPhrase, this`unused, this`attrs, this`positionIncr, this`lastEmitted
      ensures Valid()
      ensures (Snap(), r) == FlushPhrasePass(old(Snap()), emitSingleTokens, replaceWhitespaceWith)
    {
      if lastEmitted.None? && currentPhrase != [] {
        var lastTok := GetCurrentBuffer([]);
        // the null candidate set the source would dereference here cannot occur
        assert !checking.NotTracking?;
        if lastTok in CheckSet() {
          Emit(lastTok);
          currentPhrase := [];
          return true;
        } else if !emitSingleTokens {
          r := Abandon();
          return;
        }
      }
      return false;
    }

    /** incrementToken when nothing is tracked: a dictionary first word starts a
        phrase (and recurses), anything else is emitted as it is. */
    method Idle(next: string) returns (o: Outcome)
      requires Valid() && CheckSet() == {}
      modifies this`checking, this`currentPhrase, this`lastToken, this`attrs, this`positionIncr, this`lastEmitted
      ensures Valid()
      ensures (Snap(), o) == IdlePass(old(Snap()), next, replaceWhitespaceWith)
    {
      if next in phraseMap {
        checking := Shared(next);
        currentPhrase := next;
        return Recurse;
      }
      Emit(next);
      lastToken := None;
      return Return(true);
    }

    /** Add phrases to the candidates; when they are the dictionary's own set,
        the dictionary entry grows with them. */
    method AddCandidates(phrases: set<string>)
      requires Valid() && !checking.NotTracking?
      modifies this`phraseMap, this`checking
      ensures Valid() && Grown(old(phraseMap))
      ensures Snap() == Added(old(Snap()), phrases)
      ensures CheckSet() == old(CheckSet()) + phrases
    {
      match checking
      case Shared(k) =>
        phraseMap := phraseMap[k := phraseMap[k] + phrases];
      case Owned(s) =>
        checking := Owned(s + phrases);
    }

    /** incrementToken while a phrase is tracked and upstream gave token next. */
    method Tracking(next: string) returns (o: Outcome)
      requires Valid() && CheckSet() != {}
      requires emitSingleTokens ==> lastToken == Some(next)
      modifies this`phraseMap, this`checking, this`currentPhrase, this`unused, this`lastToken, this`lastValid, this`attrs, this`positionIncr, this`lastEmitted
      ensures Valid() && Grown(old(phraseMap))
      ensures (Snap(), o) == TrackingPass(old(Snap()), next, emitSingleTokens, replaceWhitespaceWith)
    {
      var currentBuffer := GetCurrentBuffer(next);
      if currentBuffer in CheckSet() {
        o := Matched(next, currentBuffer);
      } else {
        o := Unmatched(next, currentBuffer);
      }
    }

    /** The extended phrase is a candidate: narrow the candidates to its
        extensions; emit it when none is left, otherwise keep it as the last valid
        phrase (or, in single-token mode, as the pending token). */
    method Matched(next: string, currentBuffer: string) returns (o: Outcome)
      requires Valid() && currentBuffer in CheckSet()
      requires emitSingleTokens ==> lastToken.Some?
      modifies this`checking, this`currentPhrase, this`lastToken, this`lastValid, this`attrs, this`positionIncr, this`lastEmitted
      ensures Valid()
      ensures (Snap(), o) == MatchedPass(old(Snap()), next, currentBuffer, emitSingleTokens, replaceWhitespaceWith)
    {
      var rest := Remove(CheckSet(), currentBuffer);
      checking := Owned(rest);
      if rest == {} {
        Complete(next, currentBuffer);
        return Return(true);
      }
      if emitSingleTokens {
        lastToken := Some(currentBuffer);
        return Return(true);
      }
      lastValid := Some(currentBuffer);
      Reseed(next);
      return Recurse;
    }

    /** Emit the completed phrase b and take the counter back. */
    method Complete(next: string, b: string)
      requires Valid() && checking.Owned?
      modifies this`checking, this`currentPhrase, this`lastValid, this`attrs, this`positionIncr, this`lastEmitted
      ensures Valid()
      ensures Snap() == Completed(old(Snap()), next, b, replaceWhitespaceWith)
    {
      Emit(b);
      lastValid := None;
      positionIncr := positionIncr - 1;
      Reseed(next);
    }

    /** A token that is a dictionary key starts a new phrase. */
    method Reseed(next: string)
      requires Valid()
      modifies this`checking, this`currentPhrase
      ensures Valid()
      ensures Snap() == Reseeded(old(Snap()), next)
    {
      if next in phraseMap {
        checking := Shared(next);
        currentPhrase := next;
      }
    }

    /** The extended phrase is no candidate: take in the phrases the token starts,
        keep going while a candidate still extends the phrase, otherwise fall
        back on the last valid phrase or the replay queue. */
    method Unmatched(next: string, currentBuffer: string) returns (o: Outcome)
      requires Valid() && CheckSet() != {}
      requires emitSingleTokens ==> lastToken.Some?
      modifies this`phraseMap, this`checking, this`currentPhrase, this`unused, this`lastValid, this`attrs, this`positionIncr, this`lastEmitted
      ensures Valid() && Grown(old(phraseMap))
      ensures (Snap(), o) == UnmatchedPass(old(Snap()), next, currentBuffer, emitSingleTokens, replaceWhitespaceWith)
    {
      if next in phraseMap {
        AddCandidates(phraseMap[next]);
      }
      var found := HasPhraseStartingWith(CheckSet(), currentBuffer);
      if found {
        return Recurse;
      }
      o := FallBack();
    }

    /** The end of an unmatched pass: the last valid phrase if there is one,
        otherwise, without single tokens, the first replayed token. */
    method FallBack() returns (o: Outcome)
      requires Valid()
      requires emitSingleTokens ==> lastToken.Some?
      modifies this`checking, this`currentPhrase, this`unused, this`lastValid, this`attrs, this`positionIncr, this`lastEmitted
      ensures Valid()
      ensures (Snap(), o) == FallBackPass(old(Snap()), emitSingleTokens, replaceWhitespaceWith)
    {
      if lastValid.Some? {
        Emit(lastValid.value);
        lastValid := None;
        return Return(true);
      }
      if !emitSingleTokens {
        var emitted := Abandon();
        return if emitted then Return(true) else Recurse;
      }
      checking := NotTracking;
      return Recurse;
    }

    /** Give the phrase up: queue its words, stop tracking, and emit the first
        queued token if there is one. */
    method Abandon() returns (r: bool)
      requires Valid()
      modifies this`checking, this`currentPhrase, this`unused, this`attrs, this`positionIncr, this`lastEmitted
      ensures Valid()
      ensures (Snap(), r) == Abandoned(old(Snap()), replaceWhitespaceWith)
    {
      DiscardCharTokens();
      currentPhrase := [];
      checking := NotTracking;
      if unused != [] {
        EmitNextReplay();
        return true;
      }
      return false;
    }

    /** One pass of incrementToken, up to its return or its recursive call. */
    method Step() returns (o: Outcome)
      requires Valid()
      modifies this
      ensures Valid() && Grown(old(phraseMap))
      ensures input == old(input) && replaceWhitespaceWith == old(replaceWhitespaceWith)
      ensures (Snap(), o) == StepPass(old(Snap()), input, emitSingleTokens, replaceWhitespaceWith, first)
    {
      if !emitSingleTokens && unused != [] {
        EmitNextReplay();
        return Return(true);
      }
      if lastToken.Some? {
        Emit(lastToken.value);
        lastToken := None;
        return Return(true);
      }
      o := Pull();
    }

    /** A pass with no replay or pending token. */
    method Pull() returns (o: Outcome)
      requires Valid() && lastToken.None?
      modifies this
      ensures Valid() && Grown(old(phraseMap))
      ensures input == old(input) && replaceWhitespaceWith == old(replaceWhitespaceWith)
      ensures (Snap(), o) == PullPass(old(Snap()), input, emitSingleTokens, replaceWhitespaceWith, first)
    {
      if consumed == |input| {
        var r := AtEnd();
        return Return(r);
      }
      var next := Take();
      if CheckSet() == {} {
        o := Idle(next);
      } else {
        o := Tracking(next);
      }
    }

    /** Pull the next upstream token; in single-token mode it is staged as the
        pending token. */
    method Take() returns (next: string)
      requires Valid() && consumed < |input|
      modifies this`attrs, this`consumed, this`lastToken
      ensures Valid()
      ensures Snap() == Pulled(old(Snap()), input, emitSingleTokens)
      ensures next == input[old(consumed)].term
    {
      var nextToken := NextToken();
      next := nextToken.value;
      if emitSingleTokens {
        lastToken := Some(next);
      }
    }

    /** incrementToken, its recursive calls unrolled into a loop: every recursion
        follows a token pulled from upstream, so the loop ends. */
    method IncrementToken() returns (r: bool)
      requires Valid()
      modifies this
      ensures Valid() && Grown(old(phraseMap))
      ensures input == old(input) && replaceWhitespaceWith == old(replaceWhitespaceWith)
      ensures (Snap(), r) == Run(old(Snap()), input, emitSingleTokens, replaceWhitespaceWith, first)
    {
      var o := Step();
      while o.Recurse?
        invariant Valid() && Grown(old(phraseMap))
        invariant input == old(input) && replaceWhitespaceWith == old(replaceWhitespaceWith)
        invariant o.Recurse? ==> Run(Snap(), input, emitSingleTokens, replaceWhitespaceWith, first)
                                 == Run(old(Snap()), input, emitSingleTokens, replaceWhitespaceWith, first)
        invariant o.Return? ==> (Snap(), o.result) == Run(old(Snap()), input, emitSingleTokens, replaceWhitespaceWith, first)
        decreases |input| - consumed + (if o.Recurse? then 1 else 0)
      {
        o := Step();
      }
      r := o.result;
    }
  }
}
