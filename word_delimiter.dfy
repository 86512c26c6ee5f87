/** The word-delimiter token filter (version 2): splits a token into subword
    parts at the breaks a word-delimiter iterator finds, and emits the parts,
    runs of same-typed parts concatenated, a concatenation of all parts and
    optionally the original token, with position increments kept consistent. */
module WordDelimiter {
  import opened Tokens

  // ---------------------------------------------------------------------------
  // Subword types and configuration
  // ---------------------------------------------------------------------------

  /** The character-class bits a subword type combines. */
  datatype CharClass = Lower | Upper | Digit | SubwordDelim

  /** A subword type, as a set of class bits; bitwise "and" is intersection. */
  type WordType = set<CharClass>

  /** isAlpha: the type has a letter bit (lower or upper case). */
  predicate IsAlpha(t: WordType) {
    Lower in t || Upper in t
  }

  /** isDigit: the type has the digit bit. */
  predicate IsDigit(t: WordType) {
    Digit in t
  }

  /** The configuration bits that steer this filter (the splitting bits only
      steer the iterator). */
  datatype Flags = Flags(
    generateWordParts: bool,
    generateNumberParts: bool,
    catenateWords: bool,
    catenateNumbers: bool,
    catenateAll: bool,
    preserveOriginal: bool,
    allPartsAtSamePosition: bool)

  /** shouldConcatenate: subwords of this type join the typed run. */
  predicate ShouldConcatenate(f: Flags, t: WordType) {
    (f.catenateWords && IsAlpha(t)) || (f.catenateNumbers && IsDigit(t))
  }

  /** shouldGenerateParts: subwords of this type are emitted on their own. */
  predicate ShouldGenerateParts(f: Flags, t: WordType) {
    (f.generateWordParts && IsAlpha(t)) || (f.generateNumberParts && IsDigit(t))
  }

  /** Whether flushConcatenation writes a run of count subwords of type t: a run of
      one part that is generated anyway would only repeat that part. */
  predicate Flushes(f: Flags, count: int, t: WordType) {
    count != 1 || !ShouldGenerateParts(f, t)
  }

  // ---------------------------------------------------------------------------
  // The break iterator's output
  // ---------------------------------------------------------------------------

  /** One subword the iterator reports: characters [current, end) of the text,
      their type, and whether the subword is the whole word between delimiters. */
  datatype Span = Span(current: int, end: int, wordType: WordType, isSingleWord: bool)

  /** The iterator scans left to right: non-empty subwords inside the text, in
      order and not overlapping. */
  predicate SpansWithin(spans: seq<Span>, len: int) {
    && (forall i :: 0 <= i < |spans| ==> 0 <= spans[i].current < spans[i].end <= len)
    && (forall i, j :: 0 <= i < j < |spans| ==> spans[i].end <= spans[j].current)
  }

  // ---------------------------------------------------------------------------
  // Position increments
  // ---------------------------------------------------------------------------

  /** The increment a part takes: one position (none when all parts share a
      position), or the accumulated gap when that is larger. */
  function Gap(f: Flags, accum: int): (g: int)
    ensures g >= accum
    ensures g >= (if f.allPartsAtSamePosition then 0 else 1)
    ensures g == accum || g == (if f.allPartsAtSamePosition then 0 else 1)
  {
    Max(if f.allPartsAtSamePosition then 0 else 1, accum)
  }

  /** The three fields position() reads and writes. */
  datatype Positions = Positions(accumPosInc: int, hasOutputToken: bool, hasOutputFollowingOriginal: bool)

  /** position(inject): the increment it returns and the fields it leaves. */
  function Positioned(f: Flags, inject: bool, s: Positions): (r: (int, Positions))
    ensures s.accumPosInc >= 0 ==> r.0 >= 0 && r.1.accumPosInc >= 0
    ensures r.1.hasOutputToken
    ensures r.1.hasOutputFollowingOriginal == (s.hasOutputFollowingOriginal || !s.hasOutputToken)
    // an injected concatenation shares the position of the run's earlier output
    ensures s.hasOutputToken && inject ==> r.0 == 0 && r.1.accumPosInc == 0
    // the first token after the preserved original is stacked on it
    ensures !s.hasOutputToken && !s.hasOutputFollowingOriginal ==> r.0 == 0 && r.1.accumPosInc == s.accumPosInc
    // otherwise the gap is taken and the accumulator is cleared
    ensures !(s.hasOutputToken && inject) && (s.hasOutputToken || s.hasOutputFollowingOriginal) ==>
              r.0 == Gap(f, s.accumPosInc) && r.1.accumPosInc == 0
  {
    if s.hasOutputToken then
      (if inject then 0 else Gap(f, s.accumPosInc), s.(accumPosInc := 0))
    else if !s.hasOutputFollowingOriginal then
      (0, s.(hasOutputToken := true, hasOutputFollowingOriginal := true))
    else
      (Gap(f, s.accumPosInc), s.(accumPosInc := 0, hasOutputToken := true))
  }

  /** The first part or run emitted for a divided token is stacked on the
      preserved original (increment 0); without the original it takes the
      accumulated gap, and the accumulator is cleared. */
  lemma FirstAfterOriginal(f: Flags, inject: bool, accum: int)
    ensures Positioned(f, inject, Positions(accum, false, false)).0 == 0
    ensures Positioned(f, inject, Positions(accum, false, true)) == (Gap(f, accum), Positions(0, true, true))
  {
  }

  // ---------------------------------------------------------------------------
  // Offsets
  // ---------------------------------------------------------------------------

  /** The offsets generatePart gives the part [current, end) of a token saved
      with offsets savedStart, savedEnd and text length len; offsets that do not
      span the text (a synonym) are kept instead of being split. */
  function PartOffsets(savedStart: int, savedEnd: int, len: int, isSingleWord: bool, current: int, end: int): (r: (int, int))
    ensures savedEnd - savedStart == len ==> r == (savedStart + current, savedStart + end)
    ensures savedEnd - savedStart != len ==>
              r.1 == savedEnd && (r.0 == savedStart || (isSingleWord && r.0 == savedStart + current))
    // a single word keeps its own start when that lies inside the token
    ensures savedEnd - savedStart != len && isSingleWord && savedStart + current <= savedEnd ==>
              r == (savedStart + current, savedEnd)
    ensures savedEnd - savedStart != len && !(isSingleWord && savedStart + current <= savedEnd) ==>
              r == (savedStart, savedEnd)
    ensures 0 <= savedStart <= savedEnd && 0 <= current <= end <= len ==> savedStart <= r.0 <= r.1 <= savedEnd
  {
    var startOffset := savedStart + current;
    var endOffset := savedStart + end;
    if savedEnd - savedStart != len then
      if isSingleWord && startOffset <= savedEnd then (startOffset, savedEnd) else (savedStart, savedEnd)
    else
      (startOffset, endOffset)
  }

  /** The offsets a written concatenation gets: its own, or the whole token's
      when the token's offsets do not span its text. */
  function ConcatOffsets(savedStart: int, savedEnd: int, len: int, start: int, end: int): (r: (int, int))
    ensures savedEnd - savedStart == len ==> r == (start, end)
    ensures savedEnd - savedStart != len ==> r == (savedStart, savedEnd)
    ensures 0 <= savedStart <= savedEnd && savedStart <= start <= end <= savedStart + len ==>
              savedStart <= r.0 <= r.1 <= savedEnd
  {
    if savedEnd - savedStart != len then (savedStart, savedEnd) else (start, end)
  }

  // ---------------------------------------------------------------------------
  // Concatenation buffers
  // ---------------------------------------------------------------------------

  /** The fields of a run, as a value. */
  datatype RunState = RunState(buffer: string, startOffset: int, endOffset: int, wordType: WordType, subwordCount: int)

  /** The run clear() leaves. */
  const EmptyRun := RunState([], 0, 0, {}, 0)

  /** concatenate: subword text at document offsets [start, end) joins run r,
      which starts at its first subword and ends at its last. */
  function Appended(r: RunState, text: string, start: int, end: int): (a: RunState)
    ensures a.buffer == r.buffer + text && a.subwordCount == r.subwordCount + 1
    ensures a.wordType == r.wordType && a.endOffset == end
    ensures a.startOffset == (if r.buffer == [] then start else r.startOffset)
  {
    r.(buffer := r.buffer + text, subwordCount := r.subwordCount + 1,
       startOffset := if r.buffer == [] then start else r.startOffset, endOffset := end)
  }

  /** An empty typed run takes the type of the subword that opens it. */
  function Typed(r: RunState, t: WordType): RunState {
    if r.buffer == [] then r.(wordType := t) else r
  }

  /** The typed run holds subwords of none of the classes of type t. */
  predicate IncompatibleWith(r: RunState, t: WordType) {
    r.buffer != [] && r.wordType * t == {}
  }

  /** The typed run after subword span, with text part, was offered to it in a
      token whose offsets start at base. */
  function TypedRunAfter(f: Flags, r: RunState, span: Span, part: string, base: int): RunState {
    if ShouldConcatenate(f, span.wordType)
    then Appended(Typed(r, span.wordType), part, base + span.current, base + span.end)
    else r
  }

  /** The run of all parts after subword span was offered to it. */
  function AllRunAfter(f: Flags, r: RunState, span: Span, part: string, base: int): RunState {
    if f.catenateAll then Appended(r, part, base + span.current, base + span.end) else r
  }

  // ---------------------------------------------------------------------------
  // What a run is made of
  // ---------------------------------------------------------------------------

  /** The text of subword span of text (nothing for a span outside it). */
  function Piece(text: string, span: Span): string {
    if 0 <= span.current <= span.end <= |text| then text[span.current..span.end] else []
  }

  /** The texts of the subwords ks of text, joined in the order of ks. */
  function Joined(text: string, spans: seq<Span>, ks: seq<nat>): string {
    if ks == [] then []
    else
      var k := ks[|ks| - 1];
      Joined(text, spans, ks[..|ks| - 1]) + (if k < |spans| then Piece(text, spans[k]) else [])
  }

  /** ks picks subwords below bound, each at most once, in the iterator's order. */
  predicate RunOf(ks: seq<nat>, bound: int) {
    && (forall i, j :: 0 <= i < j < |ks| ==> ks[i] < ks[j])
    && (forall i :: 0 <= i < |ks| ==> ks[i] < bound)
  }

  /** Run r is made of the subwords ks of text, taken in the iterator's order
      from those before subword cursor: its text is theirs joined, it counts
      them, and its offsets, counted from base, are the first one's start and
      the last one's end. */
  predicate Made(r: RunState, ks: seq<nat>, text: string, spans: seq<Span>, cursor: int, base: int) {
    && ks != [] && cursor <= |spans| && RunOf(ks, cursor)
    && r.buffer == Joined(text, spans, ks) && r.subwordCount == |ks|
    && r.startOffset == base + spans[ks[0]].current
    && r.endOffset == base + spans[ks[|ks| - 1]].end
  }

  /** t is the token write() makes of the run of subwords ks of a saved token
      with the given text, subwords, offsets and type. */
  predicate RunTokenOf(t: Token, ks: seq<nat>, text: string, spans: seq<Span>, start: int, end: int, tokenType: string) {
    && ks != [] && RunOf(ks, |spans|)
    && var off := ConcatOffsets(start, end, |text|, start + spans[ks[0]].current, start + spans[ks[|ks| - 1]].end);
       t == Token(Joined(text, spans, ks), off.0, off.1, t.posInc, tokenType)
  }

  /** Appending subword k to the subwords ks appends its text. */
  lemma JoinedSnoc(text: string, spans: seq<Span>, ks: seq<nat>, k: nat)
    ensures Joined(text, spans, ks + [k]) == Joined(text, spans, ks) + (if k < |spans| then Piece(text, spans[k]) else [])
  {
    assert (ks + [k])[..|ks|] == ks;
  }

  /** A run made of subwords before the cursor still is once the cursor moves on. */
  lemma MadeLater(r: RunState, ks: seq<nat>, text: string, spans: seq<Span>, cursor: int, later: int, base: int)
    requires cursor <= later <= |spans| && Made(r, ks, text, spans, cursor, base)
    ensures Made(r, ks, text, spans, later, base)
  { }

  /** The subwords of run r, made of ks, once subword k is appended to it. */
  function Extended(r: RunState, ks: seq<nat>, k: nat): seq<nat> {
    if r.buffer == [] then [k] else ks + [k]
  }

  /** Appending subword k to a run that is empty or made of subwords before k
      gives a run made of subwords up to k. */
  lemma AppendedMade(r: RunState, ks: seq<nat>, text: string, spans: seq<Span>, base: int, k: nat)
    requires k < |spans| && 0 <= spans[k].current <= spans[k].end <= |text|
    requires r.buffer == [] ==> r.subwordCount == 0
    requires r.buffer != [] ==> Made(r, ks, text, spans, k, base)
    ensures Made(Appended(r, text[spans[k].current..spans[k].end], base + spans[k].current, base + spans[k].end),
                 Extended(r, ks, k), text, spans, k + 1, base)
  {
    var a := Appended(r, text[spans[k].current..spans[k].end], base + spans[k].current, base + spans[k].end);
    var ks' := Extended(r, ks, k);
    if r.buffer == [] {
      JoinedSnoc(text, spans, [], k);
    } else {
      JoinedSnoc(text, spans, ks, k);
      forall i, j | 0 <= i < j < |ks'|
        ensures ks'[i] < ks'[j]
      {
        if j < |ks| {
          assert ks'[i] == ks[i] && ks'[j] == ks[j];
        } else if i < |ks| - 1 {
          assert ks[i] < ks[|ks| - 1];
        }
      }
      assert a.startOffset == base + spans[ks'[0]].current;
    }
  }

  /** Offering subword k to a typed run made of subwords before k leaves a run
      that is empty or made of subwords up to k: k too if it was taken. */
  lemma TypedRunMade(f: Flags, r: RunState, ks: seq<nat>, text: string, spans: seq<Span>, base: int, k: nat)
    requires k < |spans| && 0 <= spans[k].current < spans[k].end <= |text|
    requires r.buffer == [] ==> r.subwordCount == 0
    requires r.buffer != [] ==> Made(r, ks, text, spans, k, base)
    ensures var a := TypedRunAfter(f, r, spans[k], text[spans[k].current..spans[k].end], base);
            && (a.buffer == [] ==> a.subwordCount == 0)
            && (a.buffer != [] ==>
                  Made(a, if ShouldConcatenate(f, spans[k].wordType) then Extended(r, ks, k) else ks, text, spans, k + 1, base))
  {
    var part := text[spans[k].current..spans[k].end];
    if ShouldConcatenate(f, spans[k].wordType) {
      AppendedMade(Typed(r, spans[k].wordType), ks, text, spans, base, k);
      assert TypedRunAfter(f, r, spans[k], part, base)
          == Appended(Typed(r, spans[k].wordType), part, base + spans[k].current, base + spans[k].end);
    } else {
      if r.buffer != [] {
        MadeLater(r, ks, text, spans, k, k + 1, base);
      }
      assert TypedRunAfter(f, r, spans[k], part, base) == r;
    }
  }

  /** Offering subword k to a run of all parts made of subwords before k leaves
      a run that is empty or made of subwords up to k: k too if it was taken. */
  lemma AllRunMade(f: Flags, r: RunState, ks: seq<nat>, text: string, spans: seq<Span>, base: int, k: nat)
    requires k < |spans| && 0 <= spans[k].current < spans[k].end <= |text|
    requires r.buffer == [] ==> r.subwordCount == 0
    requires r.buffer != [] ==> Made(r, ks, text, spans, k, base)
    ensures var a := AllRunAfter(f, r, spans[k], text[spans[k].current..spans[k].end], base);
            && (a.buffer == [] ==> a.subwordCount == 0)
            && (a.buffer != [] ==> Made(a, if f.catenateAll then Extended(r, ks, k) else ks, text, spans, k + 1, base))
  {
    var part := text[spans[k].current..spans[k].end];
    if f.catenateAll {
      AppendedMade(r, ks, text, spans, base, k);
      assert AllRunAfter(f, r, spans[k], part, base) == Appended(r, part, base + spans[k].current, base + spans[k].end);
    } else {
      if r.buffer != [] {
        MadeLater(r, ks, text, spans, k, k + 1, base);
      }
      assert AllRunAfter(f, r, spans[k], part, base) == r;
    }
  }

  /** A run made of subwords ks gives write()'s token for them. */
  lemma RunTokenMade(r: RunState, ks: seq<nat>, text: string, spans: seq<Span>, cursor: int,
                     start: int, end: int, tokenType: string, posInc: int)
    requires Made(r, ks, text, spans, cursor, start)
    ensures var off := ConcatOffsets(start, end, |text|, r.startOffset, r.endOffset);
            RunTokenOf(Token(r.buffer, off.0, off.1, posInc, tokenType), ks, text, spans, start, end, tokenType)
  { }

  /** Both runs of a saved token, each with the subwords it is made of, and
      the token's text, subwords, cursor and start offset. */
  datatype Runs = Runs(typed: RunState, typedParts: seq<nat>, all: RunState, allParts: seq<nat>,
                       text: string, spans: seq<Span>, cursor: int, base: int)
  {
    /** Each run is empty, counting nothing, or made of its subwords. */
    predicate Sound() {
      && (typed.buffer == [] ==> typed.subwordCount == 0)
      && (all.buffer == [] ==> all.subwordCount == 0)
      && (typed.buffer != [] ==> Made(typed, typedParts, text, spans, cursor, base))
      && (all.buffer != [] ==> Made(all, allParts, text, spans, cursor, base))
    }

    /** The runs once a filter with flags f has processed the subword at the
        cursor: a word between delimiters leaves them as they are; a typed run
        of other classes that is written is cleared, and the subword taken up
        again; otherwise the subword is offered to both runs, the typed one
        starting afresh when it held subwords of other classes. */
    function After(f: Flags): Runs
      requires 0 <= cursor < |spans|
    {
      var span := spans[cursor];
      if span.isSingleWord then this.(cursor := cursor + 1)
      else if Written(f) then this.(typed := EmptyRun)
      else Offered(f)
    }

    /** The typed run holds subwords of none of the classes of the subword at
        the cursor, and is written. */
    predicate Written(f: Flags)
      requires 0 <= cursor < |spans|
    {
      IncompatibleWith(typed, spans[cursor].wordType) && Flushes(f, typed.subwordCount, typed.wordType)
    }

    /** The runs once the subword at the cursor is offered to both. */
    function Offered(f: Flags): Runs
      requires 0 <= cursor < |spans|
    {
      var span := spans[cursor];
      var first := if IncompatibleWith(typed, span.wordType) then EmptyRun else typed;
      var part := Piece(text, span);
      Runs(TypedRunAfter(f, first, span, part, base),
           if ShouldConcatenate(f, span.wordType) then Extended(first, typedParts, cursor) else typedParts,
           AllRunAfter(f, all, span, part, base),
           if f.catenateAll then Extended(all, allParts, cursor) else allParts,
           text, spans, cursor + 1, base)
    }
  }

  /** Processing a subword keeps sound runs sound. */
  lemma AfterSound(f: Flags, runs: Runs)
    requires runs.Sound() && 0 <= runs.cursor < |runs.spans| && SpansWithin(runs.spans, |runs.text|)
    ensures runs.After(f).Sound()
  {
    var k := runs.cursor;
    if runs.spans[k].isSingleWord {
      if runs.typed.buffer != [] {
        MadeLater(runs.typed, runs.typedParts, runs.text, runs.spans, k, k + 1, runs.base);
      }
      if runs.all.buffer != [] {
        MadeLater(runs.all, runs.allParts, runs.text, runs.spans, k, k + 1, runs.base);
      }
    } else if !runs.Written(f) {
      OfferedTyped(f, runs);
      OfferedAll(f, runs);
    }
  }

  /** Offering a subword to sound runs leaves the typed run empty, or made of
      the subwords Offered names for it. */
  lemma OfferedTyped(f: Flags, runs: Runs)
    requires runs.Sound() && 0 <= runs.cursor < |runs.spans| && SpansWithin(runs.spans, |runs.text|)
    ensures var a := runs.Offered(f);
            && (a.typed.buffer == [] ==> a.typed.subwordCount == 0)
            && (a.typed.buffer != [] ==> Made(a.typed, a.typedParts, a.text, a.spans, a.cursor, a.base))
  {
    var text, spans, k := runs.text, runs.spans, runs.cursor;
    var span := spans[k];
    var first := if IncompatibleWith(runs.typed, span.wordType) then EmptyRun else runs.typed;
    assert Piece(text, span) == text[span.current..span.end];
    TypedRunMade(f, first, runs.typedParts, text, spans, runs.base, k);
  }

  /** Offering a subword to sound runs leaves the run of all parts empty, or
      made of the subwords Offered names for it. */
  lemma OfferedAll(f: Flags, runs: Runs)
    requires runs.Sound() && 0 <= runs.cursor < |runs.spans| && SpansWithin(runs.spans, |runs.text|)
    ensures var a := runs.Offered(f);
            && (a.all.buffer == [] ==> a.all.subwordCount == 0)
            && (a.all.buffer != [] ==> Made(a.all, a.allParts, a.text, a.spans, a.cursor, a.base))
  {
    var text, spans, k := runs.text, runs.spans, runs.cursor;
    var span := spans[k];
    assert Piece(text, span) == text[span.current..span.end];
    AllRunMade(f, runs.all, runs.allParts, text, spans, runs.base, k);
  }

  /** A run of subwords being concatenated. */
  class WordDelimiterConcatenation {
    var buffer: string
    var startOffset: int
    var endOffset: int
    var wordType: WordType
    var subwordCount: int

    /** Iterator subwords are never empty, so the buffer is empty exactly when no
        subword was appended, and an empty run has no offsets. */
    ghost predicate Valid()
      reads this
    {
      && subwordCount >= 0
      && (buffer == [] <==> subwordCount == 0)
      && (buffer == [] ==> startOffset == 0 && endOffset == 0)
    }

    /** The state clear() leaves. */
    predicate Cleared()
      reads this
    {
      buffer == [] && startOffset == 0 && endOffset == 0 && wordType == {} && subwordCount == 0
    }

    /** The fields as one value. */
    function State(): RunState
      reads this
    {
      RunState(buffer, startOffset, endOffset, wordType, subwordCount)
    }

    constructor ()
      ensures Valid() && Cleared()
    {
      buffer := [];
      startOffset := 0;
      endOffset := 0;
      wordType := {};
      subwordCount := 0;
    }

    /** append: add length characters of text from offset and count one subword. */
    method Append(text: array<char>, offset: int, length: int)
      requires 0 <= offset <= offset + length <= text.Length
      modifies this`buffer, this`subwordCount
      ensures buffer == old(buffer) + text[offset..offset + length]
      ensures subwordCount == old(subwordCount) + 1
    {
      buffer := buffer + text[offset..offset + length];
      subwordCount := subwordCount + 1;
    }

    method IsEmpty() returns (r: bool)
      ensures r <==> buffer == []
    {
      r := |buffer| == 0;
    }

    method Clear()
      modifies this
      ensures Valid() && Cleared()
    {
      buffer := [];
      startOffset := 0;
      endOffset := 0;
      wordType := {};
      subwordCount := 0;
    }
  }

  // ---------------------------------------------------------------------------
  // The filter
  // ---------------------------------------------------------------------------

  /** What becomes of a token taken from upstream: it is returned whole, it is
      dropped, its original is returned before its parts, or its parts follow. */
  datatype WordStart = Kept | Skipped | Preserved | Saved

  class WordDelimiterFilter2 {
    const flags: Flags
    /** The protected words, which are never split; None stands for null. */
    const protWords: Option<set<string>>
    /** The break iterator, as the subwords it finds in a text. */
    const breaks: string -> seq<Span>
    const concat: WordDelimiterConcatenation
    const concatAll: WordDelimiterConcatenation
    var lastConcatCount: int
    var accumPosInc: int
    var savedBuffer: array<char>
    var savedLength: nat
    var savedStartOffset: int
    var savedEndOffset: int
    var savedType: string
    var hasSavedState: bool
    var hasIllegalOffsets: bool
    var hasOutputToken: bool
    var hasOutputFollowingOriginal: bool
    /** The iterator's subwords for the current text, and its cursor; the cursor
        at the end stands for DONE. */
    var spans: seq<Span>
    var spanIndex: nat
    /** The upstream stream, of which the first consumed tokens have been pulled. */
    var input: seq<Token>
    var consumed: nat
    /** The attributes shared with upstream and with the consumer. */
    var attrs: Token
    /** The subwords each run is made of, in the iterator's order. */
    ghost var typedParts: seq<nat>
    ghost var allParts: seq<nat>
    /** The accumulated gap just after the last pull, the pulled token's own
        increment included: the increment a token returned whole carries. */
    ghost var pulledGap: int

    function Pos(): Positions
      reads this`accumPosInc, this`hasOutputToken, this`hasOutputFollowingOriginal
    {
      Positions(accumPosInc, hasOutputToken, hasOutputFollowingOriginal)
    }

    /** Where the next subword starts (the text's end once the iterator is done). */
    function NextStart(): int
      reads this`spanIndex, this`spans, this`savedLength
    {
      if spanIndex < |spans| then spans[spanIndex].current else savedLength
    }

    /** A non-empty run lies inside the saved token and starts no later than the
        next subword. */
    ghost predicate RunWithin(c: WordDelimiterConcatenation)
      reads c, this`hasSavedState, this`savedStartOffset, this`savedLength, this`spanIndex, this`spans
    {
      c.buffer != [] ==>
        && hasSavedState
        && savedStartOffset <= c.startOffset <= c.endOffset <= savedStartOffset + savedLength
        && c.startOffset <= savedStartOffset + NextStart()
    }

    ghost predicate RunOk(c: WordDelimiterConcatenation)
      reads c, this`hasSavedState, this`savedStartOffset, this`savedLength, this`spanIndex, this`spans
    {
      c.Valid() && RunWithin(c)
    }

    /** A non-empty run is made of the subwords ks of the saved token, which
        come before the cursor. */
    ghost predicate RunMade(c: WordDelimiterConcatenation, ks: seq<nat>)
      reads c, this`spans, this`spanIndex, this`savedLength, this`savedBuffer, savedBuffer, this`savedStartOffset
    {
      c.buffer != [] ==>
        && savedLength <= savedBuffer.Length
        && Made(c.State(), ks, savedBuffer[..savedLength], spans, spanIndex, savedStartOffset)
    }

    /** The rest of the invariant: both runs are made of subwords. It is kept
        apart from Valid, which every step re-establishes, and carried by the
        steps that move the cursor. */
    ghost predicate RunsMade()
      reads concat, concatAll, this`typedParts, this`allParts
      reads this`spans, this`spanIndex, this`savedLength, this`savedBuffer, savedBuffer, this`savedStartOffset
    {
      RunMade(concat, typedParts) && RunMade(concatAll, allParts)
    }

    /** The upstream tokens and the attributes are well formed. */
    ghost predicate StreamOk()
      reads this`input, this`consumed, this`attrs
    {
      AllWellFormed(input) && consumed <= |input| && attrs.WellFormed()
    }

    ghost predicate PositionsOk()
      reads this`accumPosInc, this`hasOutputToken, this`hasOutputFollowingOriginal
    {
      accumPosInc >= 0 && (hasOutputToken ==> hasOutputFollowingOriginal)
    }

    /** The saved token's subwords lie inside its text, and its offsets are
        illegal exactly when they do not span the text. */
    ghost predicate SavedOk()
      reads this`spanIndex, this`spans, this`hasSavedState, this`savedLength, this`savedBuffer
      reads this`savedStartOffset, this`savedEndOffset, this`hasIllegalOffsets
    {
      && spanIndex <= |spans|
      && (hasSavedState ==>
            && savedLength <= savedBuffer.Length
            && SpansWithin(spans, savedLength)
            && 0 <= savedStartOffset <= savedEndOffset
            && (hasIllegalOffsets <==> savedEndOffset - savedStartOffset != savedLength))
    }

    ghost predicate Valid()
      reads this`input, this`consumed, this`attrs, this`accumPosInc, this`hasOutputToken, this`hasOutputFollowingOriginal
      reads this`spanIndex, this`spans, this`hasSavedState, this`savedLength, this`savedBuffer
      reads this`savedStartOffset, this`savedEndOffset, this`hasIllegalOffsets, concat, concatAll
    {
      && concat != concatAll
      && StreamOk() && PositionsOk() && SavedOk()
      && RunOk(concat) && RunOk(concatAll)
    }

    /** The iterator only ever reports subwords inside the text, in order. */
    ghost predicate IteratorWithin() {
      forall t :: SpansWithin(breaks(t), |t|)
    }

    /** A token returned whole: its first subword is the whole text, or it is
        protected. */
    predicate Undivided(term: string) {
      || (breaks(term) != [] && breaks(term)[0].current == 0 && breaks(term)[0].end == |term|)
      || (protWords.Some? && term in protWords.value)
    }

    /** The state saveState and the lines after it leave for upstream token t. */
    ghost predicate Started(t: Token)
      reads this`hasSavedState, this`spans, this`spanIndex, this`savedLength, this`savedBuffer, savedBuffer
      reads this`savedStartOffset, this`savedEndOffset, this`savedType, this`hasOutputToken
      reads this`hasOutputFollowingOriginal, this`lastConcatCount
    {
      && hasSavedState
      && spans == breaks(t.term) && spanIndex == 0
      && savedLength <= savedBuffer.Length && savedBuffer[..savedLength] == t.term
      && savedStartOffset == t.startOffset && savedEndOffset == t.endOffset && savedType == t.tokenType
      && !hasOutputToken && hasOutputFollowingOriginal == !flags.preserveOriginal
      && lastConcatCount == 0
    }

    /** The token write() produces for a run. */
    function ConcatToken(text: string, start: int, end: int, posInc: int): Token
      reads this`savedStartOffset, this`savedEndOffset, this`savedLength, this`savedType
    {
      var off := ConcatOffsets(savedStartOffset, savedEndOffset, savedLength, start, end);
      Token(text, off.0, off.1, posInc, savedType)
    }

    /** The token generatePart produces for subword span. */
    function PartToken(span: Span, isSingleWord: bool, posInc: int): Token
      reads this`savedStartOffset, this`savedEndOffset, this`savedLength, this`savedType, this`savedBuffer, savedBuffer
      requires savedLength <= savedBuffer.Length && 0 <= span.current <= span.end <= savedLength
    {
      var off := PartOffsets(savedStartOffset, savedEndOffset, savedLength, isSingleWord, span.current, span.end);
      Token(savedBuffer[span.current..span.end], off.0, off.1, posInc, savedType)
    }

    /** t is the last upstream token pulled, returned whole with the gap
        accumulated when it was pulled as its increment. */
    ghost predicate IsWhole(t: Token)
      reads this`input, this`consumed, this`pulledGap
    {
      0 < consumed <= |input| && t == input[consumed - 1].(posInc := pulledGap)
    }

    /** t is generatePart's token for one of the saved token's subwords. */
    ghost predicate IsPart(t: Token)
      reads this`hasSavedState, this`spans, this`savedLength, this`savedBuffer, savedBuffer
      reads this`savedStartOffset, this`savedEndOffset, this`savedType
    {
      && hasSavedState && savedLength <= savedBuffer.Length && SpansWithin(spans, savedLength)
      && exists k :: 0 <= k < |spans| && t == PartToken(spans[k], spans[k].isSingleWord, t.posInc)
    }

    /** t is a token write() makes: non-empty text with the saved type, over a
        stretch of the saved token. */
    ghost predicate IsConcatenation(t: Token)
      reads this`hasSavedState, this`savedStartOffset, this`savedEndOffset, this`savedLength, this`savedType
    {
      && hasSavedState && t.term != []
      && exists s, e :: savedStartOffset <= s <= e <= savedStartOffset + savedLength && t == ConcatToken(t.term, s, e, t.posInc)
    }

    /** t is write()'s token for a run of some of the saved token's subwords,
        taken in order: their texts joined, from the first one's start to the
        last one's end. */
    ghost predicate IsRun(t: Token)
      reads this`hasSavedState, this`spans, this`savedLength, this`savedBuffer, savedBuffer
      reads this`savedStartOffset, this`savedEndOffset, this`savedType
    {
      && hasSavedState && savedLength <= savedBuffer.Length && SpansWithin(spans, savedLength)
      && exists ks :: RunTokenOf(t, ks, savedBuffer[..savedLength], spans, savedStartOffset, savedEndOffset, savedType)
    }

    /** What incrementToken makes of upstream token t when it is pulled with the
        accumulated gap (its own increment included). */
    ghost predicate Divided(w: WordStart, t: Token, gap: int)
      reads this, savedBuffer
    {
      // a token without delimiters, or a protected one, is returned as it is,
      // carrying the gap
      && (w == Kept <==> Undivided(t.term))
      && (w == Kept ==> !hasSavedState && accumPosInc == 0 && attrs == t.(posInc := gap))
      // a token of delimiters only is dropped; its gap is kept, less one
      && (w == Skipped <==> !Undivided(t.term) && breaks(t.term) == [] && !flags.preserveOriginal)
      && (w == Skipped ==> !hasSavedState && accumPosInc == gap - (if t.posInc == 1 then 1 else 0))
      // with the original preserved, it comes first, carrying the gap
      && (w == Preserved <==> !Undivided(t.term) && flags.preserveOriginal)
      && (w == Preserved ==> Started(t) && accumPosInc == 0 && attrs == t.(posInc := gap))
      // otherwise it is saved for its parts, and the gap waits for the first
      && (w == Saved ==> Started(t) && spans != [] && accumPosInc == gap)
    }

    /** What the end of a saved token emits, given its typed run, its run of all
        parts, its positions and the size of the last typed run flushed before. */
    ghost predicate EndFlushed(emitted: bool, typed: RunState, all: RunState, pos: Positions, lastCount: int)
      reads this`hasSavedState, this`attrs, this`savedStartOffset, this`savedEndOffset, this`savedLength, this`savedType
      reads concat, concatAll
    {
      && emitted == hasSavedState
      // the typed run is written unless it is a single part emitted anyway
      && (typed.buffer != [] && Flushes(flags, typed.subwordCount, typed.wordType) ==>
            && emitted && concat.Cleared() && concatAll.State() == all
            && attrs == ConcatToken(typed.buffer, typed.startOffset, typed.endOffset, Positioned(flags, true, pos).0))
      // otherwise the run of all parts is written when it holds more subwords
      // than the last typed run, and the token is released
      && (!(typed.buffer != [] && Flushes(flags, typed.subwordCount, typed.wordType)) ==>
            && concat.buffer == []
            && (emitted <==>
                  all.buffer != [] && all.subwordCount > (if typed.buffer != [] then typed.subwordCount else lastCount))
            && (emitted ==> attrs == ConcatToken(all.buffer, all.startOffset, all.endOffset, Positioned(flags, true, pos).0))
            && (all.buffer != [] ==> concatAll.Cleared()))
    }

    /** What the k-th subword of the saved token does, given the typed run, the
        run of all parts and the positions before it. */
    ghost predicate SpanProcessed(emitted: bool, k: int, typed: RunState, all: RunState, pos: Positions)
      reads this`spans, this`spanIndex, this`savedLength, this`savedBuffer, savedBuffer, this`attrs
      reads this`savedStartOffset, this`savedEndOffset, this`savedType, concat, concatAll
    {
      && 0 <= k < |spans| && savedLength <= savedBuffer.Length && SpansWithin(spans, savedLength)
      && var span := spans[k];
         var part := savedBuffer[span.current..span.end];
         var incompatible := IncompatibleWith(typed, span.wordType);
         var flushed := incompatible && Flushes(flags, typed.subwordCount, typed.wordType);
      // a word between delimiters is always emitted, and joins no run
      && (span.isSingleWord ==>
            && emitted && spanIndex == k + 1
            && attrs == PartToken(span, true, Positioned(flags, false, pos).0)
            && concat.State() == typed && concatAll.State() == all)
      // a typed run of other classes is written first, and the subword is
      // taken up again
      && (!span.isSingleWord && flushed ==>
            && emitted && spanIndex == k && concat.Cleared() && concatAll.State() == all
            && attrs == ConcatToken(typed.buffer, typed.startOffset, typed.endOffset, Positioned(flags, true, pos).0))
      // otherwise the subword joins the runs it belongs to (a typed run of other
      // classes was dropped, and nothing counts as output for the new one), and
      // it is emitted as a part exactly when parts of its type are generated
      && (!span.isSingleWord && !flushed ==>
            && spanIndex == k + 1
            && concat.State() == TypedRunAfter(flags, if incompatible then EmptyRun else typed, span, part, savedStartOffset)
            && concatAll.State() == AllRunAfter(flags, all, span, part, savedStartOffset)
            && (emitted <==> ShouldGenerateParts(flags, span.wordType))
            && (emitted ==> attrs == PartToken(span, false, Positioned(flags, false, if incompatible then pos.(hasOutputToken := false) else pos).0)))
    }

    constructor (input: seq<Token>, flags: Flags, protWords: Option<set<string>>, breaks: string -> seq<Span>)
      requires AllWellFormed(input)
      requires forall t :: SpansWithin(breaks(t), |t|)
      ensures Valid() && IteratorWithin() && RunsMade()
      ensures this.input == input && consumed == 0
      ensures this.flags == flags && this.protWords == protWords && this.breaks == breaks
      ensures !hasSavedState && accumPosInc == 0 && lastConcatCount == 0
      ensures concat.Cleared() && concatAll.Cleared()
    {
      this.flags := flags;
      this.protWords := protWords;
      this.breaks := breaks;
      concat := new WordDelimiterConcatenation();
      concatAll := new WordDelimiterConcatenation();
      lastConcatCount := 0;
      accumPosInc := 0;
      savedBuffer := new char[1024];
      savedLength := 0;
      savedStartOffset := 0;
      savedEndOffset := 0;
      savedType := [];
      hasSavedState := false;
      hasIllegalOffsets := false;
      hasOutputToken := false;
      hasOutputFollowingOriginal := false;
      spans := [];
      spanIndex := 0;
      this.input := input;
      consumed := 0;
      attrs := Token([], 0, 0, 1, "word");
      typedParts, allParts := [], [];
      pulledGap := 0;
    }

    /** reset: drop the saved token and both runs, clear the accumulated gap and
        start over on next. */
    method Reset(next: seq<Token>)
      requires Valid()
      requires AllWellFormed(next)
      modifies this, concat, concatAll
      ensures Valid() && RunsMade()
      ensures !hasSavedState && accumPosInc == 0 && concat.Cleared() && concatAll.Cleared()
      ensures input == next && consumed == 0
      ensures attrs == old(attrs) && lastConcatCount == old(lastConcatCount)
    {
      hasSavedState := false;
      concat.Clear();
      concatAll.Clear();
      accumPosInc := 0;
      input := next;
      consumed := 0;
    }

    /** position(inject), proved against Positioned. */
    method Position(inject: bool) returns (p: int)
      modifies this`accumPosInc, this`hasOutputToken, this`hasOutputFollowingOriginal
      ensures (p, Pos()) == Positioned(flags, inject, old(Pos()))
    {
      var posInc := accumPosInc;
      if hasOutputToken {
        accumPosInc := 0;
        return if inject then 0 else Max(if flags.allPartsAtSamePosition then 0 else 1, posInc);
      }
      hasOutputToken := true;
      if !hasOutputFollowingOriginal {
        hasOutputFollowingOriginal := true;
        return 0;
      }
      accumPosInc := 0;
      return Max(if flags.allPartsAtSamePosition then 0 else 1, posInc);
    }

    /** saveState: remember the offsets, type and text of the current token. */
    method SaveState()
      modifies this`savedStartOffset, this`savedEndOffset, this`hasIllegalOffsets, this`savedType
      modifies this`savedBuffer, this`savedLength, this`hasSavedState, savedBuffer
      ensures savedBuffer == old(savedBuffer) || fresh(savedBuffer)
      ensures savedLength == |attrs.term| <= savedBuffer.Length
      ensures savedBuffer[..savedLength] == attrs.term
      ensures savedStartOffset == attrs.startOffset && savedEndOffset == attrs.endOffset
      ensures savedType == attrs.tokenType
      ensures hasIllegalOffsets <==> savedEndOffset - savedStartOffset != savedLength
      ensures hasSavedState
    {
      savedStartOffset := attrs.startOffset;
      savedEndOffset := attrs.endOffset;
      hasIllegalOffsets := savedEndOffset - savedStartOffset != |attrs.term|;
      savedType := attrs.tokenType;
      if savedBuffer.Length < |attrs.term| {
        savedBuffer := new char[|attrs.term|];
      }
      var i := 0;
      while i < |attrs.term|
        invariant 0 <= i <= |attrs.term| <= savedBuffer.Length
        invariant savedBuffer[..i] == attrs.term[..i]
        modifies savedBuffer
      {
        savedBuffer[i] := attrs.term[i];
        i := i + 1;
      }
      savedLength := |attrs.term|;
      hasSavedState := true;
    }

    /** concatenate: append the current subword to run c; the run starts at the
        first subword appended and ends at the last. */
    method Concatenate(c: WordDelimiterConcatenation)
      requires Valid() && hasSavedState && spanIndex < |spans|
      requires c == concat || c == concatAll
      modifies c
      ensures Valid()
      ensures c.buffer == old(c.buffer) + savedBuffer[spans[spanIndex].current..spans[spanIndex].end]
      ensures c.subwordCount == old(c.subwordCount) + 1
      ensures c.startOffset == if old(c.buffer) == [] then savedStartOffset + spans[spanIndex].current else old(c.startOffset)
      ensures c.endOffset == savedStartOffset + spans[spanIndex].end
      ensures c.wordType == old(c.wordType)
      ensures c.State() == Appended(old(c.State()), savedBuffer[spans[spanIndex].current..spans[spanIndex].end],
                                    savedStartOffset + spans[spanIndex].current, savedStartOffset + spans[spanIndex].end)
    {
      var span := spans[spanIndex];
      var empty := c.IsEmpty();
      c.Append(savedBuffer, span.current, span.end - span.current);
      if empty {
        c.startOffset := savedStartOffset + span.current;
      }
      c.endOffset := savedStartOffset + span.end;
    }

    /** generatePart: emit the current subword as a token of its own. */
    method GeneratePart(isSingleWord: bool)
      requires Valid() && hasSavedState && spanIndex < |spans|
      modifies this`attrs, this`accumPosInc, this`hasOutputToken, this`hasOutputFollowingOriginal
      ensures Valid()
      ensures attrs == PartToken(spans[spanIndex], isSingleWord, Positioned(flags, false, old(Pos())).0)
      ensures Pos() == Positioned(flags, false, old(Pos())).1
    {
      var p := Position(false);
      var span := spans[spanIndex];
      var text := savedBuffer[span.current..span.end];
      var startOffset := savedStartOffset + span.current;
      var endOffset := savedStartOffset + span.end;
      var s, e := startOffset, endOffset;
      if hasIllegalOffsets {
        if isSingleWord && startOffset <= savedEndOffset {
          s, e := startOffset, savedEndOffset;
        } else {
          s, e := savedStartOffset, savedEndOffset;
        }
      }
      attrs := Token(text, s, e, p, savedType);
    }

    /** write: emit run c as one token, injected at the position of the run. */
    method Write(c: WordDelimiterConcatenation)
      requires Valid() && hasSavedState && (c == concat || c == concatAll)
      modifies this`attrs, this`accumPosInc, this`hasOutputToken, this`hasOutputFollowingOriginal
      ensures Valid()
      ensures attrs == ConcatToken(c.buffer, c.startOffset, c.endOffset, Positioned(flags, true, old(Pos())).0)
      ensures Pos() == Positioned(flags, true, old(Pos())).1.(accumPosInc := 0)
      ensures c.buffer != [] ==> IsConcatenation(attrs)
    {
      var s, e := c.startOffset, c.endOffset;
      if hasIllegalOffsets {
        s, e := savedStartOffset, savedEndOffset;
      }
      var p := Position(true);
      attrs := Token(c.buffer, s, e, p, savedType);
      accumPosInc := 0;
    }

    method WriteAndClear(c: WordDelimiterConcatenation)
      requires Valid() && hasSavedState && (c == concat || c == concatAll)
      modifies this`attrs, this`accumPosInc, this`hasOutputToken, this`hasOutputFollowingOriginal, c
      ensures Valid()
      ensures attrs == ConcatToken(old(c.buffer), old(c.startOffset), old(c.endOffset), Positioned(flags, true, old(Pos())).0)
      ensures Pos() == Positioned(flags, true, old(Pos())).1.(accumPosInc := 0)
      ensures c.Cleared()
      ensures old(c.buffer) != [] ==> IsConcatenation(attrs)
    {
      Write(c);
      c.Clear();
    }

    /** flushConcatenation: record the run's size, then write it unless it is a
        single part emitted anyway; the run is cleared either way. */
    method FlushConcatenation(c: WordDelimiterConcatenation) returns (r: bool)
      requires Valid() && hasSavedState && (c == concat || c == concatAll)
      modifies this`lastConcatCount, this`attrs, this`accumPosInc, this`hasOutputToken, this`hasOutputFollowingOriginal, c
      ensures Valid()
      ensures lastConcatCount == old(c.subwordCount)
      ensures r <==> Flushes(flags, old(c.subwordCount), old(c.wordType))
      ensures r ==> attrs == ConcatToken(old(c.buffer), old(c.startOffset), old(c.endOffset), Positioned(flags, true, old(Pos())).0)
      ensures r ==> Pos() == Positioned(flags, true, old(Pos())).1.(accumPosInc := 0)
      ensures !r ==> attrs == old(attrs) && Pos() == old(Pos())
      ensures c.Cleared()
      ensures r && old(c.buffer) != [] ==> IsConcatenation(attrs)
    {
      lastConcatCount := c.subwordCount;
      if c.subwordCount != 1 || !ShouldGenerateParts(flags, c.wordType) {
        WriteAndClear(c);
        return true;
      }
      c.Clear();
      return false;
    }

    /** Take the next upstream token into the attributes, add its increment to
        the accumulated gap and set the iterator on its text. */
    method Pull()
      requires Valid() && !hasSavedState && consumed < |input|
      modifies this`attrs, this`consumed, this`accumPosInc, this`spans, this`spanIndex, this`pulledGap
      ensures Valid() && !hasSavedState
      ensures attrs == old(input[consumed]) && consumed == old(consumed) + 1
      ensures accumPosInc == old(accumPosInc) + attrs.posInc && pulledGap == accumPosInc
      ensures spans == breaks(attrs.term) && spanIndex == 0
    {
      attrs := input[consumed];
      consumed := consumed + 1;
      accumPosInc := accumPosInc + attrs.posInc;
      pulledGap := accumPosInc;
      spans := breaks(attrs.term);
      spanIndex := 0;
    }

    /** saveState and the run flags set after it: nothing output yet for the
        token, and the original counts as output unless it is preserved. */
    method Start()
      requires Valid() && IteratorWithin() && !hasSavedState
      requires spans == breaks(attrs.term) && spanIndex == 0
      modifies this`savedStartOffset, this`savedEndOffset, this`hasIllegalOffsets, this`savedType
      modifies this`savedBuffer, this`savedLength, this`hasSavedState, savedBuffer
      modifies this`hasOutputToken, this`hasOutputFollowingOriginal, this`lastConcatCount
      ensures Valid() && Started(attrs)
      ensures savedBuffer == old(savedBuffer) || fresh(savedBuffer)
    {
      // without a saved token both runs are empty
      assert concat.buffer == [] && concatAll.buffer == [];
      SaveState();
      hasOutputToken := false;
      hasOutputFollowingOriginal := !flags.preserveOriginal;
      lastConcatCount := 0;
      assert SpansWithin(breaks(attrs.term), |attrs.term|);
    }

    /** Return the current token whole, carrying the accumulated gap. */
    method ReturnWhole()
      requires Valid()
      modifies this`attrs, this`accumPosInc
      ensures Valid()
      ensures attrs == old(attrs).(posInc := old(accumPosInc)) && accumPosInc == 0
    {
      attrs := attrs.(posInc := accumPosInc);
      accumPosInc := 0;
    }

    /** The part of incrementToken that decides what becomes of the token just
        pulled: returned whole, dropped, preserved before its parts, or saved
        for its parts. */
    method Divide() returns (w: WordStart)
      requires Valid() && IteratorWithin() && !hasSavedState
      requires spans == breaks(attrs.term) && spanIndex == 0
      // the gap already counts the token's own increment
      requires attrs.posInc <= accumPosInc
      modifies this`attrs, this`accumPosInc
      modifies this`savedStartOffset, this`savedEndOffset, this`hasIllegalOffsets, this`savedType
      modifies this`savedBuffer, this`savedLength, this`hasSavedState, savedBuffer
      modifies this`hasOutputToken, this`hasOutputFollowingOriginal, this`lastConcatCount
      ensures Valid()
      ensures savedBuffer == old(savedBuffer) || fresh(savedBuffer)
      ensures Divided(w, old(attrs), old(accumPosInc))
    {
      var term := attrs.term;
      if (|spans| > 0 && spans[0].current == 0 && spans[0].end == |term|)
         || (protWords.Some? && term in protWords.value) {
        ReturnWhole();
        return Kept;
      }
      if |spans| == 0 && !flags.preserveOriginal {
        if attrs.posInc == 1 {
          accumPosInc := accumPosInc - 1;
        }
        return Skipped;
      }
      w := StartParts();
    }

    /** The part of incrementToken for a token that is divided: save it for its
        parts and, with the original preserved, return it first, carrying the
        gap. */
    method StartParts() returns (w: WordStart)
      requires Valid() && IteratorWithin() && !hasSavedState
      requires spans == breaks(attrs.term) && spanIndex == 0
      modifies this`attrs, this`accumPosInc
      modifies this`savedStartOffset, this`savedEndOffset, this`hasIllegalOffsets, this`savedType
      modifies this`savedBuffer, this`savedLength, this`hasSavedState, savedBuffer
      modifies this`hasOutputToken, this`hasOutputFollowingOriginal, this`lastConcatCount
      ensures Valid() && Started(old(attrs))
      ensures savedBuffer == old(savedBuffer) || fresh(savedBuffer)
      ensures w == (if flags.preserveOriginal then Preserved else Saved)
      ensures w == Preserved ==> accumPosInc == 0 && attrs == old(attrs).(posInc := old(accumPosInc))
      ensures w == Saved ==> accumPosInc == old(accumPosInc)
    {
      Start();
      if flags.preserveOriginal {
        ReturnWhole();
        return Preserved;
      }
      return Saved;
    }

    /** The part of incrementToken at the end of a saved token: flush the typed
        run, then the run of all parts unless the typed run already emitted as
        many subwords; with nothing left, release the token. */
    method FlushAtEnd() returns (emitted: bool)
      requires Valid() && hasSavedState && spanIndex == |spans|
      modifies this`lastConcatCount, this`attrs, this`accumPosInc, this`hasOutputToken
      modifies this`hasOutputFollowingOriginal, this`hasSavedState, concat, concatAll
      ensures Valid()
      ensures EndFlushed(emitted, old(concat.State()), old(concatAll.State()), old(Pos()), old(lastConcatCount))
      ensures emitted ==> IsConcatenation(attrs)
    {
      var empty := concat.IsEmpty();
      if !empty {
        var flushed := FlushConcatenation(concat);
        if flushed {
          return true;
        }
      }
      emitted := FlushAll();
    }

    /** The end of a saved token once the typed run is empty: write the run of
        all parts when it holds more subwords than the last typed run, then
        release the token. */
    method FlushAll() returns (emitted: bool)
      requires Valid() && hasSavedState && concat.buffer == []
      modifies this`attrs, this`accumPosInc, this`hasOutputToken
      modifies this`hasOutputFollowingOriginal, this`hasSavedState, concatAll
      ensures Valid()
      ensures emitted == hasSavedState
      ensures emitted <==> old(concatAll.buffer) != [] && old(concatAll.subwordCount) > lastConcatCount
      ensures emitted ==>
                attrs == ConcatToken(old(concatAll.buffer), old(concatAll.startOffset), old(concatAll.endOffset), Positioned(flags, true, old(Pos())).0)
      ensures old(concatAll.buffer) != [] ==> concatAll.Cleared()
      ensures emitted ==> IsConcatenation(attrs)
    {
      var empty := concatAll.IsEmpty();
      if !empty {
        if concatAll.subwordCount > lastConcatCount {
          WriteAndClear(concatAll);
          return true;
        }
        concatAll.Clear();
      }
      hasSavedState := false;
      return false;
    }

    /** iterator.next(): move on to the following subword; the runs stay
        behind the new cursor because subwords come in order. */
    method Advance()
      requires Valid() && spanIndex < |spans|
      modifies this`spanIndex
      ensures Valid() && spanIndex == old(spanIndex) + 1
    {
      spanIndex := spanIndex + 1;
    }

    /** The typed run holds subwords of none of the classes of type t. */
    predicate Incompatible(t: WordType)
      reads concat
    {
      IncompatibleWith(concat.State(), t)
    }

    /** A typed run that subwords of type t cannot join is flushed (and the run's
        output flag reset) before t is taken up. */
    method FlushIncompatible(t: WordType) returns (flushed: bool)
      requires Valid() && hasSavedState
      modifies this`lastConcatCount, this`attrs, this`accumPosInc, this`hasOutputToken
      modifies this`hasOutputFollowingOriginal, concat
      ensures Valid()
      ensures flushed <==> old(Incompatible(t)) && Flushes(flags, old(concat.subwordCount), old(concat.wordType))
      ensures flushed ==>
                attrs == ConcatToken(old(concat.buffer), old(concat.startOffset), old(concat.endOffset), Positioned(flags, true, old(Pos())).0)
      ensures old(Incompatible(t)) ==> concat.Cleared() && !hasOutputToken
      ensures !flushed ==> attrs == old(attrs) && accumPosInc == old(accumPosInc)
      ensures !old(Incompatible(t)) ==> concat.buffer == old(concat.buffer) && concat.wordType == old(concat.wordType) && Pos() == old(Pos())
      ensures !old(Incompatible(t)) ==> concat.State() == old(concat.State())
      ensures !flushed ==> Pos() == (if old(Incompatible(t)) then old(Pos()).(hasOutputToken := false) else old(Pos()))
      ensures flushed ==> IsConcatenation(attrs)
    {
      var empty := concat.IsEmpty();
      if !empty && concat.wordType * t == {} {
        flushed := FlushConcatenation(concat);
        hasOutputToken := false;
      } else {
        flushed := false;
      }
    }

    /** Add the current subword to the typed run when its type is concatenated
        (a new run takes the subword's type), and to the run of all parts when
        everything is concatenated. */
    method ExtendRuns()
      requires Valid() && hasSavedState && spanIndex < |spans|
      modifies concat, concatAll
      ensures Valid()
      ensures ShouldConcatenate(flags, spans[spanIndex].wordType) ==>
                && concat.buffer == old(concat.buffer) + savedBuffer[spans[spanIndex].current..spans[spanIndex].end]
                && (old(concat.buffer) == [] ==> concat.wordType == spans[spanIndex].wordType)
      ensures !ShouldConcatenate(flags, spans[spanIndex].wordType) ==> concat.buffer == old(concat.buffer)
      ensures flags.catenateAll ==>
                concatAll.buffer == old(concatAll.buffer) + savedBuffer[spans[spanIndex].current..spans[spanIndex].end]
      ensures !flags.catenateAll ==> concatAll.buffer == old(concatAll.buffer)
      // the runs' counts, offsets and types, as concatenate leaves them
      ensures concat.State() ==
                TypedRunAfter(flags, old(concat.State()), spans[spanIndex], savedBuffer[spans[spanIndex].current..spans[spanIndex].end], savedStartOffset)
      ensures concatAll.State() ==
                AllRunAfter(flags, old(concatAll.State()), spans[spanIndex], savedBuffer[spans[spanIndex].current..spans[spanIndex].end], savedStartOffset)
    {
      ExtendTyped();
      ExtendAll();
    }

    /** The typed run's half of ExtendRuns. */
    method ExtendTyped()
      requires Valid() && hasSavedState && spanIndex < |spans|
      modifies concat
      ensures Valid()
      ensures concat.State() ==
                TypedRunAfter(flags, old(concat.State()), spans[spanIndex], savedBuffer[spans[spanIndex].current..spans[spanIndex].end], savedStartOffset)
    {
      var wordType := spans[spanIndex].wordType;
      if ShouldConcatenate(flags, wordType) {
        var empty := concat.IsEmpty();
        if empty {
          concat.wordType := wordType;
        }
        Concatenate(concat);
      }
    }

    /** The half of ExtendRuns for the run of all parts. */
    method ExtendAll()
      requires Valid() && hasSavedState && spanIndex < |spans|
      modifies concatAll
      ensures Valid()
      ensures concatAll.State() ==
                AllRunAfter(flags, old(concatAll.State()), spans[spanIndex], savedBuffer[spans[spanIndex].current..spans[spanIndex].end], savedStartOffset)
    {
      if flags.catenateAll {
        Concatenate(concatAll);
      }
    }

    /** The part of incrementToken for the iterator's current subword: emit a
        single word; flush a run of an incompatible type; extend the runs; emit
        the subword as a part when its type is generated. */
    method ProcessSpan() returns (emitted: bool)
      requires Valid() && hasSavedState && spanIndex < |spans|
      modifies this`lastConcatCount, this`attrs, this`accumPosInc, this`hasOutputToken
      modifies this`hasOutputFollowingOriginal, this`spanIndex, concat, concatAll
      ensures Valid() && hasSavedState
      ensures !emitted ==> spanIndex == old(spanIndex) + 1
      ensures emitted ==> old(spanIndex) <= spanIndex <= old(spanIndex) + 1
      ensures SpanProcessed(emitted, old(spanIndex), old(concat.State()), old(concatAll.State()), old(Pos()))
      ensures emitted ==> IsPart(attrs) || IsConcatenation(attrs)
    {
      if spans[spanIndex].isSingleWord {
        GeneratePart(true);
        Advance();
        assert attrs == PartToken(spans[spanIndex - 1], spans[spanIndex - 1].isSingleWord, attrs.posInc);
        return true;
      }
      emitted := ProcessSubword();
    }

    /** ProcessSpan for a subword that is one of several parts of the token. */
    method ProcessSubword() returns (emitted: bool)
      requires Valid() && hasSavedState && spanIndex < |spans| && !spans[spanIndex].isSingleWord
      modifies this`lastConcatCount, this`attrs, this`accumPosInc, this`hasOutputToken
      modifies this`hasOutputFollowingOriginal, this`spanIndex, concat, concatAll
      ensures Valid() && hasSavedState
      ensures !emitted ==> spanIndex == old(spanIndex) + 1
      ensures emitted ==> old(spanIndex) <= spanIndex <= old(spanIndex) + 1
      ensures SpanProcessed(emitted, old(spanIndex), old(concat.State()), old(concatAll.State()), old(Pos()))
      ensures emitted ==> IsPart(attrs) || IsConcatenation(attrs)
    {
      var flushed := FlushIncompatible(spans[spanIndex].wordType);
      if flushed {
        return true;
      }
      emitted := ExtendAndEmit();
    }

    /** A subword its typed run can take: add it to the runs, emit it when parts
        of its type are generated, and move on. */
    method ExtendAndEmit() returns (emitted: bool)
      requires Valid() && hasSavedState && spanIndex < |spans| && !spans[spanIndex].isSingleWord
      modifies this`attrs, this`accumPosInc, this`hasOutputToken
      modifies this`hasOutputFollowingOriginal, this`spanIndex, concat, concatAll
      ensures Valid() && hasSavedState && spanIndex == old(spanIndex) + 1
      ensures concat.State() ==
                TypedRunAfter(flags, old(concat.State()), spans[old(spanIndex)], savedBuffer[spans[old(spanIndex)].current..spans[old(spanIndex)].end], savedStartOffset)
      ensures concatAll.State() ==
                AllRunAfter(flags, old(concatAll.State()), spans[old(spanIndex)], savedBuffer[spans[old(spanIndex)].current..spans[old(spanIndex)].end], savedStartOffset)
      ensures emitted <==> ShouldGenerateParts(flags, spans[old(spanIndex)].wordType)
      ensures emitted ==> attrs.term == savedBuffer[spans[old(spanIndex)].current..spans[old(spanIndex)].end]
      ensures emitted ==> attrs == PartToken(spans[old(spanIndex)], false, Positioned(flags, false, old(Pos())).0) && IsPart(attrs)
    {
      ExtendRuns();
      if ShouldGenerateParts(flags, spans[spanIndex].wordType) {
        EmitPart();
        return true;
      }
      Advance();
      return false;
    }

    /** Emit the current subword as a part and move on. */
    method EmitPart()
      requires Valid() && hasSavedState && spanIndex < |spans| && !spans[spanIndex].isSingleWord
      modifies this`attrs, this`accumPosInc, this`hasOutputToken, this`hasOutputFollowingOriginal, this`spanIndex
      ensures Valid() && hasSavedState && spanIndex == old(spanIndex) + 1
      ensures attrs.term == savedBuffer[spans[old(spanIndex)].current..spans[old(spanIndex)].end]
      ensures attrs == PartToken(spans[old(spanIndex)], false, Positioned(flags, false, old(Pos())).0)
      ensures Pos() == Positioned(flags, false, old(Pos())).1
      ensures IsPart(attrs)
    {
      GeneratePart(false);
      Advance();
      assert attrs == PartToken(spans[spanIndex - 1], spans[spanIndex - 1].isSingleWord, attrs.posInc);
    }

    /** The part of incrementToken's loop for a saved token: the runs at its end,
        or its current subword. Going round again means the token was released
        or the iterator moved on. */
    method Proceed() returns (emitted: bool)
      requires Valid() && RunsMade() && hasSavedState
      modifies this`lastConcatCount, this`attrs, this`accumPosInc, this`hasOutputToken
      modifies this`hasOutputFollowingOriginal, this`spanIndex, this`hasSavedState, concat, concatAll
      modifies this`typedParts, this`allParts
      ensures Valid()
      ensures !emitted ==> !hasSavedState || spanIndex == old(spanIndex) + 1 <= |spans|
      // the runs at the end of the token, or the current subword
      ensures old(spanIndex) == |spans| ==>
                EndFlushed(emitted, old(concat.State()), old(concatAll.State()), old(Pos()), old(lastConcatCount))
      ensures old(spanIndex) < |spans| ==>
                SpanProcessed(emitted, old(spanIndex), old(concat.State()), old(concatAll.State()), old(Pos()))
      ensures RunsMade()
      ensures emitted ==> IsPart(attrs) || IsRun(attrs)
    {
      if spanIndex == |spans| {
        ghost var typed, all, pos, lastCount := concat.State(), concatAll.State(), Pos(), lastConcatCount;
        ghost var runs := Runs(typed, typedParts, all, allParts, savedBuffer[..savedLength], spans, spanIndex, savedStartOffset);
        assert runs.Sound();
        emitted := FlushAtEnd();
        EndKeepsRuns(emitted, pos, lastCount, runs);
      } else {
        emitted := StepSpan();
      }
    }

    /** The filter's runs, the subwords they are made of and the saved token,
        as a value: sound while the invariant holds. */
    lemma CurrentRuns() returns (runs: Runs)
      requires Valid() && RunsMade() && hasSavedState && spanIndex < |spans|
      ensures runs.Sound() && SpansWithin(runs.spans, |runs.text|) && Describes(runs) && 0 <= runs.cursor < |runs.spans|
      ensures runs == Runs(concat.State(), typedParts, concatAll.State(), allParts,
                           savedBuffer[..savedLength], spans, spanIndex, savedStartOffset)
    {
      runs := Runs(concat.State(), typedParts, concatAll.State(), allParts,
                   savedBuffer[..savedLength], spans, spanIndex, savedStartOffset);
    }

    /** Record the subwords each run will be made of once the cursor has moved;
        nothing the token filter itself reads changes. */
    ghost method Record(runs: Runs, next: Runs)
      requires Valid() && hasSavedState && spanIndex < |spans| && Describes(runs)
      modifies this`typedParts, this`allParts
      ensures typedParts == next.typedParts && allParts == next.allParts
      ensures Valid() && hasSavedState && spanIndex == old(spanIndex) && spanIndex < |spans| && Describes(runs)
      ensures concat.State() == old(concat.State()) && concatAll.State() == old(concatAll.State()) && Pos() == old(Pos())
    {
      typedParts, allParts := next.typedParts, next.allParts;
    }

    /** ProcessSpan, with the subwords each run is made of brought up to date
        first. */
    method StepSpan() returns (emitted: bool)
      requires Valid() && RunsMade() && hasSavedState && spanIndex < |spans|
      modifies this`lastConcatCount, this`attrs, this`accumPosInc, this`hasOutputToken
      modifies this`hasOutputFollowingOriginal, this`spanIndex, concat, concatAll
      modifies this`typedParts, this`allParts
      ensures Valid() && hasSavedState
      ensures !emitted ==> spanIndex == old(spanIndex) + 1
      ensures SpanProcessed(emitted, old(spanIndex), old(concat.State()), old(concatAll.State()), old(Pos()))
      ensures RunsMade()
      ensures emitted ==> IsPart(attrs) || IsRun(attrs)
    {
      ghost var pos := Pos();
      ghost var runs := CurrentRuns();
      ghost var next := runs.After(flags);
      Record(runs, next);
      emitted := ProcessSpan();
      SpanKeepsRuns(emitted, pos, runs, next);
    }

    /** write()'s token for a run made of subwords is a run token. */
    lemma ConcatIsRun(r: RunState, ks: seq<nat>, cursor: int, posInc: int)
      requires hasSavedState && savedLength <= savedBuffer.Length && SpansWithin(spans, savedLength)
      requires Made(r, ks, savedBuffer[..savedLength], spans, cursor, savedStartOffset)
      ensures IsRun(ConcatToken(r.buffer, r.startOffset, r.endOffset, posInc))
    {
      var text := savedBuffer[..savedLength];
      RunTokenMade(r, ks, text, spans, cursor, savedStartOffset, savedEndOffset, savedType, posInc);
      assert RunTokenOf(ConcatToken(r.buffer, r.startOffset, r.endOffset, posInc), ks, text, spans,
                        savedStartOffset, savedEndOffset, savedType);
    }

    /** The saved token is the one runs describes. */
    ghost predicate Describes(runs: Runs)
      reads this`savedLength, this`savedBuffer, savedBuffer, this`spans, this`savedStartOffset
    {
      && savedLength <= savedBuffer.Length
      && runs.text == savedBuffer[..savedLength] && runs.spans == spans && runs.base == savedStartOffset
    }

    /** Processing the subword at the cursor leaves the runs After names. */
    lemma SpanMovesRuns(emitted: bool, pos: Positions, runs: Runs)
      requires hasSavedState && Describes(runs) && SpanProcessed(emitted, runs.cursor, runs.typed, runs.all, pos)
      ensures concat.State() == runs.After(flags).typed && concatAll.State() == runs.After(flags).all
      ensures spanIndex == runs.After(flags).cursor
    {
      var span := spans[runs.cursor];
      assert Piece(runs.text, span) == savedBuffer[span.current..span.end];
    }

    /** Runs that are sound, describe the saved token and the cursor, and are
        the filter's runs and subwords, make the invariant hold. */
    lemma RunsHeld(runs: Runs)
      requires runs.Sound() && Describes(runs) && runs.cursor == spanIndex
      requires concat.State() == runs.typed && concatAll.State() == runs.all
      requires typedParts == runs.typedParts && allParts == runs.allParts
      ensures RunsMade()
    { }

    /** Processing the subword at the cursor, with sound runs before it and the
        subwords After names recorded, keeps both runs made of subwords and
        emits a part or a run token. */
    lemma SpanKeepsRuns(emitted: bool, pos: Positions, runs: Runs, next: Runs)
      requires hasSavedState && runs.Sound() && Describes(runs) && SpansWithin(runs.spans, |runs.text|)
      requires 0 <= runs.cursor < |runs.spans| && next == runs.After(flags)
      requires typedParts == next.typedParts && allParts == next.allParts
      requires SpanProcessed(emitted, runs.cursor, runs.typed, runs.all, pos)
      ensures RunsMade()
      ensures emitted ==> IsPart(attrs) || IsRun(attrs)
    {
      SpanMovesRuns(emitted, pos, runs);
      AfterSound(flags, runs);
      RunsHeld(next);
      SpanEmits(emitted, pos, runs);
    }

    /** What processing the subword at the cursor emits, with sound runs before
        it, is a part or a run token. */
    lemma SpanEmits(emitted: bool, pos: Positions, runs: Runs)
      requires hasSavedState && runs.Sound() && Describes(runs)
      requires SpanProcessed(emitted, runs.cursor, runs.typed, runs.all, pos)
      ensures emitted ==> IsPart(attrs) || IsRun(attrs)
    {
      var k, typed := runs.cursor, runs.typed;
      if !spans[k].isSingleWord && IncompatibleWith(typed, spans[k].wordType)
         && Flushes(flags, typed.subwordCount, typed.wordType) {
        ConcatIsRun(typed, runs.typedParts, k, Positioned(flags, true, pos).0);
      }
    }

    /** Flushing at the end of the saved token, with sound runs, leaves both runs
        made of the same subwords, and emits a run token. */
    lemma EndKeepsRuns(emitted: bool, pos: Positions, lastCount: int, runs: Runs)
      requires Valid() && runs.Sound() && Describes(runs) && runs.cursor == spanIndex
      requires runs.typedParts == typedParts && runs.allParts == allParts
      requires EndFlushed(emitted, runs.typed, runs.all, pos, lastCount)
      ensures RunsMade()
      ensures emitted ==> IsRun(attrs)
    {
      var typed, all := runs.typed, runs.all;
      if typed.buffer != [] && Flushes(flags, typed.subwordCount, typed.wordType) {
        ConcatIsRun(typed, typedParts, spanIndex, Positioned(flags, true, pos).0);
      } else if emitted {
        ConcatIsRun(all, allParts, spanIndex, Positioned(flags, true, pos).0);
      }
    }

    /** With both runs empty the invariant holds whatever token is saved. */
    lemma EmptyRunsMade()
      requires concat.buffer == [] && concatAll.buffer == []
      ensures RunsMade()
    { }

    /** A pulled token that Divided says is returned, kept or preserved, is the
        last upstream token whole with the gap of its pull. */
    lemma TakenWhole(w: WordStart, t: Token)
      requires 0 < consumed <= |input| && t == input[consumed - 1] && Divided(w, t, pulledGap)
      ensures w == Kept || w == Preserved ==> IsWhole(attrs) && accumPosInc == 0
    { }

    /** Pull the next upstream token and decide what becomes of it. */
    method Take() returns (w: WordStart)
      requires Valid() && IteratorWithin() && !hasSavedState && consumed < |input|
      modifies this`attrs, this`consumed, this`accumPosInc, this`spans, this`spanIndex
      modifies this`savedStartOffset, this`savedEndOffset, this`hasIllegalOffsets, this`savedType
      modifies this`savedBuffer, this`savedLength, this`hasSavedState, savedBuffer
      modifies this`hasOutputToken, this`hasOutputFollowingOriginal, this`lastConcatCount, this`pulledGap
      ensures Valid() && consumed == old(consumed) + 1
      ensures pulledGap == old(accumPosInc) + old(input[consumed]).posInc
      ensures savedBuffer == old(savedBuffer) || fresh(savedBuffer)
      ensures w == Skipped ==> !hasSavedState
      ensures w == Saved ==> hasSavedState
      ensures Divided(w, old(input[consumed]), old(accumPosInc) + old(input[consumed]).posInc)
      ensures input == old(input)
      // the runs are still empty, and a token returned is returned whole
      ensures RunsMade()
      ensures w == Kept || w == Preserved ==> IsWhole(attrs) && accumPosInc == 0
    {
      assert concat.buffer == [] && concatAll.buffer == [];
      ghost var t := input[consumed];
      Pull();
      w := Divide();
      EmptyRunsMade();
      TakenWhole(w, t);
    }

    /** The while(true) loop of incrementToken once the first upstream token, if
        any, has been looked at: it ends at a token to output or at the end of
        input. Every pass that does not return pulls a token, releases the saved
        token, or advances the iterator. */
    method Run() returns (r: bool)
      requires Valid() && IteratorWithin() && RunsMade()
      modifies this, concat, concatAll, savedBuffer
      ensures Valid() && RunsMade()
      ensures input == old(input) && old(consumed) <= consumed
      ensures !r ==> consumed == |input| && !hasSavedState
      // what is returned is a token returned whole, a part or a run
      ensures r ==> (IsWhole(attrs) && accumPosInc == 0) || IsPart(attrs) || IsRun(attrs)
    {
      while true
        invariant Valid() && RunsMade()
        invariant input == old(input) && old(consumed) <= consumed
        invariant savedBuffer == old(savedBuffer) || fresh(savedBuffer)
        decreases |input| - consumed, (if hasSavedState then 1 else 0), |spans| - spanIndex
      {
        var done;
        done, r := Pass();
        if done {
          return;
        }
      }
    }

    /** One round of incrementToken's loop: done when it returns, r telling
        whether it returns a token. A round that goes on pulls a token,
        releases the saved token, or moves the iterator on. */
    method Pass() returns (done: bool, r: bool)
      requires Valid() && IteratorWithin() && RunsMade()
      modifies this, concat, concatAll, savedBuffer
      ensures Valid() && RunsMade()
      ensures input == old(input) && old(consumed) <= consumed
      ensures savedBuffer == old(savedBuffer) || fresh(savedBuffer)
      ensures done && !r ==> consumed == |input| && !hasSavedState
      ensures done && r ==> (IsWhole(attrs) && accumPosInc == 0) || IsPart(attrs) || IsRun(attrs)
      ensures !done ==>
                || old(consumed) < consumed
                || (&& consumed == old(consumed) && old(hasSavedState)
                    && (!hasSavedState || (spans == old(spans) && spanIndex == old(spanIndex) + 1 <= |spans|)))
    {
      if !hasSavedState {
        if consumed == |input| {
          return true, false;
        }
        var w := Take();
        if w == Kept || w == Preserved {
          return true, true;
        }
        if w == Skipped {
          return false, false;
        }
      }
      var emitted := Proceed();
      return emitted, emitted;
    }

    method IncrementToken() returns (r: bool)
      requires Valid() && IteratorWithin() && RunsMade()
      modifies this, concat, concatAll, savedBuffer
      ensures Valid() && RunsMade()
      ensures input == old(input) && old(consumed) <= consumed
      ensures !r ==> consumed == |input| && !hasSavedState
      ensures !old(hasSavedState) && old(consumed) < |input| && Undivided(input[old(consumed)].term) ==>
                && r && consumed == old(consumed) + 1 && !hasSavedState && accumPosInc == 0
                && attrs == input[old(consumed)].(posInc := old(accumPosInc) + input[old(consumed)].posInc)
      ensures !old(hasSavedState) && old(consumed) < |input| && !Undivided(input[old(consumed)].term) && flags.preserveOriginal ==>
                && r && consumed == old(consumed) + 1 && accumPosInc == 0
                && Started(input[old(consumed)]) && !hasOutputFollowingOriginal
                && attrs == input[old(consumed)].(posInc := old(accumPosInc) + input[old(consumed)].posInc)
                // the first part or run is then stacked on the original
                && Positioned(flags, false, Pos()).0 == 0 && Positioned(flags, true, Pos()).0 == 0
      ensures r ==> (IsWhole(attrs) && accumPosInc == 0) || IsPart(attrs) || IsRun(attrs)
    {
      if !hasSavedState {
        if consumed == |input| {
          return false;
        }
        var w := Take();
        if w == Kept || w == Preserved {
          return true;
        }
      }
      r := Run();
    }
  }
}
