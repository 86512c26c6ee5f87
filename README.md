# Token filters of the elasticsearch plugin bundle, in Dafny

This project models three Lucene token filters of the xbib Elasticsearch plugin
bundle and proves properties of them:

- **WordDelimiterFilter2** (`word_delimiter.dfy`). It splits a token into
  subword parts at the breaks a word-delimiter iterator reports. It emits:
  - the parts;
  - concatenations of runs of same-typed parts;
  - a concatenation of all parts;
  - optionally the original token.

  Position increments and offsets stay consistent. The filter is a class whose
  fields are the Java fields: the saved-token state, the run counters, the
  position flags and a `savedBuffer` array. The two concatenation buffers are
  objects of their own that the filter updates in place. The `while(true)` loop
  of `incrementToken` is a loop over small methods. Each method is proved
  against pure functions for positions (`Positioned`) and offsets
  (`PartOffsets`, `ConcatOffsets`).
- **AutoPhrasingTokenFilter** (`auto_phrasing.dfy`). It recognises dictionary
  phrases in a token stream and emits one token for each phrase it finds.
  Tokens of a phrase that does not complete are replayed on their own.
  - The character helpers are loop methods proved against specification
    predicates.
  - The filter is a class. The recursion of `incrementToken` becomes a loop
    over a `Step` method that either returns or asks to go round again.
  - Each method is proved against a function on a snapshot of the fields
    (`State`): `StepPass` for one pass and `Run` for the whole call. Lemmas
    about those functions state what a pass emits in each branch: a completed
    phrase, a staged one, a partial match, the fall-back and the end of input.
  - The candidate set can be the dictionary's own set for a first word. That
    aliasing is explicit (`Candidates.Shared`), so adding to it grows the
    dictionary, as in the Java code.
- **BaseformTokenFilter** (`baseform.dfy`). It follows every token with its
  dictionary base form at the same position. The queue and the captured token
  are fields. A ghost record of the tokens returned so far is tied by the class
  invariant to a stream-level specification, `Output`. Lemmas about `Output`
  state what the filter promises.

`tokens.dfy` holds the shared token record. Its fields are the term, the start
and end offsets, the position increment and the type. The upstream token stream
is a sequence the filters consume; the attributes a filter shares with upstream
and with its consumer are a `Token` field.

## Model

Source paths are relative to the repository root.

| member | source | states |
|---|---|---|
| WordDelimiter.Gap | src/main/java/org/xbib/elasticsearch/index/analysis/worddelimiter/WordDelimiterFilter2.java:347-349 | the part increment is one position (none with all parts at the same position), or the accumulated gap when larger: at least both, and equal to one of them |
| WordDelimiter.Positioned | src/main/java/org/xbib/elasticsearch/index/analysis/worddelimiter/WordDelimiterFilter2.java:342-362 | position(inject): an injected concatenation after output in the run gets 0; the first token after the preserved original gets 0 and keeps the accumulator; otherwise the gap is taken and the accumulator cleared; a token is output afterwards; increments stay non-negative |
| WordDelimiter.FirstAfterOriginal | src/main/java/org/xbib/elasticsearch/index/analysis/worddelimiter/WordDelimiterFilter2.java:342-362 | in the state a divided token starts in, the first part or run gets increment 0 when the original was preserved, and otherwise takes the accumulated gap and clears it |
| WordDelimiter.PartOffsets | src/main/java/org/xbib/elasticsearch/index/analysis/worddelimiter/WordDelimiterFilter2.java:318-331 | legal offsets give the part its own span; with illegal ones the part takes the whole token, except that a single word starting inside the token keeps its own start; the result lies within the token's offsets |
| WordDelimiter.ConcatOffsets | src/main/java/org/xbib/elasticsearch/index/analysis/worddelimiter/WordDelimiterFilter2.java:449-453 | a run keeps its own offsets when the token's are legal and takes the whole token's otherwise; the result lies within the token's offsets |
| WordDelimiter.Appended | src/main/java/org/xbib/elasticsearch/index/analysis/worddelimiter/WordDelimiterFilter2.java:301-307 | a run that takes a subword holds its text after the run's, counts one more, keeps its type, ends where the subword ends and starts where the subword starts only when it was empty |
| WordDelimiter.JoinedSnoc | src/main/java/org/xbib/elasticsearch/index/analysis/worddelimiter/WordDelimiterFilter2.java:301-307 | appending a subword to a run's subwords appends that subword's text to the joined text |
| WordDelimiter.MadeLater | src/main/java/org/xbib/elasticsearch/index/analysis/worddelimiter/WordDelimiterFilter2.java:219-223 | a run made of subwords before the cursor is still made of them after the iterator moves on |
| WordDelimiter.AppendedMade | src/main/java/org/xbib/elasticsearch/index/analysis/worddelimiter/WordDelimiterFilter2.java:301-307 | concatenating the subword at k onto a run that is empty or made of subwords before k gives a run made of those subwords and k: texts joined, count, start of the first and end of k |
| WordDelimiter.TypedRunMade | src/main/java/org/xbib/elasticsearch/index/analysis/worddelimiter/WordDelimiterFilter2.java:203-209 | the typed run after subword k is offered is empty with no count, or made of its former subwords plus k exactly when k's type is concatenated |
| WordDelimiter.AllRunMade | src/main/java/org/xbib/elasticsearch/index/analysis/worddelimiter/WordDelimiterFilter2.java:211-214 | the run of all parts after subword k is offered is made of its former subwords plus k exactly when everything is concatenated |
| WordDelimiter.RunTokenMade | src/main/java/org/xbib/elasticsearch/index/analysis/worddelimiter/WordDelimiterFilter2.java:439-457 | write() of a run made of subwords gives the run token of those subwords |
| WordDelimiter.AfterSound | src/main/java/org/xbib/elasticsearch/index/analysis/worddelimiter/WordDelimiterFilter2.java:185-223 | processing one subword keeps both runs empty or made of subwords before the new cursor, whichever branch is taken |
| WordDelimiter.OfferedTyped | src/main/java/org/xbib/elasticsearch/index/analysis/worddelimiter/WordDelimiterFilter2.java:192-209 | when the subword is not flushed ahead, the typed run (dropped first when incompatible) stays empty or made of subwords up to it |
| WordDelimiter.OfferedAll | src/main/java/org/xbib/elasticsearch/index/analysis/worddelimiter/WordDelimiterFilter2.java:211-214 | when the subword is not flushed ahead, the run of all parts stays empty or made of subwords up to it |
| WordDelimiter.WordDelimiterConcatenation.constructor | src/main/java/org/xbib/elasticsearch/index/analysis/worddelimiter/WordDelimiterFilter2.java:417-422 | a new run is empty, with zero offsets, type and count |
| WordDelimiter.WordDelimiterConcatenation.Append | src/main/java/org/xbib/elasticsearch/index/analysis/worddelimiter/WordDelimiterFilter2.java:431-434 | appends exactly the given characters and counts one subword more |
| WordDelimiter.WordDelimiterConcatenation.IsEmpty | src/main/java/org/xbib/elasticsearch/index/analysis/worddelimiter/WordDelimiterFilter2.java:464-466 | true exactly when the buffer is empty |
| WordDelimiter.WordDelimiterConcatenation.Clear | src/main/java/org/xbib/elasticsearch/index/analysis/worddelimiter/WordDelimiterFilter2.java:471-474 | empties the buffer and zeroes offsets, type and count |
| WordDelimiter.WordDelimiterFilter2.constructor | src/main/java/org/xbib/elasticsearch/index/analysis/worddelimiter/WordDelimiterFilter2.java:63-101 | no saved token, empty runs, zero accumulator and run count, given flags, protected words and iterator |
| WordDelimiter.WordDelimiterFilter2.Reset | src/main/java/org/xbib/elasticsearch/index/analysis/worddelimiter/WordDelimiterFilter2.java:230-237 | drops the saved token, clears both runs and the accumulator, starts over on the new input; the run count and attributes are untouched |
| WordDelimiter.WordDelimiterFilter2.Position | src/main/java/org/xbib/elasticsearch/index/analysis/worddelimiter/WordDelimiterFilter2.java:342-362 | returns and leaves exactly what Positioned says |
| WordDelimiter.WordDelimiterFilter2.SaveState | src/main/java/org/xbib/elasticsearch/index/analysis/worddelimiter/WordDelimiterFilter2.java:242-258 | copies the term into the buffer (a new one when too small), saves offsets and type, and sets the illegal-offsets flag exactly when end minus start differs from the term length |
| WordDelimiter.WordDelimiterFilter2.Concatenate | src/main/java/org/xbib/elasticsearch/index/analysis/worddelimiter/WordDelimiterFilter2.java:301-307 | the run becomes Appended with the current subword's characters at the saved start plus the subword's range: one more subword, start set only on the first append, end at the subword's end, type kept |
| WordDelimiter.WordDelimiterFilter2.GeneratePart | src/main/java/org/xbib/elasticsearch/index/analysis/worddelimiter/WordDelimiterFilter2.java:314-334 | emits the current subword's text with PartOffsets, the saved type and the increment of position(false) |
| WordDelimiter.WordDelimiterFilter2.Write | src/main/java/org/xbib/elasticsearch/index/analysis/worddelimiter/WordDelimiterFilter2.java:439-457 | emits the run's text with ConcatOffsets, the saved type and the increment of position(true), then clears the accumulator; a non-empty run gives a token whose offsets come from a range inside the saved token |
| WordDelimiter.WordDelimiterFilter2.WriteAndClear | src/main/java/org/xbib/elasticsearch/index/analysis/worddelimiter/WordDelimiterFilter2.java:479-482 | writes the run as Write does and leaves it cleared |
| WordDelimiter.WordDelimiterFilter2.FlushConcatenation | src/main/java/org/xbib/elasticsearch/index/analysis/worddelimiter/WordDelimiterFilter2.java:266-274 | records the run's subword count; writes it exactly when it has other than one subword or its type is not generated as parts; the run is cleared either way and nothing else changes when it is not written |
| WordDelimiter.WordDelimiterFilter2.Pull | src/main/java/org/xbib/elasticsearch/index/analysis/worddelimiter/WordDelimiterFilter2.java:121-131 | takes the next upstream token, adds its increment to the accumulator, records the resulting gap as the pulled gap and restarts the iterator on its text |
| WordDelimiter.WordDelimiterFilter2.Start | src/main/java/org/xbib/elasticsearch/index/analysis/worddelimiter/WordDelimiterFilter2.java:150-154 | saves the token, nothing output yet, the original counts as output unless preserved, run count 0 |
| WordDelimiter.WordDelimiterFilter2.ReturnWhole | src/main/java/org/xbib/elasticsearch/index/analysis/worddelimiter/WordDelimiterFilter2.java:136-137 | the token keeps everything but takes the accumulated gap as increment; the accumulator is cleared |
| WordDelimiter.WordDelimiterFilter2.Divide | src/main/java/org/xbib/elasticsearch/index/analysis/worddelimiter/WordDelimiterFilter2.java:133-160 | Divided: a token whose first subword is all of it, or a protected one, is returned whole with the gap; a token of delimiters only is dropped (without preserve-original) and its increment stays in the gap less one when it is 1; with preserve-original the original is returned with the gap and the token saved; otherwise the token is saved, its parts follow and the gap waits for them |
| WordDelimiter.WordDelimiterFilter2.StartParts | src/main/java/org/xbib/elasticsearch/index/analysis/worddelimiter/WordDelimiterFilter2.java:150-160 | a divided token is saved; with preserve-original it is returned first with the gap, otherwise the gap is left for its parts |
| WordDelimiter.WordDelimiterFilter2.Take | src/main/java/org/xbib/elasticsearch/index/analysis/worddelimiter/WordDelimiterFilter2.java:119-160 | one upstream token is consumed and Divided with the gap plus its own increment: returned whole, dropped, preserved or saved as Divide says; the pulled gap is the old gap plus the token's increment, and a token returned is the pulled token whole with that gap, the accumulator cleared; the runs stay empty |
| WordDelimiter.WordDelimiterFilter2.TakenWhole | src/main/java/org/xbib/elasticsearch/index/analysis/worddelimiter/WordDelimiterFilter2.java:133-160 | a pulled token that Divide keeps or preserves is the last upstream token whole, its increment the gap of its pull, with the accumulator cleared |
| WordDelimiter.WordDelimiterFilter2.FlushAtEnd | src/main/java/org/xbib/elasticsearch/index/analysis/worddelimiter/WordDelimiterFilter2.java:163-183 | at the end of a token a non-empty typed run is written first unless it is a single generated part, leaving the run of all parts as it was; otherwise the run of all parts is written only when it holds more subwords than the last typed run (that run's count if there was one), with the run's text, offsets and the increment of position(true), and cleared; with nothing written the token is released |
| WordDelimiter.WordDelimiterFilter2.FlushAll | src/main/java/org/xbib/elasticsearch/index/analysis/worddelimiter/WordDelimiterFilter2.java:171-182 | the run of all parts is written exactly when it is non-empty and has more subwords than the last typed run; the token is released exactly when nothing is written |
| WordDelimiter.WordDelimiterFilter2.Advance | src/main/java/org/xbib/elasticsearch/index/analysis/worddelimiter/WordDelimiterFilter2.java:223 | the iterator moves to the next subword and the runs stay behind it |
| WordDelimiter.WordDelimiterFilter2.FlushIncompatible | src/main/java/org/xbib/elasticsearch/index/analysis/worddelimiter/WordDelimiterFilter2.java:194-201 | a non-empty typed run sharing no type bit with the subword is flushed, and nothing counts as output for the next run whether or not it was written; a compatible or empty run, the positions and the attributes are left alone |
| WordDelimiter.WordDelimiterFilter2.ExtendRuns | src/main/java/org/xbib/elasticsearch/index/analysis/worddelimiter/WordDelimiterFilter2.java:203-214 | the typed run takes the subword exactly when its type is concatenated: one more subword, the start set when the run was empty, the end at the subword's end, the type set when the run was empty and kept otherwise; the run of all parts does the same exactly when everything is concatenated; a run that does not take the subword is unchanged |
| WordDelimiter.WordDelimiterFilter2.ExtendTyped | src/main/java/org/xbib/elasticsearch/index/analysis/worddelimiter/WordDelimiterFilter2.java:204-209 | the typed run becomes TypedRunAfter: Appended (after taking the subword's type when empty) exactly when the type is concatenated, unchanged otherwise |
| WordDelimiter.WordDelimiterFilter2.ExtendAll | src/main/java/org/xbib/elasticsearch/index/analysis/worddelimiter/WordDelimiterFilter2.java:212-214 | the run of all parts becomes AllRunAfter: Appended exactly when everything is concatenated, unchanged otherwise |
| WordDelimiter.WordDelimiterFilter2.ProcessSpan | src/main/java/org/xbib/elasticsearch/index/analysis/worddelimiter/WordDelimiterFilter2.java:185-223 | SpanProcessed: a single word is emitted as a part with position(false) and joins no run; an incompatible typed run that flushes is written first and the subword taken up again; otherwise the runs take the subword as ExtendRuns says (an incompatible run dropped first) and the subword is emitted as PartToken, with the output flag reset after an incompatible run, exactly when its type is generated; what is emitted is a part or a concatenation (non-empty text with the saved type over a stretch of the saved token) |
| WordDelimiter.WordDelimiterFilter2.ProcessSubword | src/main/java/org/xbib/elasticsearch/index/analysis/worddelimiter/WordDelimiterFilter2.java:192-223 | SpanProcessed for a subword that is not a single word: the incompatible-run flush, the runs extended, and the part emitted exactly when its type is generated, with its text, offsets and increment |
| WordDelimiter.WordDelimiterFilter2.ExtendAndEmit | src/main/java/org/xbib/elasticsearch/index/analysis/worddelimiter/WordDelimiterFilter2.java:203-223 | the runs take the subword as ExtendRuns says; the subword is emitted exactly when its type is generated, as PartToken with the increment of position(false); the iterator moves on |
| WordDelimiter.WordDelimiterFilter2.EmitPart | src/main/java/org/xbib/elasticsearch/index/analysis/worddelimiter/WordDelimiterFilter2.java:217-222 | the current subword is returned as PartToken (its text, PartOffsets, the saved type) with the increment and positions of position(false), and the iterator moves on |
| WordDelimiter.WordDelimiterFilter2.Proceed | src/main/java/org/xbib/elasticsearch/index/analysis/worddelimiter/WordDelimiterFilter2.java:163-223 | at the end of the subwords, FlushAtEnd's cases (EndFlushed); before it, ProcessSpan's cases (SpanProcessed); what is emitted is a part or write()'s token for a run of the saved token's subwords taken in iterator order: their texts joined, the saved type, and ConcatOffsets of the first one's start and the last one's end; both runs stay made of subwords (RunsMade); when nothing is emitted the token was released or the iterator moved on by one |
| WordDelimiter.WordDelimiterFilter2.StepSpan | src/main/java/org/xbib/elasticsearch/index/analysis/worddelimiter/WordDelimiterFilter2.java:185-223 | ProcessSpan's cases (SpanProcessed) with the subwords of both runs brought up to date: both runs stay made of subwords, and what is emitted is a part or write()'s token for a run of the saved token's subwords taken in iterator order: their texts joined, the saved type, and ConcatOffsets of the first one's start and the last one's end |
| WordDelimiter.WordDelimiterFilter2.Record | src/main/java/org/xbib/elasticsearch/index/analysis/worddelimiter/WordDelimiterFilter2.java:185-223 | records the subwords the runs will be made of; nothing the filter reads changes |
| WordDelimiter.WordDelimiterFilter2.CurrentRuns | src/main/java/org/xbib/elasticsearch/index/analysis/worddelimiter/WordDelimiterFilter2.java:185-223 | the runs, their subwords and the saved token as one value, each run empty or made of subwords before the cursor |
| WordDelimiter.WordDelimiterFilter2.ConcatIsRun | src/main/java/org/xbib/elasticsearch/index/analysis/worddelimiter/WordDelimiterFilter2.java:439-457 | write()'s token for a run made of subwords of the saved token is write()'s token for a run of the saved token's subwords taken in iterator order: their texts joined, the saved type, and ConcatOffsets of the first one's start and the last one's end |
| WordDelimiter.WordDelimiterFilter2.SpanMovesRuns | src/main/java/org/xbib/elasticsearch/index/analysis/worddelimiter/WordDelimiterFilter2.java:185-223 | after one subword is processed, the runs and the cursor are those After describes |
| WordDelimiter.WordDelimiterFilter2.RunsHeld | src/main/java/org/xbib/elasticsearch/index/analysis/worddelimiter/WordDelimiterFilter2.java:185-223 | runs that are sound and are the filter's runs and subwords make both runs made of subwords |
| WordDelimiter.WordDelimiterFilter2.SpanKeepsRuns | src/main/java/org/xbib/elasticsearch/index/analysis/worddelimiter/WordDelimiterFilter2.java:185-223 | processing one subword keeps both runs made of subwords and emits a part or a run token |
| WordDelimiter.WordDelimiterFilter2.SpanEmits | src/main/java/org/xbib/elasticsearch/index/analysis/worddelimiter/WordDelimiterFilter2.java:194-221 | what processing one subword emits is the subword as a part, or the flushed incompatible typed run as a run token |
| WordDelimiter.WordDelimiterFilter2.EndKeepsRuns | src/main/java/org/xbib/elasticsearch/index/analysis/worddelimiter/WordDelimiterFilter2.java:163-183 | at the end of a token, both runs stay made of subwords and what is emitted is the typed run or the run of all parts as a run token |
| WordDelimiter.WordDelimiterFilter2.EmptyRunsMade | src/main/java/org/xbib/elasticsearch/index/analysis/worddelimiter/WordDelimiterFilter2.java:163-183 | with both runs empty, as between saved tokens, both are trivially made of subwords |
| WordDelimiter.WordDelimiterFilter2.Run | src/main/java/org/xbib/elasticsearch/index/analysis/worddelimiter/WordDelimiterFilter2.java:118-224 | the loop terminates; false only when upstream is exhausted and nothing is saved; a token returned is the last upstream token whole with the gap accumulated when it was pulled (its own increment included) as its increment and the accumulator cleared, a part of the saved token, or write()'s token for a run of the saved token's subwords taken in iterator order: their texts joined, the saved type, and ConcatOffsets of the first one's start and the last one's end; both runs stay made of subwords |
| WordDelimiter.WordDelimiterFilter2.Pass | src/main/java/org/xbib/elasticsearch/index/analysis/worddelimiter/WordDelimiterFilter2.java:118-224 | one round of the loop: at the end of input it returns false with nothing saved; a token returned is the last pulled token whole with the gap of its pull and the accumulator cleared, a part, or write()'s token for a run of the saved token's subwords taken in iterator order: their texts joined, the saved type, and ConcatOffsets of the first one's start and the last one's end; both runs stay made of subwords; a round that goes on consumes a token, releases the saved one or moves the iterator on |
| WordDelimiter.WordDelimiterFilter2.IncrementToken | src/main/java/org/xbib/elasticsearch/index/analysis/worddelimiter/WordDelimiterFilter2.java:117-224 | false only at the end of input with nothing saved; an undivided or protected next token is returned whole with the accumulated gap; with preserve-original the original comes first with the gap and the token is saved for its parts, the first of which is stacked on it (increment 0); a token returned is the last pulled token whole with the gap of its pull and the accumulator cleared, a part, or write()'s token for a run of the saved token's subwords taken in iterator order: their texts joined, the saved type, and ConcatOffsets of the first one's start and the last one's end; both runs stay made of subwords |
| AutoPhrasing.StartsWith | src/main/java/org/xbib/elasticsearch/index/analysis/autophrase/AutoPhrasingTokenFilter.java:249-255 | true exactly when phrase is a prefix of buffer |
| AutoPhrasing.CharsEqual | src/main/java/org/xbib/elasticsearch/index/analysis/autophrase/AutoPhrasingTokenFilter.java:257-263 | true exactly when the two are equal |
| AutoPhrasing.EndsWith | src/main/java/org/xbib/elasticsearch/index/analysis/autophrase/AutoPhrasingTokenFilter.java:265-273 | true exactly when phrase is shorter than buffer and its characters from the third on match the end of buffer (the first two are never compared) |
| AutoPhrasing.TailMatchesByIndex | src/main/java/org/xbib/elasticsearch/index/analysis/autophrase/AutoPhrasingTokenFilter.java:268-272 | the tail match is exactly the comparison of offsets 1 to length-2 from the end |
| AutoPhrasing.TailMatchesQuirks | src/main/java/org/xbib/elasticsearch/index/analysis/autophrase/AutoPhrasingTokenFilter.java:268-272 | a buffer never ends with itself, and any phrase of at most two characters matches a longer buffer |
| AutoPhrasing.AppendWordJoins | src/main/java/org/xbib/elasticsearch/index/analysis/autophrase/AutoPhrasingTokenFilter.java:279-282 | feeding words one by one builds their space-joined phrase |
| AutoPhrasing.GetCurrentBuffer | src/main/java/org/xbib/elasticsearch/index/analysis/autophrase/AutoPhrasingTokenFilter.java:275-286 | a space goes in only before a word added to a non-empty phrase, an empty word changes nothing, and the result is the updated phrase |
| AutoPhrasing.CutsLast | src/main/java/org/xbib/elasticsearch/index/analysis/autophrase/AutoPhrasingTokenFilter.java:423-429 | the replay list ends with the final word, which ends at the end offset |
| AutoPhrasing.CutsLocate | src/main/java/org/xbib/elasticsearch/index/analysis/autophrase/AutoPhrasingTokenFilter.java:402-430 | every replayed word's offsets point at exactly its text within the phrase |
| AutoPhrasing.CutsKeep | src/main/java/org/xbib/elasticsearch/index/analysis/autophrase/AutoPhrasingTokenFilter.java:413-419 | no replayed word before the last is one the last emitted token "ends with" |
| AutoPhrasing.CutsSkip | src/main/java/org/xbib/elasticsearch/index/analysis/autophrase/AutoPhrasingTokenFilter.java:408-421 | characters other than white space add no replay token |
| AutoPhrasing.CutsJoin | src/main/java/org/xbib/elasticsearch/index/analysis/autophrase/AutoPhrasingTokenFilter.java:402-430 | for a phrase tail made of words joined by single spaces (none holding white space), the replayed texts are the words the last emitted token does not "end with", then always the final word (ReplayWords) |
| AutoPhrasing.Texts | src/main/java/org/xbib/elasticsearch/index/analysis/autophrase/AutoPhrasingTokenFilter.java:402-430 | the texts of the replay tokens, one per token, in order |
| AutoPhrasing.KeptWordsFilter | src/main/java/org/xbib/elasticsearch/index/analysis/autophrase/AutoPhrasingTokenFilter.java:413-419 | a word is among the kept words exactly when it is one of the words and the last emitted token does not "end with" it |
| AutoPhrasing.KeptWordsAll | src/main/java/org/xbib/elasticsearch/index/analysis/autophrase/AutoPhrasingTokenFilter.java:413-419 | with nothing emitted yet every word is kept |
| AutoPhrasing.ReplayWordsKept | src/main/java/org/xbib/elasticsearch/index/analysis/autophrase/AutoPhrasingTokenFilter.java:402-430 | the replayed words are the kept words before the final word, then the final word |
| AutoPhrasing.DiscardedSplitsJoin | src/main/java/org/xbib/elasticsearch/index/analysis/autophrase/AutoPhrasingTokenFilter.java:402-430 | discarding a phrase built from words replays exactly the words kept by the last emitted token (KeptWords) followed by the final word; with nothing emitted yet, exactly the words |
| AutoPhrasing.DiscardedLocated | src/main/java/org/xbib/elasticsearch/index/analysis/autophrase/AutoPhrasingTokenFilter.java:402-430 | discarding replays at least one token, each located at its text, the last ending at the end offset |
| AutoPhrasing.DiscardedSkips | src/main/java/org/xbib/elasticsearch/index/analysis/autophrase/AutoPhrasingTokenFilter.java:413-419 | words the last emitted token ends with are not replayed, except the final one |
| AutoPhrasing.SpaceIndex | src/main/java/org/xbib/elasticsearch/index/analysis/autophrase/AutoPhrasingTokenFilter.java:387-392 | the first white-space index from a position, or the length |
| AutoPhrasing.FirstTerm | src/main/java/org/xbib/elasticsearch/index/analysis/autophrase/AutoPhrasingTokenFilter.java:386-396 | a proper prefix without white space, ending at the first white space; with none, the phrase less its last character |
| AutoPhrasing.GetFirstTerm | src/main/java/org/xbib/elasticsearch/index/analysis/autophrase/AutoPhrasingTokenFilter.java:386-396 | fails exactly on the empty phrase, and otherwise gives FirstTerm |
| AutoPhrasing.ConvertPhraseSet | src/main/java/org/xbib/elasticsearch/index/analysis/autophrase/AutoPhrasingTokenFilter.java:371-384 | fails exactly when the empty phrase is in the set; otherwise each phrase is filed under its first term and each key holds exactly the phrases with that first term |
| AutoPhrasing.Remove | src/main/java/org/xbib/elasticsearch/index/analysis/autophrase/AutoPhrasingTokenFilter.java:432-441 | keeps exactly the candidates that strictly extend the buffer or that the buffer "ends with"; never the buffer itself |
| AutoPhrasing.HasPhraseStartingWith | src/main/java/org/xbib/elasticsearch/index/analysis/autophrase/AutoPhrasingTokenFilter.java:209-214 | true exactly when some candidate starts with the buffer |
| AutoPhrasing.ReplaceThenFix | src/main/java/org/xbib/elasticsearch/index/analysis/autophrase/AutoPhrasingTokenFilter.java:325-336 | fixing the whitespace of a replaced token gives the token back when the replacement character does not occur in it |
| AutoPhrasing.ReplaceWhiteSpace | src/main/java/org/xbib/elasticsearch/index/analysis/autophrase/AutoPhrasingTokenFilter.java:325-336 | same length; exactly the spaces become the replacement character |
| AutoPhrasing.FixWhitespace | src/main/java/org/xbib/elasticsearch/index/analysis/autophrase/AutoPhrasingTokenFilter.java:443-455 | identity with no replacement character; otherwise exactly that character becomes a space |
| AutoPhrasing.Replaced | src/main/java/org/xbib/elasticsearch/index/analysis/autophrase/AutoPhrasingTokenFilter.java:297-299 | same length, unchanged without a replacement character, and characters other than spaces kept |
| AutoPhrasing.Stamped | src/main/java/org/xbib/elasticsearch/index/analysis/autophrase/AutoPhrasingTokenFilter.java:296-314 | the emitted token has the text and increment given, keeps its end offset and type, and starts the text's length before the end when the end allows it |
| AutoPhrasing.Placed | src/main/java/org/xbib/elasticsearch/index/analysis/autophrase/AutoPhrasingTokenFilter.java:316-323 | a replayed token takes its own offsets when they form a non-empty range from 0 on, and nothing else changes |
| AutoPhrasing.IdlePass | src/main/java/org/xbib/elasticsearch/index/analysis/autophrase/AutoPhrasingTokenFilter.java:158-174 | with nothing tracked a token consumes nothing more, never ends the stream and leaves the dictionary as it is |
| AutoPhrasing.MatchedPass | src/main/java/org/xbib/elasticsearch/index/analysis/autophrase/AutoPhrasingTokenFilter.java:177-200 | a matched phrase consumes nothing more, never ends the stream and leaves the dictionary as it is |
| AutoPhrasing.Abandoned | src/main/java/org/xbib/elasticsearch/index/analysis/autophrase/AutoPhrasingTokenFilter.java:220-229 | giving a phrase up consumes nothing and leaves the dictionary as it is |
| AutoPhrasing.FallBackPass | src/main/java/org/xbib/elasticsearch/index/analysis/autophrase/AutoPhrasingTokenFilter.java:215-232 | the fall-back consumes nothing, never ends the stream and leaves the dictionary as it is |
| AutoPhrasing.UnmatchedPass | src/main/java/org/xbib/elasticsearch/index/analysis/autophrase/AutoPhrasingTokenFilter.java:202-232 | an unmatched phrase consumes nothing more, never ends the stream, and the dictionary only grows |
| AutoPhrasing.TrackingPass | src/main/java/org/xbib/elasticsearch/index/analysis/autophrase/AutoPhrasingTokenFilter.java:175-233 | a tracked token consumes nothing more, never ends the stream, and the dictionary only grows |
| AutoPhrasing.FlushFirstPass | src/main/java/org/xbib/elasticsearch/index/analysis/autophrase/AutoPhrasingTokenFilter.java:112-120 | consumes nothing, keeps the dictionary, and changes nothing when the first candidate is not emitted |
| AutoPhrasing.FlushReplayPass | src/main/java/org/xbib/elasticsearch/index/analysis/autophrase/AutoPhrasingTokenFilter.java:121-134 | consumes nothing, keeps the dictionary, and keeps the phrase and last emitted text when nothing is emitted |
| AutoPhrasing.FlushCandidatesPass | src/main/java/org/xbib/elasticsearch/index/analysis/autophrase/AutoPhrasingTokenFilter.java:112-134 | consumes nothing, keeps the dictionary, and keeps the phrase and last emitted text when nothing is emitted |
| AutoPhrasing.FlushPhrasePass | src/main/java/org/xbib/elasticsearch/index/analysis/autophrase/AutoPhrasingTokenFilter.java:135-152 | consumes nothing and keeps the dictionary |
| AutoPhrasing.AtEndPass | src/main/java/org/xbib/elasticsearch/index/analysis/autophrase/AutoPhrasingTokenFilter.java:105-153 | at the end of input nothing is consumed and the dictionary is kept |
| AutoPhrasing.PullPass | src/main/java/org/xbib/elasticsearch/index/analysis/autophrase/AutoPhrasingTokenFilter.java:105-233 | consumes at most one token; going round again follows a consumed token; the end of the stream is reported only with upstream exhausted; the dictionary only grows |
| AutoPhrasing.StepPass | src/main/java/org/xbib/elasticsearch/index/analysis/autophrase/AutoPhrasingTokenFilter.java:94-233 | one pass consumes at most one token; going round again follows a consumed token; the end of the stream is reported only with upstream exhausted; the dictionary only grows |
| AutoPhrasing.PendingFirst | src/main/java/org/xbib/elasticsearch/index/analysis/autophrase/AutoPhrasingTokenFilter.java:95-104 | without single tokens a queued replay token goes out first at its own offsets and the next position; then a staged single token goes out at the next position; neither pulls from upstream |
| AutoPhrasing.PlainWord | src/main/java/org/xbib/elasticsearch/index/analysis/autophrase/AutoPhrasingTokenFilter.java:158-173 | with nothing tracked a token that is no dictionary key goes out as it is at the next position |
| AutoPhrasing.CompletedMatch | src/main/java/org/xbib/elasticsearch/index/analysis/autophrase/AutoPhrasingTokenFilter.java:177-183 | a token completing a candidate that no other extends emits the phrase over the token at the next position, then takes the counter back to where it was, clears the last valid phrase and records the phrase as last emitted |
| AutoPhrasing.StagedMatch | src/main/java/org/xbib/elasticsearch/index/analysis/autophrase/AutoPhrasingTokenFilter.java:184-188 | in single-token mode a candidate that others extend is staged: the token itself is returned, the candidates are narrowed, and the next pass emits the phrase at the next position without pulling |
| AutoPhrasing.PartialMatch | src/main/java/org/xbib/elasticsearch/index/analysis/autophrase/AutoPhrasingTokenFilter.java:189-200 | without single tokens a candidate that others extend becomes the last valid phrase, the counter is unchanged and the pass recurses, tracking the token's own phrases when it is a key and the narrowed candidates otherwise |
| AutoPhrasing.FallBackEmits | src/main/java/org/xbib/elasticsearch/index/analysis/autophrase/AutoPhrasingTokenFilter.java:220-229 | without single tokens and no valid phrase pending, the phrase is queued word by word (at least one token), tracking stops and the first queued token goes out at its own offsets |
| AutoPhrasing.AbandonedForLastValid | src/main/java/org/xbib/elasticsearch/index/analysis/autophrase/AutoPhrasingTokenFilter.java:215-219 | a token that neither completes nor continues any candidate, with a valid phrase pending, emits that phrase at the next position and clears it |
| AutoPhrasing.FlushedCandidate | src/main/java/org/xbib/elasticsearch/index/analysis/autophrase/AutoPhrasingTokenFilter.java:112-119 | in single-token mode at the end of input the first candidate, which is one of the candidates, goes out when the phrase "ends with" it, and it leaves the candidates |
| AutoPhrasing.FlushedPhrase | src/main/java/org/xbib/elasticsearch/index/analysis/autophrase/AutoPhrasingTokenFilter.java:135-152 | without single tokens at the end of input, with nothing emitted yet, a phrase that is a candidate goes out whole, and one that is not is replayed from its first word |
| AutoPhrasing.RunEndsAtEnd | src/main/java/org/xbib/elasticsearch/index/analysis/autophrase/AutoPhrasingTokenFilter.java:93-234 | incrementToken never un-consumes a token and reports the end of the stream only once upstream is exhausted |
| AutoPhrasing.RunGrows | src/main/java/org/xbib/elasticsearch/index/analysis/autophrase/AutoPhrasingTokenFilter.java:202-208 | over a whole call the dictionary keeps its keys and its entries only grow |
| AutoPhrasing.AutoPhrasingTokenFilter.constructor | src/main/java/org/xbib/elasticsearch/index/analysis/autophrase/AutoPhrasingTokenFilter.java:69-76 | the dictionary files every phrase under its first term; nothing tracked, queued or emitted; counter 0 |
| AutoPhrasing.AutoPhrasingTokenFilter.SetReplaceWhitespaceWith | src/main/java/org/xbib/elasticsearch/index/analysis/autophrase/AutoPhrasingTokenFilter.java:78-80 | sets the replacement character |
| AutoPhrasing.AutoPhrasingTokenFilter.Reset | src/main/java/org/xbib/elasticsearch/index/analysis/autophrase/AutoPhrasingTokenFilter.java:82-91 | clears candidates, phrase, pending tokens, replay queue and counter; keeps the last valid phrase and the dictionary |
| AutoPhrasing.AutoPhrasingTokenFilter.NextToken | src/main/java/org/xbib/elasticsearch/index/analysis/autophrase/AutoPhrasingTokenFilter.java:236-247 | the next upstream term, or none at the end with the attributes unchanged |
| AutoPhrasing.AutoPhrasingTokenFilter.Emit | src/main/java/org/xbib/elasticsearch/index/analysis/autophrase/AutoPhrasingTokenFilter.java:296-314 | the state becomes Emitted: the attributes are Stamped with the replaced text and the incremented counter, which is kept, and the replaced text is the last emitted |
| AutoPhrasing.AutoPhrasingTokenFilter.EmitNextReplay | src/main/java/org/xbib/elasticsearch/index/analysis/autophrase/AutoPhrasingTokenFilter.java:316-323 | the head of the replay queue is removed and emitted as Emit does, then Placed at its own offsets (ReplayNext) |
| AutoPhrasing.AutoPhrasingTokenFilter.PopUnused | src/main/java/org/xbib/elasticsearch/index/analysis/autophrase/AutoPhrasingTokenFilter.java:96 | removes and returns the head of the replay queue |
| AutoPhrasing.AutoPhrasingTokenFilter.DiscardCharTokens | src/main/java/org/xbib/elasticsearch/index/analysis/autophrase/AutoPhrasingTokenFilter.java:402-430 | appends exactly Discarded of the current phrase at the current end offset to the replay queue |
| AutoPhrasing.AutoPhrasingTokenFilter.AtEnd | src/main/java/org/xbib/elasticsearch/index/analysis/autophrase/AutoPhrasingTokenFilter.java:106-153 | the end-of-input branch as AtEndPass: a pending valid phrase goes out first and is cleared; then the open candidates are flushed; then a phrase built while nothing was emitted |
| AutoPhrasing.AutoPhrasingTokenFilter.FlushCandidates | src/main/java/org/xbib/elasticsearch/index/analysis/autophrase/AutoPhrasingTokenFilter.java:112-134 | as FlushCandidatesPass: with candidates open, single-token mode tries the first candidate and otherwise the phrase is replayed unless it is the last emitted text |
| AutoPhrasing.AutoPhrasingTokenFilter.FlushFirst | src/main/java/org/xbib/elasticsearch/index/analysis/autophrase/AutoPhrasingTokenFilter.java:112-120 | as FlushFirstPass: the first candidate is removed from the candidates and emitted when the phrase "ends with" it |
| AutoPhrasing.AutoPhrasingTokenFilter.FlushReplay | src/main/java/org/xbib/elasticsearch/index/analysis/autophrase/AutoPhrasingTokenFilter.java:121-134 | as FlushReplayPass: unless the phrase is the last emitted text (whitespace restored), its words are queued, tracking stops and the first is emitted, or dropped when the last emitted text "ends with" the phrase |
| AutoPhrasing.AutoPhrasingTokenFilter.FlushPhrase | src/main/java/org/xbib/elasticsearch/index/analysis/autophrase/AutoPhrasingTokenFilter.java:135-152 | as FlushPhrasePass: with nothing emitted yet a phrase that is a candidate goes out and is cleared; otherwise without single tokens it is given up and its first word replayed |
| AutoPhrasing.AutoPhrasingTokenFilter.Idle | src/main/java/org/xbib/elasticsearch/index/analysis/autophrase/AutoPhrasingTokenFilter.java:158-174 | a first word that is a dictionary key starts tracking the dictionary's own set with the phrase set to the word and goes round again; any other word is emitted |
| AutoPhrasing.AutoPhrasingTokenFilter.AddCandidates | src/main/java/org/xbib/elasticsearch/index/analysis/autophrase/AutoPhrasingTokenFilter.java:202-208 | the candidates grow by the given phrases, and the dictionary grows with them when the set is the dictionary's own |
| AutoPhrasing.AutoPhrasingTokenFilter.Tracking | src/main/java/org/xbib/elasticsearch/index/analysis/autophrase/AutoPhrasingTokenFilter.java:175-233 | as TrackingPass: the phrase is extended by the token and handled as matched or unmatched; the dictionary only grows |
| AutoPhrasing.AutoPhrasingTokenFilter.Matched | src/main/java/org/xbib/elasticsearch/index/analysis/autophrase/AutoPhrasingTokenFilter.java:177-200 | as MatchedPass: the candidates are narrowed; with none left the phrase is completed; in single-token mode it is staged; otherwise it becomes the last valid phrase, a key token reseeds and the pass recurses |
| AutoPhrasing.AutoPhrasingTokenFilter.Complete | src/main/java/org/xbib/elasticsearch/index/analysis/autophrase/AutoPhrasingTokenFilter.java:180-183 | as Completed: the phrase is emitted, the last valid phrase cleared and the counter taken back by one, and a key token starts the next phrase |
| AutoPhrasing.AutoPhrasingTokenFilter.Reseed | src/main/java/org/xbib/elasticsearch/index/analysis/autophrase/AutoPhrasingTokenFilter.java:191-199 | as Reseeded: a token that is a dictionary key starts a new phrase tracking its own phrases; otherwise nothing changes |
| AutoPhrasing.AutoPhrasingTokenFilter.Unmatched | src/main/java/org/xbib/elasticsearch/index/analysis/autophrase/AutoPhrasingTokenFilter.java:202-232 | as UnmatchedPass: the token's own phrases join the candidates; the pass recurses while some candidate starts with the phrase, and otherwise falls back |
| AutoPhrasing.AutoPhrasingTokenFilter.FallBack | src/main/java/org/xbib/elasticsearch/index/analysis/autophrase/AutoPhrasingTokenFilter.java:215-232 | as FallBackPass: a pending valid phrase goes out and is cleared; otherwise without single tokens the phrase is given up and its first word replayed, or the pass recurses when nothing was queued; in single-token mode tracking stops and the pass recurses |
| AutoPhrasing.AutoPhrasingTokenFilter.Abandon | src/main/java/org/xbib/elasticsearch/index/analysis/autophrase/AutoPhrasingTokenFilter.java:220-229 | as Abandoned: the phrase's words are queued, the phrase emptied, tracking stopped, and the first queued token emitted when there is one |
| AutoPhrasing.AutoPhrasingTokenFilter.Step | src/main/java/org/xbib/elasticsearch/index/analysis/autophrase/AutoPhrasingTokenFilter.java:94-233 | as StepPass: a queued replay token first (without single tokens), then a staged single token, then a pull from upstream; the dictionary only grows |
| AutoPhrasing.AutoPhrasingTokenFilter.Pull | src/main/java/org/xbib/elasticsearch/index/analysis/autophrase/AutoPhrasingTokenFilter.java:105-233 | as PullPass: at the end of input the end branch, otherwise the token is taken and handled as idle or tracking |
| AutoPhrasing.AutoPhrasingTokenFilter.Take | src/main/java/org/xbib/elasticsearch/index/analysis/autophrase/AutoPhrasingTokenFilter.java:105 | as Pulled: the next upstream token fills the attributes and in single-token mode is staged; its term is returned |
| AutoPhrasing.AutoPhrasingTokenFilter.IncrementToken | src/main/java/org/xbib/elasticsearch/index/analysis/autophrase/AutoPhrasingTokenFilter.java:93-234 | the recursion terminates, and the new state and result are those of Run, the passes of StepPass until one returns; with RunEndsAtEnd and RunGrows, false only at the end of input and the dictionary only grows |
| Baseform.Found | src/main/java/org/xbib/elasticsearch/index/analysis/baseform/BaseformTokenFilter.java:77-83 | at most one base form per token, present exactly when the dictionary answers with a non-empty text, and equal to that text |
| Baseform.Restored | src/main/java/org/xbib/elasticsearch/index/analysis/baseform/BaseformTokenFilter.java:57-62 | the restored state carries the base form as its term at increment 0, and the captured token's offsets and type |
| Baseform.OutputExtend | src/main/java/org/xbib/elasticsearch/index/analysis/baseform/BaseformTokenFilter.java:57-70 | the output so far, then one more upstream token, then the base form queued for it, is the output for the input one token longer |
| Baseform.Expanded | src/main/java/org/xbib/elasticsearch/index/analysis/baseform/BaseformTokenFilter.java:57-70 | one token in gives the token unchanged, followed by its base form at increment 0 exactly when there is one |
| Baseform.OutputLength | src/main/java/org/xbib/elasticsearch/index/analysis/baseform/BaseformTokenFilter.java:65-84 | the output has at least as many and at most twice as many tokens as the input |
| Baseform.OutputIdentity | src/main/java/org/xbib/elasticsearch/index/analysis/baseform/BaseformTokenFilter.java:65-84 | with no base form for any token the output is the input |
| Baseform.PositionsKept | src/main/java/org/xbib/elasticsearch/index/analysis/baseform/BaseformTokenFilter.java:62 | base forms take no position: the increments of the output add up to those of the input |
| Baseform.OutputFrom | src/main/java/org/xbib/elasticsearch/index/analysis/baseform/BaseformTokenFilter.java:57-84 | every output token is an input token or the base form of one, at increment 0 |
| Baseform.OutputWellFormed | src/main/java/org/xbib/elasticsearch/index/analysis/baseform/BaseformTokenFilter.java:57-70 | well-formed tokens in give well-formed tokens out |
| Baseform.BaseformTokenFilter.constructor | src/main/java/org/xbib/elasticsearch/index/analysis/baseform/BaseformTokenFilter.java:49-53 | empty queue, no captured token, nothing returned |
| Baseform.BaseformTokenFilter.Baseform | src/main/java/org/xbib/elasticsearch/index/analysis/baseform/BaseformTokenFilter.java:76-84 | queues exactly Found for the current term |
| Baseform.BaseformTokenFilter.IncrementToken | src/main/java/org/xbib/elasticsearch/index/analysis/baseform/BaseformTokenFilter.java:55-74 | a queued form comes out first over the captured token at increment 0; otherwise the next upstream token comes out unchanged with its base form queued and its state captured when there is one; false exactly when nothing is queued and upstream is exhausted, and then the tokens returned are Output of the whole input |
| Baseform.BaseformTokenFilter.PopQueued | src/main/java/org/xbib/elasticsearch/index/analysis/baseform/BaseformTokenFilter.java:57-63 | removes the queued form and returns it over the captured token at increment 0 |
| Baseform.BaseformTokenFilter.PassThrough | src/main/java/org/xbib/elasticsearch/index/analysis/baseform/BaseformTokenFilter.java:65-70 | returns the next upstream token unchanged, queues its base form and captures its state when there is one |
| Baseform.BaseformTokenFilter.Reset | src/main/java/org/xbib/elasticsearch/index/analysis/baseform/BaseformTokenFilter.java:86-91 | empties the queue and forgets the captured token |

## Left out

- The word-delimiter iterator (`WordDelimiterIterator`: character table, case, numeric and possessive break rules) is not part of this model. It is a function from a text to its subwords, each with its range, type and single-word flag. The filter assumes only that the subwords are non-empty, inside the text and in order. The splitting flags only configure the iterator, so they are left out with it. The type bits `ALPHA`/`DIGIT` are modelled as a set of character classes; bitwise "and" is intersection.
- `isSubwordDelim`, `isUpper` and `has`: unused by the filter's logic, or replaced by boolean flags.
- Lucene attribute plumbing: `clearAttributes`, `captureState`/`restoreState`, reflective attribute lookup, `CharTermAttribute` buffer resizing. All attributes are one `Token` record. In auto-phrasing, the missing-attribute branches (null term, offset or increment attribute) are left out; the attributes are always present.
- WordDelimiter.WordDelimiterFilter2.SaveState: a saved buffer that is too small is replaced by one of exactly the term's length. The `ArrayUtil.oversize` growth policy is not modelled.
- Which element `getFirst` (AutoPhrasingTokenFilter.java:288-294) picks from a `CharArraySet` depends on hash order. The filter takes it as a constructor parameter `first`, which must pick a phrase of every non-empty set (`Chooses`, required by the constructor and kept by the invariant). Which phrase it picks is left open; FlushedCandidate speaks of `first` of the candidates directly.
- The FSA `Dictionary` behind the base-form filter is a parameter `lookup: string -> Option<string>`, where `None` stands for null. Character-coding exceptions are left out.
- `IOException` propagation from upstream, and Java `assert` statements used as debug checks.
- The end of upstream is modelled as leaving the attributes unchanged.
- AutoPhrasing.AutoPhrasingTokenFilter.constructor: requires that the empty phrase is not in the phrase set. `getFirstTerm` would throw on it (a negative array size), and ConvertPhraseSet models that failure as `None`. It also requires that `first` picks a phrase of every non-empty set (`Chooses`), as `getFirst` does.
- The word-delimiter type predicates (`isAlpha`, `isDigit`, `shouldConcatenate`, `shouldGenerateParts`) and the auto-phrasing `isSpaceChar` are plain predicates of the model (IsAlpha, IsDigit, ShouldConcatenate, ShouldGenerateParts, IsSpaceChar). They have no contract of their own; the contracts of ExtendRuns, ProcessSpan, FlushConcatenation and CutsSkip are stated with them.
- Integer widths: offsets, increments and the position counter are unbounded integers. Java's 32-bit `int` overflow is not modelled; streams long enough to reach it are out of scope.
- The other repository files (ICU collation provider, ISBN request, hyphen filter factory, mapping test) are configuration, transport or integration code and are not part of this model.
