// A token filter that follows every token with its base form taken from a
// dictionary, at the same position: the base form replaces the text of a copy
// of the token whose position increment is 0.

module Baseform {
  import opened Tokens

  // ---------------------------------------------------------------------------
  // Specification of the output stream
  // ---------------------------------------------------------------------------

  /** The base forms baseform() queues for a term: the dictionary's answer,
      unless there is none (null) or it is empty. */
  function Found(lookup: string -> Option<string>, term: string): (r: seq<string>)
    ensures |r| <= 1
    ensures r != [] <==> lookup(term).Some? && lookup(term).value != []
    ensures r != [] ==> r[0] == lookup(term).value
  {
    if lookup(term).Some? && lookup(term).value != [] then [lookup(term).value] else []
  }

  /** A queued base form as it comes out: the captured token with its text
      replaced and its increment set to 0. */
  function Restored(t: Token, form: string): (r: Token)
    ensures r.term == form && r.posInc == 0
    ensures r.startOffset == t.startOffset && r.endOffset == t.endOffset && r.tokenType == t.tokenType
  {
    t.(term := form, posInc := 0)
  }

  /** What the filter returns for one upstream token: the token, unchanged, then
      its base form in the same place when the dictionary has one. */
  function Expanded(lookup: string -> Option<string>, t: Token): (r: seq<Token>)
    ensures 1 <= |r| <= 2 && r[0] == t
    ensures |r| == 2 <==> Found(lookup, t.term) != []
    ensures |r| == 2 ==> r[1] == t.(term := lookup(t.term).value, posInc := 0)
  {
    if Found(lookup, t.term) != [] then [t, Restored(t, lookup(t.term).value)] else [t]
  }

  /** What the filter returns for the upstream tokens s. */
  function Output(lookup: string -> Option<string>, s: seq<Token>): seq<Token>
  {
    if s == [] then [] else Output(lookup, s[..|s| - 1]) + Expanded(lookup, s[|s| - 1])
  }

  /** Pulling one more upstream token: the output so far, the token, then what
      is queued for it, is the output for one token more. */
  lemma OutputExtend(lookup: string -> Option<string>, s: seq<Token>, i: nat, done: seq<Token>, queued: seq<Token>)
    requires i < |s| && done == Output(lookup, s[..i])
    requires queued == if Found(lookup, s[i].term) != [] then [Restored(s[i], lookup(s[i].term).value)] else []
    ensures (done + [s[i]]) + queued == Output(lookup, s[..i + 1])
  {
    assert s[..i + 1][..i] == s[..i];
    assert Expanded(lookup, s[i]) == [s[i]] + queued;
  }

  /** The sum of the position increments of s: the position of its last token. */
  function TotalInc(s: seq<Token>): int
  {
    if s == [] then 0 else TotalInc(s[..|s| - 1]) + s[|s| - 1].posInc
  }

  // ---------------------------------------------------------------------------
  // Properties of the output stream
  // ---------------------------------------------------------------------------

  /** Every upstream token comes out, followed by at most one base form. */
  lemma {:induction false} OutputLength(lookup: string -> Option<string>, s: seq<Token>)
    ensures |s| <= |Output(lookup, s)| <= 2 * |s|
  {
    if s != [] {
      OutputLength(lookup, s[..|s| - 1]);
    }
  }

  /** Without base forms in the dictionary the filter changes nothing. */
  lemma {:induction false} OutputIdentity(lookup: string -> Option<string>, s: seq<Token>)
    requires forall t :: t in s ==> Found(lookup, t.term) == []
    ensures Output(lookup, s) == s
  {
    if s != [] {
      var init, t := s[..|s| - 1], s[|s| - 1];
      assert s == init + [t];
      OutputIdentity(lookup, init);
      assert Expanded(lookup, t) == [t];
    }
  }

  lemma {:induction false} TotalIncAppend(a: seq<Token>, b: seq<Token>)
    ensures TotalInc(a + b) == TotalInc(a) + TotalInc(b)
  {
    if b == [] {
      assert a + b == a;
    } else {
      assert (a + b)[..|a + b| - 1] == a + b[..|b| - 1];
      assert (a + b)[|a + b| - 1] == b[|b| - 1];
      TotalIncAppend(a, b[..|b| - 1]);
    }
  }

  /** Base forms take no position of their own: the output ends at the same
      position as the input. */
  lemma {:induction false} PositionsKept(lookup: string -> Option<string>, s: seq<Token>)
    ensures TotalInc(Output(lookup, s)) == TotalInc(s)
  {
    if s != [] {
      var init, t := s[..|s| - 1], s[|s| - 1];
      PositionsKept(lookup, init);
      TotalIncAppend(Output(lookup, init), Expanded(lookup, t));
      var e := Expanded(lookup, t);
      assert [t][..0] == [];
      if |e| == 2 {
        assert e[..1] == [t];
        assert TotalInc(e) == TotalInc([t]) + 0;
      } else {
        assert e == [t];
      }
    }
  }

  /** Every token that comes out is an upstream token, or the base form of one
      at increment 0. */
  lemma {:induction false} OutputFrom(lookup: string -> Option<string>, s: seq<Token>)
    ensures forall u :: u in Output(lookup, s) ==>
              || u in s
              || exists t :: t in s && Found(lookup, t.term) != [] && u == t.(term := lookup(t.term).value, posInc := 0)
  {
    if s != [] {
      var init, t := s[..|s| - 1], s[|s| - 1];
      OutputFrom(lookup, init);
      forall u | u in Output(lookup, s)
        ensures || u in s
                || exists t :: t in s && Found(lookup, t.term) != [] && u == t.(term := lookup(t.term).value, posInc := 0)
      {
        if u in Output(lookup, init) {
          if u !in init {
            var w :| w in init && Found(lookup, w.term) != [] && u == w.(term := lookup(w.term).value, posInc := 0);
            assert w in s;
          }
        } else {
          assert u in Expanded(lookup, t);
          assert t in s;
        }
      }
    }
  }

  /** Well-formed tokens in, well-formed tokens out. */
  lemma {:induction false} OutputWellFormed(lookup: string -> Option<string>, s: seq<Token>)
    requires AllWellFormed(s)
    ensures AllWellFormed(Output(lookup, s))
  {
    if s != [] {
      OutputWellFormed(lookup, s[..|s| - 1]);
    }
  }

  // ---------------------------------------------------------------------------
  // The filter
  // ---------------------------------------------------------------------------

  class BaseformTokenFilter {
    /** The dictionary; None stands for a null answer. */
    const lookup: string -> Option<string>
    /** The queue of base forms not yet returned. */
    var tokens: seq<string>
    /** The captured state of the token the queued base forms belong to; None
        stands for null. */
    var current: Option<Token>
    /** The upstream stream, of which the first consumed tokens have been pulled. */
    var input: seq<Token>
    var consumed: nat
    /** The attributes shared with upstream and with the consumer. */
    var attrs: Token
    /** The tokens returned so far. */
    ghost var out: seq<Token>

    /** The queued base forms as they will come out. */
    function Pending(): seq<Token>
      reads this`current, this`tokens
    {
      if current.Some? && tokens != [] then [Restored(current.value, tokens[0])] else []
    }

    ghost predicate StreamOk()
      reads this`input, this`consumed, this`attrs
    {
      AllWellFormed(input) && consumed <= |input| && attrs.WellFormed()
    }

    /** baseform adds to an empty queue only, so it holds at most one form, and a
        queued form always has a captured token. */
    ghost predicate QueueOk()
      reads this`current, this`tokens
    {
      && |tokens| <= 1
      && (tokens != [] ==> current.Some?)
      && (current.Some? ==> current.value.WellFormed())
    }

    /** What was returned, followed by what is queued, is the output for the
        tokens pulled so far. */
    ghost predicate Valid()
      reads this
    {
      && StreamOk() && QueueOk()
      && out + Pending() == Output(lookup, input[..consumed])
    }

    constructor (input: seq<Token>, lookup: string -> Option<string>)
      requires AllWellFormed(input)
      ensures Valid()
      ensures this.input == input && this.lookup == lookup && consumed == 0
      ensures tokens == [] && current == None && out == []
    {
      this.lookup := lookup;
      tokens := [];
      current := None;
      this.input := input;
      consumed := 0;
      attrs := Token([], 0, 0, 1, "word");
      out := [];
    }

    /** baseform: queue the base form of the current term, if the dictionary
        has a non-empty one. */
    method Baseform()
      modifies this`tokens
      ensures tokens == old(tokens) + Found(lookup, attrs.term)
    {
      var s := lookup(attrs.term);
      if s.Some? && |s.value| > 0 {
        tokens := tokens + [s.value];
      }
    }

    /** incrementToken: a queued base form comes first, over the captured token
        at increment 0; otherwise the next upstream token is returned unchanged
        and its base form queued, with its state captured when there is one. */
    method IncrementToken() returns (r: bool)
      requires Valid()
      modifies this`tokens, this`current, this`consumed, this`attrs, this`out
      ensures Valid() && input == old(input)
      ensures r ==> out == old(out) + [attrs]
      ensures !r ==> out == old(out)
      // false only when nothing is queued and upstream is exhausted, and then
      // everything has come out
      ensures !r <==> old(tokens) == [] && old(consumed) == |input|
      ensures !r ==> out == Output(lookup, input)
      ensures old(tokens) != [] ==>
                && consumed == old(consumed) && tokens == old(tokens[1..]) && current == old(current)
                && attrs == old(current.value).(term := old(tokens[0]), posInc := 0)
      ensures old(tokens) == [] && old(consumed) < |input| ==>
                && consumed == old(consumed) + 1 && attrs == input[old(consumed)]
                && tokens == Found(lookup, attrs.term)
                && (tokens != [] ==> current == Some(attrs))
                && (tokens == [] ==> current == old(current))
    {
      if tokens != [] {
        PopQueued();
        return true;
      }
      if consumed < |input| {
        PassThrough();
        return true;
      }
      assert input[..consumed] == input;
      return false;
    }

    /** The first queued base form comes out over the captured token. */
    method PopQueued()
      requires Valid() && tokens != []
      modifies this`tokens, this`attrs, this`out
      ensures Valid()
      ensures tokens == old(tokens[1..])
      ensures attrs == old(current.value).(term := old(tokens[0]), posInc := 0)
      ensures out == old(out) + [attrs]
    {
      var token := tokens[0];
      tokens := tokens[1..];
      attrs := current.value.(term := token, posInc := 0);
      out := out + [attrs];
    }

    /** The next upstream token comes out unchanged; its base form is queued. */
    method PassThrough()
      requires Valid() && tokens == [] && consumed < |input|
      modifies this`tokens, this`current, this`consumed, this`attrs, this`out
      ensures Valid()
      ensures consumed == old(consumed) + 1 && attrs == input[old(consumed)]
      ensures tokens == Found(lookup, attrs.term)
      ensures tokens != [] ==> current == Some(attrs)
      ensures tokens == [] ==> current == old(current)
      ensures out == old(out) + [attrs]
    {
      ghost var t := input[consumed];
      ghost var queued := if Found(lookup, t.term) != [] then [Restored(t, lookup(t.term).value)] else [];
      assert out + Pending() == out;
      OutputExtend(lookup, input, consumed, out, queued);
      attrs := input[consumed];
      consumed := consumed + 1;
      Baseform();
      if tokens != [] {
        current := Some(attrs);
      }
      out := out + [attrs];
    }

    /** reset: empty the queue, forget the captured token and start over on
        next. */
    method Reset(next: seq<Token>)
      requires AllWellFormed(next)
      requires Valid()
      modifies this`tokens, this`current, this`input, this`consumed, this`out
      ensures Valid()
      ensures tokens == [] && current == None
      ensures input == next && consumed == 0 && out == [] && attrs == old(attrs)
    {
      tokens := [];
      current := None;
      input := next;
      consumed := 0;
      out := [];
    }
  }
}
