/** The token record shared by the three filters: the attributes a filter reads
    from its upstream stream and writes for its own consumer. */
module Tokens {

  datatype Option<+T> = None | Some(value: T)

  /** One token: its text, character offsets into the original text, position
      increment and type tag. */
  datatype Token = Token(term: string, startOffset: int, endOffset: int, posInc: int, tokenType: string)
  {
    /** What the attribute setters accept: offsets non-negative and not reversed,
        position increment non-negative. */
    predicate WellFormed() {
      0 <= startOffset <= endOffset && posInc >= 0
    }
  }

  /** Every token of an upstream sequence is well formed. */
  predicate AllWellFormed(s: seq<Token>) {
    forall i :: 0 <= i < |s| ==> s[i].WellFormed()
  }

  function Max(a: int, b: int): int {
    if a < b then b else a
  }
}
