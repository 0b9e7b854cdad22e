/** The part of a JPlag submission that the ingestion step reads and writes. */
module Submissions {
  import opened Wrappers

  /** A token produced by a language front end; only its semantic category is kept. */
  datatype Token = Token(category: nat)

  /** One submission: its name, its token list (`None` is a `null` list, i.e. not parsed or
      discarded) and its error flag (`hasErrors`, set by `markAsErroneous`). */
  datatype Submission = Submission(name: string, tokenList: Option<seq<Token>>, hasErrors: bool)

  /** `getNumberOfTokens`: the length of the token list, 0 when there is none. */
  function NumberOfTokens(s: Submission): nat
  {
    if s.tokenList.Some? then |s.tokenList.value| else 0
  }

  /** The names of a list of submissions, in list order. */
  function Names(s: seq<Submission>): seq<string>
  {
    seq(|s|, i requires 0 <= i < |s| => s[i].name)
  }

  /** The names of a prefix one entry longer. */
  lemma NamesStep(s: seq<Submission>, i: nat)
    requires i < |s|
    ensures Names(s[..i + 1]) == Names(s[..i]) + [s[i].name]
  {
  }

  /** The number of elements of `s` that satisfy `p`. */
  function Count<T>(s: seq<T>, p: T -> bool): (n: nat)
    ensures n <= |s|
  {
    if s == [] then 0
    else Count(s[..|s| - 1], p) + (if p(s[|s| - 1]) then 1 else 0)
  }
}
