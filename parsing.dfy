/** What the parse loop of `parseSubmissions` and the basecode check of
    `parseBaseCodeSubmission` do to each submission, as functions of the submission's state before
    parsing, the options and the language front end's `Submission.parse`. */
module Parsing {
  import opened Wrappers
  import opened Submissions
  import opened Filtering

  /** The two options the ingestion step reads from `JPlagOptions`. */
  datatype Options = Options(minimumTokenMatch: int, debugParser: bool)

  /** What one call of `Submission.parse(debug)` returns (`ok`) and the token list and error flag
      it leaves on the submission. */
  datatype ParseOutcome = ParseOutcome(ok: bool, tokenList: Option<seq<Token>>, erroneous: bool)

  /** The language front end, given as a function of the submission and the debug flag. */
  type Parser = (Submission, bool) -> ParseOutcome

  /** Why the basecode makes construction fail (the two `BasecodeException`s). */
  datatype BasecodeError = ParseFailed | TooFewTokens

  /** The submission right after `Submission.parse`, before the length check. */
  function Parsed(s: Submission, parse: Parser, debug: bool): (r: Submission)
    ensures r.name == s.name
  {
    var o := parse(s, debug);
    s.(tokenList := o.tokenList, hasErrors := o.erroneous)
  }

  /** `parse` returned false: the submission counts as a parser error. */
  predicate ParseFails(s: Submission, parse: Parser, options: Options)
  {
    !parse(s, options.debugParser).ok
  }

  /** The guard of the length check: a token list is present and shorter than the minimum. */
  predicate TooShort(s: Submission, minimumTokenMatch: int)
  {
    s.tokenList.Some? && |s.tokenList.value| < minimumTokenMatch
  }

  /** The submission parsed to a token list that is too short and is demoted. */
  predicate Demoted(s: Submission, parse: Parser, options: Options)
  {
    TooShort(Parsed(s, parse, options.debugParser), options.minimumTokenMatch)
  }

  /** One iteration of the parse loop: parse, then discard a too-short token list and mark the
      submission erroneous. */
  function ParseOne(s: Submission, parse: Parser, options: Options): (r: Submission)
    ensures r.name == s.name
    ensures r.tokenList.Some? ==> |r.tokenList.value| >= options.minimumTokenMatch
  {
    var p := Parsed(s, parse, options.debugParser);
    if TooShort(p, options.minimumTokenMatch) then p.(tokenList := None, hasErrors := true) else p
  }

  /** The loop keeps the submission's name, never keeps a token list shorter than the minimum,
      demotes exactly the submissions whose parsed token list is too short, and leaves every
      other submission as `parse` left it. */
  lemma ParseOneDemotesTooShort(s: Submission, parse: Parser, options: Options)
    ensures ParseOne(s, parse, options).name == s.name
    ensures ParseOne(s, parse, options).tokenList.Some? ==>
      |ParseOne(s, parse, options).tokenList.value| >= options.minimumTokenMatch
    ensures Demoted(s, parse, options) ==>
      ParseOne(s, parse, options).tokenList.None? && ParseOne(s, parse, options).hasErrors
    ensures !Demoted(s, parse, options) ==> ParseOne(s, parse, options) == Parsed(s, parse, options.debugParser)
  {
  }

  /** The whole submission list after the parse loop: every entry is processed in place, on its
      own. */
  function ParsedAll(s: seq<Submission>, parse: Parser, options: Options): (r: seq<Submission>)
    ensures |r| == |s|
  {
    seq(|s|, i requires 0 <= i < |s| => ParseOne(s[i], parse, options))
  }

  /** After the loop the list has the same names in the same order, no entry holds a token list
      shorter than the minimum, and every demoted entry has lost its token list and is marked
      erroneous. */
  lemma ParsedAllDemotesTooShort(s: seq<Submission>, parse: Parser, options: Options)
    ensures Names(ParsedAll(s, parse, options)) == Names(s)
    ensures forall x :: x in ParsedAll(s, parse, options) && x.tokenList.Some? ==>
      |x.tokenList.value| >= options.minimumTokenMatch
    ensures forall i :: 0 <= i < |s| && Demoted(s[i], parse, options) ==>
      ParsedAll(s, parse, options)[i].tokenList.None? && ParsedAll(s, parse, options)[i].hasErrors
  {
    var r := ParsedAll(s, parse, options);
    forall i | 0 <= i < |s|
      ensures r[i].name == s[i].name
      ensures r[i].tokenList.Some? ==> |r[i].tokenList.value| >= options.minimumTokenMatch
      ensures Demoted(s[i], parse, options) ==> r[i].tokenList.None? && r[i].hasErrors
    {
      ParseOneDemotesTooShort(s[i], parse, options);
    }
  }

  /** A list that holds, entry by entry, the processed entries of `s` is `ParsedAll(s)`. */
  lemma ParsedAllPointwise(s: seq<Submission>, r: seq<Submission>, parse: Parser, options: Options)
    requires |r| == |s|
    requires forall k :: 0 <= k < |s| ==> r[k] == ParseOne(s[k], parse, options)
    ensures r == ParsedAll(s, parse, options)
  {
  }

  /** Processing a list is processing its parts: no entry's outcome depends on another entry. */
  lemma ParsedAllAppend(s: seq<Submission>, t: seq<Submission>, parse: Parser, options: Options)
    ensures ParsedAll(s + t, parse, options) == ParsedAll(s, parse, options) + ParsedAll(t, parse, options)
  {
  }

  /** The number of parser errors the loop adds to `errors`. */
  function Failures(s: seq<Submission>, parse: Parser, options: Options): (n: nat)
    ensures n <= |s|
  {
    Count(s, x => ParseFails(x, parse, options))
  }

  /** The loop's `tooShort` count. */
  function TooShortCount(s: seq<Submission>, parse: Parser, options: Options): (n: nat)
    ensures n <= |s|
  {
    Count(s, x => Demoted(x, parse, options))
  }

  /** The loop's two counters over a prefix one entry longer. */
  lemma CountersStep(s: seq<Submission>, i: nat, parse: Parser, options: Options)
    requires i < |s|
    ensures Failures(s[..i + 1], parse, options)
         == Failures(s[..i], parse, options) + (if ParseFails(s[i], parse, options) then 1 else 0)
    ensures TooShortCount(s[..i + 1], parse, options)
         == TooShortCount(s[..i], parse, options) + (if Demoted(s[i], parse, options) then 1 else 0)
  {
    assert s[..i + 1][..i] == s[..i];
  }

  /** A submission demoted for length is on the invalid list and never on the valid one. */
  lemma DemotedIsInvalid(s: seq<Submission>, parse: Parser, options: Options, i: nat)
    requires i < |s| && Demoted(s[i], parse, options)
    ensures ParsedAll(s, parse, options)[i] in FilterInvalidSubmissions(ParsedAll(s, parse, options))
    ensures ParsedAll(s, parse, options)[i] !in FilterValidSubmissions(ParsedAll(s, parse, options))
  {
    ParsedAllDemotesTooShort(s, parse, options);
    FiltersSelectByErrorFlag(ParsedAll(s, parse, options));
  }

  /** What the reported count of valid submissions relies on from `Submission.parse`: a failed
      parse leaves no token list and marks the submission erroneous, a successful one does not
      mark it. */
  ghost predicate WellBehaved(s: seq<Submission>, parse: Parser, options: Options)
  {
    forall x :: x in s ==>
      var o := parse(x, options.debugParser);
      (!o.ok ==> o.tokenList.None? && o.erroneous) && (o.ok ==> !o.erroneous)
  }

  /** The number printed as "submissions parsed successfully": size minus parser errors minus
      too-short submissions. It never exceeds the size, and it can fall below zero by at most
      the size, when every submission is counted twice. */
  function ReportedValid(s: seq<Submission>, parse: Parser, options: Options): (r: int)
    ensures -|s| <= r <= |s|
  {
    |s| - Failures(s, parse, options) - TooShortCount(s, parse, options)
  }

  /** Processing a non-empty list is processing all but its last entry, then the last. */
  lemma ParsedAllSnoc(s: seq<Submission>, parse: Parser, options: Options)
    requires s != []
    ensures ParsedAll(s, parse, options)
         == ParsedAll(s[..|s| - 1], parse, options) + [ParseOne(s[|s| - 1], parse, options)]
  {
  }

  /** With a well-behaved parser every submission is exactly one of: a parser error, too short,
      or valid after the loop. */
  lemma OneOutcomeEach(x: Submission, parse: Parser, options: Options)
    requires WellBehaved([x], parse, options)
    ensures (if ParseFails(x, parse, options) then 1 else 0)
          + (if Demoted(x, parse, options) then 1 else 0)
          + (if ParseOne(x, parse, options).hasErrors then 0 else 1) == 1
  {
    assert x in [x];
  }

  /** With a well-behaved parser the reported count is the length of the valid list. */
  lemma {:induction false} ReportedValidIsValidCount(s: seq<Submission>, parse: Parser, options: Options)
    requires WellBehaved(s, parse, options)
    ensures ReportedValid(s, parse, options) == |FilterValidSubmissions(ParsedAll(s, parse, options))|
  {
    if s != [] {
      var init, last := s[..|s| - 1], s[|s| - 1];
      assert WellBehaved(init, parse, options) by {
        forall x | x in init ensures x in s {}
      }
      assert WellBehaved([last], parse, options) by {
        assert last in s;
      }
      ReportedValidIsValidCount(init, parse, options);
      OneOutcomeEach(last, parse, options);
      ParsedAllSnoc(s, parse, options);
      var r := ParsedAll(s, parse, options);
      assert r[..|r| - 1] == ParsedAll(init, parse, options);
      assert r[|r| - 1] == ParseOne(last, parse, options);
    }
  }

  /** Without that assumption the count can be off: a parse that fails yet leaves a too-short
      token list is counted both as a parser error and as too short. */
  lemma ReportedValidNeedsWellBehavedParser()
    ensures var s := [Submission("a", None, false)];
            var parse: Parser := (x, debug) => ParseOutcome(false, Some([]), true);
            var options := Options(1, false);
            ReportedValid(s, parse, options) == -1 &&
            |FilterValidSubmissions(ParsedAll(s, parse, options))| == 0
  {
  }

  /** `parseBaseCodeSubmission`: a basecode that fails to parse, or that has fewer tokens than the
      minimum, is fatal. */
  function CheckBaseCode(b: Submission, parse: Parser, options: Options): (r: Outcome<BasecodeError>)
    ensures r == Fail(ParseFailed) <==> !parse(b, options.debugParser).ok
    ensures r == Fail(TooFewTokens) <==>
      parse(b, options.debugParser).ok && NumberOfTokens(Parsed(b, parse, options.debugParser)) < options.minimumTokenMatch
    ensures r == Pass <==>
      parse(b, options.debugParser).ok && NumberOfTokens(Parsed(b, parse, options.debugParser)) >= options.minimumTokenMatch
  {
    var o := parse(b, options.debugParser);
    if !o.ok then Fail(ParseFailed)
    else if NumberOfTokens(Parsed(b, parse, options.debugParser)) < options.minimumTokenMatch then Fail(TooFewTokens)
    else Pass
  }
}
