/** `SubmissionSet`: all submissions and the optional basecode. Creating one parses every
    submission, then the basecode, and splits the submissions into valid and invalid ones. */
module SubmissionSets {
  import opened Wrappers
  import opened Submissions
  import opened Filtering
  import opened Parsing

  /** The three numbers `parseSubmissions` reports after its loop. */
  datatype ParseSummary = ParseSummary(validSubmissions: int, parserErrors: int, tooShort: nat)

  class SubmissionSet {
    /** The submissions to check, in input order. */
    var allSubmissions: seq<Submission>
    /** The valid submissions (`submissions` in the source) and the invalid ones. */
    var submissions: seq<Submission>
    var invalidSubmissions: seq<Submission>
    /** The basecode, if there is one. */
    var baseCodeSubmission: Option<Submission>
    /** The basecode as it was given to the constructor. */
    const givenBaseCode: Option<Submission>

    const options: Options
    /** The language front end's `Submission.parse`. */
    const parse: Parser

    /** The running count of parser errors. */
    var errors: nat
    /** The name of the submission being parsed, reported on an out-of-memory failure. */
    var currentSubmissionName: Option<string>
    /** The names of the submissions handed to `parse`, in the order of the calls. */
    ghost var parseOrder: seq<string>

    /** The state once construction has finished: the two lists split `allSubmissions`, so
        together they are exactly as long as it. */
    predicate Partitioned()
      reads this
      ensures Partitioned() ==> |submissions| + |invalidSubmissions| == |allSubmissions|
    {
      PartitionIsInterleaving(allSubmissions);
      InterleavingIsPermutation(allSubmissions, FilterValidSubmissions(allSubmissions), FilterInvalidSubmissions(allSubmissions));
      submissions == FilterValidSubmissions(allSubmissions) &&
      invalidSubmissions == FilterInvalidSubmissions(allSubmissions)
    }

    /** The stored basecode is present exactly when one was given, and it is that submission
        (parsing keeps its name). */
    predicate BaseCodeKept()
      reads this
    {
      match (baseCodeSubmission, givenBaseCode)
      case (None, None) => true
      case (Some(b), Some(g)) => b.name == g.name
      case _ => false
    }

    /** The field assignments at the start of the Java constructor, before any parsing. */
    constructor Init(submissions: seq<Submission>, baseCode: Option<Submission>, options: Options, parse: Parser)
      ensures allSubmissions == submissions && baseCodeSubmission == baseCode && givenBaseCode == baseCode
      ensures BaseCodeKept()
      ensures this.options == options && this.parse == parse
      ensures this.submissions == [] && invalidSubmissions == []
      ensures errors == 0 && currentSubmissionName == None && parseOrder == []
    {
      allSubmissions := submissions;
      baseCodeSubmission := baseCode;
      givenBaseCode := baseCode;
      this.options := options;
      this.parse := parse;
      this.submissions := [];
      invalidSubmissions := [];
      errors := 0;
      currentSubmissionName := None;
      parseOrder := [];
    }

    /** Whether a basecode was given to the constructor. */
    function HasBaseCode(): (r: bool)
      reads this
      requires BaseCodeKept()
      ensures r <==> givenBaseCode.Some?
    {
      baseCodeSubmission.Some?
    }

    /** Asking for a basecode that does not exist is a usage error. */
    function GetBaseCode(): (b: Submission)
      reads this
      requires BaseCodeKept() && HasBaseCode()
      ensures baseCodeSubmission == Some(b)
      ensures b.name == givenBaseCode.value.name
    {
      baseCodeSubmission.value
    }

    /** The number of valid submissions: those in `allSubmissions` without errors. */
    function NumberOfSubmissions(): (n: nat)
      reads this
      requires Partitioned()
      ensures n == Count(allSubmissions, NoErrors)
    {
      |submissions|
    }

    /** The body of the parse loop for the entry at index `i`: parse it, count a parser error,
        and discard a token list shorter than the minimum, marking the submission erroneous. */
    method ParseSubmission(i: nat) returns (tooShort: bool)
      requires i < |allSubmissions|
      modifies this`allSubmissions, this`errors, this`currentSubmissionName, this`parseOrder
      ensures allSubmissions == old(allSubmissions)[i := ParseOne(old(allSubmissions)[i], parse, options)]
      ensures errors == old(errors) + if ParseFails(old(allSubmissions)[i], parse, options) then 1 else 0
      ensures tooShort == Demoted(old(allSubmissions)[i], parse, options)
      ensures currentSubmissionName == Some(old(allSubmissions)[i].name)
      ensures parseOrder == old(parseOrder) + [old(allSubmissions)[i].name]
    {
      var submission := allSubmissions[i];
      currentSubmissionName := Some(submission.name);
      parseOrder := parseOrder + [submission.name];
      var ok := parse(submission, options.debugParser).ok;
      submission := Parsed(submission, parse, options.debugParser);
      if !ok {
        errors := errors + 1;
      }
      tooShort := false;
      if submission.tokenList.Some? && |submission.tokenList.value| < options.minimumTokenMatch {
        submission := submission.(tokenList := None);
        tooShort := true;
        submission := submission.(hasErrors := true);
      }
      allSubmissions := allSubmissions[i := submission];
    }

    /** The parse loop: every submission is parsed in list order and updated in place. Returns
        the number of submissions demoted for having too few tokens. */
    method ParseEachSubmission() returns (tooShort: nat)
      requires allSubmissions != []
      modifies this`allSubmissions, this`errors, this`currentSubmissionName, this`parseOrder
      ensures allSubmissions == ParsedAll(old(allSubmissions), parse, options)
      ensures errors == old(errors) + Failures(old(allSubmissions), parse, options)
      ensures tooShort == TooShortCount(old(allSubmissions), parse, options)
      ensures parseOrder == old(parseOrder) + Names(old(allSubmissions))
      ensures currentSubmissionName == Some(old(allSubmissions)[|old(allSubmissions)| - 1].name)
    {
      ghost var initial := allSubmissions;
      var n := |allSubmissions|;
      tooShort := 0;
      for i := 0 to n
        invariant |allSubmissions| == n
        invariant forall k :: 0 <= k < i ==> allSubmissions[k] == ParseOne(initial[k], parse, options)
        invariant forall k :: i <= k < n ==> allSubmissions[k] == initial[k]
        invariant errors == old(errors) + Failures(initial[..i], parse, options)
        invariant tooShort == TooShortCount(initial[..i], parse, options)
        invariant parseOrder == old(parseOrder) + Names(initial[..i])
        invariant i > 0 ==> currentSubmissionName == Some(initial[i - 1].name)
      {
        var demoted := ParseSubmission(i);
        if demoted {
          tooShort := tooShort + 1;
        }
        CountersStep(initial, i, parse, options);
        NamesStep(initial, i);
      }
      assert initial[..n] == initial;
      ParsedAllPointwise(initial, allSubmissions, parse, options);
    }

    /** `parseSubmissions`: an empty list is left alone and reports nothing; otherwise the loop
        runs and the numbers of valid submissions, parser errors and too-short submissions are
        reported. */
    method ParseSubmissions() returns (summary: Option<ParseSummary>)
      modifies this
      ensures allSubmissions == ParsedAll(old(allSubmissions), parse, options)
      ensures errors == old(errors) + Failures(old(allSubmissions), parse, options)
      ensures parseOrder == old(parseOrder) + Names(old(allSubmissions))
      ensures old(allSubmissions) == [] ==> summary == None && currentSubmissionName == old(currentSubmissionName)
      ensures old(allSubmissions) != [] ==>
        && currentSubmissionName == Some(old(allSubmissions)[|old(allSubmissions)| - 1].name)
        && var tooShort := TooShortCount(old(allSubmissions), parse, options);
           summary == Some(ParseSummary(|old(allSubmissions)| - errors - tooShort, errors, tooShort))
      ensures old(errors) == 0 && old(allSubmissions) != [] ==>
        summary.Some? && summary.value.validSubmissions == ReportedValid(old(allSubmissions), parse, options)
      ensures baseCodeSubmission == old(baseCodeSubmission)
      ensures submissions == old(submissions) && invalidSubmissions == old(invalidSubmissions)
    {
      if allSubmissions == [] {
        return None;
      }
      var n := |allSubmissions|;
      var tooShort := ParseEachSubmission();
      summary := Some(ParseSummary(n - errors - tooShort, errors, tooShort));
    }

    /** Parses the basecode; a parse failure or too few tokens is fatal. */
    method ParseBaseCodeSubmission() returns (outcome: Outcome<BasecodeError>)
      requires baseCodeSubmission.Some?
      modifies this
      ensures baseCodeSubmission == Some(Parsed(old(baseCodeSubmission).value, parse, options.debugParser))
      ensures outcome == CheckBaseCode(old(baseCodeSubmission).value, parse, options)
      ensures parseOrder == old(parseOrder) + [old(baseCodeSubmission).value.name]
      ensures allSubmissions == old(allSubmissions) && errors == old(errors)
      ensures currentSubmissionName == old(currentSubmissionName)
      ensures submissions == old(submissions) && invalidSubmissions == old(invalidSubmissions)
    {
      var baseCode := baseCodeSubmission.value;
      parseOrder := parseOrder + [baseCode.name];
      var ok := parse(baseCode, options.debugParser).ok;
      baseCode := Parsed(baseCode, parse, options.debugParser);
      baseCodeSubmission := Some(baseCode);
      if !ok {
        return Fail(ParseFailed);
      } else if NumberOfTokens(baseCode) < options.minimumTokenMatch {
        return Fail(TooFewTokens);
      }
      return Pass;
    }

    /** Parses all submissions first and the basecode, if any, second. */
    method ParseAllSubmissions() returns (outcome: Outcome<BasecodeError>)
      modifies this
      ensures allSubmissions == ParsedAll(old(allSubmissions), parse, options)
      ensures errors == old(errors) + Failures(old(allSubmissions), parse, options)
      ensures old(baseCodeSubmission).None? ==> outcome == Pass && baseCodeSubmission == None
      ensures old(baseCodeSubmission).Some? ==>
        && outcome == CheckBaseCode(old(baseCodeSubmission).value, parse, options)
        && baseCodeSubmission == Some(Parsed(old(baseCodeSubmission).value, parse, options.debugParser))
      ensures parseOrder == old(parseOrder) + Names(old(allSubmissions)) +
        (if old(baseCodeSubmission).Some? then [old(baseCodeSubmission).value.name] else [])
      ensures currentSubmissionName ==
        if old(allSubmissions) == [] then old(currentSubmissionName)
        else Some(old(allSubmissions)[|old(allSubmissions)| - 1].name)
      ensures old(BaseCodeKept()) ==> BaseCodeKept()
      ensures submissions == old(submissions) && invalidSubmissions == old(invalidSubmissions)
    {
      var _ := ParseSubmissions();
      outcome := Pass;
      if baseCodeSubmission.Some? {
        outcome := ParseBaseCodeSubmission();
      }
    }
  }

  /** The Java constructor: parse everything, then split the submissions. A fatal basecode error
      means no submission set is created. */
  method NewSubmissionSet(submissions: seq<Submission>, baseCode: Option<Submission>, options: Options, parse: Parser)
    returns (r: Result<SubmissionSet, BasecodeError>)
    ensures baseCode.None? ==> r.Success?
    ensures baseCode.Some? ==>
      match CheckBaseCode(baseCode.value, parse, options)
      case Pass => r.Success?
      case Fail(e) => r == Failure(e)
    ensures r.Success? ==>
      && fresh(r.value)
      && r.value.Partitioned()
      && r.value.allSubmissions == ParsedAll(submissions, parse, options)
      && r.value.errors == Failures(submissions, parse, options)
      && r.value.options == options && r.value.parse == parse
      && r.value.BaseCodeKept()
      && (r.value.HasBaseCode() <==> baseCode.Some?)
      && (baseCode.Some? ==> r.value.GetBaseCode() == Parsed(baseCode.value, parse, options.debugParser))
      && r.value.parseOrder == Names(submissions) + (if baseCode.Some? then [baseCode.value.name] else [])
      && r.value.currentSubmissionName == (if submissions == [] then None else Some(submissions[|submissions| - 1].name))
  {
    var result := new SubmissionSet.Init(submissions, baseCode, options, parse);
    var outcome := result.ParseAllSubmissions();
    if outcome.Fail? {
      return Failure(outcome.error);
    }
    result.submissions := FilterValidSubmissions(result.allSubmissions);
    result.invalidSubmissions := FilterInvalidSubmissions(result.allSubmissions);
    return Success(result);
  }
}
