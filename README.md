# JPlag submission ingestion, modelled in Dafny

This project models the ingestion step of the JPlag plagiarism detector, as implemented by
`SubmissionSet` (`jplag/src/main/java/de/jplag/SubmissionSet.java`). Creating a submission set
does four things. It parses every submission in input order. It counts parser errors. It demotes
each submission whose token list is shorter than the minimum match length: the token list is
dropped, the submission is marked erroneous, and it is counted as "too short". Then it parses the
optional basecode, and a failure there is fatal. Finally it splits the submissions, keeping input
order, into the valid list (no errors) and the invalid list (errors).

Files:

- `wrappers.dfy`: `Option`, `Outcome` and `Result`. `Option` stands for Java `null`; `Outcome`
  and `Result` stand for thrown exceptions.
- `submissions.dfy`: the `Submission` value (name, token list, error flag), `NumberOfTokens`,
  `Names` and a generic `Count`.
- `filtering.dfy`: `filterValidSubmissions` and `filterInvalidSubmissions` as functions over a
  sequence, with the proof that they partition the input.
- `parsing.dfy`: the specification of the parse loop and of the basecode check. It gives what
  happens to one submission (`ParseOne`) and to the whole list (`ParsedAll`), the two counters
  (`Failures`, `TooShortCount`), the reported valid count (`ReportedValid`) and the basecode
  verdict (`CheckBaseCode`).
- `submission_set.dfy`: the class `SubmissionSet`, whose fields are updated in place. Its
  parsing methods are proved against the functions of `parsing.dfy`. `NewSubmissionSet` plays the
  role of the Java constructor, which may throw.

`Submission.parse` is not part of this model. It is a parameter `parse` of type
`(Submission, bool) -> ParseOutcome`. Given the submission's state before parsing and the
debug-parser flag, it says what `parse` returns and which token list and error flag it leaves on
the submission.

The code parses all submissions first and the basecode second (`SubmissionSet.java:101-103`), so
a fatal basecode error is raised only after every submission has been parsed. The ghost field
`parseOrder` records the order of the `parse` calls, and `ParseAllSubmissions` and
`NewSubmissionSet` state it.

`Submission.getNumberOfTokens` is not part of this model. It is taken to be 0 when there is no
token list. This matters only for a basecode whose `parse` returns true but leaves no tokens.

## Model

| member | source | states |
|---|---|---|
| `Filtering.FilterValidSubmissions` | jplag/src/main/java/de/jplag/SubmissionSet.java:91-93 | the valid list has as many entries as the input has submissions without errors |
| `Filtering.FilterInvalidSubmissions` | jplag/src/main/java/de/jplag/SubmissionSet.java:95-97 | the invalid list has as many entries as the input has submissions with errors |
| `Filtering.FiltersSelectByErrorFlag` | jplag/src/main/java/de/jplag/SubmissionSet.java:91-97 | a submission is on the valid list iff it is in the input and has no errors; it is on the invalid list iff it is in the input and has errors |
| `Filtering.PartitionIsInterleaving` | jplag/src/main/java/de/jplag/SubmissionSet.java:44-45 | the input is an interleaving of the valid and invalid lists: each input entry goes, in input order, to exactly one of them |
| `Filtering.PartitionIsDisjoint` | jplag/src/main/java/de/jplag/SubmissionSet.java:92-96 | no submission is on both lists |
| `Filtering.InterleavingIsPermutation` | jplag/src/main/java/de/jplag/SubmissionSet.java:91-97 | the two parts of an interleaving together hold exactly the input's submissions (same multiset), and their lengths add up to the input's length |
| `Parsing.Parsed` | jplag/src/main/java/de/jplag/SubmissionSet.java:150 | parsing keeps the submission's identity (name) and changes only its token list and error flag |
| `Parsing.ParseOne` | jplag/src/main/java/de/jplag/SubmissionSet.java:150-160 | one loop iteration keeps the submission's name and leaves no token list shorter than the minimum match length |
| `Parsing.ParseOneDemotesTooShort` | jplag/src/main/java/de/jplag/SubmissionSet.java:150-160 | after one iteration the name is kept; no token list shorter than the minimum survives; a too-short submission loses its token list and is marked erroneous; any other submission is left as `parse` left it |
| `Parsing.ParsedAll` | jplag/src/main/java/de/jplag/SubmissionSet.java:143-167 | the loop neither adds nor removes entries |
| `Parsing.ParsedAllDemotesTooShort` | jplag/src/main/java/de/jplag/SubmissionSet.java:143-167 | after the loop the names are the same and in the same order; no entry holds a token list shorter than the minimum; every demoted entry has no token list and is erroneous |
| `Parsing.ParsedAllAppend` | jplag/src/main/java/de/jplag/SubmissionSet.java:143-167 | each entry's outcome depends only on that entry: processing `s + t` is processing `s`, then `t` |
| `Parsing.DemotedIsInvalid` | jplag/src/main/java/de/jplag/SubmissionSet.java:154-160 | a submission demoted for length ends on the invalid list and never on the valid one |
| `Parsing.Failures` | jplag/src/main/java/de/jplag/SubmissionSet.java:150-152 | the number of parser errors the loop counts is at most the number of submissions |
| `Parsing.TooShortCount` | jplag/src/main/java/de/jplag/SubmissionSet.java:154-157 | the number of too-short submissions the loop counts is at most the number of submissions |
| `Parsing.ReportedValid` | jplag/src/main/java/de/jplag/SubmissionSet.java:169 | the reported valid count, size minus parser errors minus too-short submissions, is at most the size and at least minus the size |
| `Parsing.OneOutcomeEach` | jplag/src/main/java/de/jplag/SubmissionSet.java:150-160 | with a well-behaved parser, each submission is exactly one of: parser error, too short, valid |
| `Parsing.ReportedValidIsValidCount` | jplag/src/main/java/de/jplag/SubmissionSet.java:169 | assume a failed parse leaves no token list and marks the submission erroneous, and a successful parse does not mark it; then size minus parser errors minus too-short submissions is the valid list's length |
| `Parsing.ReportedValidNeedsWellBehavedParser` | jplag/src/main/java/de/jplag/SubmissionSet.java:150-169 | without that assumption the reported count can be wrong: a failed parse that leaves a too-short token list is counted twice, and the report says -1 while no submission is valid |
| `Parsing.CheckBaseCode` | jplag/src/main/java/de/jplag/SubmissionSet.java:119-124 | the basecode fails with a parse error iff `parse` returns false; it fails with too few tokens iff it parsed but has fewer tokens than the minimum; otherwise it passes |
| `SubmissionSets.SubmissionSet.Init` | jplag/src/main/java/de/jplag/SubmissionSet.java:37-42 | the fields hold the given submissions, basecode and options; `errors` is 0; nothing is parsed yet |
| `SubmissionSets.SubmissionSet.Partitioned` | jplag/src/main/java/de/jplag/SubmissionSet.java:44-45 | the state after construction: the valid and invalid lists are the two filters of `allSubmissions`, so their lengths add up to its length |
| `SubmissionSets.SubmissionSet.HasBaseCode` | jplag/src/main/java/de/jplag/SubmissionSet.java:51-53 | while the stored basecode is the one given to the constructor (`BaseCodeKept`, which parsing preserves), true iff a basecode was given |
| `SubmissionSets.SubmissionSet.GetBaseCode` | jplag/src/main/java/de/jplag/SubmissionSet.java:61-66 | callable only when a basecode is present (the `AssertionError` becomes a precondition); returns the stored basecode, which carries the name of the basecode given to the constructor |
| `SubmissionSets.SubmissionSet.NumberOfSubmissions` | jplag/src/main/java/de/jplag/SubmissionSet.java:71-73 | on a constructed set, the number of submissions in `allSubmissions` without errors |
| `SubmissionSets.SubmissionSet.ParseSubmission` | jplag/src/main/java/de/jplag/SubmissionSet.java:144-166 | one loop iteration changes only entry `i`, which becomes `ParseOne` of it; it adds 1 to `errors` iff `parse` returned false; it reports whether the entry was demoted; it records the entry's name as the current submission and as the next parse call |
| `SubmissionSets.SubmissionSet.ParseEachSubmission` | jplag/src/main/java/de/jplag/SubmissionSet.java:142-167 | after the loop the list is `ParsedAll` of the old list; `errors` has grown by the number of failed parses; the returned `tooShort` is the number of demoted submissions; parse calls happened in list order; the current name is the last submission's |
| `SubmissionSets.SubmissionSet.ParseSubmissions` | jplag/src/main/java/de/jplag/SubmissionSet.java:134-175 | an empty list changes nothing and reports nothing; otherwise it runs the loop and reports valid = size - errors - tooShort, then errors, then tooShort; the basecode and the two lists are untouched; starting from zero errors, the reported valid count is `ReportedValid` of the old list |
| `SubmissionSets.SubmissionSet.ParseBaseCodeSubmission` | jplag/src/main/java/de/jplag/SubmissionSet.java:116-129 | parses the basecode (only the basecode changes) and fails exactly as `CheckBaseCode` says |
| `SubmissionSets.SubmissionSet.ParseAllSubmissions` | jplag/src/main/java/de/jplag/SubmissionSet.java:99-111 | parses every submission, then the basecode if there is one; the outcome is the basecode verdict; the parse calls are the submissions in order, followed by the basecode; the current submission name is the last submission's, or unchanged when there are none; `BaseCodeKept` is preserved |
| `SubmissionSets.NewSubmissionSet` | jplag/src/main/java/de/jplag/SubmissionSet.java:37-46 | construction fails with the basecode's error exactly when a basecode is present and fails `CheckBaseCode`. Otherwise it returns a fresh set in which the valid and invalid lists split the parsed submissions, `errors` is the number of failed parses, `HasBaseCode` holds iff a basecode was given, `GetBaseCode` is that basecode after parsing, the basecode was parsed after every submission, and the current submission name is the last submission's (none when there are no submissions) |

## Left out

- Logging: every `ErrorCollector` call (`print`, `addError`, `printCollectedErrors`, `hasErrors`, `setCurrentSubmissionName`) and all message text, including the plural suffixes and `printDetails`. This is output only. The three numbers that `parseSubmissions` prints are returned as a `ParseSummary`.
- Timing: `System.currentTimeMillis` and `TimeUtil.formatDuration`. These read a clock and produce output only.
- The `OutOfMemoryError` catch and its `SubmissionException` (`SubmissionSet.java:105-107`). This is a JVM resource condition. The field `currentSubmissionName`, which that message would use, is still modelled.
- `Submission.parse`, `getNumberOfTokens`, `setTokenList` and `markAsErroneous`: `Submission` is not part of this model. `parse` is an abstract parameter. Setting and marking are record updates on the `Submission` value.
- Object identity and aliasing: Java submissions are objects mutated in place, and the returned lists are live views (`getSubmissions`, `getInvalidSubmissions`, `SubmissionSet.java:75-89`). In the model, submissions are values, and the loop replaces the entry at index `i` in `allSubmissions`. So two list entries that are the same Java object are not modelled, and neither is the basecode being one of the submissions. The failed constructor does not return the mutated submissions, but `ParseAllSubmissions` states the submissions' state at the point of failure.
- `errors` and the reported counts are unbounded integers: 32-bit overflow of Java `int` is not modelled.
- `minimumTokenMatch` is taken as given. Its validation in `JPlagOptions` is not part of this model.
