/** `filterValidSubmissions` and `filterInvalidSubmissions`: the order-preserving split of the
    submission list by the error flag, and the proof that it is a partition. */
module Filtering {
  import opened Submissions

  predicate NoErrors(s: Submission) { !s.hasErrors }

  predicate HasErrors(s: Submission) { s.hasErrors }

  /** The submissions without errors, in input order. */
  function FilterValidSubmissions(s: seq<Submission>): (r: seq<Submission>)
    ensures |r| == Count(s, NoErrors)
  {
    if s == [] then []
    else
      var last := s[|s| - 1];
      FilterValidSubmissions(s[..|s| - 1]) + (if last.hasErrors then [] else [last])
  }

  /** The submissions with errors, in input order. */
  function FilterInvalidSubmissions(s: seq<Submission>): (r: seq<Submission>)
    ensures |r| == Count(s, HasErrors)
  {
    if s == [] then []
    else
      var last := s[|s| - 1];
      FilterInvalidSubmissions(s[..|s| - 1]) + (if last.hasErrors then [last] else [])
  }

  /** The valid list holds exactly the submissions without errors, the invalid list exactly
      those with errors. */
  lemma {:induction false} FiltersSelectByErrorFlag(s: seq<Submission>)
    ensures forall x :: x in FilterValidSubmissions(s) <==> x in s && !x.hasErrors
    ensures forall x :: x in FilterInvalidSubmissions(s) <==> x in s && x.hasErrors
  {
    if s != [] {
      var last := s[|s| - 1];
      assert s == s[..|s| - 1] + [last];
      FiltersSelectByErrorFlag(s[..|s| - 1]);
    }
  }

  /** `s` is an interleaving of `a` and `b`: every element of `s` is taken, in order, either
      from the front of `a` or from the front of `b`, and nothing of `a` or `b` is left over. */
  ghost predicate Interleaving(s: seq<Submission>, a: seq<Submission>, b: seq<Submission>)
    decreases |s|
  {
    if s == [] then a == [] && b == []
    else
      var last := s[|s| - 1];
      || (a != [] && a[|a| - 1] == last && Interleaving(s[..|s| - 1], a[..|a| - 1], b))
      || (b != [] && b[|b| - 1] == last && Interleaving(s[..|s| - 1], a, b[..|b| - 1]))
  }

  /** The valid and the invalid lists split the input: each submission lands in exactly one of
      them, and both keep input order. */
  lemma {:induction false} PartitionIsInterleaving(s: seq<Submission>)
    ensures Interleaving(s, FilterValidSubmissions(s), FilterInvalidSubmissions(s))
  {
    if s != [] {
      var init, last := s[..|s| - 1], s[|s| - 1];
      PartitionIsInterleaving(init);
      var a, b := FilterValidSubmissions(s), FilterInvalidSubmissions(s);
      if last.hasErrors {
        assert a == FilterValidSubmissions(init);
        assert b == FilterInvalidSubmissions(init) + [last];
        assert b[..|b| - 1] == FilterInvalidSubmissions(init);
        assert b != [] && b[|b| - 1] == last && Interleaving(init, a, b[..|b| - 1]);
      } else {
        assert a == FilterValidSubmissions(init) + [last];
        assert b == FilterInvalidSubmissions(init);
        assert a[..|a| - 1] == FilterValidSubmissions(init);
        assert a != [] && a[|a| - 1] == last && Interleaving(init, a[..|a| - 1], b);
      }
    }
  }

  /** No submission is both valid and invalid. */
  lemma PartitionIsDisjoint(s: seq<Submission>)
    ensures forall x :: x in FilterValidSubmissions(s) ==> x !in FilterInvalidSubmissions(s)
  {
    FiltersSelectByErrorFlag(s);
  }

  /** An interleaving uses each element exactly once: the two parts together hold the same
      multiset of submissions as the whole. */
  lemma {:induction false} InterleavingIsPermutation(s: seq<Submission>, a: seq<Submission>, b: seq<Submission>)
    requires Interleaving(s, a, b)
    ensures |a| + |b| == |s|
    ensures multiset(a) + multiset(b) == multiset(s)
    decreases |s|
  {
    if s != [] {
      var init, last := s[..|s| - 1], s[|s| - 1];
      MultisetOfLast(s);
      if a != [] && a[|a| - 1] == last && Interleaving(init, a[..|a| - 1], b) {
        InterleavingIsPermutation(init, a[..|a| - 1], b);
        MultisetOfLast(a);
      } else {
        InterleavingIsPermutation(init, a, b[..|b| - 1]);
        MultisetOfLast(b);
      }
    }
  }

  /** A non-empty list holds its last element once more than the rest of it. */
  lemma MultisetOfLast(s: seq<Submission>)
    requires s != []
    ensures multiset(s) == multiset(s[..|s| - 1]) + multiset{s[|s| - 1]}
  {
    assert s == s[..|s| - 1] + [s[|s| - 1]];
  }
}
