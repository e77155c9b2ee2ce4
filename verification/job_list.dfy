/**
 The job list's search box: a non-empty query keeps, in order, the jobs whose
 title or location contains it, ignoring ASCII case.
 */
module JobList {
  import opened Js

  datatype Job = Job(jobListingId: Value, title: string, location: Option<string>, description: Value)

  /** `j.title.toLowerCase().includes(q.toLowerCase()) || j.location?.toLowerCase().includes(...)`. */
  predicate Matches(j: Job, q: string) {
    Contains(Lower(j.title), Lower(q))
    || (j.location.Some? && Contains(Lower(j.location.value), Lower(q)))
  }

  /** xs is an order-preserving subsequence of ys. */
  predicate IsSubsequence<T(==)>(xs: seq<T>, ys: seq<T>)
    decreases |ys|
  {
    if |xs| == 0 then true
    else if |ys| == 0 then false
    else if xs[0] == ys[0] then IsSubsequence(xs[1..], ys[1..])
    else IsSubsequence(xs, ys[1..])
  }

  /** `jobs.filter(j => Matches(j, q))`. */
  function Keep(jobs: seq<Job>, q: string): (r: seq<Job>)
    ensures |r| <= |jobs|
    ensures IsSubsequence(r, jobs)
    ensures forall j :: j in r <==> j in jobs && Matches(j, q)
    ensures forall j :: multiset(r)[j] == if Matches(j, q) then multiset(jobs)[j] else 0
  {
    assert |jobs| > 0 ==> jobs == [jobs[0]] + jobs[1..];
    if |jobs| == 0 then []
    else if Matches(jobs[0], q) then [jobs[0]] + Keep(jobs[1..], q)
    else
      var rest := Keep(jobs[1..], q);
      SkipHeadKeepsSubsequence(rest, jobs);
      rest
  }

  lemma SkipHeadKeepsSubsequence<T>(xs: seq<T>, ys: seq<T>)
    requires |ys| > 0 && IsSubsequence(xs, ys[1..])
    ensures IsSubsequence(xs, ys)
    decreases |ys|, 0
  {
    if |xs| > 0 && xs[0] == ys[0] {
      SubsequenceDropHead(xs, ys[1..]);
    }
  }

  lemma SubsequenceDropHead<T>(xs: seq<T>, ys: seq<T>)
    requires |xs| > 0 && IsSubsequence(xs, ys)
    ensures IsSubsequence(xs[1..], ys)
    decreases |ys|, 1
  {
    if xs[0] == ys[0] {
      if |xs| > 1 {
        SkipHeadKeepsSubsequence(xs[1..], ys);
      }
    } else {
      SubsequenceDropHead(xs, ys[1..]);
      if |xs| > 1 {
        SkipHeadKeepsSubsequence(xs[1..], ys);
      }
    }
  }

  lemma {:induction false} SubsequenceReflexive<T>(xs: seq<T>)
    ensures IsSubsequence(xs, xs)
  {
    if |xs| > 0 {
      SubsequenceReflexive(xs[1..]);
    }
  }

  /** The `filtered` list: all jobs for an empty query, otherwise the matching ones. */
  function Filtered(jobs: seq<Job>, q: string): (r: seq<Job>)
    ensures q == "" ==> r == jobs
    ensures IsSubsequence(r, jobs)
    ensures q != "" ==> forall j :: j in r <==> j in jobs && Matches(j, q)
    ensures q != "" ==> forall j :: multiset(r)[j] == if Matches(j, q) then multiset(jobs)[j] else 0
  {
    if q != "" then Keep(jobs, q)
    else
      SubsequenceReflexive(jobs);
      jobs
  }

  /** The empty query would match every job anyway. */
  lemma EmptyQueryMatchesAll(j: Job)
    ensures Matches(j, "")
  {
    assert OccursAt(Lower(j.title), Lower(""), 0);
  }

  /** The query's case does not matter. */
  lemma QueryCaseIgnored(jobs: seq<Job>, q: string)
    ensures Filtered(jobs, q) == Filtered(jobs, Lower(q))
  {
    LowerIdempotent(q);
    assert q == "" <==> Lower(q) == "";
    KeepSameMatches(jobs, q, Lower(q));
  }

  lemma {:induction false} KeepSameMatches(jobs: seq<Job>, q: string, q': string)
    requires forall j :: Matches(j, q) == Matches(j, q')
    ensures Keep(jobs, q) == Keep(jobs, q')
    decreases |jobs|
  {
    if |jobs| > 0 {
      KeepSameMatches(jobs[1..], q, q');
    }
  }

  /** The case of a job's title and location does not matter either. */
  lemma FieldCaseIgnored(j: Job, q: string)
    ensures Matches(j, q) == Matches(j.(title := Lower(j.title),
                                        location := if j.location.Some? then Some(Lower(j.location.value)) else None), q)
  {
    LowerIdempotent(j.title);
    if j.location.Some? {
      LowerIdempotent(j.location.value);
    }
  }

  /** A job without a location can only match through its title. */
  lemma NoLocationTitleOnly(j: Job, q: string)
    requires j.location.None?
    ensures Matches(j, q) <==> Contains(Lower(j.title), Lower(q))
  {
  }
}
