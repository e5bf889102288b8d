/** Counting issues exactly while keeping only the first samples of each. */
module IssueLogs {
  import opened MetadataModel
  import opened SharedArns

  function SamplesFor(samples: map<Issue, seq<Sample>>, issue: Issue): seq<Sample> {
    if issue in samples then samples[issue] else []
  }

  function CountFor(counts: map<Issue, nat>, issue: Issue): nat {
    if issue in counts then counts[issue] else 0
  }

  /** The count is exact, and the list holds the first samples. */
  predicate Logged(count: nat, samples: seq<Sample>, all: seq<Sample>, limit: nat) {
    count == |all| && samples == Take(all, limit)
  }

  lemma LogOne(count: nat, samples: seq<Sample>, all: seq<Sample>, limit: nat, s: Sample)
    requires Logged(count, samples, all, limit)
    ensures Logged(count + 1, if |samples| < limit then samples + [s] else samples, all + [s], limit)
  {
  }

  /** The issue counter and the sample lists that `_record_issue` fills. */
  class IssueLog {
    const limit: nat
    var counts: map<Issue, nat>
    var samples: map<Issue, seq<Sample>>
    ghost var recorded: map<Issue, seq<Sample>>

    ghost predicate Valid()
      reads this
    {
      && (forall issue ::
            Logged(CountFor(counts, issue), SamplesFor(samples, issue), SamplesFor(recorded, issue), limit))
      && (forall issue :: issue in counts ==> counts[issue] > 0)
    }

    constructor (limit: nat)
      ensures this.limit == limit && Valid()
      ensures recorded == map[]
    {
      this.limit := limit;
      counts, samples, recorded := map[], map[], map[];
    }

    /** `_record_issue`. */
    method RecordIssue(issue: Issue, sample: Sample)
      requires Valid()
      modifies this
      ensures Valid()
      ensures recorded == old(recorded)[issue := SamplesFor(old(recorded), issue) + [sample]]
    {
      ghost var counted, sampled, had := counts, samples, recorded;
      counts := counts[issue := CountFor(counts, issue) + 1];
      if |SamplesFor(samples, issue)| < limit {
        samples := samples[issue := SamplesFor(samples, issue) + [sample]];
      }
      recorded := recorded[issue := SamplesFor(recorded, issue) + [sample]];
      LogOne(CountFor(counted, issue), SamplesFor(sampled, issue), SamplesFor(had, issue), limit, sample);
      forall other
        ensures Logged(CountFor(counts, other), SamplesFor(samples, other), SamplesFor(recorded, other), limit)
      {
        assert Logged(CountFor(counted, other), SamplesFor(sampled, other), SamplesFor(had, other), limit);
      }
    }
  }
}
