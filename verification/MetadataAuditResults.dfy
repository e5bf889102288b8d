/** What a finished audit tells: partitions, exact duplicate counts, and the exit decision. */
module MetadataAuditResults {
  import opened Options
  import opened MetadataModel
  import opened SharedArns
  import opened IssueLogs
  import opened MetadataAudit

  // ---------------------------------------------------------------- partitions

  /** The issue's count, as `issue_counts.get(issue, 0)` reads it. */
  function CountOf(r: CollectionAudit, issue: Issue): nat {
    CountFor(r.issueCounts, issue)
  }

  function ProviderCount(r: CollectionAudit, provider: string): nat {
    if provider in r.byProvider then r.byProvider[provider] else 0
  }

  lemma {:induction false} KindsPartition(docs: seq<Document>)
    ensures |docs| == CountKind(docs, Plain) + CountKind(docs, NoMetadata) + CountKind(docs, NoProvider) +
                      CountKind(docs, UnknownProvider) + CountKind(docs, Provider(AWS)) +
                      CountKind(docs, Provider(AZURE))
    ensures forall p :: p != AWS && p != AZURE ==> CountKind(docs, Provider(p)) == 0
  {
    if docs != [] {
      KindsPartition(docs[..|docs| - 1]);
    }
  }

  lemma {:induction false} ProviderIssuesAreKinds(docs: seq<Document>, collection: CollectionName)
    ensures |Found(docs, collection, MissingProvider)| == CountKind(docs, NoProvider)
    ensures |Found(docs, collection, InvalidProvider)| == CountKind(docs, UnknownProvider)
  {
    if docs != [] {
      ProviderIssuesAreKinds(docs[..|docs| - 1], collection);
    }
  }

  /** The totals partition, and every federated document is accounted for exactly once. */
  lemma TotalsPartition(r: CollectionAudit, docs: seq<Document>, collection: CollectionName, limit: nat)
    requires IsAuditOf(r, docs, collection, limit)
    ensures r.total == |docs| == r.federated + r.nonFederated
    ensures r.federated == CountKind(docs, NoMetadata) + CountOf(r, MissingProvider) + CountOf(r, InvalidProvider) +
                           ProviderCount(r, AWS) + ProviderCount(r, AZURE)
    ensures r.byProvider.Keys <= {AWS, AZURE}
  {
    KindsPartition(docs);
    ProviderIssuesAreKinds(docs, collection);
    hide Found, CountKind, Shared, Sightings;
    assert ProviderCount(r, AWS) == CountKind(docs, Provider(AWS));
    assert ProviderCount(r, AZURE) == CountKind(docs, Provider(AZURE));
  }

  // ---------------------------------------------------------------- samples

  /** A sample is found just when some document reports it. */
  lemma {:induction false} FoundIff(docs: seq<Document>, collection: CollectionName, issue: Issue, s: Sample)
    ensures s in Found(docs, collection, issue) <==>
            exists i :: 0 <= i < |docs| && Report(docs[i], collection, issue) == [s]
  {
    hide Report;
    if docs != [] {
      var last := |docs| - 1;
      FoundIff(docs[..last], collection, issue, s);
      if s in Found(docs[..last], collection, issue) {
        var i :| 0 <= i < last && Report(docs[..last][i], collection, issue) == [s];
        assert Report(docs[i], collection, issue) == [s];
      }
      if i :| 0 <= i < |docs| && Report(docs[i], collection, issue) == [s] {
        assert i < last ==> docs[..last][i] == docs[i];
      }
      assert Report(docs[last], collection, issue) != [] ==>
               Report(docs[last], collection, issue) == [Report(docs[last], collection, issue)[0]];
    }
  }

  /** Any issue is counted just when some document reports it. */
  lemma CountedIff(docs: seq<Document>, collection: CollectionName, issue: Issue)
    ensures Found(docs, collection, issue) != [] <==>
            exists i :: 0 <= i < |docs| && Report(docs[i], collection, issue) != []
  {
    if Found(docs, collection, issue) != [] {
      FoundIff(docs, collection, issue, Found(docs, collection, issue)[0]);
    }
    if i :| 0 <= i < |docs| && Report(docs[i], collection, issue) != [] {
      FoundIff(docs, collection, issue, Report(docs[i], collection, issue)[0]);
      assert Report(docs[i], collection, issue) == [Report(docs[i], collection, issue)[0]];
    }
  }

  // ---------------------------------------------------------------- duplicates

  predicate HasKey(d: Document, key: Key) {
    SightingOf(d) != [] && SightingOf(d)[0].key == key
  }

  /** The ids of the documents with a key, in document order. */
  function Holders(docs: seq<Document>, key: Key): seq<string> {
    if docs == [] then []
    else
      var last := docs[|docs| - 1];
      Holders(docs[..|docs| - 1], key) + if HasKey(last, key) then [last.id] else []
  }

  lemma {:induction false} GroupIsHolders(docs: seq<Document>, key: Key)
    ensures Group(Sightings(docs), key) == Holders(docs, key)
  {
    if docs != [] {
      var last := |docs| - 1;
      GroupIsHolders(docs[..last], key);
      var before := Sightings(docs[..last]);
      if SightingOf(docs[last]) != [] {
        assert Sightings(docs) == before + [SightingOf(docs[last])[0]];
        GroupGrows(before, SightingOf(docs[last])[0], key);
      } else {
        assert Sightings(docs) == before;
      }
    }
  }

  lemma {:induction false} HoldersIff(docs: seq<Document>, key: Key)
    ensures |Holders(docs, key)| >= 1 <==> exists i :: 0 <= i < |docs| && HasKey(docs[i], key)
    ensures |Holders(docs, key)| >= 2 <==>
            exists i, j :: 0 <= i < j < |docs| && HasKey(docs[i], key) && HasKey(docs[j], key)
  {
    hide HasKey;
    if docs != [] {
      var last := |docs| - 1;
      HoldersIff(docs[..last], key);
      forall i | 0 <= i < last ensures docs[..last][i] == docs[i] { }
      if |Holders(docs[..last], key)| >= 1 {
        var i :| 0 <= i < last && HasKey(docs[..last][i], key);
        assert HasKey(docs[i], key);
      }
      if |Holders(docs[..last], key)| >= 2 {
        var i, j :| 0 <= i < j < last && HasKey(docs[..last][i], key) && HasKey(docs[..last][j], key);
        assert HasKey(docs[i], key) && HasKey(docs[j], key);
      }
    }
  }

  /** The duplicate count is the number of keys held by at least two documents. */
  lemma DuplicateCount(docs: seq<Document>, keys: set<Key>)
    requires forall k :: k in keys <==> |Holders(docs, k)| >= 2
    ensures |Shared(Sightings(docs))| == |keys|
  {
    var shared := Shared(Sightings(docs));
    forall k ensures k in shared <==> k in keys {
      SharedIff(Sightings(docs), k);
      GroupIsHolders(docs, k);
    }
    SharedOnce(Sightings(docs));
    SizeOfDistinct(shared, keys);
  }

  lemma {:induction false} SizeOfDistinct(s: seq<Key>, keys: set<Key>)
    requires forall i, j :: 0 <= i < j < |s| ==> s[i] != s[j]
    requires forall k :: k in s <==> k in keys
    ensures |s| == |keys|
  {
    if s == [] {
      assert keys == {};
    } else {
      var rest := s[..|s| - 1];
      var last := s[|s| - 1];
      forall k ensures k in rest <==> k in keys - {last} {
        assert k in s <==> k in rest || k == last;
      }
      SizeOfDistinct(rest, keys - {last});
    }
  }

  /** Each sampled key lists its first documents: all of them up to the limit, and never fewer than two. */
  lemma SampledDuplicates(r: CollectionAudit, docs: seq<Document>, collection: CollectionName, limit: nat, j: nat)
    requires IsAuditOf(r, docs, collection, limit) && j < |r.duplicates|
    ensures |r.duplicates| == Min(CountOf(r, DuplicateArns), limit)
    ensures var d := r.duplicates[j];
            && d.ids == Take(Holders(docs, d.key), Max(2, limit)) && |d.ids| >= 2
            && |d.ids| == Min(|Holders(docs, d.key)|, Max(2, limit))
    ensures forall i :: 0 <= i < j ==> r.duplicates[i].key != r.duplicates[j].key
  {
    var shared := Shared(Sightings(docs));
    var key := r.duplicates[j].key;
    assert key == shared[j];
    SharedIff(Sightings(docs), key);
    GroupIsHolders(docs, key);
    SharedOnce(Sightings(docs));
    assert if DuplicateArns in r.issueCounts
           then r.issueCounts[DuplicateArns] == Occurrences(docs, collection, DuplicateArns)
           else Occurrences(docs, collection, DuplicateArns) == 0;
  }

  // ---------------------------------------------------------------- the exit decision

  const BLOCKING: seq<Issue> :=
    [Inconsistent, MissingProvider, InvalidProvider, MissingCoreFields, DuplicateArns, AzureInMcp, InvalidSample]

  /** Some document has a blocking issue of its own, or two documents share a federation and ARN. */
  ghost predicate Blocked(docs: seq<Document>, collection: CollectionName) {
    || (exists i, issue :: 0 <= i < |docs| && Blocking(issue) && Report(docs[i], collection, issue) != [])
    || (exists i, j, key :: 0 <= i < j < |docs| && HasKey(docs[i], key) && HasKey(docs[j], key))
  }

  /** A blocking count is positive just when the documents are blocked, whatever the sample limit. */
  lemma BlockingIff(r: CollectionAudit, docs: seq<Document>, collection: CollectionName, limit: nat)
    requires IsAuditOf(r, docs, collection, limit)
    ensures (exists issue :: Blocking(issue) && CountOf(r, issue) > 0) <==> Blocked(docs, collection)
  {
    hide Found, Shared, Sightings, Report, HasKey;
    forall issue: Issue ensures CountOf(r, issue) == Occurrences(docs, collection, issue) { }
    forall issue: Issue ensures !issue.DuplicateArns? ==>
      (CountOf(r, issue) > 0 <==> exists i :: 0 <= i < |docs| && Report(docs[i], collection, issue) != [])
    {
      CountedIff(docs, collection, issue);
    }
    NoSingleDuplicate(docs, collection);
    CountedIff(docs, collection, DuplicateArns);
    SharedKeyIff(docs);
  }

  lemma SharedKeyIff(docs: seq<Document>)
    ensures |Shared(Sightings(docs))| > 0 <==>
            exists i, j, key :: 0 <= i < j < |docs| && HasKey(docs[i], key) && HasKey(docs[j], key)
  {
    if |Shared(Sightings(docs))| > 0 {
      var key := Shared(Sightings(docs))[0];
      SharedIff(Sightings(docs), key);
      GroupIsHolders(docs, key);
      HoldersIff(docs, key);
    }
    if i, j, key :| 0 <= i < j < |docs| && HasKey(docs[i], key) && HasKey(docs[j], key) {
      HoldersIff(docs, key);
      GroupIsHolders(docs, key);
      SharedIff(Sightings(docs), key);
    }
  }

  method HasBlockingIssues(results: seq<CollectionAudit>) returns (found: bool)
    ensures found <==> exists k, issue :: 0 <= k < |results| && Blocking(issue) && CountOf(results[k], issue) > 0
  {
    for k := 0 to |results|
      invariant forall i, issue :: 0 <= i < k && Blocking(issue) ==> CountOf(results[i], issue) == 0
    {
      for n := 0 to |BLOCKING|
        invariant forall m :: 0 <= m < n ==> CountOf(results[k], BLOCKING[m]) == 0
      {
        if CountOf(results[k], BLOCKING[n]) > 0 {
          assert Blocking(BLOCKING[n]);
          return true;
        }
      }
      forall issue | Blocking(issue) ensures CountOf(results[k], issue) == 0 {
        assert issue in BLOCKING;
      }
    }
    return false;
  }

  /** `_run`: the exit status; None is a crash on a provider type that cannot be hashed. */
  method Run(mcpServers: seq<Document>, agents: seq<Document>, limit: nat) returns (status: Option<nat>)
    ensures status.None? <==> exists d :: (d in mcpServers || d in agents) && Unhashable(d)
    ensures status.Some? ==>
        status.value == if Blocked(mcpServers, McpServers) || Blocked(agents, A2aAgents) then 1 else 0
  {
    hide IsAuditOf, Blocked, Unhashable;
    var servers := AuditCollection(mcpServers, McpServers, limit);
    if servers.None? {
      return None;
    }
    var others := AuditCollection(agents, A2aAgents, limit);
    if others.None? {
      return None;
    }
    var results := [servers.value, others.value];
    var blocking := HasBlockingIssues(results);
    BlockingIff(servers.value, mcpServers, McpServers, limit);
    BlockingIff(others.value, agents, A2aAgents, limit);
    if issue :| Blocking(issue) && CountOf(servers.value, issue) > 0 {
      assert CountOf(results[0], issue) > 0;
    }
    if issue :| Blocking(issue) && CountOf(others.value, issue) > 0 {
      assert CountOf(results[1], issue) > 0;
    }
    status := Some(if blocking then 1 else 0);
  }
}
