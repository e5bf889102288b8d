/** The one-pass audit of a collection, against what it means for the whole sequence of documents. */
module MetadataAudit {
  import opened Options
  import opened MetadataModel
  import opened SharedArns
  import opened IssueLogs

  /** Every sample of an issue, in document order. */
  function Found(docs: seq<Document>, collection: CollectionName, issue: Issue): seq<Sample> {
    if docs == [] then []
    else Found(docs[..|docs| - 1], collection, issue) + Report(docs[|docs| - 1], collection, issue)
  }

  function CountKind(docs: seq<Document>, kind: Kind): nat {
    if docs == [] then 0
    else CountKind(docs[..|docs| - 1], kind) + if KindOf(docs[|docs| - 1]) == kind then 1 else 0
  }

  function Sightings(docs: seq<Document>): seq<Sighting> {
    if docs == [] then [] else Sightings(docs[..|docs| - 1]) + SightingOf(docs[|docs| - 1])
  }

  // ---------------------------------------------------------------- the audit

  datatype CollectionAudit = CollectionAudit(
    total: nat, federated: nat, nonFederated: nat,
    byProvider: map<string, nat>,
    issueCounts: map<Issue, nat>,
    samples: map<Issue, seq<Sample>>,
    duplicates: seq<Duplicate>)

  /** How often an issue occurs; shared ARNs count once for each shared key. */
  function Occurrences(docs: seq<Document>, collection: CollectionName, issue: Issue): nat {
    if issue.DuplicateArns? then |Shared(Sightings(docs))| else |Found(docs, collection, issue)|
  }

  /** The audit is what its declarative reading says, for every sequence of documents and every limit. */
  ghost predicate IsAuditOf(r: CollectionAudit, docs: seq<Document>, collection: CollectionName, limit: nat) {
    && r.total == |docs|
    && r.nonFederated == CountKind(docs, Plain)
    && r.federated == |docs| - CountKind(docs, Plain)
    && ProvidersCounted(r.byProvider, docs)
    && IssuesCounted(r.issueCounts, docs, collection)
    && (forall issue :: SamplesFor(r.samples, issue) == Take(Found(docs, collection, issue), limit))
    && r.duplicates == DuplicateSamples(Sightings(docs), limit)
  }

  ghost predicate ProvidersCounted(byProvider: map<string, nat>, docs: seq<Document>) {
    forall p :: if p in byProvider then byProvider[p] == CountKind(docs, Provider(p)) > 0
                else CountKind(docs, Provider(p)) == 0
  }

  ghost predicate IssuesCounted(counts: map<Issue, nat>, docs: seq<Document>, collection: CollectionName) {
    forall issue :: if issue in counts then counts[issue] == Occurrences(docs, collection, issue) > 0
                    else Occurrences(docs, collection, issue) == 0
  }

  /** `recorded` with what this issue says of the document. */
  function Added(recorded: map<Issue, seq<Sample>>, d: Document, collection: CollectionName, issue: Issue)
    : map<Issue, seq<Sample>>
  {
    var r := Report(d, collection, issue);
    if r == [] then recorded else recorded[issue := SamplesFor(recorded, issue) + r]
  }

  /** `recorded` with all that the structural checks say of the document. */
  function AddedFields(recorded: map<Issue, seq<Sample>>, d: Document, collection: CollectionName)
    : map<Issue, seq<Sample>>
  {
    var r := Added(Added(recorded, d, collection, MissingCoreFields), d, collection, UnknownExtra);
    Added(Added(r, d, collection, BadDatetime), d, collection, EmptyRuntimeArn)
  }

  /** `recorded` with all that is said of a document that reaches the structural checks. */
  function AddedBody(recorded: map<Issue, seq<Sample>>, d: Document, collection: CollectionName)
    : map<Issue, seq<Sample>>
  {
    Added(Added(AddedFields(recorded, d, collection), d, collection, AzureInMcp), d, collection, InvalidSample)
  }

  /** `recorded` with all that is said of a document. */
  function AddedAll(recorded: map<Issue, seq<Sample>>, d: Document, collection: CollectionName)
    : map<Issue, seq<Sample>>
  {
    var r := Added(Added(recorded, d, collection, Inconsistent), d, collection, MissingProvider);
    AddedBody(Added(r, d, collection, InvalidProvider), d, collection)
  }

  lemma AddedFor(recorded: map<Issue, seq<Sample>>, d: Document, collection: CollectionName, tag: Issue, issue: Issue)
    ensures SamplesFor(Added(recorded, d, collection, tag), issue) ==
            if tag == issue then SamplesFor(recorded, issue) + Report(d, collection, issue)
            else SamplesFor(recorded, issue)
  {
    hide Report;
  }

  /** Every issue gets exactly its own report, whatever the order in which they are recorded. */
  lemma AddedAllFor(recorded: map<Issue, seq<Sample>>, d: Document, collection: CollectionName, issue: Issue)
    ensures SamplesFor(AddedAll(recorded, d, collection), issue) ==
            SamplesFor(recorded, issue) + Report(d, collection, issue)
  {
    assert Report(d, collection, DuplicateArns) == [];
    hide Report, Added, SamplesFor;
    var r0 := recorded;
    AddedFor(r0, d, collection, Inconsistent, issue);
    var r1 := Added(r0, d, collection, Inconsistent);
    AddedFor(r1, d, collection, MissingProvider, issue);
    var r2 := Added(r1, d, collection, MissingProvider);
    AddedFor(r2, d, collection, InvalidProvider, issue);
    var r3 := Added(r2, d, collection, InvalidProvider);
    AddedFor(r3, d, collection, MissingCoreFields, issue);
    var r4 := Added(r3, d, collection, MissingCoreFields);
    AddedFor(r4, d, collection, UnknownExtra, issue);
    var r5 := Added(r4, d, collection, UnknownExtra);
    AddedFor(r5, d, collection, BadDatetime, issue);
    var r6 := Added(r5, d, collection, BadDatetime);
    AddedFor(r6, d, collection, EmptyRuntimeArn, issue);
    var r7 := Added(r6, d, collection, EmptyRuntimeArn);
    AddedFor(r7, d, collection, AzureInMcp, issue);
    AddedFor(Added(r7, d, collection, AzureInMcp), d, collection, InvalidSample, issue);
  }

  lemma FieldReports(d: Document, fields: Fields, collection: CollectionName)
    requires Body(d) == Some(fields)
    ensures var missing := MissingCore(fields, collection);
            Report(d, collection, MissingCoreFields) == if missing == [] then [] else [OfFields(d.id, missing)]
    ensures var extras := UnknownExtras(fields, ProviderOf(d.metadata), collection);
            Report(d, collection, UnknownExtra) == if extras == [] then [] else [OfFields(d.id, extras)]
    ensures var bad := BadDatetimes(fields);
            Report(d, collection, BadDatetime) == if bad == {} then [] else [OfDates(d.id, bad)]
    ensures Report(d, collection, EmptyRuntimeArn) == if IsEmpty(Get(fields, "runtimeArn")) then [OfId(d.id)] else []
  {
    hide MissingCore, UnknownExtras, BadDatetimes, Get;
  }

  /** The structural checks on the fields of a document. */
  method CheckFields(d: Document, fields: Fields, collection: CollectionName, log: IssueLog)
    requires log.Valid() && Body(d) == Some(fields)
    modifies log
    ensures log.Valid() && log.recorded == AddedFields(old(log.recorded), d, collection)
  {
    FieldReports(d, fields, collection);
    hide IssueLog.Valid, Report, Get, MissingCore, UnknownExtras, BadDatetimes;
    var missing := MissingCore(fields, collection);
    if missing != [] {
      log.RecordIssue(MissingCoreFields, OfFields(d.id, missing));
    }
    var extras := UnknownExtras(fields, ProviderOf(d.metadata), collection);
    if extras != [] {
      log.RecordIssue(UnknownExtra, OfFields(d.id, extras));
    }
    var bad := BadDatetimes(fields);
    if bad != {} {
      log.RecordIssue(BadDatetime, OfDates(d.id, bad));
    }
    if IsEmpty(Get(fields, "runtimeArn")) {
      log.RecordIssue(EmptyRuntimeArn, OfId(d.id));
    }
  }

  lemma BodyReports(d: Document, collection: CollectionName)
    requires Body(d).Some?
    ensures Report(d, collection, MissingProvider) == [] == Report(d, collection, InvalidProvider)
    ensures Report(d, collection, AzureInMcp) ==
            if Is(ProviderOf(d.metadata), AZURE) && collection.McpServers? then [OfId(d.id)] else []
    ensures Report(d, collection, InvalidSample) == if d.accepted then [] else [Rejected(d.id)]
    ensures var arn := Get(Body(d).value, "runtimeArn");
            SightingOf(d) == if IsEmpty(arn) || d.ref.Null? then [] else [Sighting(Key(d.ref.text, arn.text), d.id)]
  {
    hide MissingCore, UnknownExtras, BadDatetimes, Get;
  }

  /** What `_audit_collection` does with a document whose fields can be looked at. */
  method AuditBody(d: Document, fields: Fields, collection: CollectionName, log: IssueLog, arns: ArnTracker)
    requires log.Valid() && arns.Valid() && Body(d) == Some(fields)
    modifies log, arns
    ensures log.Valid() && log.recorded == AddedBody(old(log.recorded), d, collection)
    ensures arns.Valid() && arns.seen == old(arns.seen) + SightingOf(d)
  {
    BodyReports(d, collection);
    hide IssueLog.Valid, ArnTracker.Valid, Report, Get, AddedFields, SamplesFor, SightingOf, Body;
    CheckFields(d, fields, collection, log);
    var arn := Get(fields, "runtimeArn");
    if !IsEmpty(arn) && !d.ref.Null? {
      arns.Record(Key(d.ref.text, arn.text), d.id);
    }
    if Is(ProviderOf(d.metadata), AZURE) && collection.McpServers? {
      log.RecordIssue(AzureInMcp, OfId(d.id));
    }
    if !d.accepted {
      log.RecordIssue(InvalidSample, Rejected(d.id));
    }
  }

  /** A document without fields to look at has at most an inconsistency and one more issue. */
  lemma HeadReports(d: Document, collection: CollectionName)
    ensures Report(d, collection, Inconsistent) ==
            if d.ref.Null? == d.metadata.Absent? then []
            else if d.ref.Null? then [OfState(d.id, None, "missing federationRefId")]
            else [OfState(d.id, Some(d.ref.text), "missing federationMetadata")]
    ensures Report(d, collection, MissingProvider) == if KindOf(d).NoProvider? then [OfId(d.id)] else []
    ensures Report(d, collection, InvalidProvider) ==
            if KindOf(d).UnknownProvider? then [OfProvider(d.id, ProviderOf(d.metadata))] else []
    ensures Body(d).None? ==>
              && SightingOf(d) == []
              && (forall r :: AddedBody(r, d, collection) ==
                    if KindOf(d).Provider? then r[InvalidSample := SamplesFor(r, InvalidSample) + [DumpFailed(d.id)]]
                    else r)
  {
    hide MissingCore, UnknownExtras, BadDatetimes, Get;
  }

  /** One turn of the loop: what the document adds to the log and to the sightings. */
  method AuditDocument(d: Document, collection: CollectionName, log: IssueLog, arns: ArnTracker)
    requires log.Valid() && arns.Valid() && !Unhashable(d)
    modifies log, arns
    ensures log.Valid() && log.recorded == AddedAll(old(log.recorded), d, collection)
    ensures arns.Valid() && arns.seen == old(arns.seen) + SightingOf(d)
  {
    HeadReports(d, collection);
    hide IssueLog.Valid, ArnTracker.Valid, Report, Get, AddedBody, SightingOf;
    if d.ref.Null? && d.metadata.Absent? {
      return;
    }
    if d.ref.Null? != d.metadata.Absent? {
      log.RecordIssue(Inconsistent,
        OfState(d.id, if d.ref.Null? then None else Some(d.ref.text),
                if d.ref.Null? then "missing federationRefId" else "missing federationMetadata"));
    }
    if d.metadata.Absent? {
      return;
    }
    var provider := ProviderOf(d.metadata);
    if provider.Null? {
      log.RecordIssue(MissingProvider, OfId(d.id));
      return;
    }
    if !Is(provider, AWS) && !Is(provider, AZURE) {
      log.RecordIssue(InvalidProvider, OfProvider(d.id, provider));
      return;
    }
    var body := if d.metadata.Dict? then Some(d.metadata.fields) else d.metadata.dump;
    if body.None? {
      log.RecordIssue(InvalidSample, DumpFailed(d.id));
      return;
    }
    AuditBody(d, body.value, collection, log, arns);
  }

  /** The log holds what the documents so far contain. */
  ghost predicate Recorded(recorded: map<Issue, seq<Sample>>, docs: seq<Document>, collection: CollectionName) {
    forall issue :: SamplesFor(recorded, issue) == Found(docs, collection, issue)
  }

  lemma RecordedGrows(recorded: map<Issue, seq<Sample>>, docs: seq<Document>, i: nat, collection: CollectionName)
    requires i < |docs| && Recorded(recorded, docs[..i], collection)
    ensures Recorded(AddedAll(recorded, docs[i], collection), docs[..i + 1], collection)
  {
    hide AddedAll, Report, Found;
    forall issue
      ensures SamplesFor(AddedAll(recorded, docs[i], collection), issue) == Found(docs[..i + 1], collection, issue)
    {
      AddedAllFor(recorded, docs[i], collection, issue);
      OneMore(docs, i, collection);
    }
  }

  function CountProvider(byProvider: map<string, nat>, kind: Kind): map<string, nat> {
    match kind
    case Provider(name) => byProvider[name := if name in byProvider then byProvider[name] + 1 else 1]
    case _ => byProvider
  }

  lemma ProvidersGrow(byProvider: map<string, nat>, docs: seq<Document>, i: nat, collection: CollectionName)
    requires i < |docs| && ProvidersCounted(byProvider, docs[..i])
    ensures ProvidersCounted(CountProvider(byProvider, KindOf(docs[i])), docs[..i + 1])
  {
    OneMore(docs, i, collection);
    hide KindOf, CountKind;
  }

  /** `_audit_collection`; None is the `TypeError` of a provider type that cannot be hashed. */
  method AuditCollection(docs: seq<Document>, collection: CollectionName, limit: nat)
    returns (r: Option<CollectionAudit>)
    ensures r.None? <==> exists i :: 0 <= i < |docs| && Unhashable(docs[i])
    ensures r.Some? ==> IsAuditOf(r.value, docs, collection, limit)
  {
    hide Report, Found, Sightings, CountKind, KindOf, AddedAll, SightingOf, Unhashable, Recorded, ProvidersCounted,
         IssueLog.Valid, ArnTracker.Valid, IsAuditOf;
    var total, federated, nonFederated := 0, 0, 0;
    var byProvider: map<string, nat> := map[];
    var log := new IssueLog(limit);
    var arns := new ArnTracker(limit);
    NothingYet(docs, collection);
    for i := 0 to |docs|
      invariant fresh(log) && fresh(arns) && log.limit == arns.limit == limit
      invariant forall k :: 0 <= k < i ==> !Unhashable(docs[k])
      invariant log.Valid() && Recorded(log.recorded, docs[..i], collection)
      invariant arns.Valid() && arns.seen == Sightings(docs[..i])
      invariant total == i && federated + nonFederated == i && nonFederated == CountKind(docs[..i], Plain)
      invariant ProvidersCounted(byProvider, docs[..i])
    {
      var d := docs[i];
      if Unhashable(d) {
        return None;
      }
      RecordedGrows(log.recorded, docs, i, collection);
      ProvidersGrow(byProvider, docs, i, collection);
      OneMore(docs, i, collection);
      AuditDocument(d, collection, log, arns);
      total := total + 1;
      var kind := KindOf(d);
      if kind.Plain? {
        nonFederated := nonFederated + 1;
      } else {
        federated := federated + 1;
      }
      byProvider := CountProvider(byProvider, kind);
    }
    assert docs[..|docs|] == docs;
    var issueCounts := if arns.shared > 0 then log.counts[DuplicateArns := arns.shared] else log.counts;
    var audit := CollectionAudit(total, federated, nonFederated, byProvider, issueCounts, log.samples, arns.duplicates);
    LogIsAudit(log, arns, audit, docs, collection, limit);
    r := Some(audit);
  }

  /** The counters and lists, when the cursor is exhausted, are the audit of all documents. */
  lemma LogIsAudit(log: IssueLog, arns: ArnTracker, audit: CollectionAudit, docs: seq<Document>,
                   collection: CollectionName, limit: nat)
    requires log.Valid() && Recorded(log.recorded, docs, collection) && log.limit == arns.limit == limit
    requires arns.Valid() && arns.seen == Sightings(docs)
    requires audit.total == |docs| == audit.federated + audit.nonFederated &&
        audit.nonFederated == CountKind(docs, Plain)
    requires ProvidersCounted(audit.byProvider, docs)
    requires audit.issueCounts == if arns.shared > 0 then log.counts[DuplicateArns := arns.shared] else log.counts
    requires audit.samples == log.samples && audit.duplicates == arns.duplicates
    ensures IsAuditOf(audit, docs, collection, limit)
  {
    NoSingleDuplicate(docs, collection);
    hide Found, CountKind, Sightings, Shared, DuplicateSamples, ProvidersCounted;
    forall issue
      ensures SamplesFor(audit.samples, issue) == Take(Found(docs, collection, issue), limit)
      ensures if issue in audit.issueCounts then audit.issueCounts[issue] == Occurrences(docs, collection, issue) > 0
              else Occurrences(docs, collection, issue) == 0
    {
      assert Logged(CountFor(log.counts, issue), SamplesFor(log.samples, issue), SamplesFor(log.recorded, issue),
          limit);
    }
  }

  lemma NothingYet(docs: seq<Document>, collection: CollectionName)
    ensures forall issue :: Found(docs[..0], collection, issue) == []
    ensures forall kind :: CountKind(docs[..0], kind) == 0
    ensures Sightings(docs[..0]) == [] && Recorded(map[], docs[..0], collection) && ProvidersCounted(map[], docs[..0])
  {
  }

  lemma OneMore(docs: seq<Document>, i: nat, collection: CollectionName)
    requires i < |docs|
    ensures forall issue :: Found(docs[..i + 1], collection, issue) ==
                            Found(docs[..i], collection, issue) + Report(docs[i], collection, issue)
    ensures forall kind :: CountKind(docs[..i + 1], kind) ==
                           CountKind(docs[..i], kind) + if KindOf(docs[i]) == kind then 1 else 0
    ensures Sightings(docs[..i + 1]) == Sightings(docs[..i]) + SightingOf(docs[i])
  {
    hide Report, KindOf, SightingOf;
    assert docs[..i + 1][..i] == docs[..i];
  }

  lemma {:induction false} NoSingleDuplicate(docs: seq<Document>, collection: CollectionName)
    ensures Found(docs, collection, DuplicateArns) == []
  {
    if docs != [] {
      NoSingleDuplicate(docs[..|docs| - 1], collection);
    }
  }
}
