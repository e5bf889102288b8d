/** Stored federation metadata, and what the audit says of one document. */
module MetadataModel {
  import opened Options

  /** A stored value with its `str` form; `isoDate` is the verdict of the ISO date parser on a text. */
  datatype Value =
    | Null
    | Text(text: string, isoDate: bool)
    | Number(n: int, text: string)
    | DateTime(text: string)
    | Scalar(text: string)
    | Compound(text: string)

  datatype Entry = Entry(name: string, value: Value)

  type Fields = seq<Entry>

  /** `metadata.get(name)`. */
  function Get(fields: Fields, name: string): Value {
    if fields == [] then Null
    else if fields[0].name == name then fields[0].value
    else Get(fields[1..], name)
  }

  datatype Metadata =
    | Absent
    | Dict(fields: Fields)
    | Object(providerType: Value, dump: Option<Fields>)

  /** `accepted` is the verdict of the schema validator on the metadata. */
  datatype Document = Document(id: string, ref: Value, metadata: Metadata, accepted: bool)

  datatype CollectionName = McpServers | A2aAgents

  const AWS: string := "aws_agentcore"
  const AZURE: string := "azure_ai_foundry"

  datatype Model = AgentCoreMcp | AgentCoreA2a | AzureFoundry

  function RequiredFields(model: Model): seq<string> {
    match model
    case AgentCoreMcp =>
      ["runtimeArn", "runtimeId", "runtimeName", "runtimeVersion", "runtimeStatus", "serverProtocol"]
    case AgentCoreA2a => ["runtimeArn", "runtimeId", "runtimeVersion", "runtimeStatus"]
    case AzureFoundry => ["runtimeArn", "agentName", "agentVersion"]
  }

  function OptionalFields(model: Model): seq<string> {
    match model
    case AgentCoreMcp =>
      ["enrichmentError", "lastUpdatedAt", "createdAt", "protocolConfiguration", "authorizerConfiguration",
       "runtimeTags", "enrichedAt"]
    case AgentCoreA2a =>
      ["enrichmentError", "lastUpdatedAt", "createdAt", "failureReason", "workloadIdentityDetails",
       "protocolConfiguration", "authorizerConfiguration", "runtimeTags", "enrichedAt"]
    case AzureFoundry =>
      ["enrichmentError", "agentGuid", "versionId", "status", "createdAt", "modifiedAt", "projectEndpoint",
       "a2aBaseUrl", "agentCardPath", "authorizationSchemes"]
  }

  predicate IsModelField(model: Model, name: string) {
    name == "providerType" || name in RequiredFields(model) || name in OptionalFields(model)
  }

  const DATETIME_FIELDS: set<string> := {"lastUpdatedAt", "createdAt", "modifiedAt", "enrichedAt"}

  predicate Is(v: Value, text: string) {
    v.Text? && v.text == text
  }

  function ModelFor(collection: CollectionName, provider: Value): Option<Model> {
    if Is(provider, AWS) then Some(if collection.McpServers? then AgentCoreMcp else AgentCoreA2a)
    else if Is(provider, AZURE) && collection.A2aAgents? then Some(AzureFoundry)
    else None
  }

  function ProviderOf(metadata: Metadata): Value {
    match metadata
    case Absent => Null
    case Dict(fields) => Get(fields, "providerType")
    case Object(providerType, _) => providerType
  }

  predicate IsEmpty(v: Value) {
    v.Null? || Is(v, "")
  }

  predicate IsBadDatetime(v: Value) {
    match v
    case Null => false
    case DateTime(_) => false
    case Number(n, _) => n < 0
    case Text(_, isoDate) => !isoDate
    case _ => true
  }

  function BadDatetimes(fields: Fields): set<string> {
    set name | name in DATETIME_FIELDS && IsBadDatetime(Get(fields, name))
  }

  function Extras(fields: Fields, model: Model): seq<string> {
    if fields == [] then []
    else
      var rest := Extras(fields[1..], model);
      if IsModelField(model, fields[0].name) then rest else [fields[0].name] + rest
  }

  function UnknownExtras(fields: Fields, provider: Value, collection: CollectionName): seq<string> {
    match ModelFor(collection, provider)
    case None => []
    case Some(model) => Extras(fields, model)
  }

  function Missing(fields: Fields, names: seq<string>): seq<string> {
    if names == [] then []
    else
      var rest := Missing(fields, names[1..]);
      if IsEmpty(Get(fields, names[0])) then [names[0]] + rest else rest
  }

  /** The provider is read again from the fields, so it can differ from that of an object. */
  function MissingCore(fields: Fields, collection: CollectionName): seq<string> {
    match ModelFor(collection, Get(fields, "providerType"))
    case None => []
    case Some(model) => Missing(fields, RequiredFields(model))
  }

  /** A list or dictionary cannot be looked up in the set of known providers. */
  predicate Unhashable(d: Document) {
    ProviderOf(d.metadata).Compound?
  }

  datatype Kind = Plain | NoMetadata | NoProvider | UnknownProvider | Provider(name: string)

  function KindOf(d: Document): Kind {
    var p := ProviderOf(d.metadata);
    if d.metadata.Absent? then (if d.ref.Null? then Plain else NoMetadata)
    else if p.Null? then NoProvider
    else if Is(p, AWS) || Is(p, AZURE) then Provider(p.text)
    else UnknownProvider
  }

  /** The fields that the structural checks look at, if the document gets that far. */
  function Body(d: Document): Option<Fields> {
    if !KindOf(d).Provider? then None
    else if d.metadata.Dict? then Some(d.metadata.fields)
    else d.metadata.dump
  }

  datatype Issue =
    | Inconsistent | MissingProvider | InvalidProvider | MissingCoreFields | UnknownExtra | BadDatetime
    | EmptyRuntimeArn | DuplicateArns | AzureInMcp | InvalidSample

  predicate Blocking(issue: Issue) {
    !issue.UnknownExtra? && !issue.BadDatetime? && !issue.EmptyRuntimeArn?
  }

  datatype Sample =
    | OfId(id: string)
    | OfState(id: string, ref: Option<string>, reason: string)
    | OfProvider(id: string, provider: Value)
    | OfFields(id: string, fields: seq<string>)
    | OfDates(id: string, dates: set<string>)
    | DumpFailed(id: string)
    | Rejected(id: string)

  function When(b: bool, s: Sample): seq<Sample> {
    if b then [s] else []
  }

  /** What each issue says of one document, independently of every other issue: at most one sample. */
  function Report(d: Document, collection: CollectionName, issue: Issue): (r: seq<Sample>)
    ensures |r| <= 1
  {
    var kind := KindOf(d);
    var body := Body(d);
    match issue
    case Inconsistent =>
      When(d.ref.Null? != d.metadata.Absent?,
           if d.ref.Null? then OfState(d.id, None, "missing federationRefId")
           else OfState(d.id, Some(d.ref.text), "missing federationMetadata"))
    case MissingProvider => When(kind.NoProvider?, OfId(d.id))
    case InvalidProvider => When(kind.UnknownProvider?, OfProvider(d.id, ProviderOf(d.metadata)))
    case MissingCoreFields =>
      if body.None? then [] else
      When(MissingCore(body.value, collection) != [], OfFields(d.id, MissingCore(body.value, collection)))
    case UnknownExtra =>
      if body.None? then [] else
      var extras := UnknownExtras(body.value, ProviderOf(d.metadata), collection);
      When(extras != [], OfFields(d.id, extras))
    case BadDatetime =>
      if body.None? then [] else When(BadDatetimes(body.value) != {}, OfDates(d.id, BadDatetimes(body.value)))
    case EmptyRuntimeArn => When(body.Some? && IsEmpty(Get(body.value, "runtimeArn")), OfId(d.id))
    case DuplicateArns => []
    case AzureInMcp => When(body.Some? && collection.McpServers? && kind == Provider(AZURE), OfId(d.id))
    case InvalidSample =>
      if kind.Provider? && body.None? then [DumpFailed(d.id)]
      else When(body.Some? && !d.accepted, Rejected(d.id))
  }

  /** The federation and ARN under which a document is compared with the others. */
  datatype Key = Key(ref: string, arn: string)

  datatype Sighting = Sighting(key: Key, id: string)

  function SightingOf(d: Document): seq<Sighting> {
    var body := Body(d);
    if body.None? || d.ref.Null? then []
    else
      var arn := Get(body.value, "runtimeArn");
      if IsEmpty(arn) then [] else [Sighting(Key(d.ref.text, arn.text), d.id)]
  }

  /** Some blocking issue is reported of the document. */
  ghost predicate IsBlocked(d: Document, collection: CollectionName) {
    exists issue :: Blocking(issue) && Report(d, collection, issue) != []
  }

  /**
   * An empty ARN is only an attention item, yet such a document is blocked all the same, unless its fields name no
   * provider with a model for the collection, it is no Azure entry among the MCP servers, and it is consistent and
   * accepted by the schema.
   */
  lemma EmptyArnBlocksIff(d: Document, collection: CollectionName)
    requires Report(d, collection, EmptyRuntimeArn) != []
    ensures IsBlocked(d, collection) <==>
            || ModelFor(collection, Get(Body(d).value, "providerType")).Some?
            || (collection.McpServers? && KindOf(d) == Provider(AZURE))
            || d.ref.Null?
            || !d.accepted
  {
    hide Get, Extras, BadDatetimes;
    if ModelFor(collection, Get(Body(d).value, "providerType")).Some? {
      MissingArnIsCore(d, collection);
      assert Blocking(MissingCoreFields);
    }
    assert Blocking(AzureInMcp) && Blocking(Inconsistent) && Blocking(InvalidSample);
    if d.ref.Null? {
      assert Report(d, collection, Inconsistent) != [];
    } else if !d.accepted {
      assert Report(d, collection, InvalidSample) != [];
    } else if collection.McpServers? && KindOf(d) == Provider(AZURE) {
      assert Report(d, collection, AzureInMcp) != [];
    }
  }

  lemma MissingArnIsCore(d: Document, collection: CollectionName)
    requires Report(d, collection, EmptyRuntimeArn) != []
    requires ModelFor(collection, Get(Body(d).value, "providerType")).Some?
    ensures Report(d, collection, MissingCoreFields) != []
    ensures Report(d, collection, MissingCoreFields)[0].fields[0] == "runtimeArn"
  {
    hide Get, Extras, BadDatetimes;
  }

  /** So a document as the database returns it, a dictionary, never passes with an empty ARN. */
  lemma EmptyArnAlwaysBlocks(d: Document, collection: CollectionName)
    requires d.metadata.Dict? && Report(d, collection, EmptyRuntimeArn) != []
    ensures IsBlocked(d, collection)
  {
    EmptyArnBlocksIff(d, collection);
  }

  /** All that the model for AWS agents requires, but with an empty ARN. */
  const EMPTY_ARN: Fields :=
    [Entry("providerType", Text(AWS, false)), Entry("runtimeArn", Text("", false)),
     Entry("runtimeId", Text("r", false)), Entry("runtimeVersion", Text("1", false)),
     Entry("runtimeStatus", Text("READY", false))]

  /** A document with these fields, consistent and accepted by the schema, is blocked for its empty ARN alone. */
  lemma EmptyArnIsBlocked(id: string, ref: string)
    ensures var d := Document(id, Text(ref, false), Dict(EMPTY_ARN), true);
            && Report(d, A2aAgents, EmptyRuntimeArn) == [OfId(id)]
            && Report(d, A2aAgents, MissingCoreFields) == [OfFields(id, ["runtimeArn"])] && IsBlocked(d, A2aAgents)
            && forall issue :: Blocking(issue) && issue != MissingCoreFields ==> Report(d, A2aAgents, issue) == []
  {
    EmptyArnFields();
    hide Get, Missing, BadDatetimes, Extras;
    EmptyArnAlwaysBlocks(Document(id, Text(ref, false), Dict(EMPTY_ARN), true), A2aAgents);
  }

  lemma EmptyArnFields()
    ensures Get(EMPTY_ARN, "providerType") == Text(AWS, false) && Get(EMPTY_ARN, "runtimeArn") == Text("", false)
    ensures Missing(EMPTY_ARN, RequiredFields(AgentCoreA2a)) == ["runtimeArn"]
  {
    var names := RequiredFields(AgentCoreA2a);
    forall i | 0 <= i < |EMPTY_ARN| ensures Get(EMPTY_ARN, EMPTY_ARN[i].name) == EMPTY_ARN[i].value {
      GetAt(EMPTY_ARN, i);
    }
    assert Get(EMPTY_ARN, EMPTY_ARN[0].name) == EMPTY_ARN[0].value;
    assert forall i :: 0 <= i < |names| ==> names[i] == EMPTY_ARN[i + 1].name;
    assert Get(EMPTY_ARN, names[0]) == EMPTY_ARN[1].value;
    hide Get;
    NothingMissing(EMPTY_ARN, names[1..]);
  }

  lemma {:induction false} GetAt(fields: Fields, i: nat)
    requires i < |fields| && forall j :: 0 <= j < i ==> fields[j].name != fields[i].name
    ensures Get(fields, fields[i].name) == fields[i].value
  {
    if i > 0 {
      GetAt(fields[1..], i - 1);
    }
  }

  lemma {:induction false} NothingMissing(fields: Fields, names: seq<string>)
    requires forall i :: 0 <= i < |names| ==> !IsEmpty(Get(fields, names[i]))
    ensures Missing(fields, names) == []
  {
    if names != [] {
      NothingMissing(fields, names[1..]);
    }
  }

  /** A provider type that is a list or a dictionary cannot be looked up. */
  lemma ListProviderIsUnhashable(id: string, ref: Value, text: string)
    ensures Unhashable(Document(id, ref, Dict([Entry("providerType", Compound(text))]), true))
  {
  }
}
