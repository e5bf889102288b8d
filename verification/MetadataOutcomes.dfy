/** What the audit reports of a document, issue by issue, told by its stored fields alone. */
module MetadataOutcomes {
  import opened Options
  import opened MetadataModel

  predicate IsText(v: Value, text: string) {
    v.Text? && v.text == text
  }

  /** Nothing, or an empty text. */
  predicate IsBlank(v: Value) {
    v == Null || IsText(v, "")
  }

  // ---------------------------------------------------------------- fields

  /** A field is the first entry of its name, and null without one. */
  lemma {:induction false} GetExactly(fields: Fields, name: string)
    ensures (exists i :: 0 <= i < |fields| && fields[i].name == name) ==>
              exists i :: 0 <= i < |fields| && fields[i] == Entry(name, Get(fields, name)) &&
                          forall j :: 0 <= j < i ==> fields[j].name != name
    ensures (forall i :: 0 <= i < |fields| ==> fields[i].name != name) ==> Get(fields, name) == Null
  {
    if fields != [] {
      GetExactly(fields[1..], name);
      if fields[0].name == name {
        assert fields[0] == Entry(name, Get(fields, name));
      } else if i :| 0 <= i < |fields| && fields[i].name == name {
        assert fields[1..][i - 1].name == name;
        var k :| 0 <= k < |fields| - 1 && fields[1..][k] == Entry(name, Get(fields, name)) &&
            forall j :: 0 <= j < k ==> fields[1..][j].name != name;
        assert fields[k + 1] == Entry(name, Get(fields, name));
        assert forall j :: 1 <= j < k + 1 ==> fields[j].name == fields[1..][j - 1].name;
      } else {
        assert forall i :: 0 <= i < |fields| - 1 ==> fields[1..][i].name == fields[i + 1].name;
      }
    }
  }

  /** The models: what each requires, and what it knows besides the provider type. */
  lemma ModelsExactly()
    ensures RequiredFields(AgentCoreMcp) ==
            ["runtimeArn", "runtimeId", "runtimeName", "runtimeVersion", "runtimeStatus", "serverProtocol"]
    ensures RequiredFields(AgentCoreA2a) == ["runtimeArn", "runtimeId", "runtimeVersion", "runtimeStatus"]
    ensures RequiredFields(AzureFoundry) == ["runtimeArn", "agentName", "agentVersion"]
    ensures OptionalFields(AgentCoreMcp) ==
            ["enrichmentError", "lastUpdatedAt", "createdAt", "protocolConfiguration", "authorizerConfiguration",
             "runtimeTags", "enrichedAt"]
    ensures OptionalFields(AgentCoreA2a) ==
            ["enrichmentError", "lastUpdatedAt", "createdAt", "failureReason", "workloadIdentityDetails",
             "protocolConfiguration", "authorizerConfiguration", "runtimeTags", "enrichedAt"]
    ensures OptionalFields(AzureFoundry) ==
            ["enrichmentError", "agentGuid", "versionId", "status", "createdAt", "modifiedAt", "projectEndpoint",
             "a2aBaseUrl", "agentCardPath", "authorizationSchemes"]
  {
  }

  /** Azure has a model for agents alone. */
  lemma ModelForExactly(collection: CollectionName, provider: Value)
    ensures ModelFor(collection, provider) ==
            match provider
            case Text(text, _) =>
              if text == "aws_agentcore" && collection == McpServers then Some(AgentCoreMcp)
              else if text == "aws_agentcore" && collection == A2aAgents then Some(AgentCoreA2a)
              else if text == "azure_ai_foundry" && collection == A2aAgents then Some(AzureFoundry)
              else None
            case _ => None
  {
  }

  /** The missing names are those of the list, in order, whose field is blank. */
  lemma {:induction false} MissingExactly(fields: Fields, names: seq<string>, name: string)
    ensures Missing(fields, names + [name]) ==
            Missing(fields, names) + if IsBlank(Get(fields, name)) then [name] else []
    ensures Missing(fields, []) == []
  {
    if names != [] {
      assert (names + [name])[1..] == names[1..] + [name];
      MissingExactly(fields, names[1..], name);
    }
  }

  /** The extras are the names of the entries, in order, that the model does not know. */
  lemma {:induction false} ExtrasExactly(fields: Fields, entry: Entry, model: Model)
    ensures Extras(fields + [entry], model) ==
            Extras(fields, model) +
            if entry.name == "providerType" || entry.name in RequiredFields(model) + OptionalFields(model) then []
            else [entry.name]
    ensures Extras([], model) == []
  {
    hide RequiredFields, OptionalFields;
    if fields != [] {
      assert (fields + [entry])[1..] == fields[1..] + [entry];
      ExtrasExactly(fields[1..], entry, model);
    }
  }

  /** A date field is bad when it is a negative number, a text that is no ISO date, or of any other type. */
  lemma BadDatetimesExactly(fields: Fields, name: string)
    ensures name in BadDatetimes(fields) <==>
            && (name == "lastUpdatedAt" || name == "createdAt" || name == "modifiedAt" || name == "enrichedAt")
            && match Get(fields, name)
               case Null | DateTime(_) => false
               case Number(n, _) => n < 0
               case Text(_, isoDate) => !isoDate
               case Scalar(_) | Compound(_) => true
  {
  }

  // ---------------------------------------------------------------- documents

  /** The provider type that the document names, if it has metadata. */
  function NamedProvider(d: Document): Value {
    match d.metadata
    case Absent => Null
    case Dict(fields) => Get(fields, "providerType")
    case Object(providerType, _) => providerType
  }

  predicate IsKnown(provider: Value) {
    IsText(provider, "aws_agentcore") || IsText(provider, "azure_ai_foundry")
  }

  /** How a document is counted. */
  lemma KindExactly(d: Document)
    ensures KindOf(d) ==
            match d.metadata
            case Absent => if d.ref == Null then Plain else NoMetadata
            case _ =>
              if NamedProvider(d) == Null then NoProvider
              else if IsKnown(NamedProvider(d)) then Provider(NamedProvider(d).text)
              else UnknownProvider
  {
  }

  /** The fields that are looked at are those of a known provider: of a dictionary its own, of an object its dump. */
  lemma BodyExactly(d: Document)
    ensures Body(d) ==
            if !IsKnown(NamedProvider(d)) then None
            else match d.metadata
                 case Dict(fields) => Some(fields)
                 case Object(_, dump) => dump
                 case Absent => None
  {
  }

  /** A document with a reference and no metadata, or the other way round, is inconsistent. */
  lemma StateExactly(d: Document, collection: CollectionName)
    ensures Report(d, collection, Inconsistent) ==
            if d.ref == Null && !d.metadata.Absent? then [OfState(d.id, None, "missing federationRefId")]
            else if d.ref != Null && d.metadata.Absent?
            then [OfState(d.id, Some(d.ref.text), "missing federationMetadata")]
            else []
  {
  }

  lemma ProviderIssuesExactly(d: Document, collection: CollectionName)
    ensures Report(d, collection, MissingProvider) ==
            if !d.metadata.Absent? && NamedProvider(d) == Null then [OfId(d.id)] else []
    ensures Report(d, collection, InvalidProvider) ==
            if NamedProvider(d) != Null && !IsKnown(NamedProvider(d)) then [OfProvider(d.id, NamedProvider(d))] else []
    ensures Report(d, collection, AzureInMcp) ==
            if Body(d).Some? && collection == McpServers && IsText(NamedProvider(d), "azure_ai_foundry")
            then [OfId(d.id)] else []
    ensures Report(d, collection, InvalidSample) ==
            if !IsKnown(NamedProvider(d)) then []
            else if Body(d).None? then [DumpFailed(d.id)]
            else if !d.accepted then [Rejected(d.id)]
            else []
  {
    hide Get;
  }

  /** What is reported of the fields: those of the model that are blank, those that it does not know, bad dates, and a
    * blank ARN.  What is missing is judged by the provider type among the fields, what is unknown by that of the
    * document. */
  lemma FieldIssuesExactly(d: Document, collection: CollectionName)
    requires Body(d).Some?
    ensures var fields := Body(d).value;
            && Report(d, collection, MissingCoreFields) ==
               (match ModelFor(collection, Get(fields, "providerType"))
                case Some(model) =>
                  var missing := Missing(fields, RequiredFields(model));
                  if missing == [] then [] else [OfFields(d.id, missing)]
                case None => [])
            && Report(d, collection, UnknownExtra) ==
               (match ModelFor(collection, NamedProvider(d))
                case Some(model) =>
                  var extras := Extras(fields, model);
                  if extras == [] then [] else [OfFields(d.id, extras)]
                case None => [])
            && Report(d, collection, BadDatetime) ==
               (if BadDatetimes(fields) == {} then [] else [OfDates(d.id, BadDatetimes(fields))])
            && Report(d, collection, EmptyRuntimeArn) ==
               (if IsBlank(Get(fields, "runtimeArn")) then [OfId(d.id)] else [])
            && SightingOf(d) ==
               if d.ref == Null || IsBlank(Get(fields, "runtimeArn")) then []
               else [Sighting(Key(d.ref.text, Get(fields, "runtimeArn").text), d.id)]
  {
    hide Get, Missing, Extras, BadDatetimes, RequiredFields, ModelFor;
  }

  /** A document without such fields has none of these issues, and none shares its ARN. */
  lemma NoFieldsNoIssues(d: Document, collection: CollectionName)
    requires Body(d).None?
    ensures Report(d, collection, MissingCoreFields) == Report(d, collection, UnknownExtra) == []
    ensures Report(d, collection, BadDatetime) == Report(d, collection, EmptyRuntimeArn) == [] && SightingOf(d) == []
  {
  }

  /** Seven kinds of issue block; the other three only ask for attention. */
  lemma BlockingExactly(issue: Issue)
    ensures Blocking(issue) <==>
            || issue == Inconsistent || issue == MissingProvider || issue == InvalidProvider
            || issue == MissingCoreFields || issue == DuplicateArns || issue == AzureInMcp || issue == InvalidSample
  {
  }
}
