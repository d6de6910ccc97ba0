/** The `POST /api/message` endpoint of app.js: configuration guards, the
    conversation payload, pass-through of upstream errors, the decision to
    enrich a reply with document-search passages, and the passage composition.
    The two service calls are inputs (their outcomes), not effects; the result
    records the reply and the payloads the endpoint sends. */
module MessageEndpoint {
  import opened Js

  // Environment variables and the placeholders `||` substitutes for them.
  const WorkspaceVar := "WORKSPACE_ID"
  const WorkspacePlaceholder := "<workspace-id>"
  const EnvironmentVar := "DISCOVERY_ENVIRONMENT_ID"
  const EnvironmentPlaceholder := "<discovery-environment-id>"
  const CollectionVar := "DISCOVERY_COLLECTION_ID"
  const CollectionPlaceholder := "<discovery-collection-id>"

  /** The marker whose presence in the serialised action requests a search. */
  const DiscoveryMarker := "call_discovery"
  /** Appended after every passage. */
  const PassageSuffix := "<br></br><br></br>"
  /** At most this many passages are shown. */
  const MaxPassages := 3

  /** Instructional texts of the two configuration guards; their wording is
      not significant to the model, only that they are fixed. */
  const WorkspaceSetupText := "The app has not been configured with a <b>WORKSPACE_ID</b> environment variable."
  const DiscoverySetupText := "The app requires a DISCOVERY instance to be setup and documents ingest into a collection."

  const StatusOk := Num(200.0)
  const DefaultErrorStatus := Num(500.0)

  /** Outcome of a call to one of the services: its response, or the error
      object the client library reports. */
  datatype Outcome<+T> = Ok(value: T) | Err(error: map<string, Json>)

  /** One passage of a search result (its `passage_text`). */
  datatype Passage = Passage(text: string)

  /** What `res` is sent: a status and a JSON body. */
  datatype Reply = Reply(status: Json, body: Json)

  /** The reply together with the payloads sent to the conversation service
      and to the search service (None: that service was not called). */
  datatype Exchange = Exchange(reply: Reply, conversationPayload: Option<Json>, discoveryQuery: Option<Json>)

  function OutputReply(text: string): Reply {
    Reply(StatusOk, Obj(map["output" := Obj(map["text" := Str(text)])]))
  }

  /** `process.env[name]`. */
  function EnvValue(env: map<string, string>, name: string): Json {
    if name in env then Str(env[name]) else Undefined
  }

  /** `process.env[name] || placeholder`: the configured value when it is set
      and non-empty, the placeholder otherwise. */
  function Setting(env: map<string, string>, name: string, placeholder: string): (r: Json)
    requires placeholder != ""
    ensures r.Str? && Truthy(r)
    ensures name in env && env[name] != "" ==> r.s == env[name]
    ensures name !in env || env[name] == "" ==> r.s == placeholder
  {
    Or(EnvValue(env, name), Str(placeholder))
  }

  function Workspace(env: map<string, string>): Json {
    Setting(env, WorkspaceVar, WorkspacePlaceholder)
  }

  function EnvironmentId(env: map<string, string>): Json {
    Setting(env, EnvironmentVar, EnvironmentPlaceholder)
  }

  function CollectionId(env: map<string, string>): Json {
    Setting(env, CollectionVar, CollectionPlaceholder)
  }

  /** The guard `!workspace || workspace === '<workspace-id>'`. */
  predicate WorkspaceGuard(env: map<string, string>) {
    var workspace := Workspace(env);
    !Truthy(workspace) || workspace == Str(WorkspacePlaceholder)
  }

  /** The guard `!discovery_environment_id || !discovery_collection_id`. */
  predicate DiscoveryGuard(env: map<string, string>) {
    !Truthy(EnvironmentId(env)) || !Truthy(CollectionId(env))
  }

  /** The payload of the conversation call. */
  function ConversationPayload(workspace: Json, body: Json): Json
    requires Readable(body)
  {
    Obj(map[
      "workspace_id" := workspace,
      "context" := Or(Get(body, "context"), Obj(map[])),
      "input" := Or(Get(body, "input"), Obj(map[])),
      "alternate_intents" := Bool(true)])
  }

  /** `data.output && data.output.action`, and the serialised action contains
      the search marker. */
  predicate ShouldEnrich(data: map<string, Json>, stringify: Json -> string) {
    var output := Get(Obj(data), "output");
    Truthy(output) && Truthy(Get(output, "action"))
    && IndexOf(stringify(Get(output, "action")), DiscoveryMarker) > -1
  }

  /** The payload of the search call: the utterance the conversation service
      echoes back, as a natural-language query, with passages requested. */
  function DiscoveryQuery(environmentId: Json, collectionId: Json, data: map<string, Json>): Json
    requires Readable(Get(Obj(data), "input"))
  {
    Obj(map[
      "environment_id" := environmentId,
      "collection_id" := collectionId,
      "natural_language_query" := Get(Get(Obj(data), "input"), "text"),
      "passages" := Bool(true)])
  }

  /** The reply that passes an upstream error through. */
  function ErrorReply(error: map<string, Json>): (r: Reply)
    ensures r.body == Obj(error)
    ensures Truthy(r.status)
    ensures "code" in error && Truthy(error["code"]) ==> r.status == error["code"]
    ensures !("code" in error && Truthy(error["code"])) ==> r.status == DefaultErrorStatus
  {
    Reply(Or(Get(Obj(error), "code"), DefaultErrorStatus), Obj(error))
  }

  /** The passages shown: the first min(3, N), in the order received. */
  function Shown(passages: seq<Passage>): (r: seq<Passage>)
    ensures |r| <= MaxPassages
    ensures |r| == if |passages| > MaxPassages then MaxPassages else |passages|
    ensures r == passages[..|r|]
  {
    passages[..if |passages| > MaxPassages then MaxPassages else |passages|]
  }

  /** Each passage's text followed by the suffix, concatenated in order. */
  function PassageText(passages: seq<Passage>): string {
    if passages == [] then "" else passages[0].text + PassageSuffix + PassageText(passages[1..])
  }

  /** The response has an `output` object whose properties can be set. */
  predicate HasOutputObject(data: map<string, Json>) {
    "output" in data && data["output"].Obj?
  }

  /** `data.output.text = text`; everything else is unchanged. */
  function WithOutputText(data: map<string, Json>, text: string): (r: map<string, Json>)
    requires HasOutputObject(data)
    ensures HasOutputObject(r) && r.Keys == data.Keys
    ensures forall k :: k in data && k != "output" ==> r[k] == data[k]
    ensures r["output"].props.Keys == data["output"].props.Keys + {"text"}
    ensures r["output"].props["text"] == Str(text)
    ensures forall k :: k in data["output"].props && k != "text" ==> r["output"].props[k] == data["output"].props[k]
  {
    data["output" := Obj(data["output"].props["text" := Str(text)])]
  }

  /** Setting `output.text` twice keeps only the second value. */
  lemma WithOutputTextTwice(data: map<string, Json>, first: string, second: string)
    requires HasOutputObject(data)
    ensures WithOutputText(WithOutputText(data, first), second) == WithOutputText(data, second)
  {
    assert data["output"].props["text" := Str(first)]["text" := Str(second)]
        == data["output"].props["text" := Str(second)];
  }

  /** The reads at app.js:85-86 do not throw: when the reply is enriched, the
      conversation response carries `input` and `context`. */
  predicate EnrichmentReadable(conversation: Outcome<map<string, Json>>, stringify: Json -> string) {
    conversation.Ok? && ShouldEnrich(conversation.value, stringify) ==>
      Readable(Get(Obj(conversation.value), "input")) && Readable(Get(Obj(conversation.value), "context"))
  }

  /** What the endpoint needs of a request it gets past the workspace guard. */
  predicate Handleable(env: map<string, string>, body: Json, conversation: Outcome<map<string, Json>>,
                       stringify: Json -> string)
  {
    !WorkspaceGuard(env) ==> Readable(body) && EnrichmentReadable(conversation, stringify)
  }

  /** The endpoint as a function of the configuration, the request body and
      the outcomes of the two calls. */
  function Respond(env: map<string, string>, body: Json, conversation: Outcome<map<string, Json>>,
                   discovery: Outcome<seq<Passage>>, stringify: Json -> string): (r: Exchange)
    requires Handleable(env, body, conversation, stringify)
    ensures r.discoveryQuery.Some? ==> r.conversationPayload.Some?
    ensures r.reply.body.Obj?
  {
    if WorkspaceGuard(env) then
      Exchange(OutputReply(WorkspaceSetupText), None, None)
    else
      var payload := ConversationPayload(Workspace(env), body);
      if DiscoveryGuard(env) then
        Exchange(OutputReply(DiscoverySetupText), None, None)
      else
        match conversation
        case Err(error) => Exchange(ErrorReply(error), Some(payload), None)
        case Ok(data) =>
          if !ShouldEnrich(data, stringify) then
            Exchange(Reply(StatusOk, Obj(data)), Some(payload), None)
          else
            var query := DiscoveryQuery(EnvironmentId(env), CollectionId(env), data);
            match discovery
            case Err(error) => Exchange(ErrorReply(error), Some(payload), Some(query))
            case Ok(passages) =>
              Exchange(Reply(StatusOk, Obj(WithOutputText(data, PassageText(Shown(passages))))),
                       Some(payload), Some(query))
  }

  // ---------------------------------------------------------------------
  // Configuration guards

  /** The workspace guard fires exactly when WORKSPACE_ID is unset, empty or
      the placeholder itself. */
  lemma WorkspaceGuardExactly(env: map<string, string>)
    ensures WorkspaceGuard(env) <==>
      WorkspaceVar !in env || env[WorkspaceVar] == "" || env[WorkspaceVar] == WorkspacePlaceholder
  {
  }

  /** The search-configuration guard is dead: both ids default to non-empty
      placeholders, which are then used as they are. */
  lemma DiscoveryGuardNeverFires(env: map<string, string>)
    ensures !DiscoveryGuard(env)
    ensures EnvironmentVar !in env || env[EnvironmentVar] == "" ==> EnvironmentId(env) == Str(EnvironmentPlaceholder)
    ensures CollectionVar !in env || env[CollectionVar] == "" ==> CollectionId(env) == Str(CollectionPlaceholder)
  {
  }

  /** The conversation payload has exactly four fields: the resolved
      workspace, the request's context and input (an empty object in place of
      a falsy one) and `alternate_intents: true`. */
  lemma ConversationPayloadShape(workspace: Json, body: Json)
    requires Readable(body)
    ensures ConversationPayload(workspace, body).Obj?
    ensures ConversationPayload(workspace, body).props.Keys == {"workspace_id", "context", "input", "alternate_intents"}
    ensures ConversationPayload(workspace, body).props["workspace_id"] == workspace
    ensures ConversationPayload(workspace, body).props["context"] ==
      if Truthy(Get(body, "context")) then Get(body, "context") else Obj(map[])
    ensures ConversationPayload(workspace, body).props["input"] ==
      if Truthy(Get(body, "input")) then Get(body, "input") else Obj(map[])
    ensures Truthy(ConversationPayload(workspace, body).props["context"])
    ensures Truthy(ConversationPayload(workspace, body).props["input"])
    ensures ConversationPayload(workspace, body).props["alternate_intents"] == Bool(true)
  {
  }

  // ---------------------------------------------------------------------
  // The endpoint

  /** The conversation service is called exactly when the workspace guard
      does not fire, with the payload built from the resolved workspace; when
      it fires the reply is the fixed instruction and nothing is called. */
  lemma RespondWorkspaceGuard(env: map<string, string>, body: Json, conversation: Outcome<map<string, Json>>,
                              discovery: Outcome<seq<Passage>>, stringify: Json -> string)
    requires Handleable(env, body, conversation, stringify)
    ensures Respond(env, body, conversation, discovery, stringify).conversationPayload.None? <==> WorkspaceGuard(env)
    ensures WorkspaceGuard(env) ==>
      Respond(env, body, conversation, discovery, stringify) == Exchange(OutputReply(WorkspaceSetupText), None, None)
    ensures !WorkspaceGuard(env) ==>
      Respond(env, body, conversation, discovery, stringify).conversationPayload == Some(ConversationPayload(Workspace(env), body))
  {
  }

  /** A conversation error is the reply, status `err.code || 500`, body the
      error object; search is not called. */
  lemma RespondConversationError(env: map<string, string>, body: Json, error: map<string, Json>,
                                 discovery: Outcome<seq<Passage>>, stringify: Json -> string)
    requires !WorkspaceGuard(env) && Readable(body)
    ensures Respond(env, body, Err(error), discovery, stringify).reply == ErrorReply(error)
    ensures Respond(env, body, Err(error), discovery, stringify).discoveryQuery.None?
  {
  }

  /** When the response has no output, no action, or an action whose
      serialisation lacks the marker, the reply is the response unchanged and
      search is not called. */
  lemma RespondPassesThrough(env: map<string, string>, body: Json, data: map<string, Json>,
                             discovery: Outcome<seq<Passage>>, stringify: Json -> string)
    requires !WorkspaceGuard(env) && Readable(body)
    requires var output := Get(Obj(data), "output");
      !Truthy(output) || !Truthy(Get(output, "action")) || !Contains(stringify(Get(output, "action")), DiscoveryMarker)
    ensures Respond(env, body, Ok(data), discovery, stringify).reply == Reply(StatusOk, Obj(data))
    ensures Respond(env, body, Ok(data), discovery, stringify).discoveryQuery.None?
  {
  }

  /** When enrichment triggers, search is queried with the utterance echoed by
      the conversation service (not the request's), passages requested, and
      the configured (or placeholder) environment and collection. */
  lemma RespondQueriesDiscovery(env: map<string, string>, body: Json, data: map<string, Json>,
                                discovery: Outcome<seq<Passage>>, stringify: Json -> string)
    requires !WorkspaceGuard(env) && Readable(body) && ShouldEnrich(data, stringify)
    requires Readable(Get(Obj(data), "input")) && Readable(Get(Obj(data), "context"))
    ensures Respond(env, body, Ok(data), discovery, stringify).discoveryQuery ==
      Some(Obj(map[
        "environment_id" := EnvironmentId(env),
        "collection_id" := CollectionId(env),
        "natural_language_query" := Get(data["input"], "text"),
        "passages" := Bool(true)]))
  {
  }

  /** A search error replaces the whole reply: status `error.code || 500`,
      body the search error; the conversation response is discarded. */
  lemma RespondDiscoveryError(env: map<string, string>, body: Json, data: map<string, Json>,
                              error: map<string, Json>, stringify: Json -> string)
    requires !WorkspaceGuard(env) && Readable(body) && ShouldEnrich(data, stringify)
    requires Readable(Get(Obj(data), "input")) && Readable(Get(Obj(data), "context"))
    ensures Respond(env, body, Ok(data), Err(error), stringify).reply == ErrorReply(error)
  {
  }

  /** On search success the reply is the conversation response with only
      `output.text` replaced by the first min(3, N) passages, each followed by
      the suffix. */
  lemma RespondEnriched(env: map<string, string>, body: Json, data: map<string, Json>,
                        passages: seq<Passage>, stringify: Json -> string)
    requires !WorkspaceGuard(env) && Readable(body) && ShouldEnrich(data, stringify)
    requires Readable(Get(Obj(data), "input")) && Readable(Get(Obj(data), "context"))
    ensures var reply := Respond(env, body, Ok(data), Ok(passages), stringify).reply;
      && reply.status == StatusOk
      && reply.body.Obj? && reply.body.props.Keys == data.Keys
      && (forall k :: k in data && k != "output" ==> reply.body.props[k] == data[k])
      && data["output"].Obj? && reply.body.props["output"].Obj?
      && reply.body.props["output"].props.Keys == data["output"].props.Keys + {"text"}
      && (forall k :: k in data["output"].props && k != "text" ==>
            reply.body.props["output"].props[k] == data["output"].props[k])
      && reply.body.props["output"].props["text"] == Str(PassageText(Shown(passages)))
  {
  }

  /** Enrichment is decided by a substring test on the serialised action. */
  lemma ShouldEnrichExactly(data: map<string, Json>, stringify: Json -> string)
    ensures ShouldEnrich(data, stringify) <==>
      var output := Get(Obj(data), "output");
      Truthy(output) && Truthy(Get(output, "action")) && Contains(stringify(Get(output, "action")), DiscoveryMarker)
  {
  }

  // ---------------------------------------------------------------------
  // Passage composition

  /** Appending a passage appends its text and the suffix. */
  lemma {:induction false} PassageTextSnoc(passages: seq<Passage>, p: Passage)
    ensures PassageText(passages + [p]) == PassageText(passages) + p.text + PassageSuffix
  {
    if passages == [] {
      assert passages + [p] == [p];
    } else {
      assert (passages + [p])[1..] == passages[1..] + [p];
      PassageTextSnoc(passages[1..], p);
    }
  }

  /** The text of a sequence of passages is the text of any prefix followed by
      the text of the rest. */
  lemma {:induction false} PassageTextSplit(passages: seq<Passage>, i: nat)
    requires i <= |passages|
    ensures PassageText(passages) == PassageText(passages[..i]) + PassageText(passages[i..])
  {
    if i > 0 {
      assert passages[..i][1..] == passages[1..][..i - 1];
      assert passages[i..] == passages[1..][i - 1..];
      PassageTextSplit(passages[1..], i - 1);
    }
  }

  /** Order is preserved: passage i's text and suffix follow those of the
      passages before it. */
  lemma {:induction false} PassageTextAt(passages: seq<Passage>, i: nat)
    requires i < |passages|
    ensures PassageText(passages) ==
      PassageText(passages[..i]) + passages[i].text + PassageSuffix + PassageText(passages[i + 1..])
  {
    if i == 0 {
      assert passages[..0] == [] && passages[1..] == passages[i + 1..];
    } else {
      var tail := passages[1..];
      PassageTextAt(tail, i - 1);
      assert tail[..i - 1] == passages[..i][1..];
      assert tail[i - 1] == passages[i] && tail[i..] == passages[i + 1..];
      var head := passages[0].text + PassageSuffix;
      var front, p, rest := PassageText(tail[..i - 1]), passages[i].text, PassageText(passages[i + 1..]);
      assert PassageText(passages[..i]) == head + front;
      calc {
        PassageText(passages);
        head + PassageText(tail);
        head + (((front + p) + PassageSuffix) + rest);
        { ConcatAssoc(head, (front + p) + PassageSuffix, rest); }
        (head + ((front + p) + PassageSuffix)) + rest;
        { ConcatAssoc(head, front + p, PassageSuffix); }
        ((head + (front + p)) + PassageSuffix) + rest;
        { ConcatAssoc(head, front, p); }
        (((head + front) + p) + PassageSuffix) + rest;
      }
    }
  }

  lemma ConcatAssoc(a: string, b: string, c: string)
    ensures a + (b + c) == (a + b) + c
  {
  }

  /** With no passages the text is empty; with three or more it is exactly
      the first three, in order. */
  lemma ShownText(passages: seq<Passage>)
    ensures passages == [] ==> PassageText(Shown(passages)) == ""
    ensures |passages| >= 3 ==>
      PassageText(Shown(passages)) ==
        passages[0].text + PassageSuffix + passages[1].text + PassageSuffix + passages[2].text + PassageSuffix
  {
    if |passages| >= 3 {
      var s := Shown(passages);
      assert s[1..][1..][1..] == [];
      assert PassageText(s[1..][1..]) == passages[2].text + PassageSuffix;
      assert PassageText(s[1..]) == passages[1].text + PassageSuffix + PassageText(s[1..][1..]);
    }
  }

  /** Passages beyond the third never affect the reply. */
  lemma ShownIgnoresLater(passages: seq<Passage>, later: seq<Passage>)
    requires |passages| >= MaxPassages
    ensures Shown(passages + later) == Shown(passages)
  {
  }
}
