/** The `POST /api/message` handler as the source runs it: early returns, and a
    loop that rewrites `output.text` of the conversation response in place.
    Each method is proved against the functions of MessageEndpoint. */
module MessageHandler {
  import opened Js
  import opened MessageEndpoint

  /** The conversation response as a value, before or after the handler
      mutates it. */
  function Snapshot(conversation: Outcome<JsObject>): Outcome<map<string, Json>>
    reads if conversation.Ok? then {conversation.value} else {}
  {
    match conversation
    case Ok(data) => Ok(data.props)
    case Err(error) => Err(error)
  }

  /** The passage loop: `resp.output.text` is reset to "" and then extended,
      one passage at a time, with each of the first min(3, N) passages and the
      suffix. */
  method ComposePassageText(resp: JsObject, passages: seq<Passage>)
    requires HasOutputObject(resp.props)
    modifies resp
    ensures resp.props == WithOutputText(old(resp.props), PassageText(Shown(passages)))
  {
    var numResults := |passages|;
    var nResponses := 0;
    if numResults > 3 {
      nResponses := 3;
    } else {
      nResponses := numResults;
    }
    resp.props := WithOutputText(resp.props, "");
    for i := 0 to nResponses
      invariant resp.props == WithOutputText(old(resp.props), PassageText(passages[..i]))
    {
      var text := Get(Get(resp.Value(), "output"), "text").s;
      PassageTextSnoc(passages[..i], passages[i]);
      assert passages[..i + 1] == passages[..i] + [passages[i]];
      WithOutputTextTwice(old(resp.props), PassageText(passages[..i]), text + passages[i].text + PassageSuffix);
      resp.props := WithOutputText(resp.props, text + passages[i].text + PassageSuffix);
    }
  }

  /** The handler. The conversation response, when there is one, is the object
      the search branch mutates; it is changed only when passages replace its
      `output.text`. */
  method HandleMessage(env: map<string, string>, body: Json, conversation: Outcome<JsObject>,
                       discovery: Outcome<seq<Passage>>, stringify: Json -> string)
    returns (ex: Exchange)
    requires Handleable(env, body, Snapshot(conversation), stringify)
    modifies if conversation.Ok? then {conversation.value} else {}
    ensures ex == Respond(env, body, old(Snapshot(conversation)), discovery, stringify)
    ensures conversation.Ok? ==>
      conversation.value.props ==
        if ex.discoveryQuery.Some? && discovery.Ok? then ex.reply.body.props else old(conversation.value.props)
  {
    var workspace := Or(EnvValue(env, WorkspaceVar), Str(WorkspacePlaceholder));
    if !Truthy(workspace) || workspace == Str(WorkspacePlaceholder) {
      return Exchange(OutputReply(WorkspaceSetupText), None, None);
    }
    var payload := ConversationPayload(workspace, body);

    var environmentId := Or(EnvValue(env, EnvironmentVar), Str(EnvironmentPlaceholder));
    var collectionId := Or(EnvValue(env, CollectionVar), Str(CollectionPlaceholder));
    if !Truthy(environmentId) || !Truthy(collectionId) {
      return Exchange(OutputReply(DiscoverySetupText), None, None);
    }

    match conversation
    case Err(error) =>
      return Exchange(ErrorReply(error), Some(payload), None);
    case Ok(data) =>
      var output := Get(data.Value(), "output");
      if Truthy(output) && Truthy(Get(output, "action")) {
        var outAction := stringify(Get(output, "action"));
        if IndexOf(outAction, DiscoveryMarker) > -1 {
          var userInput := Get(Get(data.Value(), "input"), "text");
          var qclass := Get(Get(data.Value(), "context"), "qclass");
          var query := Obj(map[
            "environment_id" := environmentId,
            "collection_id" := collectionId,
            "natural_language_query" := userInput,
            "passages" := Bool(true)]);
          match discovery
          case Err(error) =>
            return Exchange(ErrorReply(error), Some(payload), Some(query));
          case Ok(passages) =>
            ComposePassageText(data, passages);
            return Exchange(Reply(StatusOk, data.Value()), Some(payload), Some(query));
        } else {
          return Exchange(Reply(StatusOk, data.Value()), Some(payload), None);
        }
      } else {
        return Exchange(Reply(StatusOk, data.Value()), Some(payload), None);
      }
  }
}
