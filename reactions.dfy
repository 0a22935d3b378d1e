/** The reaction endpoints: argument checks and the payload each one sends. */
module Reactions {
  import opened Wrappers
  import opened Js
  import opened Text
  import opened ApiClient

  const ReactRequired := "postId, userId and reactionType are required"
  const RemoveRequired := "postId and userId are required"

  /** `{ postId, userId, reactionType: String(reactionType).toUpperCase() }`. */
  function ReactPayload(postId: Value, userId: Value, reactionType: Value): (v: Value)
    ensures v.Obj? && v.fields.Keys == {"postId", "userId", "reactionType"}
    ensures Get(v, "postId") == postId && Get(v, "userId") == userId
    ensures Get(v, "reactionType") == Str(ToUpper(StringOf(reactionType)))
    ensures forall i :: 0 <= i < |Get(v, "reactionType").s| ==> !IsAsciiLower(Get(v, "reactionType").s[i])
    ensures |Get(v, "reactionType").s| == |StringOf(reactionType)|
  {
    Obj(map["postId" := postId, "userId" := userId, "reactionType" := Str(ToUpper(StringOf(reactionType)))])
  }

  /** `reactToPost({ postId, userId, reactionType })`: the `api.post` call it makes, or the error it throws. */
  function ReactToPost(postId: Value, userId: Value, reactionType: Value): (r: Result<Call, string>)
    ensures r.Err? <==> !Truthy(postId) || !Truthy(userId) || !Truthy(reactionType)
    ensures r.Err? ==> r.error == ReactRequired
    ensures r.Ok? ==> r.value.verb == "post" && r.value.url == "/postReactions/reactPost"
    ensures r.Ok? ==> r.value.opts.data == ReactPayload(postId, userId, reactionType)
    ensures r.Ok? ==> r.value.opts.auth && !r.value.opts.attachUser
    ensures r.Ok? ==> r.value.opts.fallbackMessage == Some("Failed to react to post")
  {
    if !Truthy(postId) || !Truthy(userId) || !Truthy(reactionType) then Err(ReactRequired)
    else
      Ok(ApiWithData("post", "/postReactions/reactPost",
        ReactPayload(postId, userId, reactionType),
        Some(NoOptions.(auth := true, attachUser := false, fallbackMessage := Some("Failed to react to post")))))
  }

  /** `removeReaction({ postId, userId })`: the `api.delete` call it makes, or the error it throws. */
  function RemoveReaction(postId: Value, userId: Value): (r: Result<Call, string>)
    ensures r.Err? <==> !Truthy(postId) || !Truthy(userId)
    ensures r.Err? ==> r.error == RemoveRequired
    ensures r.Ok? ==> r.value.verb == "delete" && r.value.url == "/postReactions/removeReactPost"
    ensures r.Ok? ==> r.value.opts.data == Obj(map["postId" := postId, "userId" := userId])
    ensures r.Ok? ==> r.value.opts.auth && !r.value.opts.attachUser
    ensures r.Ok? ==> r.value.opts.fallbackMessage == Some("Failed to remove reaction")
  {
    if !Truthy(postId) || !Truthy(userId) then Err(RemoveRequired)
    else
      Ok(ApiWithOptions("delete", "/postReactions/removeReactPost",
        Some(NoOptions.(data := Obj(map["postId" := postId, "userId" := userId]),
                        auth := true, attachUser := false, fallbackMessage := Some("Failed to remove reaction")))))
  }

  /** The id `0` and the empty string count as missing. */
  lemma ZeroAndEmptyAreMissing(userId: Value, reactionType: Value)
    ensures ReactToPost(Num(0), userId, reactionType) == Err(ReactRequired)
    ensures ReactToPost(Str(""), userId, reactionType) == Err(ReactRequired)
    ensures RemoveReaction(Num(0), userId) == Err(RemoveRequired)
    ensures RemoveReaction(Str(""), userId) == Err(RemoveRequired)
  {
  }

  /**
   * Through `request`: a reaction either fails for want of a token before
   * any network call, or goes out with exactly its payload (no `user` is
   * attached) and a bearer header.
   */
  lemma ReactionGoesOutAsBuilt(postId: Value, userId: Value, reactionType: Value, raw: Option<string>, parse: Parser)
    requires ReactToPost(postId, userId, reactionType).Ok?
    ensures var c := ReactToPost(postId, userId, reactionType).value;
            var sent := ConfigFor(c.verb, c.url, c.opts, raw, parse);
            (sent.Err? <==> !Truthy(GetToken(raw, parse))) &&
            (sent.Ok? ==> sent.value.data == c.opts.data &&
                          sent.value.headers == map["Authorization" := Bearer(GetToken(raw, parse))])
  {
  }

  /** The same for removing a reaction. */
  lemma RemovalGoesOutAsBuilt(postId: Value, userId: Value, raw: Option<string>, parse: Parser)
    requires RemoveReaction(postId, userId).Ok?
    ensures var c := RemoveReaction(postId, userId).value;
            var sent := ConfigFor(c.verb, c.url, c.opts, raw, parse);
            (sent.Err? <==> !Truthy(GetToken(raw, parse))) &&
            (sent.Ok? ==> sent.value.data == Obj(map["postId" := postId, "userId" := userId]) &&
                          sent.value.verb == "delete")
  {
  }

  /** The reaction type goes out upper-cased, so `'like'` and `'LIKE'` send the same payload. */
  lemma ReactionTypeCaseInsensitive(postId: Value, userId: Value, t: string)
    requires Truthy(postId) && Truthy(userId) && t != ""
    ensures ReactToPost(postId, userId, Str(t)) == ReactToPost(postId, userId, Str(ToUpper(t)))
  {
    ToUpperIdempotent(t);
  }
}
