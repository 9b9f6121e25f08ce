/** What the request compiler of aiotumblr/extensions/utils.py does with
    the descriptors of aiotumblr/extensions/public.py: which calls reach the
    dispatch, and the request each one sends.  Each descriptor is compiled
    with the classification of its own `params` and `body` fields.  The
    lemmas are about the compiled call (`Shape`); installing it on a client
    is another matter: `create_method` reads `method_name`, which only the
    first four descriptors carry, so `Client.CreateMethod` raises `KeyError`
    for the others (`follow_blog` and `create_post` among them) and no
    client ever makes those calls. */
module TableCalls {
  import opened Values
  import opened Descriptors
  import opened Template
  import opened Endpoints
  import opened EndpointFacts
  import opened RequestCompiler

  /** Formatting a blog template fills in the blog identifier. */
  lemma BlogPathFormat(suffix: string, args: map<string, string>)
    requires Plain(suffix) && "blog_identifier" in args
    ensures Format(BlogPath(suffix), args) == Ok("blog/" + args["blog_identifier"] + suffix)
  {
    var field := "{" + "blog_identifier" + "}" + suffix;
    assert BlogPath(suffix) == "blog/" + field;
    PlainPrefix("blog/", field, args);
    BlogIdentifierIsKeyword();
    FieldPrefix("blog_identifier", suffix, args);
    PlainPrefix(suffix, "", args);
    assert suffix + "" == suffix && suffix + [] == suffix;
    assert "blog/" + (args["blog_identifier"] + suffix) == "blog/" + args["blog_identifier"] + suffix;
  }

  /** Formatting a template without fields gives it back. */
  lemma PlainFormat(t: string, args: map<string, string>)
    requires Plain(t)
    ensures Format(t, args) == Ok(t)
  {
    PlainPrefix(t, "", args);
    assert t + "" == t && t + [] == t;
  }

  /** Lines 11-16 on the table: for every descriptor but
      `get_user_dashboard`, the endpoint is built exactly when every URL
      parameter is supplied, and otherwise the error is the `RuntimeError`
      naming a missing one (never a template error). */
  lemma UrlArgumentsDecideEndpoint(i: nat, kwargs: Kwargs)
    requires i < |Table| && i != 16
    ensures Table[i].urlParameters.Present?
    ensures EndpointOf(Table[i], kwargs).Ok? <==>
            forall k :: 0 <= k < |Table[i].urlParameters.value| ==> Table[i].urlParameters.value[k] in kwargs
    ensures EndpointOf(Table[i], kwargs).Err? ==>
            EndpointOf(Table[i], kwargs).error.RuntimeError? &&
            EndpointOf(Table[i], kwargs).error.cause.MissingUrlArgument? &&
            EndpointOf(Table[i], kwargs).error.cause.name in Table[i].urlParameters.value &&
            EndpointOf(Table[i], kwargs).error.cause.name !in kwargs
  {
    OnlyDashboardLacksUrlParameters();
    TemplatesMatchUrlParameters();
    var d := Table[i];
    assert TemplateMatches(d);
    var names := d.urlParameters.value;
    if Missing(names, kwargs).None? {
      var signature := Signature(names, kwargs);
      FormatSucceedsIff(d.endpoint, signature);
      assert forall n :: n in names ==> n in signature;
    }
  }

  /** `get_user_dashboard` has no `url_parameters` key, so every call of
      its method raises `KeyError` before anything is sent. */
  lemma DashboardCallsAlwaysRaise(params: Classified, body: Classified, kwargs: Kwargs)
    ensures Shape(Table[16], params, body, kwargs) == Err(KeyError("url_parameters"))
  {
    OnlyDashboardLacksUrlParameters();
  }

  // The classification each descriptor is compiled with: its fields split
  // by their `required` flag, in declaration order.

  /** A field list with no required entry classifies as all optional. */
  lemma {:induction false} AllOptionalClassified(fs: seq<Field>)
    requires forall i :: 0 <= i < |fs| ==> !fs[i].required
    ensures RequiredNames(fs) == [] && OptionalNames(fs) == FieldNames(fs)
  {
    if fs != [] {
      AllOptionalClassified(fs[1..]);
    }
  }

  /** A field list whose first entry alone is required. */
  lemma FirstRequiredClassified(fs: seq<Field>)
    requires |fs| >= 1 && fs[0].required
    requires forall i :: 1 <= i < |fs| ==> !fs[i].required
    ensures RequiredNames(fs) == [fs[0].name] && OptionalNames(fs) == FieldNames(fs[1..])
  {
    AllOptionalClassified(fs[1..]);
  }

  const NoFields := Classified([], [])

  /** The `params` of `get_blog_likes`: all four are optional. */
  const LikesParams := Classified([], ["limit", "offset", "before", "after"])

  lemma LikesClassification()
    ensures Classify(Some(GetBlogLikes.params)) == LikesParams
    ensures Classify(GetBlogLikes.body) == NoFields
  {
    var fs := GetBlogLikes.params;
    AllOptionalClassified(fs);
    assert FieldNames(fs) == LikesParams.optional;
  }

  /** The body of `follow_blog`: `url` alone, required. */
  const FollowBody := Classified(["url"], [])

  lemma FollowClassification()
    ensures Classify(Some(FollowBlog.params)) == NoFields
    ensures Classify(FollowBlog.body) == FollowBody
  {
  }

  /** The body of `create_post`. */
  const CreatePostBody := Classify(CreatePost.body)

  lemma CreatePostClassification()
    ensures Classify(Some(CreatePost.params)) == NoFields
    ensures CreatePostBody.required == ["content"]
    ensures CreatePostBody.optional == FieldNames(CreatePost.body.value[1..])
    ensures |CreatePostBody.optional| == 7 && "layout" in CreatePostBody.optional
  {
    FirstRequiredClassified(CreatePost.body.value);
    assert CreatePost.body.value[1].name == "layout";
  }

  // Composing the steps of a call.

  lemma EmptyCollect(kwargs: Kwargs, raw: bool, part: Part)
    ensures Collect(NoFields, kwargs, raw, part) == Ok([])
  {
    assert Missing([], kwargs) == None;
    assert Pick([], kwargs, raw) == [];
    assert Pick([], kwargs, raw) + Pick([], kwargs, raw) == [];
  }

  /** A call that gets past its three checks sends what the dispatch
      chooses. */
  lemma ShapeOfSteps(d: Descriptor, params: Classified, body: Classified, kwargs: Kwargs,
                     endpoint: string, query: Pairs, fields: Pairs)
    requires EndpointOf(d, kwargs) == Ok(endpoint)
    requires Collect(params, kwargs, false, QueryPart) == Ok(query)
    requires BodyOf(d, body, kwargs) == Ok(fields)
    ensures Shape(d, params, body, kwargs) == Dispatch(d, endpoint, query, fields)
  {
  }

  /** A call whose body check fails raises that error. */
  lemma ShapeOfBodyError(d: Descriptor, params: Classified, body: Classified, kwargs: Kwargs,
                         endpoint: string, query: Pairs)
    requires EndpointOf(d, kwargs) == Ok(endpoint)
    requires Collect(params, kwargs, false, QueryPart) == Ok(query)
    requires BodyOf(d, body, kwargs).Err?
    ensures Shape(d, params, body, kwargs) == Err(BodyOf(d, body, kwargs).error)
  {
  }

  // `get_blog_likes`.

  lemma LikesEndpoint(kwargs: Kwargs)
    requires "blog_identifier" in kwargs
    ensures EndpointOf(GetBlogLikes, kwargs) == Ok("blog/" + Text(kwargs["blog_identifier"]) + "/likes")
  {
    var signature := Signature(["blog_identifier"], kwargs);
    assert "/likes"[0] == '/';
    BlogPathFormat("/likes", signature);
  }

  lemma LikesBody(kwargs: Kwargs)
    ensures BodyOf(GetBlogLikes, NoFields, kwargs) == Ok([])
  {
    assert GetBlogLikes.bodyType == Present(None);
    EmptyCollect(kwargs, false, BodyPart);
  }

  lemma LikesDispatch(e: string, q: Pairs)
    ensures Dispatch(GetBlogLikes, e, q, []) == Ok(Request("GET", e, q, NoBody, NoHeaders))
  {
  }

  /** A `get_blog_likes` call with the blog identifier supplied always
      sends a GET of the blog's likes path, with exactly the supplied paging
      arguments in declaration order and no body: the validators are never
      consulted. */
  lemma LikesCallSkipsValidators(kwargs: Kwargs)
    requires "blog_identifier" in kwargs
    ensures Shape(GetBlogLikes, LikesParams, NoFields, kwargs) ==
            Ok(Request("GET", "blog/" + Text(kwargs["blog_identifier"]) + "/likes",
                       Pick(["limit", "offset", "before", "after"], kwargs, false), NoBody, NoHeaders))
  {
    var endpoint := "blog/" + Text(kwargs["blog_identifier"]) + "/likes";
    var query := Pick(LikesParams.optional, kwargs, false);
    LikesEndpoint(kwargs);
    LikesBody(kwargs);
    assert Collect(LikesParams, kwargs, false, QueryPart) == Ok([] + query);
    assert [] + query == query;
    ShapeOfSteps(GetBlogLikes, LikesParams, NoFields, kwargs, endpoint, query, []);
    LikesDispatch(endpoint, query);
  }

  /** The paging arguments of the example call below, in declaration order. */
  lemma ExamplePaging(kwargs: Kwargs)
    requires kwargs == map["blog_identifier" := StrValue("staff"), "limit" := IntValue(21), "offset" := IntValue(0)]
    ensures Pick(["limit", "offset", "before", "after"], kwargs, false) ==
            [("limit", IntValue(21)), ("offset", IntValue(0))]
  {
    assert Pick(["after"], kwargs, false) == [];
    assert Pick(["before", "after"], kwargs, false) == [];
    assert Pick(["offset", "before", "after"], kwargs, false) == [("offset", IntValue(0))];
  }

  /** An out-of-range `limit` of 21 is sent as it is, and an `offset` of 0,
      though falsy, counts as supplied. */
  lemma OutOfRangeLimitIsSent(kwargs: Kwargs)
    requires kwargs == map["blog_identifier" := StrValue("staff"), "limit" := IntValue(21), "offset" := IntValue(0)]
    ensures !FieldAccepts(GetBlogLikes.params[0], kwargs["limit"])
    ensures Shape(GetBlogLikes, LikesParams, NoFields, kwargs) ==
            Ok(Request("GET", "blog/" + "staff" + "/likes", [("limit", IntValue(21)), ("offset", IntValue(0))],
                       NoBody, NoHeaders))
  {
    LikesPagingValidators(IntValue(21));
    LikesCallSkipsValidators(kwargs);
    ExamplePaging(kwargs);
    assert Text(kwargs["blog_identifier"]) == "staff";
  }

  // `follow_blog`.

  lemma FollowEndpoint(kwargs: Kwargs)
    ensures EndpointOf(FollowBlog, kwargs) == Ok("user/follow")
  {
    assert Missing([], kwargs) == None;
    assert Signature([], kwargs) == map[];
    PlainFormat("user/follow", map[]);
  }

  lemma FollowBodyOf(kwargs: Kwargs)
    ensures "url" in kwargs ==> BodyOf(FollowBlog, FollowBody, kwargs) == Ok([("url", FormatParameter(kwargs["url"]))])
    ensures "url" !in kwargs ==> BodyOf(FollowBlog, FollowBody, kwargs) == Err(RuntimeError(MissingBodyKey("url")))
  {
    assert FollowBlog.bodyType == Present(Some("kv"));
    assert Pick([], kwargs, false) == [];
    if "url" in kwargs {
      assert Missing(["url"], kwargs) == None;
      assert Pick(["url"], kwargs, false) == [("url", FormatParameter(kwargs["url"]))] + [];
      assert "kv"[0] != "json"[0];
      var sent := [("url", FormatParameter(kwargs["url"]))];
      assert FollowBody.required == ["url"] && FollowBody.optional == [];
      assert Pick(FollowBody.required, kwargs, false) + Pick(FollowBody.optional, kwargs, false) == sent;
      assert Collect(FollowBody, kwargs, false, BodyPart) == Ok(sent);
    }
  }

  lemma FollowDispatch(e: string, q: Pairs, b: Pairs)
    ensures Dispatch(FollowBlog, e, q, b) ==
            Ok(Request("POST", e, q, Data(b), ContentType(Some("application/x-www-form-urlencoded"))))
  {
  }

  /** `follow_blog` posts the form `url=…` (booleans lowered) to
      `user/follow` with the form content type, and raises the body-key
      error when `url` is missing. */
  lemma FollowBlogCall(kwargs: Kwargs)
    ensures "url" in kwargs ==>
              Shape(FollowBlog, NoFields, FollowBody, kwargs) ==
              Ok(Request("POST", "user/follow", [], Data([("url", FormatParameter(kwargs["url"]))]),
                         ContentType(Some("application/x-www-form-urlencoded"))))
    ensures "url" !in kwargs ==>
              Shape(FollowBlog, NoFields, FollowBody, kwargs) == Err(RuntimeError(MissingBodyKey("url")))
  {
    FollowEndpoint(kwargs);
    EmptyCollect(kwargs, false, QueryPart);
    FollowBodyOf(kwargs);
    if "url" in kwargs {
      var body := [("url", FormatParameter(kwargs["url"]))];
      ShapeOfSteps(FollowBlog, NoFields, FollowBody, kwargs, "user/follow", [], body);
      FollowDispatch("user/follow", [], body);
    } else {
      ShapeOfBodyError(FollowBlog, NoFields, FollowBody, kwargs, "user/follow", []);
    }
  }

  // `create_post`.

  lemma CreatePostEndpoint(kwargs: Kwargs)
    requires "blog_identifier" in kwargs
    ensures EndpointOf(CreatePost, kwargs) == Ok("blog/" + Text(kwargs["blog_identifier"]) + "/posts")
  {
    var signature := Signature(["blog_identifier"], kwargs);
    assert "/posts"[0] == '/';
    BlogPathFormat("/posts", signature);
  }

  lemma CreatePostDispatch(e: string, q: Pairs, b: Pairs)
    ensures Dispatch(CreatePost, e, q, b) == Ok(Request("POST", e, q, Json(b), ContentType(Some("application/json"))))
  {
  }

  lemma CreatePostBodyOf(kwargs: Kwargs)
    ensures BodyOf(CreatePost, CreatePostBody, kwargs) == Collect(CreatePostBody, kwargs, true, BodyPart)
  {
    assert CreatePost.bodyType == Present(Some("json"));
  }

  /** `create_post` sends a JSON body holding `content` and the supplied
      optional keys in declaration order, each value exactly as given (a
      boolean stays a boolean), with the JSON content type; without
      `content` it raises the body-key error. */
  lemma CreatePostSendsRawJson(kwargs: Kwargs)
    requires "blog_identifier" in kwargs
    ensures "content" !in kwargs ==>
              Shape(CreatePost, NoFields, CreatePostBody, kwargs) == Err(RuntimeError(MissingBodyKey("content")))
    ensures "content" in kwargs ==>
              var s := Shape(CreatePost, NoFields, CreatePostBody, kwargs);
              s.Ok? && s.value.verb == "POST" &&
              s.value.endpoint == "blog/" + Text(kwargs["blog_identifier"]) + "/posts" &&
              s.value.params == [] && s.value.headers == ContentType(Some("application/json")) &&
              s.value.payload.Json? &&
              Keys(s.value.payload.document) == ["content"] + Filter(CreatePostBody.optional, kwargs.Keys) &&
              forall j :: 0 <= j < |s.value.payload.document| ==>
                s.value.payload.document[j].1 == kwargs[s.value.payload.document[j].0]
  {
    CreatePostClassification();
    var endpoint := "blog/" + Text(kwargs["blog_identifier"]) + "/posts";
    CreatePostEndpoint(kwargs);
    EmptyCollect(kwargs, false, QueryPart);
    CreatePostBodyOf(kwargs);
    if "content" in kwargs {
      CollectContents(CreatePostBody, kwargs, true, BodyPart);
      var body := Collect(CreatePostBody, kwargs, true, BodyPart).value;
      ShapeOfSteps(CreatePost, NoFields, CreatePostBody, kwargs, endpoint, [], body);
      CreatePostDispatch(endpoint, [], body);
    } else {
      assert Missing(CreatePostBody.required, kwargs) == Some(0);
      ShapeOfBodyError(CreatePost, NoFields, CreatePostBody, kwargs, endpoint, []);
    }
  }
}
