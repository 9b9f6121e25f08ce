/** Well-formedness facts about the endpoint table of public.py: every
    template names its `url_parameters`, no dict repeats a field name,
    every validator is the one its field's name calls for, and the shape of
    each entry fits the branch of the request compiler it will take. */
module EndpointFacts {
  import opened Values
  import opened Descriptors
  import opened Template
  import opened Endpoints

  /** The fields `str.format` finds in the template of `d` are its
      `url_parameters`, in order (vacuous for a descriptor without them). */
  predicate TemplateMatches(d: Descriptor)
  {
    d.urlParameters.Present? ==> Fields(d.endpoint) == Some(d.urlParameters.value)
  }

  /** `blog_identifier` is looked up among the keyword arguments. */
  lemma BlogIdentifierIsKeyword()
    ensures KeywordName("blog_identifier")
  {
    LetterFirstKeyword("blog_identifier");
  }

  lemma BlogPathFields(suffix: string)
    requires Plain(suffix)
    ensures Fields(BlogPath(suffix)) == Some(["blog_identifier"])
  {
    BlogIdentifierIsKeyword();
    OneFieldFields("blog/", "blog_identifier", suffix);
    assert BlogPath(suffix) == "blog/" + ("{" + "blog_identifier" + "}" + suffix);
  }

  lemma BlogPathFields2(middle: string, name: string)
    requires Plain(middle) && Plain(name) && name != [] && !IsDigit(name[0])
    ensures Fields(BlogPath(middle + ("{" + name + "}"))) == Some(["blog_identifier", name])
  {
    BlogIdentifierIsKeyword();
    LetterFirstKeyword(name);
    TwoFieldFields("blog/", "blog_identifier", middle, name);
    assert "{" + name + "}" + "" == "{" + name + "}";
    var tail := middle + ("{" + name + "}");
    assert BlogPath(tail) == "blog/" + ("{" + "blog_identifier" + "}" + tail);
  }

  /** For every descriptor that has a `url_parameters` list, its endpoint
      template is well formed and names exactly those parameters, in the
      same order. */
  lemma TemplatesMatchUrlParameters()
    ensures forall i :: 0 <= i < |Table| ==> TemplateMatches(Table[i])
  {
    forall i | 0 <= i < |Table| ensures TemplateMatches(Table[i]) {
      match i
      case 0 => TemplateOfGetBlogInfo();
      case 1 => TemplateOfGetBlogAvatar();
      case 2 => TemplateOfGetBlogAvatarWithSize();
      case 3 => TemplateOfGetBlogLikes();
      case 4 => TemplateOfGetBlogFollowing();
      case 5 => TemplateOfGetBlogFollowers();
      case 6 => TemplateOfGetBlogPosts();
      case 7 => TemplateOfGetBlogQueue();
      case 8 => TemplateOfGetBlogDrafts();
      case 9 => TemplateOfGetBlogSubmissions();
      case 10 => TemplateOfCreatePost();
      case 11 => TemplateOfReblogPost();
      case 12 => TemplateOfFetchPost();
      case 13 => TemplateOfEditPost();
      case 14 => TemplateOfDeletePost();
      case 15 => TemplateOfGetUserInfo();
      case 16 =>
      case 17 => TemplateOfGetUserLikes();
      case 18 => TemplateOfGetUserFollowing();
      case 19 => TemplateOfFollowBlog();
      case 20 => TemplateOfUnfollowBlog();
      case 21 => TemplateOfLikePost();
      case 22 => TemplateOfUnlikePost();
    }
  }

  lemma TemplateOfGetBlogInfo()
    ensures TemplateMatches(Table[0])
  {
    assert Table[0] == GetBlogInfo;
    BlogPathFields("/info");
  }

  lemma TemplateOfGetBlogAvatar()
    ensures TemplateMatches(Table[1])
  {
    assert Table[1] == GetBlogAvatar;
    BlogPathFields("/avatar");
  }

  lemma TemplateOfGetBlogAvatarWithSize()
    ensures TemplateMatches(Table[2])
  {
    assert Table[2] == GetBlogAvatarWithSize;
    assert "/avatar/{size}" == "/avatar/" + ("{" + "size" + "}");
    BlogPathFields2("/avatar/", "size");
  }

  lemma TemplateOfGetBlogLikes()
    ensures TemplateMatches(Table[3])
  {
    assert Table[3] == GetBlogLikes;
    BlogPathFields("/likes");
  }

  lemma TemplateOfGetBlogFollowing()
    ensures TemplateMatches(Table[4])
  {
    assert Table[4] == GetBlogFollowing;
    BlogPathFields("/following");
  }

  lemma TemplateOfGetBlogFollowers()
    ensures TemplateMatches(Table[5])
  {
    assert Table[5] == GetBlogFollowers;
    BlogPathFields("/followers");
  }

  lemma TemplateOfGetBlogPosts()
    ensures TemplateMatches(Table[6])
  {
    assert Table[6] == GetBlogPosts;
    BlogPathFields("/posts");
  }

  lemma TemplateOfGetBlogQueue()
    ensures TemplateMatches(Table[7])
  {
    assert Table[7] == GetBlogQueue;
    BlogPathFields("/posts/queue");
  }

  lemma TemplateOfGetBlogDrafts()
    ensures TemplateMatches(Table[8])
  {
    assert Table[8] == GetBlogDrafts;
    BlogPathFields("/posts/draft");
  }

  lemma TemplateOfGetBlogSubmissions()
    ensures TemplateMatches(Table[9])
  {
    assert Table[9] == GetBlogSubmissions;
    BlogPathFields("/posts/submission");
  }

  lemma TemplateOfCreatePost()
    ensures TemplateMatches(Table[10])
  {
    assert Table[10] == CreatePost;
    BlogPathFields("/posts");
  }

  lemma TemplateOfReblogPost()
    ensures TemplateMatches(Table[11])
  {
    assert Table[11] == ReblogPost;
    BlogPathFields("/posts");
  }

  lemma TemplateOfFetchPost()
    ensures TemplateMatches(Table[12])
  {
    assert Table[12] == FetchPost;
    assert "/posts/{post_id}" == "/posts/" + ("{" + "post_id" + "}");
    BlogPathFields2("/posts/", "post_id");
  }

  lemma TemplateOfEditPost()
    ensures TemplateMatches(Table[13])
  {
    assert Table[13] == EditPost;
    assert "/posts/{post_id}" == "/posts/" + ("{" + "post_id" + "}");
    BlogPathFields2("/posts/", "post_id");
  }

  lemma TemplateOfDeletePost()
    ensures TemplateMatches(Table[14])
  {
    assert Table[14] == DeletePost;
    BlogPathFields("/post/delete");
  }

  lemma TemplateOfGetUserInfo()
    ensures TemplateMatches(Table[15])
  {
    assert Table[15] == GetUserInfo;
    PlainFields("user/info");
  }

  lemma TemplateOfGetUserLikes()
    ensures TemplateMatches(Table[17])
  {
    assert Table[17] == GetUserLikes;
    PlainFields("user/likes");
  }

  lemma TemplateOfGetUserFollowing()
    ensures TemplateMatches(Table[18])
  {
    assert Table[18] == GetUserFollowing;
    PlainFields("user/following");
  }

  lemma TemplateOfFollowBlog()
    ensures TemplateMatches(Table[19])
  {
    assert Table[19] == FollowBlog;
    PlainFields("user/follow");
  }

  lemma TemplateOfUnfollowBlog()
    ensures TemplateMatches(Table[20])
  {
    assert Table[20] == UnfollowBlog;
    PlainFields("user/unfollow");
  }

  lemma TemplateOfLikePost()
    ensures TemplateMatches(Table[21])
  {
    assert Table[21] == LikePost;
    PlainFields("user/like");
  }

  lemma TemplateOfUnlikePost()
    ensures TemplateMatches(Table[22])
  {
    assert Table[22] == UnlikePost;
    PlainFields("user/unlike");
  }

  /** `get_user_dashboard` is the only descriptor without `url_parameters`;
      its template has no placeholder. */
  lemma OnlyDashboardLacksUrlParameters()
    ensures forall i :: 0 <= i < |Table| ==> (Table[i].urlParameters.Absent? <==> i == 16)
    ensures Table[16] == GetUserDashboard
  {
  }

  /** Every GET descriptor has no body and no content type; all of them but
      `get_blog_followers`, whose key is misspelt `Body_type`, also carry a
      `body_type` of None. */
  lemma GetDescriptorsHaveNoBody()
    ensures forall i :: 0 <= i < |Table| && Table[i].httpMethod == "GET" ==>
              Table[i].body.None? && Table[i].contentType.None? &&
              (Table[i].bodyType == Present(None) <==> i != 5)
    ensures Table[5] == GetBlogFollowers && Table[5].bodyType.Absent?
  {
  }

  /** Every `kv` descriptor is a form POST, every `json` descriptor declares
      `application/json`, and the only verbs are GET, POST and PUT. */
  lemma BodyTypesMatchContentTypes()
    ensures forall i :: 0 <= i < |Table| && Table[i].bodyType == Present(Some("kv")) ==>
              Table[i].httpMethod == "POST" && Table[i].contentType == Some("application/x-www-form-urlencoded")
    ensures forall i :: 0 <= i < |Table| && Table[i].bodyType == Present(Some("json")) ==>
              Table[i].httpMethod in ["POST", "PUT"] && Table[i].contentType == Some("application/json")
    ensures forall i :: 0 <= i < |Table| ==> Table[i].httpMethod in ["GET", "POST", "PUT"]
  {
  }

  /** Only the first four descriptors write their identifier under
      `method_name`, the key create_method reads; the rest use `method`. */
  lemma OnlyFirstFourUseMethodName()
    ensures forall i :: 0 <= i < |Table| ==> (Table[i].methodName.Present? <==> i < 4)
    ensures forall i :: 0 <= i < |Table| ==> (Table[i].methodKey.Present? <==> 4 <= i)
  {
  }

  /** No two descriptors share an identifier. */
  lemma IdentifiersUnique()
    ensures forall i, j :: 0 <= i < j < |Table| ==> Identifier(Table[i]) != Identifier(Table[j])
  {
    IdentifiersUniqueTo10();
    IdentifiersUniqueTo16();
    IdentifiersUniqueTo20();
    IdentifiersUniqueTo23();
  }

  lemma IdentifiersUniqueTo10()
    ensures forall i, j :: 0 <= i < j < |Table| && 0 <= j < 10 ==> Identifier(Table[i]) != Identifier(Table[j])
  {
  }

  lemma IdentifiersUniqueTo16()
    ensures forall i, j :: 0 <= i < j < |Table| && 10 <= j < 16 ==> Identifier(Table[i]) != Identifier(Table[j])
  {
  }

  lemma IdentifiersUniqueTo20()
    ensures forall i, j :: 0 <= i < j < |Table| && 16 <= j < 20 ==> Identifier(Table[i]) != Identifier(Table[j])
  {
  }

  lemma IdentifiersUniqueTo23()
    ensures forall i, j :: 0 <= i < j < |Table| && 20 <= j < 23 ==> Identifier(Table[i]) != Identifier(Table[j])
  {
  }

  // The validator lambdas on the fields that declare them.

  /** The validator a field's name calls for, the same throughout the
      table: `limit` is checked against 1..20, `offset` against 1000 where
      it is checked at all, `type` against the post types, `filter` against
      the three filters, `state` against the NPF post states,
      `reblog_info` and `notes_info` against the booleans, `content` and
      `layout` by being lists, and every other field not at all. */
  predicate ValidatorFitsName(f: Field)
  {
    if f.name == "limit" then f.validator == LimitCheck
    else if f.name == "offset" then f.validator.None? || f.validator == OffsetCheck
    else if f.name == "type" then f.validator == PostTypeCheck
    else if f.name == "filter" then f.validator == FilterCheck
    else if f.name == "state" then f.validator == PostStateCheck
    else if f.name == "reblog_info" || f.name == "notes_info" then f.validator == BooleanCheck
    else if f.name == "content" || f.name == "layout" then f.validator == ListCheck
    else f.validator.None?
  }

  /** One `params` or `body` dict names each field once, and every field
      carries the validator its name calls for. */
  predicate DictFollowsNames(fs: seq<Field>)
  {
    (forall i, j :: 0 <= i < j < |fs| ==> fs[i].name != fs[j].name) &&
    forall i :: 0 <= i < |fs| ==> ValidatorFitsName(fs[i])
  }

  predicate FieldsFollowNames(d: Descriptor)
  {
    DictFollowsNames(d.params) && (d.body.Some? ==> DictFollowsNames(d.body.value))
  }

  /** Throughout the table, field names are distinct within each dict and
      a field's validator is decided by its name. */
  lemma TableFieldsFollowNames()
    ensures forall i :: 0 <= i < |Table| ==> FieldsFollowNames(Table[i])
  {
    forall i | 0 <= i < |Table| ensures FieldsFollowNames(Table[i]) {
      match i
      case 0 => FieldsOfGetBlogInfo();
      case 1 => FieldsOfGetBlogAvatar();
      case 2 => FieldsOfGetBlogAvatarWithSize();
      case 3 => FieldsOfGetBlogLikes();
      case 4 => FieldsOfGetBlogFollowing();
      case 5 => FieldsOfGetBlogFollowers();
      case 6 => FieldsOfGetBlogPosts();
      case 7 => FieldsOfGetBlogQueue();
      case 8 => FieldsOfGetBlogDrafts();
      case 9 => FieldsOfGetBlogSubmissions();
      case 10 => FieldsOfCreatePost();
      case 11 => FieldsOfReblogPost();
      case 12 => FieldsOfFetchPost();
      case 13 => FieldsOfEditPost();
      case 14 => FieldsOfDeletePost();
      case 15 => FieldsOfGetUserInfo();
      case 16 => FieldsOfGetUserDashboard();
      case 17 => FieldsOfGetUserLikes();
      case 18 => FieldsOfGetUserFollowing();
      case 19 => FieldsOfFollowBlog();
      case 20 => FieldsOfUnfollowBlog();
      case 21 => FieldsOfLikePost();
      case 22 => FieldsOfUnlikePost();
    }
  }

  // One lemma per entry; the three largest dicts take their two halves
  // from separate lemmas.

  lemma FieldsOfGetBlogInfo()
    ensures FieldsFollowNames(Table[0])
  {
    assert Table[0] == GetBlogInfo;
  }

  lemma FieldsOfGetBlogAvatar()
    ensures FieldsFollowNames(Table[1])
  {
    assert Table[1] == GetBlogAvatar;
  }

  lemma FieldsOfGetBlogAvatarWithSize()
    ensures FieldsFollowNames(Table[2])
  {
    assert Table[2] == GetBlogAvatarWithSize;
  }

  lemma FieldsOfGetBlogLikes()
    ensures FieldsFollowNames(Table[3])
  {
    assert Table[3] == GetBlogLikes;
  }

  lemma FieldsOfGetBlogFollowing()
    ensures FieldsFollowNames(Table[4])
  {
    assert Table[4] == GetBlogFollowing;
  }

  lemma FieldsOfGetBlogFollowers()
    ensures FieldsFollowNames(Table[5])
  {
    assert Table[5] == GetBlogFollowers;
  }

  lemma FieldsOfGetBlogPosts()
    ensures FieldsFollowNames(Table[6])
  {
    assert Table[6] == GetBlogPosts;
    NamesOfGetBlogPosts();
    ValidatorsOfGetBlogPosts();
  }

  lemma NamesOfGetBlogPosts()
    ensures forall i, j :: 0 <= i < j < |GetBlogPosts.params| ==> GetBlogPosts.params[i].name != GetBlogPosts.params[j].name
  {
  }

  lemma ValidatorsOfGetBlogPosts()
    ensures forall i :: 0 <= i < |GetBlogPosts.params| ==> ValidatorFitsName(GetBlogPosts.params[i])
  {
  }

  lemma FieldsOfGetBlogQueue()
    ensures FieldsFollowNames(Table[7])
  {
    assert Table[7] == GetBlogQueue;
  }

  lemma FieldsOfGetBlogDrafts()
    ensures FieldsFollowNames(Table[8])
  {
    assert Table[8] == GetBlogDrafts;
  }

  lemma FieldsOfGetBlogSubmissions()
    ensures FieldsFollowNames(Table[9])
  {
    assert Table[9] == GetBlogSubmissions;
  }

  lemma FieldsOfCreatePost()
    ensures FieldsFollowNames(Table[10])
  {
    assert Table[10] == CreatePost;
    NamesOfCreatePost();
    ValidatorsOfCreatePost();
  }

  lemma NamesOfCreatePost()
    ensures forall i, j :: 0 <= i < j < |CreatePost.body.value| ==> CreatePost.body.value[i].name != CreatePost.body.value[j].name
  {
  }

  lemma ValidatorsOfCreatePost()
    ensures forall i :: 0 <= i < |CreatePost.body.value| ==> ValidatorFitsName(CreatePost.body.value[i])
  {
  }

  lemma FieldsOfReblogPost()
    ensures FieldsFollowNames(Table[11])
  {
    assert Table[11] == ReblogPost;
    NamesOfReblogPost();
    ValidatorsOfReblogPost();
  }

  lemma NamesOfReblogPost()
    ensures forall i, j :: 0 <= i < j < |ReblogPost.body.value| ==>
              ReblogPost.body.value[i].name != ReblogPost.body.value[j].name
  {
  }

  lemma ValidatorsOfReblogPost()
    ensures forall i :: 0 <= i < |ReblogPost.body.value| ==> ValidatorFitsName(ReblogPost.body.value[i])
  {
  }

  lemma FieldsOfFetchPost()
    ensures FieldsFollowNames(Table[12])
  {
    assert Table[12] == FetchPost;
  }

  lemma FieldsOfEditPost()
    ensures FieldsFollowNames(Table[13])
  {
    assert Table[13] == EditPost;
  }

  lemma FieldsOfDeletePost()
    ensures FieldsFollowNames(Table[14])
  {
    assert Table[14] == DeletePost;
  }

  lemma FieldsOfGetUserInfo()
    ensures FieldsFollowNames(Table[15])
  {
    assert Table[15] == GetUserInfo;
  }

  lemma FieldsOfGetUserDashboard()
    ensures FieldsFollowNames(Table[16])
  {
    assert Table[16] == GetUserDashboard;
  }

  lemma FieldsOfGetUserLikes()
    ensures FieldsFollowNames(Table[17])
  {
    assert Table[17] == GetUserLikes;
  }

  lemma FieldsOfGetUserFollowing()
    ensures FieldsFollowNames(Table[18])
  {
    assert Table[18] == GetUserFollowing;
  }

  lemma FieldsOfFollowBlog()
    ensures FieldsFollowNames(Table[19])
  {
    assert Table[19] == FollowBlog;
  }

  lemma FieldsOfUnfollowBlog()
    ensures FieldsFollowNames(Table[20])
  {
    assert Table[20] == UnfollowBlog;
  }

  lemma FieldsOfLikePost()
    ensures FieldsFollowNames(Table[21])
  {
    assert Table[21] == LikePost;
  }

  lemma FieldsOfUnlikePost()
    ensures FieldsFollowNames(Table[22])
  {
    assert Table[22] == UnlikePost;
  }

  lemma DistinctFieldNames(fs: seq<Field>)
    requires forall i, j :: 0 <= i < j < |fs| ==> fs[i].name != fs[j].name
    ensures NoDuplicates(FieldNames(fs))
  {
  }

  /** Each `params` and `body` dict of the table classifies as create_method
      expects: every name listed once, none lost. */
  lemma TableClassificationsValid()
    ensures forall i :: 0 <= i < |Table| ==>
              ValidClassification(Classify(Some(Table[i].params))) && ValidClassification(Classify(Table[i].body))
  {
    TableFieldsFollowNames();
    forall i | 0 <= i < |Table|
      ensures ValidClassification(Classify(Some(Table[i].params))) && ValidClassification(Classify(Table[i].body))
    {
      DistinctFieldNames(Table[i].params);
      ClassifyValid(Table[i].params);
      if Table[i].body.Some? {
        DistinctFieldNames(Table[i].body.value);
        ClassifyValid(Table[i].body.value);
      }
    }
  }

  /** What a field whose validator fits its name accepts, by name. */
  lemma NamedFieldAccepts(f: Field, x: Value)
    requires ValidatorFitsName(f)
    ensures f.name == "limit" ==> (FieldAccepts(f, x) <==> x.IntValue? && 1 <= x.i <= 20)
    ensures f.name == "offset" && x.IntValue? && x.i < 1000 ==> FieldAccepts(f, x)
    ensures f.name == "type" ==> (FieldAccepts(f, x) <==> x.StrValue? && x.s in PostTypes)
    ensures f.name == "filter" ==> (FieldAccepts(f, x) <==> x in [NoneValue, StrValue("text"), StrValue("raw")])
    ensures f.name == "state" ==> (FieldAccepts(f, x) <==> x.StrValue? && x.s in NpfPostStates)
    ensures f.name in ["reblog_info", "notes_info"] ==> (FieldAccepts(f, x) <==> x.BoolValue?)
    ensures f.name in ["content", "layout"] ==> (FieldAccepts(f, x) <==> x.ListValue?)
    ensures f.name !in ["limit", "offset", "type", "filter", "state", "reblog_info", "notes_info",
                        "content", "layout"] ==>
              FieldAccepts(f, x)
  {
    if x.BoolValue? {
      assert x == BoolValue(true) || x == BoolValue(false);
    }
  }

  /** `limit` of `get_blog_likes` accepts exactly 1 <= x <= 20, and its
      `offset` exactly x < 1000. */
  lemma LikesPagingValidators(x: Value)
    ensures GetBlogLikes.params[0].name == "limit" && GetBlogLikes.params[1].name == "offset"
    ensures FieldAccepts(GetBlogLikes.params[0], x) <==> x.IntValue? && 1 <= x.i <= 20
    ensures FieldAccepts(GetBlogLikes.params[1], x) <==> x.IntValue? && x.i < 1000
  {
    assert GetBlogLikes.params[0] == Opt("limit", IntValue(20), LimitCheck);
    assert GetBlogLikes.params[1] == Opt("offset", IntValue(0), OffsetCheck);
  }

  /** On `get_blog_posts`: `type` accepts exactly the post types, `filter`
      exactly None, `'text'` and `'raw'`, and `reblog_info` and `notes_info`
      exactly the booleans. */
  lemma PostsValidators(x: Value)
    ensures GetBlogPosts.params[0].name == "type" && GetBlogPosts.params[7].name == "filter"
    ensures GetBlogPosts.params[5].name == "reblog_info" && GetBlogPosts.params[6].name == "notes_info"
    ensures FieldAccepts(GetBlogPosts.params[0], x) <==> x.StrValue? && x.s in PostTypes
    ensures FieldAccepts(GetBlogPosts.params[7], x) <==> x in [NoneValue, StrValue("text"), StrValue("raw")]
    ensures FieldAccepts(GetBlogPosts.params[5], x) <==> x.BoolValue?
    ensures FieldAccepts(GetBlogPosts.params[6], x) <==> x.BoolValue?
  {
    assert GetBlogPosts.params[0] == Opt("type", NoneValue, PostTypeCheck);
    assert GetBlogPosts.params[5] == Opt("reblog_info", BoolValue(false), BooleanCheck);
    assert GetBlogPosts.params[6] == Opt("notes_info", BoolValue(false), BooleanCheck);
    assert GetBlogPosts.params[7] == Opt("filter", NoneValue, FilterCheck);
    if x.BoolValue? {
      assert x == BoolValue(true) || x == BoolValue(false);
    }
  }

  /** On the body of `create_post`: `content` and `layout` accept exactly
      lists, and `state` exactly the NPF post states. */
  lemma CreatePostValidators(x: Value)
    ensures CreatePost.body.Some? && |CreatePost.body.value| >= 3
    ensures CreatePost.body.value[0].name == "content" && CreatePost.body.value[1].name == "layout"
    ensures CreatePost.body.value[2].name == "state"
    ensures FieldAccepts(CreatePost.body.value[0], x) <==> x.ListValue?
    ensures FieldAccepts(CreatePost.body.value[1], x) <==> x.ListValue?
    ensures FieldAccepts(CreatePost.body.value[2], x) <==> x.StrValue? && x.s in NpfPostStates
  {
    assert CreatePost.body.value[0] == Req("content", ListCheck);
    assert CreatePost.body.value[1] == Opt("layout", ListValue([]), ListCheck);
    assert CreatePost.body.value[2] == Opt("state", StrValue("published"), PostStateCheck);
  }
}
