/** The public API's endpoint table (aiotumblr/extensions/public.py) as
    descriptor values, the two constant lists its validators refer to
    (aiotumblr/extensions/base.py), and the well-formedness facts the table
    satisfies. */
module Endpoints {
  import opened Values
  import opened Descriptors
  import opened Template

  const PostTypes: seq<string> := ["text", "quote", "link", "answer", "video", "audio", "photo", "chat"]
  const NpfPostStates: seq<string> := ["published", "queue", "draft", "private"]

  // The validator lambdas of the table, by shape.
  const LimitCheck: Option<Validator> := Some(Between(1, 20))
  const OffsetCheck: Option<Validator> := Some(Below(1000))
  const PostTypeCheck: Option<Validator> :=
    Some(OneOf([StrValue("text"), StrValue("quote"), StrValue("link"), StrValue("answer"),
                StrValue("video"), StrValue("audio"), StrValue("photo"), StrValue("chat")]))
  const PostStateCheck: Option<Validator> :=
    Some(OneOf([StrValue("published"), StrValue("queue"), StrValue("draft"), StrValue("private")]))
  const BooleanCheck: Option<Validator> := Some(OneOf([BoolValue(true), BoolValue(false)]))
  const FilterCheck: Option<Validator> := Some(OneOf([NoneValue, StrValue("text"), StrValue("raw")]))
  const ListCheck: Option<Validator> := Some(IsList)

  /** A `'required': False` entry, which always carries a default. */
  function Opt(name: string, default: Value, validator: Option<Validator>): Field
  {
    Field(name, false, Present(default), validator)
  }

  /** A `'required': True` entry, which never carries a default. */
  function Req(name: string, validator: Option<Validator>): Field
  {
    Field(name, true, Absent, validator)
  }

  /** The endpoints under one blog all start with the same template text,
      `blog/{blog_identifier}`, written here as text around a field. */
  const BlogPrefix := "blog/" + ("{" + "blog_identifier" + "}")

  /** The template of an endpoint under one blog. */
  function BlogPath(suffix: string): string
  {
    BlogPrefix + suffix
  }

  /** A descriptor for a GET endpoint without a body. */
  function Get(methodName: Entry<string>, methodKey: Entry<string>, endpoint: string,
               urlParameters: Entry<seq<string>>, params: seq<Field>): Descriptor
  {
    Descriptor(methodName, methodKey, "GET", endpoint, urlParameters, params, None, None, Present(None))
  }

  const GetBlogInfo := Get(Present("get_blog_info"), Absent, BlogPath("/info"),
                           Present(["blog_identifier"]), [])
  const GetBlogAvatar := Get(Present("get_blog_avatar"), Absent, BlogPath("/avatar"),
                             Present(["blog_identifier"]), [])
  const GetBlogAvatarWithSize := Get(Present("get_blog_avatar_with_size"), Absent,
                                     BlogPath("/avatar/{size}"),
                                     Present(["blog_identifier", "size"]), [])
  const GetBlogLikes := Get(Present("get_blog_likes"), Absent, BlogPath("/likes"),
                            Present(["blog_identifier"]),
                            [Opt("limit", IntValue(20), LimitCheck), Opt("offset", IntValue(0), OffsetCheck),
                             Opt("before", NoneValue, None), Opt("after", NoneValue, None)])
  const GetBlogFollowing := Get(Absent, Present("get_blog_following"), BlogPath("/following"),
                                Present(["blog_identifier"]),
                                [Opt("limit", IntValue(20), LimitCheck), Opt("offset", IntValue(0), None)])
  /** The one entry whose body type is written under the key `Body_type`. */
  const GetBlogFollowers := Descriptor(Absent, Present("get_blog_followers"), "GET", BlogPath("/followers"),
                                       Present(["blog_identifier"]),
                                       [Opt("limit", IntValue(20), LimitCheck), Opt("offset", IntValue(0), None)],
                                       None, None, Absent)
  const GetBlogPosts := Get(Absent, Present("get_blog_posts"), BlogPath("/posts"),
                            Present(["blog_identifier"]),
                            [Opt("type", NoneValue, PostTypeCheck), Opt("id", NoneValue, None),
                             Opt("tag", NoneValue, None), Opt("limit", IntValue(20), LimitCheck),
                             Opt("offset", IntValue(0), None), Opt("reblog_info", BoolValue(false), BooleanCheck),
                             Opt("notes_info", BoolValue(false), BooleanCheck), Opt("filter", NoneValue, FilterCheck),
                             Opt("before", NoneValue, None)])
  const GetBlogQueue := Get(Absent, Present("get_blog_queue"), BlogPath("/posts/queue"),
                            Present(["blog_identifier"]),
                            [Opt("limit", IntValue(20), LimitCheck), Opt("offset", IntValue(0), None),
                             Opt("filter", NoneValue, FilterCheck)])
  const GetBlogDrafts := Get(Absent, Present("get_blog_drafts"), BlogPath("/posts/draft"),
                             Present(["blog_identifier"]),
                             [Opt("before_id", IntValue(0), None), Opt("filter", NoneValue, FilterCheck)])
  const GetBlogSubmissions := Get(Absent, Present("get_blog_submissions"), BlogPath("/posts/submission"),
                                  Present(["blog_identifier"]),
                                  [Opt("offset", IntValue(0), None), Opt("filter", NoneValue, FilterCheck)])
  const CreatePost := Descriptor(Absent, Present("create_post"), "POST", BlogPath("/posts"),
                                 Present(["blog_identifier"]), [], Some("application/json"),
                                 Some([Req("content", ListCheck), Opt("layout", ListValue([]), ListCheck),
                                       Opt("state", StrValue("published"), PostStateCheck),
                                       Opt("publish_on", NoneValue, None), Opt("tags", NoneValue, None),
                                       Opt("source_url", NoneValue, None),
                                       Opt("send_to_twitter", BoolValue(false), None),
                                       Opt("send_to_facebook", BoolValue(false), None)]),
                                 Present(Some("json")))
  const ReblogPost := Descriptor(Absent, Present("reblog_post"), "POST", BlogPath("/posts"),
                                 Present(["blog_identifier"]), [], Some("application/json"),
                                 Some([Req("parent_tumblelog_uuid", None), Req("parent_post_id", None),
                                       Req("reblog_key", None), Req("content", ListCheck),
                                       Opt("layout", ListValue([]), ListCheck),
                                       Opt("state", StrValue("published"), PostStateCheck),
                                       Opt("publish_on", NoneValue, None), Opt("tags", NoneValue, None),
                                       Opt("source_url", NoneValue, None),
                                       Opt("send_to_twitter", BoolValue(false), None),
                                       Opt("send_to_facebook", BoolValue(false), None),
                                       Opt("hide_trail", BoolValue(false), None)]),
                                 Present(Some("json")))
  const FetchPost := Get(Absent, Present("fetch_post"), BlogPath("/posts/{post_id}"),
                         Present(["blog_identifier", "post_id"]), [])
  const EditPost := Descriptor(Absent, Present("edit_post"), "PUT", BlogPath("/posts/{post_id}"),
                               Present(["blog_identifier", "post_id"]), [], Some("application/json"),
                               Some([]), Present(Some("json")))
  const DeletePost := Descriptor(Absent, Present("delete_post"), "POST", BlogPath("/post/delete"),
                                 Present(["blog_identifier"]), [], Some("application/x-www-form-urlencoded"),
                                 Some([Req("id", None)]), Present(Some("kv")))
  const GetUserInfo := Get(Absent, Present("get_user_info"), "user/info", Present([]), [])
  /** The one entry without a `url_parameters` key. */
  const GetUserDashboard := Get(Absent, Present("get_user_dashboard"), "user/dashboard", Absent,
                                [Opt("limit", IntValue(20), LimitCheck), Opt("offset", IntValue(0), OffsetCheck),
                                 Opt("type", NoneValue, PostTypeCheck), Opt("since_id", IntValue(0), None),
                                 Opt("reblog_info", BoolValue(false), BooleanCheck),
                                 Opt("notes_info", BoolValue(false), BooleanCheck)])
  const GetUserLikes := Get(Absent, Present("get_user_likes"), "user/likes", Present([]),
                            [Opt("limit", IntValue(20), LimitCheck), Opt("offset", IntValue(0), OffsetCheck),
                             Opt("before", NoneValue, None), Opt("after", NoneValue, None)])
  const GetUserFollowing := Get(Absent, Present("get_user_following"), "user/following", Present([]),
                                [Opt("limit", IntValue(20), LimitCheck), Opt("offset", IntValue(0), None)])
  const FollowBlog := Descriptor(Absent, Present("follow_blog"), "POST", "user/follow", Present([]), [],
                                 Some("application/x-www-form-urlencoded"), Some([Req("url", None)]),
                                 Present(Some("kv")))
  const UnfollowBlog := Descriptor(Absent, Present("unfollow_blog"), "POST", "user/unfollow", Present([]), [],
                                   Some("application/x-www-form-urlencoded"), Some([Req("url", None)]),
                                   Present(Some("kv")))
  const LikePost := Descriptor(Absent, Present("like_post"), "POST", "user/like", Present([]), [],
                               Some("application/x-www-form-urlencoded"),
                               Some([Req("id", None), Req("reblog_key", None)]), Present(Some("kv")))
  const UnlikePost := Descriptor(Absent, Present("unlike_post"), "POST", "user/unlike", Present([]), [],
                                 Some("application/x-www-form-urlencoded"),
                                 Some([Req("id", None), Req("reblog_key", None)]), Present(Some("kv")))

  /** The `endpoints` list, in source order. */
  const Table: seq<Descriptor> := [
    GetBlogInfo, GetBlogAvatar, GetBlogAvatarWithSize, GetBlogLikes, GetBlogFollowing, GetBlogFollowers,
    GetBlogPosts, GetBlogQueue, GetBlogDrafts, GetBlogSubmissions, CreatePost, ReblogPost, FetchPost,
    EditPost, DeletePost, GetUserInfo, GetUserDashboard, GetUserLikes, GetUserFollowing, FollowBlog,
    UnfollowBlog, LikePost, UnlikePost]
}
