# aiotumblr request compiler, endpoint table, blog-identifier check and docgen options in Dafny

aiotumblr is an asyncio client for the Tumblr API. Its public API is not written out method by method. Instead it is a table of endpoint descriptors. Each descriptor is a dict holding:

- the HTTP verb;
- a path template such as `blog/{blog_identifier}/avatar/{size}`;
- the URL parameters;
- the query and body fields, with `required` flags, defaults and validator lambdas;
- the content type and the body type (`kv` or `json`).

`create_method` turns a descriptor and the classification of its fields into a method on the client. A call of that method does four things:

1. It checks that every URL parameter was supplied and fills the template.
2. It builds the ordered query list: the required names, then the supplied optional ones, booleans lowered to `"true"`/`"false"`.
3. It builds the body the same way, keeping values raw for a JSON body.
4. It sends exactly one request through `signed_request`, chosen by verb and body type, or it raises.

The project models:

- that compiler, as pure functions plus imperative Dafny for the loops and the client (`compiler.dfy`);
- the subset of `str.format` it relies on (`template.dfy`);
- the descriptor schema and validators (`descriptors.dfy`);
- the 23 descriptors of the public API (`endpoints.dfy`) and facts about them (`endpoint_facts.dfy`);
- what the compiler does with particular descriptors (`table_calls.dfy`);
- the `.tumblr.com` blog-identifier check (`blog_identifier.dfy`);
- the `--extension` option parsing and toctree lines of the `docgen` setuptools command (`docgen.dfy`).

`values.dfy` holds the shared value domain and the exceptions.

Modelling choices:

- Python exceptions are the constructors of `Values.Error`, named after the exception class. A call's result is a `Result`.
- Arguments are a typed `Value` domain: None, bool, int, str and list. A bool is not an int here.
- `signed_request` is abstract. `Client.SignedRequest` appends the request to the client's `sent` log and answers with the log position. The network, OAuth signing and aiohttp are not modelled.
- `setattr(client, name, inner_method)` is an update of the `Client.methods` map.
- The body dict is an association list in insertion order. `create_method` does not check its classification. The keys are distinct when the classification is valid (`RequestCompiler.CollectKeysDistinct`), as `parse_method_info` makes it. A classification naming a key twice would list the key twice, where the Python dict holds it once.

## Model

| member | source | states |
|---|---|---|
| RequestCompiler.FormatParameter | aiotumblr/extensions/utils.py:2-5 | a bool becomes the string `"true"` or `"false"`; every other value is returned unchanged |
| RequestCompiler.FormatParameterIdempotent | aiotumblr/extensions/utils.py:2-5 | lowering twice is lowering once, and the result is never a bool |
| RequestCompiler.Missing | aiotumblr/extensions/utils.py:12-14 | the position of the first name absent from the arguments, or none exactly when every name is present |
| RequestCompiler.Signature | aiotumblr/extensions/utils.py:11-15 | the `endpoint_signature` dict has exactly the URL parameters as keys |
| RequestCompiler.MissingUrlArgumentStopsCall | aiotumblr/extensions/utils.py:12-14 | a missing URL parameter raises `RuntimeError` naming the first missing one, before any request is built |
| RequestCompiler.EndpointFillsTemplate | aiotumblr/extensions/utils.py:11-16 | with every URL parameter supplied, the endpoint is the template with each `{name}` replaced by the argument's text and the literal text kept |
| RequestCompiler.BuildEndpoint | aiotumblr/extensions/utils.py:11-16 | the loop that fills `endpoint_signature` and formats the template computes `EndpointOf` |
| RequestCompiler.PickSpec | aiotumblr/extensions/utils.py:25-27 | the optional pass keeps exactly the supplied names, in order, each paired with its encoded argument |
| RequestCompiler.PickKeys | aiotumblr/extensions/utils.py:25-27 | the names kept are the order-preserving filter of the list by presence in the arguments |
| RequestCompiler.PickValues | aiotumblr/extensions/utils.py:24-27 | each kept pair holds the argument of that name, lowered unless the body is JSON |
| RequestCompiler.PickSnoc | aiotumblr/extensions/utils.py:25-27 | one more loop step appends the pair for that name exactly when it is supplied |
| RequestCompiler.AppendSupplied | aiotumblr/extensions/utils.py:25-27 | the optional-name loop appends exactly the picked pairs to what was built so far |
| RequestCompiler.AppendRequired | aiotumblr/extensions/utils.py:21-24 | the required-name loop raises `RuntimeError` at the first missing name, and otherwise lists every required name with its argument |
| RequestCompiler.CollectFailure | aiotumblr/extensions/utils.py:21-23 | query shaping fails exactly when a required name is missing, and the error names the first missing one |
| RequestCompiler.CollectContents | aiotumblr/extensions/utils.py:20-27 | the query list is the required names followed by the supplied optional names, each with its lowered argument; an absent optional gets no default |
| RequestCompiler.CollectOnlyListedNames | aiotumblr/extensions/utils.py:20-40 | an argument whose name is not in the classification never reaches the query list or the body |
| RequestCompiler.CollectKeysDistinct | aiotumblr/extensions/utils.py:31-40 | for a valid classification, the body's keys are distinct, so the ordered list is a faithful dict |
| RequestCompiler.FilterKeepsDistinct | aiotumblr/extensions/utils.py:37-40 | dropping unsupplied optional keys keeps the keys distinct |
| RequestCompiler.AnySupplied | aiotumblr/extensions/utils.py:37-40 | true exactly when some listed name is among the arguments |
| RequestCompiler.BuildQuery | aiotumblr/extensions/utils.py:20-27 | the two query loops compute `Collect` for the query part |
| RequestCompiler.BuildBody | aiotumblr/extensions/utils.py:31-40 | the two body loops compute `BodyOf`, including the `KeyError` raised at the first stored value when the descriptor has no `body_type` key |
| RequestCompiler.SentRequestShape | aiotumblr/extensions/utils.py:42-62 | a request that is sent carries the descriptor's verb, the built endpoint and query list; GET/DELETE carry no body and no headers; POST/PUT/PATCH carry the body as form data (`kv`) or JSON (`json`) with the content-type header |
| RequestCompiler.UnsupportedShapesRaise | aiotumblr/extensions/utils.py:54-66 | a verb outside the five raises `NotImplementedError`; a body verb with any other body type raises `RuntimeError`, or `KeyError` when the descriptor has no `method_name` for the message |
| RequestCompiler.FieldSettingsNeverRead | aiotumblr/extensions/utils.py:18-31 | validators and field settings of the descriptor never influence a call |
| RequestCompiler.Client.constructor | aiotumblr/extensions/utils.py:8 | a client starts with no installed methods and nothing sent |
| RequestCompiler.Client.CreateMethod | aiotumblr/extensions/utils.py:8-71 | installs the compiled method under `method_name`, replacing any earlier one; without that key it raises `KeyError` and installs nothing; nothing is sent |
| RequestCompiler.Client.SignedRequest | aiotumblr/core.py:108-110 | the abstract dispatch records the request and returns a response for it |
| RequestCompiler.Client.Invoke | aiotumblr/extensions/utils.py:9-68 | a `self` keyword argument raises `TypeError` (multiple values for `self`) and sends nothing; otherwise on success exactly one request, the shaped one, is sent and its response is returned unmodified, and on any error nothing is sent and the error is returned |
| RequestCompiler.Shape | aiotumblr/extensions/utils.py:9-68 | the model of one call of `inner_method`: the endpoint, the query list and the body are built in that order and the first exception wins; `Client.Invoke` sends what it gives, and `SentRequestShape`, `UnsupportedShapesRaise` and `CollectContents` state its properties |
| RequestCompiler.EndpointOf | aiotumblr/extensions/utils.py:11-16 | the model of the URL loop and the `format` call, including the `KeyError` of a descriptor without `url_parameters`; `MissingUrlArgumentStopsCall` and `EndpointFillsTemplate` state its properties and `BuildEndpoint` is the loop proved against it |
| RequestCompiler.Collect | aiotumblr/extensions/utils.py:20-27 | the model of the required and optional loops; `CollectFailure` and `CollectContents` state its properties and `BuildQuery` is the loop proved against it |
| RequestCompiler.BodyOf | aiotumblr/extensions/utils.py:31-40 | the model of the body loops, which read `body_type` at each stored value; `BuildBody` is the loop proved against it |
| RequestCompiler.Dispatch | aiotumblr/extensions/utils.py:42-66 | the model of the branch on verb and body type; `SentRequestShape` and `UnsupportedShapesRaise` state what each branch sends or raises |
| RequestCompiler.Pick | aiotumblr/extensions/utils.py:25-27 | the model of the optional-name loop; `PickSpec`, `PickKeys` and `PickValues` state its contents |
| RequestCompiler.Encode | aiotumblr/extensions/utils.py:35-40 | the conditional expression that keeps a value raw for a JSON body and lowers it otherwise; `PickValues` states its use |
| Values.Text | aiotumblr/extensions/utils.py:16 | the model of `str()` that `format` applies to each URL argument: `None`, `True`/`False`, decimal integers, strings as they are, lists as `[a, b]` of the items' `repr` |
| Values.StrRepr | aiotumblr/extensions/utils.py:16 | `repr` of a string starts and ends with the quote Python picks for it and is at least two characters longer than the string |
| Values.PlainStrRepr | aiotumblr/extensions/utils.py:16 | a string of printable ASCII without quotes or backslashes is shown between single quotes as it is |
| Values.SingleQuoteInDoubleQuotes | aiotumblr/extensions/utils.py:16 | a string holding a single quote and no double quote is shown between double quotes with its single quotes unescaped |
| Template.Format | aiotumblr/extensions/utils.py:16 | the model of `str.format(**kwargs)` on the template, read left to right: escapes, single braces, unterminated fields, a `{` in a field name, positional field names and missing keywords raise as in CPython; `FormatSucceedsIff`, `FormatFailsOnlyByKey` and `FormatRender` state its properties |
| Template.Fields | aiotumblr/extensions/utils.py:16 | the keyword fields of a template, or none when `format` fails whatever the keywords; `FieldsOfRender` and `FormatSucceedsIff` state its meaning |
| Template.LetterFirstKeyword | aiotumblr/extensions/utils.py:16 | a brace-free field name starting with a non-digit is looked up among the keyword arguments |
| Template.DigitNameIsPositional | aiotumblr/extensions/utils.py:16 | a field whose name is up to 18 decimal digits, such as `{0}`, raises `IndexError` whatever the keyword arguments, because only keywords are passed |
| Template.OpenBraceInField | aiotumblr/extensions/utils.py:16 | for a field name without `:`, `!` or `[` (where CPython would read a format spec, a conversion or an index), the name is scanned to its first brace: a `{` there raises `ValueError` "unexpected '{' in field name" whatever follows it, and a field the text ends in raises `ValueError` "expected '}' before end of string" |
| Template.FormatSucceedsIff | aiotumblr/extensions/utils.py:16 | for templates whose fields use no conversion, format spec, attribute or index syntax, `str.format` succeeds exactly when the template is well formed and every field is a supplied keyword |
| Template.FormatFailsOnlyByKey | aiotumblr/extensions/utils.py:16 | on a well-formed template the only failure is `KeyError` for a field that was not supplied |
| Template.FieldsOfRender | aiotumblr/extensions/base.py:8-9 | reading a template written from text and placeholders back gives exactly its placeholder names in order |
| Template.FormatRender | aiotumblr/extensions/utils.py:16 | formatting a template with all its fields supplied substitutes each field and keeps the text |
| Template.PlainFields | aiotumblr/extensions/public.py:368-369 | a template without braces has no fields |
| Template.OneFieldFields | aiotumblr/extensions/public.py:9-10 | text around one placeholder has exactly that field |
| Template.TwoFieldFields | aiotumblr/extensions/public.py:29-30 | text around two placeholders has exactly those two fields, in order |
| Descriptors.Accepts | aiotumblr/extensions/public.py:45-50 | the model of the validator lambdas (`lo <= x <= hi`, `x < bound`, `x in [...]`, `isinstance(x, list)`); `LikesPagingValidators`, `PostsValidators` and `CreatePostValidators` state what each field's validator accepts |
| Descriptors.Classify | aiotumblr/extensions/utils.py:21-37 | the classification `create_method` is given, split by the `required` flag in declaration order; `ClassifyValid` states that it is valid and loses no key |
| Endpoints.Table | aiotumblr/extensions/public.py:5-527 | the 23 endpoint descriptors of the public API, in order, with their verbs, templates, URL parameters, fields, validators, content and body types; the `EndpointFacts` lemmas state their properties |
| Endpoints.PostTypes | aiotumblr/extensions/base.py:39-48 | the eight post types the `type` validators allow; `PostsValidators` uses it |
| Endpoints.NpfPostStates | aiotumblr/extensions/base.py:50-55 | the four NPF post states the `state` validators allow; `CreatePostValidators` uses it |
| Descriptors.FieldNames | aiotumblr/extensions/public.py:41-60 | the names of a field dict, one per field, in declaration order |
| Descriptors.Filter | aiotumblr/extensions/utils.py:25-27 | the sublist of the names in a set, in order; nothing else appears |
| Descriptors.ClassifyValid | aiotumblr/extensions/utils.py:21-37 | splitting a field dict with distinct keys by its `required` flags yields disjoint, repeat-free lists that together hold exactly the dict's keys |
| EndpointFacts.BlogPathFields | aiotumblr/extensions/public.py:9-10 | a blog template with a plain suffix has the single field `blog_identifier` |
| EndpointFacts.BlogPathFields2 | aiotumblr/extensions/public.py:29-30 | a blog template whose suffix has one placeholder has the fields `blog_identifier` and that one |
| EndpointFacts.TemplatesMatchUrlParameters | aiotumblr/extensions/public.py:6-526 | for every descriptor with `url_parameters`, its template is well formed and its fields are exactly those parameters, in order |
| EndpointFacts.TemplateOfGetBlogInfo | aiotumblr/extensions/public.py:6-15 | `get_blog_info` template fields equal its URL parameters |
| EndpointFacts.TemplateOfGetBlogAvatar | aiotumblr/extensions/public.py:16-25 | `get_blog_avatar` template fields equal its URL parameters |
| EndpointFacts.TemplateOfGetBlogAvatarWithSize | aiotumblr/extensions/public.py:26-35 | `get_blog_avatar_with_size` template fields are `blog_identifier`, `size` |
| EndpointFacts.TemplateOfGetBlogLikes | aiotumblr/extensions/public.py:36-64 | `get_blog_likes` template fields equal its URL parameters |
| EndpointFacts.TemplateOfGetBlogFollowing | aiotumblr/extensions/public.py:65-84 | `get_blog_following` template fields equal its URL parameters |
| EndpointFacts.TemplateOfGetBlogFollowers | aiotumblr/extensions/public.py:85-104 | `get_blog_followers` template fields equal its URL parameters |
| EndpointFacts.TemplateOfGetBlogPosts | aiotumblr/extensions/public.py:105-158 | `get_blog_posts` template fields equal its URL parameters |
| EndpointFacts.TemplateOfGetBlogQueue | aiotumblr/extensions/public.py:159-185 | `get_blog_queue` template fields equal its URL parameters |
| EndpointFacts.TemplateOfGetBlogDrafts | aiotumblr/extensions/public.py:186-206 | `get_blog_drafts` template fields equal its URL parameters |
| EndpointFacts.TemplateOfGetBlogSubmissions | aiotumblr/extensions/public.py:207-227 | `get_blog_submissions` template fields equal its URL parameters |
| EndpointFacts.TemplateOfCreatePost | aiotumblr/extensions/public.py:228-272 | `create_post` template fields equal its URL parameters |
| EndpointFacts.TemplateOfReblogPost | aiotumblr/extensions/public.py:273-330 | `reblog_post` template fields equal its URL parameters |
| EndpointFacts.TemplateOfFetchPost | aiotumblr/extensions/public.py:331-340 | `fetch_post` template fields are `blog_identifier`, `post_id` |
| EndpointFacts.TemplateOfEditPost | aiotumblr/extensions/public.py:341-350 | `edit_post` template fields are `blog_identifier`, `post_id` |
| EndpointFacts.TemplateOfDeletePost | aiotumblr/extensions/public.py:351-364 | `delete_post` template fields equal its URL parameters |
| EndpointFacts.TemplateOfGetUserInfo | aiotumblr/extensions/public.py:365-376 | `get_user_info` has no fields and no URL parameters |
| EndpointFacts.TemplateOfGetUserLikes | aiotumblr/extensions/public.py:416-444 | `get_user_likes` has no fields and no URL parameters |
| EndpointFacts.TemplateOfGetUserFollowing | aiotumblr/extensions/public.py:445-464 | `get_user_following` has no fields and no URL parameters |
| EndpointFacts.TemplateOfFollowBlog | aiotumblr/extensions/public.py:465-478 | `follow_blog` has no fields and no URL parameters |
| EndpointFacts.TemplateOfUnfollowBlog | aiotumblr/extensions/public.py:479-492 | `unfollow_blog` has no fields and no URL parameters |
| EndpointFacts.TemplateOfLikePost | aiotumblr/extensions/public.py:493-509 | `like_post` has no fields and no URL parameters |
| EndpointFacts.TemplateOfUnlikePost | aiotumblr/extensions/public.py:510-526 | `unlike_post` has no fields and no URL parameters |
| EndpointFacts.OnlyDashboardLacksUrlParameters | aiotumblr/extensions/public.py:377-381 | `get_user_dashboard` is the one descriptor without a `url_parameters` key |
| EndpointFacts.GetDescriptorsHaveNoBody | aiotumblr/extensions/public.py:6-104 | every GET descriptor has no body and no content type; all but `get_blog_followers`, which spells the key `Body_type`, have body type None |
| EndpointFacts.BodyTypesMatchContentTypes | aiotumblr/extensions/public.py:228-478 | every `kv` descriptor is a POST with the form content type; every `json` descriptor is a POST or PUT with `application/json`; the only verbs are GET, POST and PUT |
| EndpointFacts.OnlyFirstFourUseMethodName | aiotumblr/extensions/public.py:5-66 | exactly the first four descriptors carry `method_name`; the rest carry `method` |
| EndpointFacts.IdentifiersUnique | aiotumblr/extensions/public.py:5-527 | no two descriptors share an identifier |
| EndpointFacts.IdentifiersUniqueTo10 | aiotumblr/extensions/public.py:6-227 | identifiers of the first ten descriptors differ from all earlier ones |
| EndpointFacts.IdentifiersUniqueTo16 | aiotumblr/extensions/public.py:228-376 | identifiers of descriptors 10-15 differ from all earlier ones |
| EndpointFacts.IdentifiersUniqueTo20 | aiotumblr/extensions/public.py:377-478 | identifiers of descriptors 16-19 differ from all earlier ones |
| EndpointFacts.IdentifiersUniqueTo23 | aiotumblr/extensions/public.py:479-526 | identifiers of descriptors 20-22 differ from all earlier ones |
| EndpointFacts.LikesPagingValidators | aiotumblr/extensions/public.py:42-51 | the `limit` validator accepts exactly 1 ≤ x ≤ 20, and the `offset` validator exactly x < 1000 |
| EndpointFacts.PostsValidators | aiotumblr/extensions/public.py:111-149 | `type` accepts exactly the post types; `reblog_info`/`notes_info` exactly the booleans; `filter` exactly None, `'text'`, `'raw'` |
| EndpointFacts.CreatePostValidators | aiotumblr/extensions/public.py:236-249 | `content` and `layout` accept exactly lists; `state` exactly the NPF post states |
| EndpointFacts.TableFieldsFollowNames | aiotumblr/extensions/public.py:5-527 | in every `params` and `body` dict of the table, no field name repeats, and each field's validator is the one its name calls for: `limit` 1..20, `offset` none or < 1000, `type` the post types, `filter` None/`'text'`/`'raw'`, `state` the NPF states, `reblog_info`/`notes_info` the booleans, `content`/`layout` lists, every other field none |
| EndpointFacts.NamedFieldAccepts | aiotumblr/extensions/public.py:5-527 | what a field whose validator fits its name accepts, by name: exactly 1 ≤ x ≤ 20 for `limit`, every x < 1000 for `offset`, exactly the post types, filters, NPF states, booleans or lists for the others, and anything for an unchecked field |
| EndpointFacts.TableClassificationsValid | aiotumblr/extensions/public.py:5-527 | every `params` and `body` dict of the table splits into the repeat-free, disjoint required and optional lists `create_method` expects |
| EndpointFacts.FieldsOfGetBlogInfo | aiotumblr/extensions/public.py:6-15 | `get_blog_info`: field names distinct within each dict, each validator the one its name calls for |
| EndpointFacts.FieldsOfGetBlogAvatar | aiotumblr/extensions/public.py:16-25 | `get_blog_avatar`: field names distinct within each dict, each validator the one its name calls for |
| EndpointFacts.FieldsOfGetBlogAvatarWithSize | aiotumblr/extensions/public.py:26-35 | `get_blog_avatar_with_size`: field names distinct within each dict, each validator the one its name calls for |
| EndpointFacts.FieldsOfGetBlogLikes | aiotumblr/extensions/public.py:36-64 | `get_blog_likes`: field names distinct within each dict, each validator the one its name calls for |
| EndpointFacts.FieldsOfGetBlogFollowing | aiotumblr/extensions/public.py:65-84 | `get_blog_following`: field names distinct within each dict, each validator the one its name calls for |
| EndpointFacts.FieldsOfGetBlogFollowers | aiotumblr/extensions/public.py:85-104 | `get_blog_followers`: field names distinct within each dict, each validator the one its name calls for |
| EndpointFacts.FieldsOfGetBlogPosts | aiotumblr/extensions/public.py:105-158 | `get_blog_posts`: field names distinct within each dict, each validator the one its name calls for |
| EndpointFacts.FieldsOfGetBlogQueue | aiotumblr/extensions/public.py:159-185 | `get_blog_queue`: field names distinct within each dict, each validator the one its name calls for |
| EndpointFacts.FieldsOfGetBlogDrafts | aiotumblr/extensions/public.py:186-206 | `get_blog_drafts`: field names distinct within each dict, each validator the one its name calls for |
| EndpointFacts.FieldsOfGetBlogSubmissions | aiotumblr/extensions/public.py:207-227 | `get_blog_submissions`: field names distinct within each dict, each validator the one its name calls for |
| EndpointFacts.FieldsOfCreatePost | aiotumblr/extensions/public.py:228-272 | `create_post`: field names distinct within each dict, each validator the one its name calls for |
| EndpointFacts.FieldsOfReblogPost | aiotumblr/extensions/public.py:273-330 | `reblog_post`: field names distinct within each dict, each validator the one its name calls for |
| EndpointFacts.FieldsOfFetchPost | aiotumblr/extensions/public.py:331-340 | `fetch_post`: field names distinct within each dict, each validator the one its name calls for |
| EndpointFacts.FieldsOfEditPost | aiotumblr/extensions/public.py:341-350 | `edit_post`: field names distinct within each dict, each validator the one its name calls for |
| EndpointFacts.FieldsOfDeletePost | aiotumblr/extensions/public.py:351-364 | `delete_post`: field names distinct within each dict, each validator the one its name calls for |
| EndpointFacts.FieldsOfGetUserInfo | aiotumblr/extensions/public.py:365-376 | `get_user_info`: field names distinct within each dict, each validator the one its name calls for |
| EndpointFacts.FieldsOfGetUserDashboard | aiotumblr/extensions/public.py:377-415 | `get_user_dashboard`: field names distinct within each dict, each validator the one its name calls for |
| EndpointFacts.FieldsOfGetUserLikes | aiotumblr/extensions/public.py:416-444 | `get_user_likes`: field names distinct within each dict, each validator the one its name calls for |
| EndpointFacts.FieldsOfGetUserFollowing | aiotumblr/extensions/public.py:445-464 | `get_user_following`: field names distinct within each dict, each validator the one its name calls for |
| EndpointFacts.FieldsOfFollowBlog | aiotumblr/extensions/public.py:465-478 | `follow_blog`: field names distinct within each dict, each validator the one its name calls for |
| EndpointFacts.FieldsOfUnfollowBlog | aiotumblr/extensions/public.py:479-492 | `unfollow_blog`: field names distinct within each dict, each validator the one its name calls for |
| EndpointFacts.FieldsOfLikePost | aiotumblr/extensions/public.py:493-509 | `like_post`: field names distinct within each dict, each validator the one its name calls for |
| EndpointFacts.FieldsOfUnlikePost | aiotumblr/extensions/public.py:510-526 | `unlike_post`: field names distinct within each dict, each validator the one its name calls for |
| TableCalls.BlogPathFormat | aiotumblr/extensions/utils.py:16 | formatting a blog template fills in the blog identifier and keeps the suffix |
| TableCalls.PlainFormat | aiotumblr/extensions/utils.py:16 | formatting a template without fields returns it unchanged |
| TableCalls.UrlArgumentsDecideEndpoint | aiotumblr/extensions/utils.py:12-16 | for every descriptor but the dashboard, the endpoint is built exactly when all URL parameters are supplied, and any failure is the `RuntimeError` for a missing one, never a template error |
| TableCalls.DashboardCallsAlwaysRaise | aiotumblr/extensions/public.py:377-381 | every call compiled from `get_user_dashboard` raises `KeyError('url_parameters')` before anything is sent |
| TableCalls.AllOptionalClassified | aiotumblr/extensions/public.py:41-60 | a field dict with no required entry classifies as all optional, in order |
| TableCalls.FirstRequiredClassified | aiotumblr/extensions/public.py:235-270 | a field dict whose first entry alone is required classifies as that one required name, then the rest in order |
| TableCalls.LikesClassification | aiotumblr/extensions/public.py:41-63 | the `get_blog_likes` params classify as four optional names in order, and its body as empty |
| TableCalls.FollowClassification | aiotumblr/extensions/public.py:465-477 | the `follow_blog` body classifies as the one required name `url` |
| TableCalls.CreatePostClassification | aiotumblr/extensions/public.py:233-270 | the `create_post` body classifies as the required `content` followed by the seven optional keys |
| TableCalls.EmptyCollect | aiotumblr/extensions/utils.py:20-40 | an empty classification always yields an empty list |
| TableCalls.ShapeOfSteps | aiotumblr/extensions/utils.py:9-68 | a call that passes its three checks sends what the dispatch chooses |
| TableCalls.ShapeOfBodyError | aiotumblr/extensions/utils.py:31-40 | a call whose body check fails raises that error |
| TableCalls.LikesEndpoint | aiotumblr/extensions/public.py:39-40 | the `get_blog_likes` endpoint is `blog/<identifier>/likes` |
| TableCalls.LikesBody | aiotumblr/extensions/public.py:62-63 | the `get_blog_likes` body is always empty |
| TableCalls.LikesDispatch | aiotumblr/extensions/utils.py:58-62 | the `get_blog_likes` dispatch is a GET with no body and no headers |
| TableCalls.LikesCallSkipsValidators | aiotumblr/extensions/utils.py:19-27 | a `get_blog_likes` call sends a GET to `blog/<identifier>/likes` with the supplied paging arguments in declaration order, booleans lowered by `format_parameter`, and no validator consulted |
| TableCalls.ExamplePaging | aiotumblr/extensions/utils.py:25-27 | with `limit=21, offset=0` supplied, both are picked in declaration order |
| TableCalls.OutOfRangeLimitIsSent | aiotumblr/extensions/utils.py:19-27 | `limit=21` is rejected by its validator yet sent; `offset=0` is falsy yet counts as supplied |
| TableCalls.FollowEndpoint | aiotumblr/extensions/public.py:468-469 | the `follow_blog` endpoint is `user/follow` |
| TableCalls.FollowBodyOf | aiotumblr/extensions/utils.py:32-36 | the `follow_blog` body is the lowered `url`, or the body-key error without it |
| TableCalls.FollowDispatch | aiotumblr/extensions/utils.py:44-48 | `follow_blog` dispatches the body as form data with the form content type |
| TableCalls.FollowBlogCall | aiotumblr/extensions/utils.py:31-48 | a `follow_blog` call posts `url` as form data to `user/follow`, or raises the body-key error when `url` is missing |
| TableCalls.CreatePostEndpoint | aiotumblr/extensions/public.py:231-232 | the `create_post` endpoint is `blog/<identifier>/posts` |
| TableCalls.CreatePostDispatch | aiotumblr/extensions/utils.py:49-53 | `create_post` dispatches its body as JSON with `application/json` |
| TableCalls.CreatePostBodyOf | aiotumblr/extensions/utils.py:35-40 | the `create_post` body keeps raw values because its body type is `json` |
| TableCalls.CreatePostSendsRawJson | aiotumblr/extensions/utils.py:31-53 | a `create_post` call sends `content` and the supplied optional keys in order, values unlowered, as JSON; without `content` it raises the body-key error |
| BlogIdentifier.ValidateBlogIdentifier | aiotumblr_core/extensions/_validators.py:5-11 | the model of `validate_blog_identifier` with `endswith`, `rfind` and the slice written out; `ValidateBlogIdentifierSpec` states what it accepts |
| BlogIdentifier.RFind | aiotumblr_core/extensions/_validators.py:7 | `rfind` returns an index where the substring occurs with no occurrence after it, or -1 when it does not occur |
| BlogIdentifier.LastAtOrBefore | aiotumblr_core/extensions/_validators.py:7 | the last occurrence at or before a position, or -1 |
| BlogIdentifier.PrefixLength | aiotumblr_core/extensions/_validators.py:8 | the length of `s[:stop]` never exceeds the string, counting a negative stop from the end |
| BlogIdentifier.RFindFindsFinalSuffix | aiotumblr_core/extensions/_validators.py:6-8 | for an identifier ending in `.tumblr.com`, `rfind` returns its length minus 11, so the slice is the blog name |
| BlogIdentifier.ValidateBlogIdentifierSpec | aiotumblr_core/extensions/_validators.py:5-11 | an identifier without the suffix is accepted; one with it is accepted exactly when the name before it has at most 32 characters, that is, at most 43 in all |
| BlogIdentifier.NameLengthBoundary | aiotumblr_core/extensions/_validators.py:6-10 | a 32-character name is accepted, a 33-character one rejected, and the bare `.tumblr.com` accepted |
| DocGen.Split | aiotumblr/utils/docgen.py:59-65 | `str.split` yields at least one piece, none containing the separator |
| DocGen.JoinSplit | aiotumblr/utils/docgen.py:59-65 | joining the pieces of a split with the separator gives back the string |
| DocGen.SplitJoin | aiotumblr/utils/docgen.py:59-65 | splitting a join of separator-free pieces gives back the pieces |
| DocGen.SplitPrefix | aiotumblr/utils/docgen.py:59-65 | separator-free text in front of a string is glued to its first piece |
| DocGen.SplitLength | aiotumblr/utils/docgen.py:65-66 | a string splits into one piece more than it has separators |
| DocGen.SplitWithoutSeparator | aiotumblr/utils/docgen.py:57-61 | the single-piece branch `[self.extension]` agrees with splitting on `,` |
| DocGen.WellFormedPieceIff | aiotumblr/utils/docgen.py:65-66 | a piece splits into exactly two parts on `:` exactly when it holds one colon |
| DocGen.PairOf | aiotumblr/utils/docgen.py:65-68 | the pair of a well-formed piece is two colon-free strings that, joined by `:`, give the piece |
| DocGen.PairRoundTrip | aiotumblr/utils/docgen.py:65-68 | writing `filename:ClassName` and parsing it gives back the pair |
| DocGen.FirstBad | aiotumblr/utils/docgen.py:64-67 | the first piece that does not split into two parts, all before it well formed, or none |
| DocGen.FirstBadAt | aiotumblr/utils/docgen.py:64-67 | the loop's stopping point is the first malformed piece |
| DocGen.PairsOfSnoc | aiotumblr/utils/docgen.py:68 | one more loop step appends that piece's pair |
| DocGen.Pieces | aiotumblr/utils/docgen.py:56-61 | the model of the comma split and its single-piece branch; `SplitWithoutSeparator` shows the branch agrees with the split |
| DocGen.ParsePieces | aiotumblr/utils/docgen.py:63-68 | the pairs of the pieces up to the first malformed one and whether there was one; `StorePairs` is the loop proved against it |
| DocGen.Finalize | aiotumblr/utils/docgen.py:53-68 | the model of `finalize_options` without the output directory, on options as the command line left them or as an earlier call left them; `MissingOptionError`, `EmptyExtensionKept`, `ExtensionParsed`, `MalformedPieceRaises`, `ParsedExtensionRefinalized` and `FinalizeTwiceRaises` state its properties and `FinalizeOptions` is the method proved against it |
| DocGen.MissingOptionError | aiotumblr/utils/docgen.py:54-55 | in every option state, the missing-option error is raised exactly when `include_base` is falsy and no extension was given |
| DocGen.EmptyExtensionKept | aiotumblr/utils/docgen.py:54-56 | an empty extension string passes the None check, is falsy, and stays `''` |
| DocGen.ExtensionParsed | aiotumblr/utils/docgen.py:56-68 | a non-empty extension string finalizes exactly when every comma-separated piece holds one colon; then it becomes one pair per piece, in order, that written back gives the string |
| DocGen.MalformedPieceRaises | aiotumblr/utils/docgen.py:63-67 | when piece `k` is the first without exactly one colon, the format error is raised and `self.extension` holds exactly the pairs of the pieces before it, in order |
| DocGen.DocGenCommand.constructor | aiotumblr/utils/docgen.py:46-50 | the command starts with the given `include_base` and `extension` |
| DocGen.DocGenCommand.FinalizeOptions | aiotumblr/utils/docgen.py:53-68 | the new `extension` and the outcome are those of `Finalize` on the old options |
| DocGen.ParsedExtensionRefinalized | aiotumblr/utils/docgen.py:56-64 | finalizing a list of pairs keeps an empty list and succeeds; a non-empty list is taken as one piece, emptied, and `ext.split` raises `AttributeError` |
| DocGen.FinalizeTwiceRaises | aiotumblr/utils/docgen.py:56-64 | after a non-empty option string finalizes, finalizing again empties the pairs and raises `AttributeError` |
| DocGen.DocGenCommand.StorePairs | aiotumblr/utils/docgen.py:63-68 | the loop stores the pairs up to the first malformed piece and raises there, or stores all of them |
| DocGen.IndexLineRoundTrip | aiotumblr/utils/docgen.py:113 | the entry can be read back from its line, so distinct entries give distinct lines |
| DocGen.IndexLines | aiotumblr/utils/docgen.py:111-113 | one index line per toctree entry, in the same order |

## Left out

- Network I/O, OAuth signing, aiohttp sessions and token fetching (aiotumblr/core.py) are not modelled. `signed_request` is an abstract method that records the request. Its own branch on the truthiness of `data`/`json` (aiotumblr/core.py:113-128) belongs to that transport and is not modelled.
- async/await: every call is sequential; there is no concurrency.
- `parse_method_info` is not part of this model. The classification of a descriptor's fields is an input to `create_method`. The model assumes that classification is the split of the fields by their `required` flag, in order (`Descriptors.Classify`). Every dict of the table has distinct names, so that split is valid (`EndpointFacts.TableClassificationsValid`).
- Validators are data only. The code never calls them (the TODOs at aiotumblr/extensions/utils.py:19,30), so neither does the model.
- `register` in aiotumblr/extensions/public.py:534-545 is an empty loop and is not modelled. The model does not show the public table being installed on a client.
- Docstring generation (aiotumblr_core/extensions/base.py:80-92, aiotumblr/extensions/utils.py:70), `generate_docs`, Jinja2, file writing, `import_module`, the `issubclass` check and the `--output-dir` handling in docgen.py:69-108,115-139 are not modelled. These are filesystem and reflection.
- Python's untyped values: `True == 1` and `1 in [True, False]` are not modelled, and a bool is never an int. A comparison validator applied to a non-integer counts as a rejection rather than raising `TypeError`.
- Template.Format: a field's conversion (`!r`), format spec (`:>5`), attribute access (`.a`) and index access (`[0]`) are not modelled. The model takes the whole text between the braces as a keyword name, where Python would split it, so `Template.FormatSucceedsIff` covers only fields without `!`, `:`, `.` or `[`, and `Template.OpenBraceInField` only names without `:`, `!` or `[`. Templates in the table use none of them.
- Template.NameError: only ASCII digits count as decimal digits (Python also reads other Unicode decimal digits as a positional index). The largest index is that of a 64-bit build.
- `str(value)` for the template text (`Values.Text`) covers None, bool, int, str and lists of those. Floats, dicts and other objects are not in the value domain.
- Values.StrRepr: a non-ASCII character above U+00FF is kept as it is. Python escapes those that Unicode classes as not printable, as `\uXXXX` or `\UXXXXXXXX`. The model does not carry the Unicode category tables.
- `DocGen.DocGenCommand`: `include_base` is a bool. The distutils `None` default is falsy and is modelled as `false`.
- Dicts are modelled as field lists in declaration order. A Python dict keeps one entry per key, the last written. No dict of the table repeats a field name (`EndpointFacts.TableFieldsFollowNames`), so each list stands for its dict.
- `EndpointFacts.TemplateOfGetBlogInfo` and the other per-entry lemmas state that a template's fields equal its `url_parameters` list, as code. The design comment at aiotumblr/extensions/base.py:9 describes `url_parameters` as a dict; the code uses lists and reads them as lists.
- The `content_type` key is modelled as present on every descriptor, with None where the table writes None. Every entry in the table has it.
- Where the design comment and the code differ, the model follows the code. Body fields with defaults are not filled in when absent (utils.py:37-40 only copies supplied keys). No validation error is raised.
