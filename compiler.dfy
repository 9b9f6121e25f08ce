/** The request compiler of aiotumblr/extensions/utils.py: `format_parameter`,
    and the method that `create_method` installs on a client, which checks
    the keyword arguments of a call against a descriptor, fills the path
    template, shapes the query list and the body, and hands the result to
    the client's `signed_request` exactly once, or raises. */
module RequestCompiler {
  import opened Values
  import opened Descriptors
  import opened Template

  /** The keyword arguments of a call. */
  type Kwargs = map<string, Value>

  /** An ordered list of (name, value) pairs: the query list, or the body
      dict in insertion order. */
  type Pairs = seq<(string, Value)>

  /** The body argument `signed_request` receives. */
  datatype Payload = NoBody | Data(form: Pairs) | Json(document: Pairs)

  /** The `headers` argument `signed_request` receives. */
  datatype Headers = NoHeaders | ContentType(value: Option<string>)

  /** The arguments of one call of `signed_request`. */
  datatype Request = Request(verb: string, endpoint: string, params: Pairs, payload: Payload, headers: Headers)

  /** What `signed_request` hands back: the serial number of the request in
      the client's log stands in for the HTTP response. */
  datatype Response = Response(serial: nat)

  /** Which of the two dicts is being shaped; it selects the message of the
      `RuntimeError` raised for a missing required name. */
  datatype Part = QueryPart | BodyPart

  /** The arguments `create_method` closes over. */
  datatype Compiled = Compiled(info: Descriptor, params: Classified, body: Classified)

  /** `format_parameter`: booleans become the lower-case text of `str()`,
      every other value passes through. */
  function FormatParameter(v: Value): (r: Value)
    ensures v.BoolValue? ==> r == StrValue(if v.b then "true" else "false")
    ensures !v.BoolValue? ==> r == v
  {
    if v.BoolValue? then
      var s := Lower(Text(v));
      assert s == if v.b then "true" else "false";
      StrValue(s)
    else v
  }

  /** Formatting a parameter twice is formatting it once. */
  lemma FormatParameterIdempotent(v: Value)
    ensures FormatParameter(FormatParameter(v)) == FormatParameter(v)
    ensures FormatParameter(v).BoolValue? == false
  {
  }

  /** How a value is stored: unchanged when `raw` (a JSON body), through
      `format_parameter` otherwise. */
  function Encode(v: Value, raw: bool): Value
  {
    if raw then v else FormatParameter(v)
  }

  /** The position of the first name that was not supplied, if any. */
  function Missing(names: seq<string>, kwargs: Kwargs): (r: Option<nat>)
    ensures r.None? <==> forall k :: 0 <= k < |names| ==> names[k] in kwargs
    ensures r.Some? ==> r.value < |names| && names[r.value] !in kwargs &&
                        forall k :: 0 <= k < r.value ==> names[k] in kwargs
  {
    if names == [] then None
    else if names[0] !in kwargs then Some(0)
    else match Missing(names[1..], kwargs)
      case None => None
      case Some(k) => Some(k + 1)
  }

  /** The keyword arguments `str.format` receives: each URL parameter, as
      the text `format` gives its value. */
  function Signature(names: seq<string>, kwargs: Kwargs): (m: map<string, string>)
    requires forall k :: 0 <= k < |names| ==> names[k] in kwargs
    ensures m.Keys == set k | 0 <= k < |names| :: names[k]
  {
    map n | n in names :: Text(kwargs[n])
  }

  /** Lines 11-16: every URL parameter must be supplied, then the template
      is formatted with them.  A descriptor without `url_parameters` raises
      `KeyError` at the loop head. */
  function EndpointOf(d: Descriptor, kwargs: Kwargs): Result<string>
  {
    match d.urlParameters
    case Absent => Err(KeyError("url_parameters"))
    case Present(names) =>
      match Missing(names, kwargs)
      case Some(k) => Err(RuntimeError(MissingUrlArgument(names[k])))
      case None => Format(d.endpoint, Signature(names, kwargs))
  }

  /** The pairs for the names that were supplied, in the order of `names`. */
  function Pick(names: seq<string>, kwargs: Kwargs, raw: bool): Pairs
  {
    if names == [] then []
    else
      (if names[0] in kwargs then [(names[0], Encode(kwargs[names[0]], raw))] else []) +
      Pick(names[1..], kwargs, raw)
  }

  function MissingCause(part: Part, name: string): Cause
  {
    match part
    case QueryPart => MissingParameter(name)
    case BodyPart => MissingBodyKey(name)
  }

  /** Lines 20-27 and, for a body whose type is known, 31-40: all required
      names must be supplied; the result lists them, then the supplied
      optional names, each value encoded. */
  function Collect(c: Classified, kwargs: Kwargs, raw: bool, part: Part): Result<Pairs>
  {
    match Missing(c.required, kwargs)
    case Some(k) => Err(RuntimeError(MissingCause(part, c.required[k])))
    case None => Ok(Pick(c.required, kwargs, raw) + Pick(c.optional, kwargs, raw))
  }

  function AnySupplied(names: seq<string>, kwargs: Kwargs): (b: bool)
    ensures b <==> exists k :: 0 <= k < |names| && names[k] in kwargs
  {
    if names == [] then false
    else names[0] in kwargs || AnySupplied(names[1..], kwargs)
  }

  /** Lines 31-40.  Each stored value reads `body_type` afresh, so a
      descriptor without that key raises `KeyError` at the first value
      stored, after the presence check of its name. */
  function BodyOf(d: Descriptor, c: Classified, kwargs: Kwargs): Result<Pairs>
  {
    match d.bodyType
    case Present(t) => Collect(c, kwargs, t == Some("json"), BodyPart)
    case Absent =>
      if c.required != [] then
        if c.required[0] in kwargs then Err(KeyError("body_type"))
        else Err(RuntimeError(MissingBodyKey(c.required[0])))
      else if AnySupplied(c.optional, kwargs) then Err(KeyError("body_type"))
      else Ok([])
  }

  /** Lines 42-66: the one call of `signed_request` the verb and body type
      select, or the exception raised instead. */
  function Dispatch(d: Descriptor, endpoint: string, query: Pairs, body: Pairs): Result<Request>
  {
    if d.httpMethod in ["POST", "PUT", "PATCH"] then
      match d.bodyType
      case Absent => Err(KeyError("body_type"))
      case Present(t) =>
        if t == Some("kv") then
          Ok(Request(d.httpMethod, endpoint, query, Data(body), ContentType(d.contentType)))
        else if t == Some("json") then
          Ok(Request(d.httpMethod, endpoint, query, Json(body), ContentType(d.contentType)))
        else
          match d.methodName
          case Absent => Err(KeyError("method_name"))
          case Present(name) => Err(RuntimeError(UnknownBodyType(t, name)))
    else if d.httpMethod in ["GET", "DELETE"] then
      Ok(Request(d.httpMethod, endpoint, query, NoBody, NoHeaders))
    else
      Err(NotImplementedError(d.httpMethod))
  }

  /** The whole of one call of the installed method, up to the dispatch:
      the request it sends, or the exception it raises first. */
  function Shape(d: Descriptor, params: Classified, body: Classified, kwargs: Kwargs): Result<Request>
  {
    var endpoint :- EndpointOf(d, kwargs);
    var query :- Collect(params, kwargs, false, QueryPart);
    var fields :- BodyOf(d, body, kwargs);
    Dispatch(d, endpoint, query, fields)
  }

  /** The names of a list of pairs, in order. */
  function Keys(q: Pairs): (ks: seq<string>)
    ensures |ks| == |q|
    ensures forall j :: 0 <= j < |q| ==> ks[j] == q[j].0
  {
    if q == [] then [] else [q[0].0] + Keys(q[1..])
  }

  // ---------------------------------------------------------------------
  // What the shaping promises.

  /** The picked pairs are exactly the supplied names, in order, each with
      its encoded argument. */
  lemma PickSpec(names: seq<string>, kwargs: Kwargs, raw: bool)
    ensures Keys(Pick(names, kwargs, raw)) == Filter(names, kwargs.Keys)
    ensures forall j :: 0 <= j < |Pick(names, kwargs, raw)| ==>
              Pick(names, kwargs, raw)[j].0 in kwargs &&
              Pick(names, kwargs, raw)[j].1 == Encode(kwargs[Pick(names, kwargs, raw)[j].0], raw)
  {
    PickKeys(names, kwargs, raw);
    PickValues(names, kwargs, raw);
  }

  lemma {:induction false} PickKeys(names: seq<string>, kwargs: Kwargs, raw: bool)
    ensures Keys(Pick(names, kwargs, raw)) == Filter(names, kwargs.Keys)
    decreases |names|
  {
    if names != [] {
      PickKeys(names[1..], kwargs, raw);
      var n := names[0];
      var head: Pairs := if n in kwargs then [(n, Encode(kwargs[n], raw))] else [];
      var rest := Pick(names[1..], kwargs, raw);
      assert Pick(names, kwargs, raw) == head + rest;
      KeysAppend(head, rest);
      assert Keys(head) == if n in kwargs then [n] else [];
    }
  }

  lemma {:induction false} PickValues(names: seq<string>, kwargs: Kwargs, raw: bool)
    ensures forall j :: 0 <= j < |Pick(names, kwargs, raw)| ==>
              Pick(names, kwargs, raw)[j].0 in kwargs &&
              Pick(names, kwargs, raw)[j].1 == Encode(kwargs[Pick(names, kwargs, raw)[j].0], raw)
    decreases |names|
  {
    if names != [] {
      PickValues(names[1..], kwargs, raw);
      var n := names[0];
      var head: Pairs := if n in kwargs then [(n, Encode(kwargs[n], raw))] else [];
      var rest := Pick(names[1..], kwargs, raw);
      var q := head + rest;
      assert Pick(names, kwargs, raw) == q;
      forall j | 0 <= j < |q| ensures q[j].0 in kwargs && q[j].1 == Encode(kwargs[q[j].0], raw) {
        if j >= |head| {
          assert q[j] == rest[j - |head|];
        }
      }
    }
  }

  lemma KeysAppend(p: Pairs, q: Pairs)
    ensures Keys(p + q) == Keys(p) + Keys(q)
  {
  }

  /** Lines 21-23 (and 32-34): shaping fails exactly when a required name
      is missing, and the `RuntimeError` names the first missing one. */
  lemma CollectFailure(c: Classified, kwargs: Kwargs, raw: bool, part: Part)
    ensures Collect(c, kwargs, raw, part).Err? <==>
            exists k :: 0 <= k < |c.required| && c.required[k] !in kwargs
    ensures Collect(c, kwargs, raw, part).Err? ==>
              exists k :: 0 <= k < |c.required| && c.required[k] !in kwargs &&
                (forall j :: 0 <= j < k ==> c.required[j] in kwargs) &&
                Collect(c, kwargs, raw, part).error == RuntimeError(MissingCause(part, c.required[k]))
  {
  }

  /** Lines 20-27 (and 31-40 for a body of known type): the list holds the
      required names, then the supplied optional ones, in order, each with
      its encoded argument; an optional name left out gets no default. */
  lemma CollectContents(c: Classified, kwargs: Kwargs, raw: bool, part: Part)
    requires Collect(c, kwargs, raw, part).Ok?
    ensures Keys(Collect(c, kwargs, raw, part).value) == c.required + Filter(c.optional, kwargs.Keys)
    ensures var q := Collect(c, kwargs, raw, part).value;
            forall j :: 0 <= j < |q| ==> q[j].0 in kwargs && q[j].1 == Encode(kwargs[q[j].0], raw)
  {
    var r, o := Pick(c.required, kwargs, raw), Pick(c.optional, kwargs, raw);
    PickSpec(c.required, kwargs, raw);
    PickSpec(c.optional, kwargs, raw);
    FilterAll(c.required, kwargs.Keys);
    KeysAppend(r, o);
    var q := r + o;
    forall j | 0 <= j < |q| ensures q[j].0 in kwargs && q[j].1 == Encode(kwargs[q[j].0], raw) {
      if j >= |r| {
        assert q[j] == o[j - |r|];
      }
    }
  }

  /** An argument whose name the classification does not list never
      reaches the query list or the body. */
  lemma CollectOnlyListedNames(c: Classified, kwargs: Kwargs, raw: bool, part: Part)
    requires Collect(c, kwargs, raw, part).Ok?
    ensures forall n :: n in Keys(Collect(c, kwargs, raw, part).value) <==>
                        n in c.required || (n in c.optional && n in kwargs)
  {
    CollectContents(c, kwargs, raw, part);
  }

  /** Filtering a list whose every element is kept changes nothing. */
  lemma {:induction false} FilterAll(s: seq<string>, keep: set<string>)
    requires forall k :: 0 <= k < |s| ==> s[k] in keep
    ensures Filter(s, keep) == s
    decreases |s|
  {
    if s != [] {
      FilterAll(s[1..], keep);
      assert s == [s[0]] + s[1..];
    }
  }

  /** Dropping one element keeps a list free of repeats. */
  lemma DropKeepsDistinct(r: seq<string>, a: string, o: seq<string>)
    requires NoDuplicates(r + ([a] + o))
    ensures NoDuplicates(r + o)
  {
    var s, t := r + ([a] + o), r + o;
    forall i, j | 0 <= i < j < |t| ensures t[i] != t[j] {
      var i' := if i < |r| then i else i + 1;
      var j' := if j < |r| then j else j + 1;
      assert t[i] == s[i'] && t[j] == s[j'];
    }
  }

  /** Keeping part of the tail keeps a list free of repeats. */
  lemma {:induction false} FilterKeepsDistinct(r: seq<string>, o: seq<string>, keep: set<string>)
    requires NoDuplicates(r + o)
    ensures NoDuplicates(r + Filter(o, keep))
    decreases |o|
  {
    if o == [] {
      assert r + o == r && r + Filter(o, keep) == r;
    } else {
      var a := o[0];
      assert o == [a] + o[1..];
      if a in keep {
        assert (r + [a]) + o[1..] == r + o;
        FilterKeepsDistinct(r + [a], o[1..], keep);
        assert r + Filter(o, keep) == (r + [a]) + Filter(o[1..], keep);
      } else {
        DropKeepsDistinct(r, a, o[1..]);
        FilterKeepsDistinct(r, o[1..], keep);
        assert Filter(o, keep) == Filter(o[1..], keep);
      }
    }
  }

  /** Given a valid classification, no name is stored twice, so the list
      is a faithful picture of the body dict. */
  lemma CollectKeysDistinct(c: Classified, kwargs: Kwargs, raw: bool, part: Part)
    requires ValidClassification(c)
    requires Collect(c, kwargs, raw, part).Ok?
    ensures NoDuplicates(Keys(Collect(c, kwargs, raw, part).value))
  {
    CollectContents(c, kwargs, raw, part);
    FilterKeepsDistinct(c.required, c.optional, kwargs.Keys);
  }

  /** Lines 12-16: when a URL parameter is missing the call raises
      `RuntimeError` for the first missing one, before anything else. */
  lemma MissingUrlArgumentStopsCall(d: Descriptor, params: Classified, body: Classified, kwargs: Kwargs, k: nat)
    requires d.urlParameters.Present? && k < |d.urlParameters.value|
    requires d.urlParameters.value[k] !in kwargs
    requires forall j :: 0 <= j < k ==> d.urlParameters.value[j] in kwargs
    ensures Shape(d, params, body, kwargs) == Err(RuntimeError(MissingUrlArgument(d.urlParameters.value[k])))
  {
  }

  /** Line 16: when the template is written as text and placeholders whose
      names are the URL parameters, and all are supplied, the endpoint is
      the template with each placeholder replaced by the text of its
      argument. */
  lemma EndpointFillsTemplate(d: Descriptor, ps: seq<Piece>, kwargs: Kwargs)
    requires ValidPieces(ps) && Render(ps) == d.endpoint && d.urlParameters == Present(Names(ps))
    requires forall n :: n in Names(ps) ==> n in kwargs
    ensures forall k :: 0 <= k < |Names(ps)| ==> Names(ps)[k] in kwargs
    ensures EndpointOf(d, kwargs) == Ok(Fill(ps, Signature(Names(ps), kwargs)))
    ensures forall n :: n in Names(ps) ==> Signature(Names(ps), kwargs)[n] == Text(kwargs[n])
  {
    var names := Names(ps);
    assert forall k :: 0 <= k < |names| ==> names[k] in names;
    var sig := Signature(names, kwargs);
    FormatRender(ps, sig);
  }

  /** Lines 42-66: a call that gets as far as sending sends the descriptor's
      verb, one of the five the code knows; GET and DELETE carry no body
      and no headers; POST, PUT and PATCH carry the body as a form (`kv`)
      or as JSON (`json`), with the descriptor's content type as header. */
  lemma SentRequestShape(d: Descriptor, params: Classified, body: Classified, kwargs: Kwargs)
    requires Shape(d, params, body, kwargs).Ok?
    ensures var r := Shape(d, params, body, kwargs).value;
            && r.verb == d.httpMethod
            && r.verb in ["GET", "DELETE", "POST", "PUT", "PATCH"]
            && Ok(r.endpoint) == EndpointOf(d, kwargs)
            && Ok(r.params) == Collect(params, kwargs, false, QueryPart)
            && (r.verb in ["GET", "DELETE"] ==> r.payload == NoBody && r.headers == NoHeaders)
            && (r.verb in ["POST", "PUT", "PATCH"] ==>
                  && d.bodyType.Present?
                  && d.bodyType.value in [Some("kv"), Some("json")]
                  && r.headers == ContentType(d.contentType)
                  && (d.bodyType.value == Some("kv") ==> r.payload == Data(BodyOf(d, body, kwargs).value))
                  && (d.bodyType.value == Some("json") ==> r.payload == Json(BodyOf(d, body, kwargs).value)))
  {
  }

  /** Lines 54-57 and 63-66: once the arguments check out, a verb the code
      does not know raises `NotImplementedError`, and a body verb with any
      body type but `kv` or `json` raises `RuntimeError` (or `KeyError`
      when the descriptor has no `method_name` to name in the message). */
  lemma UnsupportedShapesRaise(d: Descriptor, params: Classified, body: Classified, kwargs: Kwargs)
    requires EndpointOf(d, kwargs).Ok?
    requires Collect(params, kwargs, false, QueryPart).Ok?
    requires BodyOf(d, body, kwargs).Ok?
    ensures d.httpMethod !in ["GET", "DELETE", "POST", "PUT", "PATCH"] ==>
              Shape(d, params, body, kwargs) == Err(NotImplementedError(d.httpMethod))
    ensures d.httpMethod in ["POST", "PUT", "PATCH"] && d.bodyType.Present? &&
            d.bodyType.value !in [Some("kv"), Some("json")] ==>
              Shape(d, params, body, kwargs) ==
                if d.methodName.Present? then Err(RuntimeError(UnknownBodyType(d.bodyType.value, d.methodName.value)))
                else Err(KeyError("method_name"))
  {
  }

  /** Lines 19 and 30: the field settings of a descriptor (validators,
      defaults, the `required` flags as written) are never read by a call;
      only the classification handed to `create_method` is. */
  lemma FieldSettingsNeverRead(d: Descriptor, params: Classified, body: Classified, kwargs: Kwargs,
                               otherParams: seq<Field>, otherBody: Option<seq<Field>>)
    ensures Shape(d.(params := otherParams, body := otherBody), params, body, kwargs) ==
            Shape(d, params, body, kwargs)
  {
  }

  // ---------------------------------------------------------------------
  // The loops of inner_method, each proved against its specification.

  /** Lines 11-16. */
  method BuildEndpoint(d: Descriptor, kwargs: Kwargs) returns (r: Result<string>)
    ensures r == EndpointOf(d, kwargs)
  {
    if d.urlParameters.Absent? {
      return Err(KeyError("url_parameters"));
    }
    var names := d.urlParameters.value;
    var signature: map<string, string> := map[];
    var k := 0;
    while k < |names|
      invariant 0 <= k <= |names|
      invariant forall j :: 0 <= j < k ==> names[j] in kwargs
      invariant signature == Signature(names[..k], kwargs)
    {
      if names[k] !in kwargs {
        return Err(RuntimeError(MissingUrlArgument(names[k])));
      }
      assert names[..k + 1] == names[..k] + [names[k]];
      signature := signature[names[k] := Text(kwargs[names[k]])];
      k := k + 1;
    }
    assert names[..k] == names;
    r := Format(d.endpoint, signature);
  }

  /** The pairs for one more name are appended at the end. */
  lemma {:induction false} PickSnoc(names: seq<string>, x: string, kwargs: Kwargs, raw: bool)
    ensures Pick(names + [x], kwargs, raw) ==
            Pick(names, kwargs, raw) + (if x in kwargs then [(x, Encode(kwargs[x], raw))] else [])
    decreases |names|
  {
    if names == [] {
      assert names + [x] == [x];
    } else {
      var n := names[0];
      var head := if n in kwargs then [(n, Encode(kwargs[n], raw))] else [];
      assert (names + [x])[0] == names[0];
      assert (names + [x])[1..] == names[1..] + [x];
      assert Pick(names + [x], kwargs, raw) == head + Pick(names[1..] + [x], kwargs, raw);
      PickSnoc(names[1..], x, kwargs, raw);
      assert Pick(names, kwargs, raw) == head + Pick(names[1..], kwargs, raw);
    }
  }

  /** Appends the pairs for the supplied names among `names` to `acc`. */
  method AppendSupplied(acc: Pairs, names: seq<string>, kwargs: Kwargs, raw: bool) returns (r: Pairs)
    ensures r == acc + Pick(names, kwargs, raw)
  {
    r := acc;
    var k := 0;
    while k < |names|
      invariant 0 <= k <= |names|
      invariant r == acc + Pick(names[..k], kwargs, raw)
    {
      PickSnoc(names[..k], names[k], kwargs, raw);
      assert names[..k + 1] == names[..k] + [names[k]];
      if names[k] in kwargs {
        r := r + [(names[k], Encode(kwargs[names[k]], raw))];
      }
      k := k + 1;
    }
    assert names[..k] == names;
  }

  /** The required loop of lines 21-24 or 32-36: raise at the first missing
      name, otherwise append every pair. */
  method AppendRequired(names: seq<string>, kwargs: Kwargs, raw: bool, part: Part) returns (r: Result<Pairs>)
    ensures Missing(names, kwargs).Some? ==>
              r == Err(RuntimeError(MissingCause(part, names[Missing(names, kwargs).value])))
    ensures Missing(names, kwargs).None? ==> r == Ok(Pick(names, kwargs, raw))
  {
    var acc: Pairs := [];
    var k := 0;
    while k < |names|
      invariant 0 <= k <= |names|
      invariant forall j :: 0 <= j < k ==> names[j] in kwargs
      invariant acc == Pick(names[..k], kwargs, raw)
    {
      if names[k] !in kwargs {
        return Err(RuntimeError(MissingCause(part, names[k])));
      }
      PickSnoc(names[..k], names[k], kwargs, raw);
      assert names[..k + 1] == names[..k] + [names[k]];
      acc := acc + [(names[k], Encode(kwargs[names[k]], raw))];
      k := k + 1;
    }
    assert names[..k] == names;
    return Ok(acc);
  }

  /** Lines 20-27. */
  method BuildQuery(c: Classified, kwargs: Kwargs) returns (r: Result<Pairs>)
    ensures r == Collect(c, kwargs, false, QueryPart)
  {
    var required := AppendRequired(c.required, kwargs, false, QueryPart);
    if required.Err? {
      return required;
    }
    var all := AppendSupplied(required.value, c.optional, kwargs, false);
    return Ok(all);
  }

  /** Lines 31-40, reading `body_type` at each value stored. */
  method BuildBody(d: Descriptor, c: Classified, kwargs: Kwargs) returns (r: Result<Pairs>)
    ensures r == BodyOf(d, c, kwargs)
  {
    if d.bodyType.Present? {
      var raw := d.bodyType.value == Some("json");
      var required := AppendRequired(c.required, kwargs, raw, BodyPart);
      if required.Err? {
        return required;
      }
      var all := AppendSupplied(required.value, c.optional, kwargs, raw);
      return Ok(all);
    }
    if c.required != [] {
      if c.required[0] !in kwargs {
        return Err(RuntimeError(MissingBodyKey(c.required[0])));
      }
      return Err(KeyError("body_type"));
    }
    var k := 0;
    while k < |c.optional|
      invariant 0 <= k <= |c.optional|
      invariant forall j :: 0 <= j < k ==> c.optional[j] !in kwargs
    {
      if c.optional[k] in kwargs {
        return Err(KeyError("body_type"));
      }
      k := k + 1;
    }
    return Ok([]);
  }

  // ---------------------------------------------------------------------
  // The client the methods are installed on.

  /** A client: the methods installed on it by name, and the log of the
      requests its `signed_request` has sent. */
  class Client {
    var methods: map<string, Compiled>
    var sent: seq<Request>

    constructor ()
      ensures methods == map[] && sent == []
    {
      methods := map[];
      sent := [];
    }

    /** `create_method`: install the compiled method under the descriptor's
        `method_name`; a descriptor without that key raises `KeyError`
        and installs nothing. */
    method CreateMethod(params: Classified, body: Classified, info: Descriptor) returns (r: Result<()>)
      modifies this
      ensures info.methodName.Absent? ==> r == Err(KeyError("method_name")) && methods == old(methods)
      ensures info.methodName.Present? ==>
                r == Ok(()) && methods == old(methods)[info.methodName.value := Compiled(info, params, body)]
      ensures sent == old(sent)
    {
      if info.methodName.Absent? {
        return Err(KeyError("method_name"));
      }
      methods := methods[info.methodName.value := Compiled(info, params, body)];
      return Ok(());
    }

    /** The abstract transport: it records the request and answers with
        its position in the log. */
    method SignedRequest(req: Request) returns (resp: Response)
      modifies this`sent
      ensures sent == old(sent) + [req]
      ensures resp == Response(|old(sent)|)
    {
      resp := Response(|sent|);
      sent := sent + [req];
    }

    /** A call of the method installed as `name`: a keyword argument named
        `self` clashes with the bound instance, and Python refuses the call
        with `TypeError` before the body runs; otherwise, on success exactly
        one request, the one `Shape` describes, is sent and its response is
        returned unchanged, and on failure nothing is sent. */
    method Invoke(name: string, kwargs: Kwargs) returns (r: Result<Response>)
      requires name in methods
      modifies this`sent
      ensures "self" in kwargs ==> r == Err(TypeError("self")) && sent == old(sent)
      ensures "self" !in kwargs ==>
              var m := old(methods[name]);
              var s := Shape(m.info, m.params, m.body, kwargs);
              && (s.Ok? ==> r == Ok(Response(|old(sent)|)) && sent == old(sent) + [s.value])
              && (s.Err? ==> r == Err(s.error) && sent == old(sent))
    {
      if "self" in kwargs {
        return Err(TypeError("self"));
      }
      var m := methods[name];
      var d := m.info;
      var endpoint := BuildEndpoint(d, kwargs);
      if endpoint.Err? {
        return Err(endpoint.error);
      }
      var query := BuildQuery(m.params, kwargs);
      if query.Err? {
        return Err(query.error);
      }
      var body := BuildBody(d, m.body, kwargs);
      if body.Err? {
        return Err(body.error);
      }
      var resp;
      if d.httpMethod in ["POST", "PUT", "PATCH"] {
        if d.bodyType.Absent? {
          return Err(KeyError("body_type"));
        }
        var t := d.bodyType.value;
        if t == Some("kv") {
          resp := SignedRequest(Request(d.httpMethod, endpoint.value, query.value, Data(body.value),
                                        ContentType(d.contentType)));
        } else if t == Some("json") {
          resp := SignedRequest(Request(d.httpMethod, endpoint.value, query.value, Json(body.value),
                                        ContentType(d.contentType)));
        } else if d.methodName.Absent? {
          return Err(KeyError("method_name"));
        } else {
          return Err(RuntimeError(UnknownBodyType(t, d.methodName.value)));
        }
      } else if d.httpMethod in ["GET", "DELETE"] {
        resp := SignedRequest(Request(d.httpMethod, endpoint.value, query.value, NoBody, NoHeaders));
      } else {
        return Err(NotImplementedError(d.httpMethod));
      }
      return Ok(resp);
    }
  }
}
