/** The endpoint descriptor format (the dict layout documented at the top of
    aiotumblr/extensions/base.py), with the per-field validator lambdas
    replaced by a closed set of named predicates. */
module Descriptors {
  import opened Values

  /** The four shapes of validator lambda the descriptor table uses. */
  datatype Validator =
    | Between(lo: int, hi: int)    // lambda x: lo <= x <= hi
    | Below(bound: int)            // lambda x: x < bound
    | OneOf(allowed: seq<Value>)   // lambda x: x in [...]
    | IsList                       // lambda x: isinstance(x, list)

  /** What a validator lambda returns.  A comparison on a value that is not
      an integer counts as a rejection here (Python would raise TypeError,
      or compare a bool as 0 or 1). */
  predicate Accepts(v: Validator, x: Value)
  {
    match v
    case Between(lo, hi) => x.IntValue? && lo <= x.i <= hi
    case Below(bound) => x.IntValue? && x.i < bound
    case OneOf(allowed) => x in allowed
    case IsList => x.ListValue?
  }

  /** One entry of a `params` or `body` dict: its key and its settings. */
  datatype Field = Field(name: string, required: bool, default: Entry<Value>, validator: Option<Validator>)

  /** One endpoint descriptor.  Keys that some entries of the table leave
      out are `Entry`s: the identifier is written under `method_name` or under
      `method`, `url_parameters` can be missing, and `body_type` can be
      missing (one entry spells it `Body_type`, a key nothing reads). */
  datatype Descriptor = Descriptor(
    methodName: Entry<string>,
    methodKey: Entry<string>,
    httpMethod: string,
    endpoint: string,
    urlParameters: Entry<seq<string>>,
    params: seq<Field>,
    contentType: Option<string>,
    body: Option<seq<Field>>,
    bodyType: Entry<Option<string>>)

  /** The identifier of a descriptor, whichever key holds it. */
  function Identifier(d: Descriptor): Option<string>
  {
    if d.methodName.Present? then Some(d.methodName.value)
    else if d.methodKey.Present? then Some(d.methodKey.value)
    else None
  }

  /** The field that validates `x` rejects it only through its validator:
      a field without one accepts everything. */
  predicate FieldAccepts(f: Field, x: Value)
  {
    f.validator.None? || Accepts(f.validator.value, x)
  }

  function FieldNames(fs: seq<Field>): (names: seq<string>)
    ensures |names| == |fs|
    ensures forall i :: 0 <= i < |fs| ==> names[i] == fs[i].name
  {
    if fs == [] then [] else [fs[0].name] + FieldNames(fs[1..])
  }

  predicate NoDuplicates(s: seq<string>)
  {
    forall i, j :: 0 <= i < j < |s| ==> s[i] != s[j]
  }

  /** The required and optional names of a `params` or `body` dict, the
      output of the classification step that create_method receives. */
  datatype Classified = Classified(required: seq<string>, optional: seq<string>)

  /** What create_method expects of its classification: every name is
      listed once, so the two lists are disjoint and free of repeats. */
  predicate ValidClassification(c: Classified)
  {
    NoDuplicates(c.required + c.optional)
  }

  /** The order-preserving sublist of `s` whose elements satisfy `keep`. */
  function Filter(s: seq<string>, keep: set<string>): (r: seq<string>)
    ensures |r| <= |s|
    ensures forall x :: x in r <==> x in s && x in keep
  {
    if s == [] then []
    else (if s[0] in keep then [s[0]] else []) + Filter(s[1..], keep)
  }

  function RequiredNames(fs: seq<Field>): seq<string>
  {
    if fs == [] then [] else (if fs[0].required then [fs[0].name] else []) + RequiredNames(fs[1..])
  }

  function OptionalNames(fs: seq<Field>): seq<string>
  {
    if fs == [] then [] else (if fs[0].required then [] else [fs[0].name]) + OptionalNames(fs[1..])
  }

  /** The classification the descriptor table is assumed to be given: split
      by the `required` flag, each list in declaration order; a missing body
      classifies as two empty lists. */
  function Classify(fs: Option<seq<Field>>): Classified
  {
    if fs.None? then Classified([], []) else Classified(RequiredNames(fs.value), OptionalNames(fs.value))
  }

  /** Classifying a dict with distinct keys meets create_method's
      expectation, and loses no key and invents none. */
  lemma {:induction false} ClassifyValid(fs: seq<Field>)
    requires NoDuplicates(FieldNames(fs))
    ensures ValidClassification(Classify(Some(fs)))
    ensures forall n :: n in RequiredNames(fs) + OptionalNames(fs) <==> n in FieldNames(fs)
  {
    if fs != [] {
      var rest := fs[1..];
      assert FieldNames(fs) == [fs[0].name] + FieldNames(rest);
      assert NoDuplicates(FieldNames(rest)) by {
        forall i, j | 0 <= i < j < |FieldNames(rest)|
          ensures FieldNames(rest)[i] != FieldNames(rest)[j]
        {
          assert FieldNames(fs)[i + 1] == FieldNames(rest)[i];
          assert FieldNames(fs)[j + 1] == FieldNames(rest)[j];
        }
      }
      ClassifyValid(rest);
      var r, o := RequiredNames(rest), OptionalNames(rest);
      var n := fs[0].name;
      assert n !in FieldNames(rest) by {
        forall i | 0 <= i < |FieldNames(rest)| ensures FieldNames(rest)[i] != n {
          assert FieldNames(fs)[i + 1] == FieldNames(rest)[i];
        }
      }
      assert n !in r + o;
      var c := Classify(Some(fs));
      if fs[0].required {
        assert c.required + c.optional == [n] + (r + o);
        PrependKeepsDistinct(n, r + o);
      } else {
        assert c.required + c.optional == r + ([n] + o);
        InsertKeepsDistinct(r, n, o);
      }
    }
  }

  lemma PrependKeepsDistinct(n: string, s: seq<string>)
    requires NoDuplicates(s) && n !in s
    ensures NoDuplicates([n] + s)
  {
    var t := [n] + s;
    forall i, j | 0 <= i < j < |t| ensures t[i] != t[j] {
      if i > 0 {
        assert t[i] == s[i - 1] && t[j] == s[j - 1];
      } else {
        assert t[j] == s[j - 1];
      }
    }
  }

  lemma InsertKeepsDistinct(r: seq<string>, n: string, o: seq<string>)
    requires NoDuplicates(r + o) && n !in r + o
    ensures NoDuplicates(r + ([n] + o))
  {
    var s, t := r + o, r + ([n] + o);
    forall i, j | 0 <= i < j < |t| ensures t[i] != t[j] {
      var i' := if i < |r| then i else i - 1;
      var j' := if j < |r| then j else j - 1;
      if i == |r| {
        assert t[i] == n && t[j] == s[j'];
      } else if j == |r| {
        assert t[j] == n && t[i] == s[i'];
      } else {
        assert t[i] == s[i'] && t[j] == s[j'];
      }
    }
  }
}
