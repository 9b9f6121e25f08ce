/** The subset of Python's `str.format(**kwargs)` that fills an endpoint path
    template such as `blog/{blog_identifier}/avatar/{size}`: literal text,
    the escapes `{{` and `}}`, and fields `{name}`.  As in CPython's parser,
    a field name runs to the first `}`, and a `{` met before it is refused.
    The whole name is looked up, and a name that is empty or starts with
    decimal digits is positional, which fails because only keyword
    arguments are passed. */
module Template {
  import opened Values

  /** Index of the first brace at or after `i`, or `|t|` when there is
      none: where the scan of a field name stops. */
  function FieldStop(t: string, i: nat): (k: nat)
    requires i <= |t|
    ensures i <= k <= |t|
    ensures k < |t| ==> t[k] == '{' || t[k] == '}'
    ensures forall j :: i <= j < k ==> t[j] != '{' && t[j] != '}'
    decreases |t| - i
  {
    if i == |t| || t[i] == '{' || t[i] == '}' then i else FieldStop(t, i + 1)
  }

  /** The largest index `str.format` reads from a field name
      (`PY_SSIZE_T_MAX` on a 64-bit build). */
  const MaxIndex := 0x7FFF_FFFF_FFFF_FFFF

  predicate IsDigit(c: char)
  {
    '0' <= c <= '9'
  }

  /** The longest prefix of `s` made of decimal digits. */
  function LeadingDigits(s: string): (d: string)
    ensures |d| <= |s| && d == s[..|d|]
    ensures forall i :: 0 <= i < |d| ==> IsDigit(d[i])
    ensures |d| < |s| ==> !IsDigit(s[|d|])
  {
    if s == [] || !IsDigit(s[0]) then [] else [s[0]] + LeadingDigits(s[1..])
  }

  /** The number a string of decimal digits spells. */
  function DecimalValue(d: string): nat
    requires forall i :: 0 <= i < |d| ==> IsDigit(d[i])
  {
    if d == [] then 0
    else
      assert IsDigit(d[|d| - 1]);
      DecimalValue(d[..|d| - 1]) * 10 + (d[|d| - 1] as int - '0' as int)
  }

  /** The error `str.format` raises for a field name before it looks among
      the keyword arguments, or None for a keyword name: an empty name asks
      for the next positional argument, and a name starting with digits is
      read as a positional index (too large an index is refused as it is
      read). */
  function NameError(name: string): Option<Error>
  {
    if name == [] then Some(IndexError)
    else if DecimalValue(LeadingDigits(name)) > MaxIndex then Some(ValueError(TooManyDigits))
    else if |LeadingDigits(name)| == |name| then Some(IndexError)
    else None
  }

  function Prepend(s: string, r: Result<string>): Result<string>
  {
    if r.Ok? then Ok(s + r.value) else r
  }

  /** `t.format(**args)`, read left to right as Python does: a lookup that
      fails raises `KeyError` even when the template is malformed further on. */
  function Format(t: string, args: map<string, string>): Result<string>
    decreases |t|
  {
    if t == [] then Ok([])
    else if t[0] == '{' && |t| > 1 && t[1] == '{' then Prepend("{", Format(t[2..], args))
    else if t[0] == '}' && |t| > 1 && t[1] == '}' then Prepend("}", Format(t[2..], args))
    else if t[0] == '}' then Err(ValueError(SingleCloseBrace))
    else if t[0] == '{' then
      if |t| == 1 then Err(ValueError(SingleOpenBrace))
      else
        var k := FieldStop(t, 1);
        if k == |t| then Err(ValueError(Unterminated))
        else if t[k] == '{' then Err(ValueError(UnexpectedOpenBrace))
        else if NameError(t[1..k]).Some? then Err(NameError(t[1..k]).value)
        else if t[1..k] !in args then Err(KeyError(t[1..k]))
        else Prepend(args[t[1..k]], Format(t[k + 1..], args))
    else Prepend([t[0]], Format(t[1..], args))
  }

  /** The keyword fields of a template, in order, or None when `str.format`
      would reject the template whatever the keyword arguments. */
  function Fields(t: string): Option<seq<string>>
    decreases |t|
  {
    if t == [] then Some([])
    else if (t[0] == '{' || t[0] == '}') && |t| > 1 && t[1] == t[0] then Fields(t[2..])
    else if t[0] == '}' then None
    else if t[0] == '{' then
      var k := FieldStop(t, 1);
      if k == |t| || t[k] == '{' || NameError(t[1..k]).Some? then None
      else match Fields(t[k + 1..])
        case None => None
        case Some(rest) => Some([t[1..k]] + rest)
    else Fields(t[1..])
  }

  /** Formatting succeeds exactly when the template is well formed and every
      one of its fields is a supplied keyword. */
  lemma {:induction false} FormatSucceedsIff(t: string, args: map<string, string>)
    ensures Format(t, args).Ok? <==>
            Fields(t).Some? && forall n :: n in Fields(t).value ==> n in args
    decreases |t|
  {
    if t == [] {
    } else if t[0] == '{' && |t| > 1 && t[1] == '{' {
      FormatSucceedsIff(t[2..], args);
    } else if t[0] == '}' && |t| > 1 && t[1] == '}' {
      FormatSucceedsIff(t[2..], args);
    } else if t[0] == '}' {
    } else if t[0] == '{' {
      if |t| > 1 {
        var k := FieldStop(t, 1);
        if k < |t| && t[k] == '}' && NameError(t[1..k]).None? {
          FormatSucceedsIff(t[k + 1..], args);
        }
      }
    } else {
      FormatSucceedsIff(t[1..], args);
    }
  }

  /** A well-formed template fails to format only by a missing keyword. */
  lemma {:induction false} FormatFailsOnlyByKey(t: string, args: map<string, string>)
    requires Fields(t).Some?
    ensures Format(t, args).Err? ==>
            Format(t, args).error.KeyError? && Format(t, args).error.key in Fields(t).value &&
            Format(t, args).error.key !in args
    decreases |t|
  {
    if t == [] {
    } else if (t[0] == '{' || t[0] == '}') && |t| > 1 && t[1] == t[0] {
      FormatFailsOnlyByKey(t[2..], args);
    } else if t[0] == '{' {
      var k := FieldStop(t, 1);
      FormatFailsOnlyByKey(t[k + 1..], args);
    } else {
      FormatFailsOnlyByKey(t[1..], args);
    }
  }

  // A structured view of templates without escapes: the text between
  // fields, and the fields themselves.

  datatype Piece = Literal(s: string) | Placeholder(name: string)

  predicate Plain(s: string)
  {
    forall i :: 0 <= i < |s| ==> s[i] != '{' && s[i] != '}'
  }

  /** A name `str.format` looks up among the keyword arguments. */
  predicate KeywordName(n: string)
  {
    Plain(n) && NameError(n).None?
  }

  predicate ValidPieces(ps: seq<Piece>)
  {
    forall i :: 0 <= i < |ps| ==>
      match ps[i]
      case Literal(s) => Plain(s)
      case Placeholder(n) => KeywordName(n)
  }

  /** The template string a sequence of pieces is written as. */
  function Render(ps: seq<Piece>): string
  {
    if ps == [] then []
    else (match ps[0] case Literal(s) => s case Placeholder(n) => "{" + n + "}") + Render(ps[1..])
  }

  function Names(ps: seq<Piece>): seq<string>
  {
    if ps == [] then []
    else (match ps[0] case Literal(_) => [] case Placeholder(n) => [n]) + Names(ps[1..])
  }

  /** The path a template gives: its text kept, each field replaced by the
      argument of that name. */
  function Fill(ps: seq<Piece>, args: map<string, string>): string
    requires forall n :: n in Names(ps) ==> n in args
  {
    if ps == [] then []
    else
      assert forall n :: n in Names(ps[1..]) ==> n in Names(ps);
      (match ps[0] case Literal(s) => s case Placeholder(n) => args[n]) + Fill(ps[1..], args)
  }

  lemma {:induction false} PlainPrefix(s: string, rest: string, args: map<string, string>)
    requires Plain(s)
    ensures Fields(s + rest) == Fields(rest)
    ensures Format(s + rest, args) == Prepend(s, Format(rest, args))
    decreases |s|
  {
    if s == [] {
      assert s + rest == rest;
      var r := Format(rest, args);
      if r.Ok? {
        assert s + r.value == r.value;
      }
    } else {
      var t := s + rest;
      assert t[0] == s[0] && t[1..] == s[1..] + rest;
      PlainPrefix(s[1..], rest, args);
      var r := Format(rest, args);
      if r.Ok? {
        assert [s[0]] + (s[1..] + r.value) == s + r.value;
      }
    }
  }

  lemma FieldPrefix(n: string, rest: string, args: map<string, string>)
    requires KeywordName(n)
    ensures Fields("{" + n + "}" + rest) ==
            (if Fields(rest).Some? then Some([n] + Fields(rest).value) else None)
    ensures Format("{" + n + "}" + rest, args) ==
            (if n in args then Prepend(args[n], Format(rest, args)) else Err(KeyError(n)))
  {
    var t := "{" + n + "}" + rest;
    FieldStopAt(t, 1, |n| + 1);
    assert t[1..|n| + 1] == n;
    assert t[|n| + 2..] == rest;
  }

  lemma {:induction false} FieldStopAt(t: string, i: nat, k: nat)
    requires i <= k <= |t| && (k < |t| ==> t[k] == '{' || t[k] == '}')
    requires forall j :: i <= j < k ==> t[j] != '}' && t[j] != '{'
    ensures FieldStop(t, i) == k
    decreases k - i
  {
    if i < k {
      FieldStopAt(t, i + 1, k);
    }
  }

  /** Reading the rendered template back gives exactly its field names. */
  lemma {:induction false} FieldsOfRender(ps: seq<Piece>)
    requires ValidPieces(ps)
    ensures Fields(Render(ps)) == Some(Names(ps))
  {
    if ps != [] {
      FieldsOfRender(ps[1..]);
      match ps[0]
      case Literal(s) =>
        assert Render(ps) == s + Render(ps[1..]);
        assert Names(ps) == [] + Names(ps[1..]) == Names(ps[1..]);
        PlainPrefix(s, Render(ps[1..]), map[]);
      case Placeholder(n) =>
        assert Render(ps) == "{" + n + "}" + Render(ps[1..]);
        FieldPrefix(n, Render(ps[1..]), map[]);
    }
  }

  /** Formatting a rendered template with every field supplied substitutes
      each field by its argument and keeps the text. */
  lemma {:induction false} FormatRender(ps: seq<Piece>, args: map<string, string>)
    requires ValidPieces(ps)
    requires forall n :: n in Names(ps) ==> n in args
    ensures Format(Render(ps), args) == Ok(Fill(ps, args))
  {
    if ps != [] {
      assert forall n :: n in Names(ps[1..]) ==> n in Names(ps);
      FormatRender(ps[1..], args);
      match ps[0]
      case Literal(s) =>
        PlainPrefix(s, Render(ps[1..]), args);
      case Placeholder(n) =>
        assert n in Names(ps);
        FieldPrefix(n, Render(ps[1..]), args);
        assert Render(ps) == "{" + n + "}" + Render(ps[1..]);
    }
  }

  /** A template that is plain text, or plain text around one or two
      placeholders, has exactly those placeholders as its fields. */
  lemma PlainFields(t: string)
    requires Plain(t)
    ensures Fields(t) == Some([])
  {
    PlainPrefix(t, "", map[]);
    assert t + "" == t;
  }

  lemma OneFieldFields(before: string, name: string, after: string)
    requires Plain(before) && KeywordName(name) && Plain(after)
    ensures Fields(before + ("{" + name + "}" + after)) == Some([name])
  {
    PlainFields(after);
    FieldPrefix(name, after, map[]);
    assert [name] + [] == [name];
    PlainPrefix(before, "{" + name + "}" + after, map[]);
  }

  lemma TwoFieldFields(before: string, first: string, middle: string, second: string)
    requires Plain(before) && KeywordName(first) && Plain(middle) && KeywordName(second)
    ensures Fields(before + ("{" + first + "}" + (middle + ("{" + second + "}" + "")))) == Some([first, second])
  {
    var tail := middle + ("{" + second + "}" + "");
    OneFieldFields(middle, second, "");
    FieldPrefix(first, tail, map[]);
    assert [first] + [second] == [first, second];
    PlainPrefix(before, "{" + first + "}" + tail, map[]);
  }

  /** A brace-free name that starts with a letter or another non-digit is
      a keyword name. */
  lemma LetterFirstKeyword(n: string)
    requires Plain(n) && n != [] && !IsDigit(n[0])
    ensures KeywordName(n)
  {
    assert LeadingDigits(n) == [];
  }

  /** A name of at most 18 decimal digits is a positional index, so its
      field raises `IndexError` whatever the keyword arguments. */
  lemma DigitNameIsPositional(n: string, args: map<string, string>)
    requires 0 < |n| <= 18 && forall i :: 0 <= i < |n| ==> IsDigit(n[i])
    ensures NameError(n) == Some(IndexError)
    ensures Format("{" + n + "}", args) == Err(IndexError)
  {
    LeadingDigitsAll(n);
    DecimalBound(n);
    Pow10Mono(|n|, 18);
    Pow10Of18();
    assert DecimalValue(LeadingDigits(n)) <= MaxIndex;
    var t := "{" + n + "}";
    FieldStopAt(t, 1, |n| + 1);
    assert t[1..|n| + 1] == n;
  }

  lemma {:induction false} LeadingDigitsAll(n: string)
    requires forall i :: 0 <= i < |n| ==> IsDigit(n[i])
    ensures LeadingDigits(n) == n
  {
    if n != [] {
      LeadingDigitsAll(n[1..]);
    }
  }

  function Pow10(e: nat): nat
  {
    if e == 0 then 1 else 10 * Pow10(e - 1)
  }

  lemma {:induction false} DecimalBound(d: string)
    requires forall i :: 0 <= i < |d| ==> IsDigit(d[i])
    ensures DecimalValue(d) < Pow10(|d|)
  {
    if d != [] {
      DecimalBound(d[..|d| - 1]);
    }
  }

  lemma Pow10Of18()
    ensures Pow10(18) == 1_000_000_000_000_000_000
  {
    assert Pow10(6) == 1_000_000;
    assert Pow10(12) == 1_000_000_000_000;
  }

  lemma {:induction false} Pow10Mono(a: nat, b: nat)
    requires a <= b
    ensures Pow10(a) <= Pow10(b)
    decreases b
  {
    if a < b {
      Pow10Mono(a, b - 1);
    }
  }

  /** A field name without a conversion, a format spec or an index is
      scanned up to its first brace: a `{` met there is refused whatever
      follows, and a name the text ends in is left open.  (CPython stops the
      scan at `:` or `!` and skips over `[...]`, so those characters are
      excluded from `a`.) */
  lemma OpenBraceInField(a: string, rest: string, args: map<string, string>)
    requires Plain(a) && a != []
    requires forall i :: 0 <= i < |a| ==> a[i] != ':' && a[i] != '!' && a[i] != '['
    ensures Format("{" + a + "{" + rest, args) == Err(ValueError(UnexpectedOpenBrace))
    ensures Format("{" + a, args) == Err(ValueError(Unterminated))
  {
    var t := "{" + a + "{" + rest;
    var u := "{" + a;
    assert t[1] == a[0] && u[1] == a[0];
    assert forall j :: 1 <= j <= |a| ==> t[j] == a[j - 1] && u[j] == a[j - 1];
    assert t[|a| + 1] == '{';
    FieldStopAt(t, 1, |a| + 1);
    FieldStopAt(u, 1, |u|);
  }
}
