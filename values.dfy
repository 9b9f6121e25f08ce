/** Python-side vocabulary shared by the whole model: the typed value domain
    that stands in for the untyped keyword arguments, the exceptions the code
    raises, and small wrappers for results and for dict keys that may be
    missing. */
module Values {

  /** The values a caller can pass as a keyword argument.  Python is untyped;
      this model fixes a typed domain, so that `True` and `1` are different
      values (Python would treat `1 in [True, False]` as true). */
  datatype Value =
    | NoneValue
    | BoolValue(b: bool)
    | IntValue(i: int)
    | StrValue(s: string)
    | ListValue(items: seq<Value>)

  datatype Option<+T> = None | Some(value: T)

  /** A key of a Python dict literal that may or may not be written. */
  datatype Entry<+T> = Absent | Present(value: T)

  /** Why a `RuntimeError` was raised by a compiled request method. */
  datatype Cause =
    | MissingUrlArgument(name: string)
    | MissingParameter(name: string)
    | MissingBodyKey(name: string)
    | UnknownBodyType(bodyType: Option<string>, methodName: string)

  /** The message of a `ValueError` raised by `str.format`. */
  datatype FormatProblem =
    | SingleOpenBrace      // "Single '{' encountered in format string"
    | SingleCloseBrace     // "Single '}' encountered in format string"
    | Unterminated         // "expected '}' before end of string"
    | UnexpectedOpenBrace  // "unexpected '{' in field name"
    | TooManyDigits        // "Too many decimal digits in format string"

  /** The exceptions that can escape from the modelled code, by class. */
  datatype Error =
    | RuntimeError(cause: Cause)
    | NotImplementedError(verb: string)
    | KeyError(key: string)
    | ValueError(problem: FormatProblem)
    | IndexError
    | TypeError(argument: string)  // "got multiple values for argument ..."

  datatype Result<+T> = Ok(value: T) | Err(error: Error) {
    predicate IsFailure() { Err? }
    function PropagateFailure<U>(): Result<U>
      requires Err?
    {
      Err(error)
    }
    function Extract(): T
      requires Ok?
    {
      value
    }
  }

  /** Decimal digits of a natural number, most significant first. */
  function Digits(n: nat): (r: string)
    ensures |r| > 0
    ensures forall i :: 0 <= i < |r| ==> '0' <= r[i] <= '9'
  {
    var d := ['0' + (n % 10) as char];
    if n < 10 then d else Digits(n / 10) + d
  }

  /** Python's `str(value)`. */
  function Text(v: Value): (r: string)
    decreases v, 0
  {
    match v
    case NoneValue => "None"
    case BoolValue(b) => if b then "True" else "False"
    case IntValue(i) => if i < 0 then "-" + Digits(-i) else Digits(i)
    case StrValue(s) => s
    case ListValue(items) =>
      "[" + JoinWithComma(seq(|items|, k requires 0 <= k < |items| => Repr(items[k]))) + "]"
  }

  /** Python's `repr(value)` for an item shown inside a list. */
  function Repr(v: Value): string
    decreases v, 1
  {
    if v.StrValue? then StrRepr(v.s) else Text(v)
  }

  function HexDigit(d: nat): char
    requires d < 16
  {
    if d < 10 then '0' + d as char else 'a' + (d - 10) as char
  }

  /** How `repr` writes one character of a string quoted by `quote`. */
  function EscapeChar(c: char, quote: char): string
  {
    if c == quote || c == '\\' then ['\\', c]
    else if c == '\t' then "\\t"
    else if c == '\n' then "\\n"
    else if c == '\r' then "\\r"
    else if c < ' ' || c as int == 0x7F || 0x80 <= c as int <= 0xA0 || c as int == 0xAD then
      ['\\', 'x', HexDigit(c as int / 16), HexDigit(c as int % 16)]
    else [c]
  }

  function Escaped(s: string, quote: char): string
  {
    if s == [] then [] else EscapeChar(s[0], quote) + Escaped(s[1..], quote)
  }

  /** The quote `repr` puts around a string: a double quote when the text
      holds a single quote and no double quote, a single quote otherwise. */
  function QuoteFor(s: string): char
  {
    if '\'' in s && '"' !in s then '"' else '\''
  }

  /** Python's `repr` of a string. */
  function StrRepr(s: string): (r: string)
    ensures |r| >= |s| + 2
    ensures r[0] == r[|r| - 1] == QuoteFor(s)
  {
    EscapedLength(s, QuoteFor(s));
    [QuoteFor(s)] + Escaped(s, QuoteFor(s)) + [QuoteFor(s)]
  }

  lemma {:induction false} EscapedLength(s: string, quote: char)
    ensures |Escaped(s, quote)| >= |s|
  {
    if s != [] {
      EscapedLength(s[1..], quote);
    }
  }

  /** Characters `repr` copies as they are whatever the quote: printable
      ASCII other than the quotes and the backslash. */
  predicate Unescaped(c: char)
  {
    ' ' <= c && c as int < 0x7F && c != '\'' && c != '"' && c != '\\'
  }

  /** A string of such characters is shown between single quotes as it is. */
  lemma {:induction false} PlainStrRepr(s: string)
    requires forall i :: 0 <= i < |s| ==> Unescaped(s[i])
    ensures StrRepr(s) == "'" + s + "'"
  {
    PlainEscaped(s);
  }

  lemma {:induction false} PlainEscaped(s: string)
    requires forall i :: 0 <= i < |s| ==> Unescaped(s[i])
    ensures Escaped(s, '\'') == s
  {
    if s != [] {
      PlainEscaped(s[1..]);
      assert s == [s[0]] + s[1..];
    }
  }

  /** A string holding a single quote and no double quote is shown between
      double quotes, its single quotes left unescaped. */
  lemma {:induction false} SingleQuoteInDoubleQuotes(s: string, i: nat)
    requires i < |s| && s[i] == '\'' && '"' !in s
    ensures StrRepr(s)[0] == '"'
    ensures Escaped(s, '"') == Escaped(s[..i], '"') + "'" + Escaped(s[i + 1..], '"')
  {
    EscapedAppend(s[..i], s[i..], '"');
    assert s == s[..i] + s[i..];
    assert s[i..][1..] == s[i + 1..];
  }

  lemma {:induction false} EscapedAppend(a: string, b: string, quote: char)
    ensures Escaped(a + b, quote) == Escaped(a, quote) + Escaped(b, quote)
  {
    if a == [] {
      assert a + b == b;
    } else {
      EscapedAppend(a[1..], b, quote);
      assert (a + b)[1..] == a[1..] + b;
    }
  }

  function JoinWithComma(parts: seq<string>): string
  {
    if parts == [] then ""
    else if |parts| == 1 then parts[0]
    else parts[0] + ", " + JoinWithComma(parts[1..])
  }

  function LowerChar(c: char): char
  {
    if 'A' <= c <= 'Z' then (c as int + 32) as char else c
  }

  /** Python's `str.lower()` on ASCII text. */
  function Lower(s: string): (r: string)
    ensures |r| == |s|
  {
    seq(|s|, i requires 0 <= i < |s| => LowerChar(s[i]))
  }
}
