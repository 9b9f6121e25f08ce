/** The option handling of the `docgen` setuptools command
    (aiotumblr/utils/docgen.py): `finalize_options` turning the
    `--extension` string into `[filename, ClassName]` pairs, and the toctree
    lines `run` builds for the generated index. */
module DocGen {
  import opened Values

  // Python's `str.split(sep)` with a one-character separator, and its
  // inverse `sep.join(parts)`.

  /** `s.split(sep)`: the maximal runs between separators, always at least
      one (an empty string splits into `['']`). */
  function Split(s: string, sep: char): (parts: seq<string>)
    ensures |parts| >= 1
    ensures forall i :: 0 <= i < |parts| ==> sep !in parts[i]
    decreases |s|
  {
    if s == [] then [[]]
    else
      var rest := Split(s[1..], sep);
      if s[0] == sep then [[]] + rest
      else [[s[0]] + rest[0]] + rest[1..]
  }

  /** `sep.join(parts)`. */
  function Join(parts: seq<string>, sep: char): string
    requires |parts| >= 1
    decreases |parts|
  {
    if |parts| == 1 then parts[0] else parts[0] + [sep] + Join(parts[1..], sep)
  }

  /** The number of occurrences of `c` in `s`. */
  function Count(s: string, c: char): nat
  {
    if s == [] then 0 else (if s[0] == c then 1 else 0) + Count(s[1..], c)
  }

  /** Joining the pieces of a split gives back the string. */
  lemma {:induction false} JoinSplit(s: string, sep: char)
    ensures Join(Split(s, sep), sep) == s
    decreases |s|
  {
    if s != [] {
      var rest := Split(s[1..], sep);
      JoinSplit(s[1..], sep);
      if s[0] == sep {
        assert Split(s, sep)[1..] == rest;
        assert s == [sep] + s[1..];
      } else if |rest| == 1 {
        assert Split(s, sep) == [[s[0]] + rest[0]];
        assert s == [s[0]] + s[1..];
      } else {
        var parts := Split(s, sep);
        assert parts[1..] == rest[1..];
        assert Join(rest, sep) == rest[0] + [sep] + Join(rest[1..], sep);
        assert Join(parts, sep) == ([s[0]] + rest[0]) + [sep] + Join(rest[1..], sep);
        assert s == [s[0]] + s[1..];
      }
    }
  }

  /** A split of `a + b` where `a` has no separator glues `a` to the first
      piece of `b`. */
  lemma {:induction false} SplitPrefix(a: string, b: string, sep: char)
    requires sep !in a
    ensures Split(a + b, sep) == [a + Split(b, sep)[0]] + Split(b, sep)[1..]
    decreases |a|
  {
    if a == [] {
      var parts := Split(b, sep);
      assert a + b == b && a + parts[0] == parts[0];
      assert parts == [parts[0]] + parts[1..];
    } else {
      var t := a + b;
      assert t[0] == a[0] && t[1..] == a[1..] + b;
      SplitPrefix(a[1..], b, sep);
      assert [a[0]] + (a[1..] + Split(b, sep)[0]) == a + Split(b, sep)[0];
    }
  }

  /** Splitting a join of separator-free pieces gives back the pieces. */
  lemma {:induction false} SplitJoin(parts: seq<string>, sep: char)
    requires |parts| >= 1
    requires forall i :: 0 <= i < |parts| ==> sep !in parts[i]
    ensures Split(Join(parts, sep), sep) == parts
    decreases |parts|
  {
    if |parts| == 1 {
      SplitPrefix(parts[0], [], sep);
      assert parts[0] + [] == parts[0];
    } else {
      var c := Join(parts[1..], sep);
      SplitJoin(parts[1..], sep);
      assert parts[0] + [sep] + c == parts[0] + ([sep] + c);
      SplitPrefix(parts[0], [sep] + c, sep);
      assert ([sep] + c)[1..] == c;
      assert parts[0] + [] == parts[0];
      assert parts == [parts[0]] + parts[1..];
    }
  }

  /** A string splits into one piece more than it has separators. */
  lemma {:induction false} SplitLength(s: string, sep: char)
    ensures |Split(s, sep)| == Count(s, sep) + 1
    decreases |s|
  {
    if s != [] {
      SplitLength(s[1..], sep);
    }
  }

  /** Lines 57-61: without a comma in the string, the single-piece branch
      `[self.extension]` is what splitting on `,` gives. */
  lemma SplitWithoutSeparator(s: string, sep: char)
    requires sep !in s
    ensures Split(s, sep) == [s]
  {
    SplitPrefix(s, [], sep);
    assert s + [] == s;
  }

  // One `--extension` piece, `filename:ClassName`.

  /** Line 66: a piece is accepted when it splits on `:` into two parts. */
  predicate WellFormedPiece(piece: string)
  {
    |Split(piece, ':')| == 2
  }

  /** A piece splits into two parts exactly when it holds one colon. */
  lemma WellFormedPieceIff(piece: string)
    ensures WellFormedPiece(piece) <==> Count(piece, ':') == 1
  {
    SplitLength(piece, ':');
  }

  /** The `[filename, ClassName]` pair of a well-formed piece: the two
      colon-free strings the piece is written as. */
  function PairOf(piece: string): (pair: (string, string))
    requires WellFormedPiece(piece)
    ensures pair.0 + ":" + pair.1 == piece
    ensures ':' !in pair.0 && ':' !in pair.1
  {
    var parts := Split(piece, ':');
    JoinSplit(piece, ':');
    assert Join(parts[1..], ':') == parts[1];
    (parts[0], parts[1])
  }

  /** Writing a pair as `filename:ClassName` and parsing it gives it back. */
  lemma PairRoundTrip(filename: string, className: string)
    requires ':' !in filename && ':' !in className
    ensures WellFormedPiece(filename + ":" + className)
    ensures PairOf(filename + ":" + className) == (filename, className)
  {
    var parts := [filename, className];
    SplitJoin(parts, ':');
    assert Join(parts[1..], ':') == className;
  }

  /** The pair of each piece, in order. */
  function PairsOf(pieces: seq<string>): seq<(string, string)>
    requires forall i :: 0 <= i < |pieces| ==> WellFormedPiece(pieces[i])
  {
    seq(|pieces|, i requires 0 <= i < |pieces| => PairOf(pieces[i]))
  }

  /** The first piece that is not well formed, if any. */
  function FirstBad(pieces: seq<string>): (k: Option<nat>)
    ensures k.None? ==> forall i :: 0 <= i < |pieces| ==> WellFormedPiece(pieces[i])
    ensures k.Some? ==> k.value < |pieces| && !WellFormedPiece(pieces[k.value]) &&
                        forall i :: 0 <= i < k.value ==> WellFormedPiece(pieces[i])
  {
    if pieces == [] then None
    else if !WellFormedPiece(pieces[0]) then Some(0)
    else match FirstBad(pieces[1..])
      case None => None
      case Some(k) => Some(k + 1)
  }

  // The command's options and `finalize_options`.

  /** `self.extension`: None, the raw option string, or (once finalized)
      the list of `[filename, ClassName]` pairs. */
  datatype ExtensionOption = NotSet | Given(text: string) | Parsed(pairs: seq<(string, string)>)

  /** How `finalize_options` ends: normally, or by raising
      `DistutilsOptionError` with its message. */
  datatype Outcome =
    | Finalized
    | DistutilsOptionError(message: string)
    | AttributeError  // `ext.split` on a list: the pairs of an earlier call

  const MissingOptionMessage := "Either `--include_base` or `--extension` has to be set (or both)."
  const BadExtensionMessage := "`--extension` has to be formatted as `filename:ClassName`."

  /** Lines 56-61: the comma-separated pieces of the option string. */
  function Pieces(text: string): seq<string>
  {
    if ',' in text then Split(text, ',') else [text]
  }

  /** What `finalize_options` does to `self.extension`, and how it ends.
      When a piece is malformed, the pairs parsed before it have already
      been stored (line 63 reassigns the attribute before the loop).  Run
      again on a non-empty list of pairs, the method takes the list as its
      one piece (a list holds no `','`), resets the attribute to `[]` and
      raises `AttributeError` at `ext.split(':')`. */
  function Finalize(includeBase: bool, extension: ExtensionOption): (ExtensionOption, Outcome)
  {
    if !includeBase && extension.NotSet? then (extension, DistutilsOptionError(MissingOptionMessage))
    else if extension.Given? && extension.text != [] then ParsePieces(Pieces(extension.text))
    else if extension.Parsed? && extension.pairs != [] then (Parsed([]), AttributeError)
    else (extension, Finalized)
  }

  /** Lines 63-68: the pairs of the pieces up to the first malformed one,
      and whether there was one. */
  function ParsePieces(pieces: seq<string>): (ExtensionOption, Outcome)
  {
    match FirstBad(pieces)
    case Some(k) => (Parsed(PairsOf(pieces[..k])), DistutilsOptionError(BadExtensionMessage))
    case None => (Parsed(PairsOf(pieces)), Finalized)
  }

  /** Lines 54-55: the missing-option error is raised exactly when
      `include_base` is falsy and no extension was given, and then nothing
      changes. */
  lemma MissingOptionError(includeBase: bool, extension: ExtensionOption)
    ensures Finalize(includeBase, extension).1 == DistutilsOptionError(MissingOptionMessage) <==>
            !includeBase && extension.NotSet?
    ensures !includeBase && extension.NotSet? ==> Finalize(includeBase, extension).0 == NotSet
  {
  }

  /** Lines 53-56: an empty option string passes the `None` check, is falsy,
      and is left as it is. */
  lemma EmptyExtensionKept(includeBase: bool)
    ensures Finalize(includeBase, Given([])) == (Given([]), Finalized)
  {
  }

  /** Lines 56-68: a non-empty option string finalizes exactly when every
      comma-separated piece holds exactly one colon; the result is one pair
      per piece, in order, and writing the pairs back as
      `filename:ClassName` joined by commas gives the option string. */
  lemma ExtensionParsed(includeBase: bool, text: string)
    requires text != []
    ensures Finalize(includeBase, Given(text)).1 == Finalized <==>
            forall i :: 0 <= i < |Split(text, ',')| ==> Count(Split(text, ',')[i], ':') == 1
    ensures Finalize(includeBase, Given(text)).1 == Finalized ==>
            var pairs := Finalize(includeBase, Given(text)).0.pairs;
            |pairs| == |Split(text, ',')| >= 1 &&
            Join(seq(|pairs|, i requires 0 <= i < |pairs| => pairs[i].0 + ":" + pairs[i].1), ',') == text
  {
    var pieces := Split(text, ',');
    if ',' !in text {
      SplitWithoutSeparator(text, ',');
    }
    assert Pieces(text) == pieces;
    forall i | 0 <= i < |pieces|
      ensures WellFormedPiece(pieces[i]) <==> Count(pieces[i], ':') == 1
    {
      WellFormedPieceIff(pieces[i]);
    }
    if FirstBad(pieces).None? {
      var pairs := PairsOf(pieces);
      var written := seq(|pairs|, i requires 0 <= i < |pairs| => pairs[i].0 + ":" + pairs[i].1);
      assert written == pieces;
      JoinSplit(text, ',');
    }
  }

  /** Lines 63-67: when piece `k` is the first without exactly one colon,
      the format error is raised with the pairs of the pieces before it
      already stored, in order. */
  lemma MalformedPieceRaises(includeBase: bool, text: string, k: nat)
    requires text != []
    requires k < |Split(text, ',')| && Count(Split(text, ',')[k], ':') != 1
    requires forall i :: 0 <= i < k ==> Count(Split(text, ',')[i], ':') == 1
    ensures Finalize(includeBase, Given(text)).1 == DistutilsOptionError(BadExtensionMessage)
    ensures forall i :: 0 <= i < k ==> WellFormedPiece(Split(text, ',')[i])
    ensures Finalize(includeBase, Given(text)).0 == Parsed(PairsOf(Split(text, ',')[..k]))
  {
    var pieces := Split(text, ',');
    if ',' !in text {
      SplitWithoutSeparator(text, ',');
    }
    assert Pieces(text) == pieces;
    forall i | 0 <= i <= k
      ensures WellFormedPiece(pieces[i]) <==> Count(pieces[i], ':') == 1
    {
      WellFormedPieceIff(pieces[i]);
    }
    FirstBadAt(pieces, k);
  }

  /** Lines 56-64 run a second time: a successfully parsed non-empty
      option string leaves a non-empty list of pairs, and finalizing that
      list empties it and raises `AttributeError`. */
  lemma {:induction false} FinalizeTwiceRaises(includeBase: bool, text: string)
    requires text != []
    requires Finalize(includeBase, Given(text)).1 == Finalized
    ensures Finalize(includeBase, Finalize(includeBase, Given(text)).0) == (Parsed([]), AttributeError)
  {
    ExtensionParsed(includeBase, text);
  }

  /** Lines 56-58 on a list of pairs: an empty list is falsy and kept; a
      non-empty one is emptied and the call raises. */
  lemma ParsedExtensionRefinalized(includeBase: bool, pairs: seq<(string, string)>)
    ensures Finalize(includeBase, Parsed(pairs)) ==
            if pairs == [] then (Parsed([]), Finalized) else (Parsed([]), AttributeError)
    ensures Finalize(includeBase, Parsed(pairs)).1 != DistutilsOptionError(MissingOptionMessage)
  {
  }

  class DocGenCommand {
    var includeBase: bool
    var extension: ExtensionOption

    /** The options as `finalize_options` finds them: set by
        `initialize_options` and the command line, or left by an earlier
        `finalize_options`. */
    constructor (includeBase: bool, extension: ExtensionOption)
      ensures this.includeBase == includeBase && this.extension == extension
    {
      this.includeBase := includeBase;
      this.extension := extension;
    }

    /** `finalize_options`, apart from the output directory. */
    method FinalizeOptions() returns (outcome: Outcome)
      modifies this`extension
      ensures (extension, outcome) == Finalize(includeBase, old(extension))
    {
      if !includeBase && extension.NotSet? {
        return DistutilsOptionError(MissingOptionMessage);
      }
      if extension.Given? && extension.text != [] {
        var text := extension.text;
        var exts: seq<string>;
        if ',' in text {
          exts := Split(text, ',');
        } else {
          exts := [text];
        }
        outcome := StorePairs(exts);
        return;
      }
      if extension.Parsed? && extension.pairs != [] {
        extension := Parsed([]);
        return AttributeError;
      }
      return Finalized;
    }

    /** Lines 63-68: the attribute is reset to an empty list, then each piece
        is split on `:` and its pair appended, until a malformed piece
        raises. */
    method StorePairs(exts: seq<string>) returns (outcome: Outcome)
      modifies this`extension
      ensures (extension, outcome) == ParsePieces(exts)
    {
      extension := Parsed([]);
      var i := 0;
      while i < |exts|
        invariant 0 <= i <= |exts|
        invariant forall j :: 0 <= j < i ==> WellFormedPiece(exts[j])
        invariant extension == Parsed(PairsOf(exts[..i]))
      {
        var ext := Split(exts[i], ':');
        if |ext| != 2 {
          FirstBadAt(exts, i);
          return DistutilsOptionError(BadExtensionMessage);
        }
        PairsOfSnoc(exts, i);
        extension := Parsed(extension.pairs + [(ext[0], ext[1])]);
        i := i + 1;
      }
      assert exts[..i] == exts;
      FirstBadAt(exts, i);
      return Finalized;
    }
  }

  lemma PairsOfSnoc(pieces: seq<string>, i: nat)
    requires i < |pieces|
    requires forall j :: 0 <= j <= i ==> WellFormedPiece(pieces[j])
    ensures PairOf(pieces[i]) == (Split(pieces[i], ':')[0], Split(pieces[i], ':')[1])
    ensures PairsOf(pieces[..i + 1]) == PairsOf(pieces[..i]) + [PairOf(pieces[i])]
  {
  }

  /** The first malformed piece is found at `k` when all before it are
      well formed (or there is none when `k` is the end). */
  lemma {:induction false} FirstBadAt(pieces: seq<string>, k: nat)
    requires k <= |pieces|
    requires forall j :: 0 <= j < k ==> WellFormedPiece(pieces[j])
    requires k < |pieces| ==> !WellFormedPiece(pieces[k])
    ensures FirstBad(pieces) == if k < |pieces| then Some(k) else None
    decreases k
  {
    if k > 0 {
      FirstBadAt(pieces[1..], k - 1);
    }
  }

  // The toctree entries of the generated index (`run`, lines 110-113).

  /** One toctree line: the entry indented by three spaces, ending the line. */
  function IndexLine(name: string): string
  {
    "   " + name + "\n"
  }

  /** The entry a toctree line names. */
  function EntryOf(line: string): string
    requires |line| >= 4
  {
    line[3..|line| - 1]
  }

  /** Reading an index line back gives the entry, and distinct entries give
      distinct lines. */
  lemma IndexLineRoundTrip(name: string, other: string)
    ensures EntryOf(IndexLine(name)) == name
    ensures IndexLine(name) == IndexLine(other) ==> name == other
  {
    assert EntryOf(IndexLine(other)) == other;
  }

  /** Lines 111-113: one index line per toctree entry, in the same order. */
  method IndexLines(tocTreeContents: seq<string>) returns (indices: seq<string>)
    ensures |indices| == |tocTreeContents|
    ensures forall i :: 0 <= i < |indices| ==> indices[i] == IndexLine(tocTreeContents[i])
  {
    indices := [];
    for i := 0 to |tocTreeContents|
      invariant |indices| == i
      invariant forall j :: 0 <= j < i ==> indices[j] == IndexLine(tocTreeContents[j])
    {
      indices := indices + [IndexLine(tocTreeContents[i])];
    }
  }
}
