/** `validate_blog_identifier` of aiotumblr_core/extensions/_validators.py:
    an identifier written as a `.tumblr.com` host name must have a blog
    name of at most 32 characters; every other identifier is accepted. */
module BlogIdentifier {

  const Suffix := ".tumblr.com"

  /** The longest blog name the check lets through. */
  const MaxNameLength := 32

  /** Python's `s.endswith(suffix)`. */
  predicate EndsWith(s: string, suffix: string)
  {
    |suffix| <= |s| && s[|s| - |suffix|..] == suffix
  }

  /** `sub` occurs in `s` at position `i`. */
  predicate OccursAt(s: string, sub: string, i: int)
  {
    0 <= i && i + |sub| <= |s| && s[i..i + |sub|] == sub
  }

  /** The last occurrence of `sub` at a position up to `i`, or -1. */
  function LastAtOrBefore(s: string, sub: string, i: int): (r: int)
    requires i + |sub| <= |s|
    ensures r == -1 || (r <= i && OccursAt(s, sub, r))
    ensures forall j :: r < j <= i ==> !OccursAt(s, sub, j)
    decreases i + 1
  {
    if i < 0 then -1
    else if s[i..i + |sub|] == sub then i
    else LastAtOrBefore(s, sub, i - 1)
  }

  /** Python's `s.rfind(sub)`: the highest position where `sub` occurs, or
      -1 when it does not occur. */
  function RFind(s: string, sub: string): (r: int)
    ensures r == -1 || OccursAt(s, sub, r)
    ensures forall j :: r < j ==> !OccursAt(s, sub, j)
  {
    if |sub| > |s| then -1 else LastAtOrBefore(s, sub, |s| - |sub|)
  }

  /** The length of Python's `s[:stop]`: a negative stop counts from the
      end, and the result is clamped to the string. */
  function PrefixLength(s: string, stop: int): (n: nat)
    ensures n <= |s|
  {
    if stop < 0 then (if |s| + stop < 0 then 0 else |s| + stop)
    else if stop > |s| then |s|
    else stop
  }

  /** `validate_blog_identifier`. */
  function ValidateBlogIdentifier(identifier: string): bool
  {
    if EndsWith(identifier, Suffix) then
      var endPos := RFind(identifier, Suffix);
      !(PrefixLength(identifier, endPos) > MaxNameLength)
    else true
  }

  /** Line 7: for an identifier that ends with the suffix, `rfind` finds
      that final occurrence, so the slice before it is the blog name. */
  lemma RFindFindsFinalSuffix(identifier: string)
    requires EndsWith(identifier, Suffix)
    ensures RFind(identifier, Suffix) == |identifier| - |Suffix|
    ensures PrefixLength(identifier, RFind(identifier, Suffix)) == |identifier| - |Suffix|
  {
    assert OccursAt(identifier, Suffix, |identifier| - |Suffix|);
  }

  /** Lines 6-11: an identifier that does not end with `.tumblr.com` is
      accepted; one that does is accepted exactly when the name before the
      suffix has at most 32 characters, that is, when the whole identifier
      has at most 43. */
  lemma ValidateBlogIdentifierSpec(identifier: string)
    ensures !EndsWith(identifier, Suffix) ==> ValidateBlogIdentifier(identifier)
    ensures EndsWith(identifier, Suffix) ==>
              (ValidateBlogIdentifier(identifier) <==> |identifier| - |Suffix| <= MaxNameLength)
    ensures ValidateBlogIdentifier(identifier) <==> !EndsWith(identifier, Suffix) || |identifier| <= 43
  {
    if EndsWith(identifier, Suffix) {
      RFindFindsFinalSuffix(identifier);
    }
  }

  /** The boundary cases: a 32-character name is accepted, a 33-character
      one is rejected, and the bare suffix (an empty name) is accepted. */
  lemma NameLengthBoundary(name: string)
    ensures |name| == 32 ==> ValidateBlogIdentifier(name + Suffix)
    ensures |name| == 33 ==> !ValidateBlogIdentifier(name + Suffix)
    ensures ValidateBlogIdentifier(Suffix)
  {
    var s := name + Suffix;
    assert s[|s| - |Suffix|..] == Suffix;
    ValidateBlogIdentifierSpec(s);
    assert [] + Suffix == Suffix;
    ValidateBlogIdentifierSpec(Suffix);
  }
}
