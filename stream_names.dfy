/** The `TAG:name` addressing scheme of MediaPipe stream and side-packet names.

    The plugin's `Tool.ParseTagAndName` and `Tool.ParseNameFromStream` are not
    part of this model; the functions below are the assumed behaviour that the
    graph builder relies on: the name is what follows the last colon, the tag
    (with any index) is what precedes it, and a string without a colon is a
    bare name with the empty tag. */
module StreamNames {

  const Colon: char := ':'

  /** Prefix given to the name of every throttled stream. */
  const ThrottledPrefix: string := "throttled_"

  /** A name without tag or index: it contains no colon. */
  predicate IsBareName(s: string)
  {
    forall i :: 0 <= i < |s| ==> s[i] != Colon
  }

  /** A stream reference split into its tag (possibly `TAG:INDEX`) and its name. */
  datatype TagAndName = TagAndName(tag: string, name: string)

  /** The position of the last colon in `s`, or -1 when `s` has none. */
  function LastColon(s: string): (k: int)
    ensures -1 <= k < |s|
    ensures k >= 0 ==> s[k] == Colon
    ensures forall j :: k < j < |s| ==> s[j] != Colon
    decreases |s|
  {
    if s == [] then -1
    else if s[|s| - 1] == Colon then |s| - 1
    else LastColon(s[..|s| - 1])
  }

  /** Splits `s` at its last colon. */
  function ParseTagAndName(s: string): (r: TagAndName)
    ensures IsBareName(r.name)
    ensures !IsBareName(s) ==> s == r.tag + [Colon] + r.name
    ensures IsBareName(s) ==> r == TagAndName("", s)
  {
    var k := LastColon(s);
    if k < 0 then TagAndName("", s)
    else
      assert s == s[..k] + [Colon] + s[k + 1..];
      TagAndName(s[..k], s[k + 1..])
  }

  /** The bare name of a stream: its tag and index stripped. */
  function ParseNameFromStream(stream: string): (name: string)
    ensures IsBareName(name)
    ensures |name| <= |stream| && stream[|stream| - |name|..] == name
    ensures IsBareName(stream) ==> name == stream
    ensures !IsBareName(stream) ==>
              |name| < |stream| && stream[|stream| - |name| - 1] == Colon
  {
    var p := ParseTagAndName(stream);
    assert !IsBareName(stream) ==> stream[|p.tag|] == Colon;
    p.name
  }

  /** Parsing undoes joining: a tag and a colon-free name joined with a colon
      split back into exactly that tag and name. */
  lemma ParseJoined(tag: string, name: string)
    requires IsBareName(name)
    ensures ParseTagAndName(tag + [Colon] + name) == TagAndName(tag, name)
  {
    var s := tag + [Colon] + name;
    assert s[|tag|] == Colon;
    var k := LastColon(s);
    assert forall j :: |tag| < j < |s| ==> s[j] == name[j - |tag| - 1];
    assert k == |tag|;
    assert s[..k] == tag && s[k + 1..] == name;
  }

  /** A bare name is its own bare name: stripping is idempotent. */
  lemma BareNameIsFixed(s: string)
    ensures ParseNameFromStream(ParseNameFromStream(s)) == ParseNameFromStream(s)
  {
  }
}
