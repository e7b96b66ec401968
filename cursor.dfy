/** Reading the continuation cursor out of a page body (exporter.py:75-79):
    a missing cursor and one that is blank after str.strip() both mean
    "no more pages"; any other value is handed back unchanged. */
module Cursor {
  import opened Json

  /** The characters Python's str.strip() removes (the Unicode whitespace
      of CPython's str.isspace). */
  predicate IsSpace(c: char) {
    c == ' ' || ('\t' <= c <= '\r') || ('\U{1C}' <= c <= '\U{1F}')
    || c == '\U{85}' || c == '\U{A0}' || c == '\U{1680}'
    || ('\U{2000}' <= c <= '\U{200A}') || c == '\U{2028}' || c == '\U{2029}'
    || c == '\U{202F}' || c == '\U{205F}' || c == '\U{3000}'
  }

  predicate AllSpace(s: string) {
    forall k :: 0 <= k < |s| ==> IsSpace(s[k])
  }

  /** s without its leading whitespace. */
  function TrimLeft(s: string): (r: string)
    ensures |r| <= |s| && r == s[|s| - |r|..]
    ensures AllSpace(s[..|s| - |r|])
    ensures r != [] ==> !IsSpace(r[0])
  {
    if s != [] && IsSpace(s[0]) then TrimLeft(s[1..]) else s
  }

  /** s without its trailing whitespace. */
  function TrimRight(s: string): (r: string)
    ensures |r| <= |s| && r == s[..|r|]
    ensures AllSpace(s[|r|..])
    ensures r != [] ==> !IsSpace(r[|r| - 1])
  {
    if s != [] && IsSpace(s[|s| - 1]) then TrimRight(s[..|s| - 1]) else s
  }

  /** Python's str.strip() with no argument. */
  function Strip(s: string): string {
    TrimRight(TrimLeft(s))
  }

  /** Stripping leaves nothing exactly when every character is whitespace. */
  lemma StripEmptyIff(s: string)
    ensures Strip(s) == "" <==> AllSpace(s)
  {
    var t := TrimLeft(s);
    assert s == s[..|s| - |t|] + t;
  }

  /** The substring test "needle in haystack" of Python's str. */
  predicate Occurs(needle: string, haystack: string)
    decreases |haystack|
  {
    (|needle| <= |haystack| && haystack[..|needle|] == needle)
    || (haystack != [] && Occurs(needle, haystack[1..]))
  }

  /** What `"next_cursor" in d["response_metadata"]` finds. A metadata value
      that is no object is searched the way Python's `in` searches it; a hit
      there, or a value `in` cannot search, raises a TypeError. */
  datatype Metadata = Absent | Present(cursor: Json) | Unreadable

  function ReadMetadata(d: Record): Metadata {
    if "response_metadata" !in d then Absent
    else match d["response_metadata"]
      case JObj(f) => if "next_cursor" in f then Present(f["next_cursor"]) else Absent
      case JArr(xs) => if JStr("next_cursor") in xs then Unreadable else Absent
      case JStr(s) => if Occurs("next_cursor", s) then Unreadable else Absent
      case _ => Unreadable
  }

  /** A cursor value that counts as "none": a JSON null (Python's None) or a
      string that str.strip() empties. Every other value, numbers and lists
      included, str()s to something non-blank. */
  predicate Blank(c: Json) {
    c.JNull? || (c.JStr? && Strip(c.s) == "")
  }

  /** The cursor the page hands back (exporter.py:75-81). */
  function NextCursor(d: Record): (c: Option<Json>)
    requires ReadMetadata(d) != Unreadable
    ensures c.Some? <==>
      "response_metadata" in d && d["response_metadata"].JObj?
      && "next_cursor" in d["response_metadata"].fields
      && var v := d["response_metadata"].fields["next_cursor"];
         !v.JNull? && !(v.JStr? && AllSpace(v.s))
    ensures c.Some? ==> c.value == d["response_metadata"].fields["next_cursor"]
  {
    match ReadMetadata(d)
    case Present(v) =>
      assert v.JStr? ==> (Strip(v.s) == "" <==> AllSpace(v.s)) by {
        if v.JStr? { StripEmptyIff(v.s); }
      }
      if Blank(v) then None else Some(v)
    case _ => None
  }
}
