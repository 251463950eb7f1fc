/** Shared vocabulary of the pipeline model: optional values, paths, file states, string joins. */
module Base {

  datatype Option<+T> = None | Some(value: T) {
    /** Python's `d.get(k, default)` once the lookup has been done. */
    function GetOr(default: T): T {
      if Some? then value else default
    }
  }

  /** A filesystem path as its list of components; `p + [c]` is Python's `p / c`. */
  type Path = seq<string>

  /** `str(p)` for a relative path. */
  function PathText(p: Path): string
  {
    Join(p, "/")
  }

  /** `Path.name`: the last component, or "" for a path with none. */
  function Name(p: Path): (r: string)
    ensures p != [] ==> r == p[|p| - 1]
  {
    if p == [] then "" else p[|p| - 1]
  }

  /** What reading a JSON file gives: no file, text that `json.load` rejects, or a document. */
  datatype FileState<+T> = Missing | Corrupt | Present(doc: T)

  /** `sep.join(parts)`. */
  function Join(parts: seq<string>, sep: string): string
  {
    if parts == [] then ""
    else if |parts| == 1 then parts[0]
    else parts[0] + sep + Join(parts[1..], sep)
  }

  /** A join begins with its first part. */
  lemma {:induction false} JoinFirst(parts: seq<string>, sep: string)
    requires parts != []
    ensures |parts[0]| <= |Join(parts, sep)| && Join(parts, sep)[..|parts[0]|] == parts[0]
  {
  }

  /** A join ends with its last part. */
  lemma {:induction false} JoinLast(parts: seq<string>, sep: string)
    requires parts != []
    ensures var j, l := Join(parts, sep), parts[|parts| - 1];
            |l| <= |j| && j[|j| - |l|..] == l
  {
    if |parts| > 1 {
      JoinLast(parts[1..], sep);
      var rest := Join(parts[1..], sep);
      var l := parts[|parts| - 1];
      assert parts[1..][|parts[1..]| - 1] == l;
      var j := parts[0] + sep + rest;
      assert j[|j| - |l|..] == rest[|rest| - |l|..];
    }
  }

  /** `list(filter(None, parts))` on strings: the non-empty members, in order. */
  function NonEmpty(parts: seq<string>): (r: seq<string>)
    ensures |r| <= |parts|
    ensures forall s :: s in r <==> s in parts && s != ""
  {
    if parts == [] then []
    else (if parts[0] == "" then [] else [parts[0]]) + NonEmpty(parts[1..])
  }

  /** Python's `needle in haystack` on strings. */
  predicate IsSubstring(needle: string, haystack: string)
  {
    (|needle| <= |haystack| && haystack[..|needle|] == needle)
    || (haystack != [] && IsSubstring(needle, haystack[1..]))
  }
}
