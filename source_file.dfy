/**
 * `Logger::SourceFile`: the basename of a source path, found as the text
 * after the last '/', without copying. A value keeps the memory it points
 * into, the offset `data_` has within it, and `size_`.
 */
module SourceFiles {
  import opened CStrings

  /** Index of the last `c` in `s`, or -1 when there is none (`strrchr`). */
  function LastIndexOf(s: string, c: char): (r: int)
    ensures -1 <= r < |s|
    ensures r >= 0 ==> s[r] == c
    ensures forall j :: r < j < |s| ==> s[j] != c
  {
    if s == [] then -1
    else if s[|s| - 1] == c then |s| - 1
    else LastIndexOf(s[..|s| - 1], c)
  }

  /** The text after the last '/', or the whole path when it has none. */
  function Basename(path: string): (r: string)
    ensures |r| <= |path| && r == path[|path| - |r|..]
    ensures '/' !in r
    ensures '/' !in path ==> r == path
    ensures '/' in path ==> path[|path| - |r| - 1] == '/'
  {
    path[LastIndexOf(path, '/') + 1..]
  }

  /** Taking the basename of a basename changes nothing. */
  lemma BasenameIdempotent(path: string)
    ensures Basename(Basename(path)) == Basename(path)
  {
  }

  datatype SourceFile = SourceFile(mem: seq<char>, offset: nat, size: int) {

    predicate WellFormed() {
      offset <= |mem|
    }

    /** The C string `data_` points at. */
    function Data(): string
      requires WellFormed()
    {
      CStr(mem[offset..])
    }
  }

  /**
   * The template constructor for a character array of `N == |arr|`
   * elements: `size_` starts at `N - 1` and loses the length of the skipped
   * directory prefix.
   */
  function FromLiteral(arr: seq<char>): (f: SourceFile)
    requires |arr| >= 1 && arr[|arr| - 1] == NUL
    ensures f.mem == arr && f.WellFormed()
    ensures f.offset + |Basename(CStr(arr))| == |CStr(arr)|
    ensures f.Data() == Basename(CStr(arr))
    ensures f.size == |arr| - 1 - f.offset
  {
    var path := CStr(arr);
    var slash := LastIndexOf(path, '/');
    CStrDrop(arr, slash + 1);
    if slash >= 0 then SourceFile(arr, slash + 1, |arr| - 1 - (slash + 1))
    else SourceFile(arr, 0, |arr| - 1)
  }

  /** The runtime constructor: `size_` is `strlen(data_)`. */
  function FromCString(mem: seq<char>): (f: SourceFile)
    requires NUL in mem
    ensures f.mem == mem && f.WellFormed()
    ensures f.offset + |Basename(CStr(mem))| == |CStr(mem)|
    ensures f.Data() == Basename(CStr(mem))
    ensures f.size == |f.Data()|
  {
    var path := CStr(mem);
    var slash := LastIndexOf(path, '/');
    var offset := if slash >= 0 then slash + 1 else 0;
    CStrDrop(mem, offset);
    SourceFile(mem, offset, |CStr(mem[offset..])|)
  }

  /**
   * For a string literal (one terminating NUL, none inside) the two
   * constructors agree on offset, size and text.
   */
  lemma LiteralAgreesWithRuntime(content: string)
    requires NUL !in content
    ensures FromLiteral(content + [NUL]) == FromCString(content + [NUL])
    ensures FromLiteral(content + [NUL]).Data() == Basename(content)
    ensures FromLiteral(content + [NUL]).size == |Basename(content)|
  {
    CStrOfNulFree(content);
  }
}
