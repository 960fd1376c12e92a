/**
 * C strings. A `const char *` into character memory denotes the characters
 * from that point up to (not including) the first NUL; `strlen`, `strrchr`,
 * `LogStream << const char *` and `fmt::format("{}", const char *)` all see
 * exactly that prefix.
 */
module CStrings {

  const NUL: char := '\0'

  /** Position of the first `c` in `s`, or `|s|` when `c` does not occur. */
  function IndexOf(s: seq<char>, c: char): (r: nat)
    ensures r <= |s|
    ensures r < |s| ==> s[r] == c
    ensures forall j :: 0 <= j < r ==> s[j] != c
  {
    if s == [] then 0
    else if s[0] == c then 0
    else 1 + IndexOf(s[1..], c)
  }

  /** The C string that starts at `mem[0]`. */
  function CStr(mem: seq<char>): (r: string)
    ensures |r| <= |mem| && r == mem[..|r|]
    ensures NUL !in r
    ensures |r| < |mem| ==> mem[|r|] == NUL
  {
    mem[..IndexOf(mem, NUL)]
  }

  /** The three properties of `CStr` determine it: the prefix before the first NUL. */
  lemma CStrUnique(mem: seq<char>, r: string)
    requires |r| <= |mem| && r == mem[..|r|]
    requires NUL !in r
    requires |r| < |mem| ==> mem[|r|] == NUL
    ensures CStr(mem) == r
  {
  }

  /** Text without a NUL reads back unchanged, terminated or not. */
  lemma CStrOfNulFree(s: string)
    requires NUL !in s
    ensures CStr(s) == s
    ensures CStr(s + [NUL]) == s
  {
    CStrUnique(s, s);
    CStrUnique(s + [NUL], s);
  }

  /** Advancing a pointer by `k` within a C string drops its first `k` characters. */
  lemma CStrDrop(mem: seq<char>, k: nat)
    requires k <= |CStr(mem)|
    ensures CStr(mem[k..]) == CStr(mem)[k..]
  {
    var c := CStr(mem);
    var r := c[k..];
    assert r == mem[k..][..|r|];
    assert forall i :: 0 <= i < |r| ==> r[i] == c[k + i];
    CStrUnique(mem[k..], r);
  }
}
