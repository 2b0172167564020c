/**
 * The parts of the PHP runtime that both renderers lean on: values and
 * variable scopes, the host's filesystem probes and script execution (as
 * oracles passed in by the caller), PHP's truthiness rule for strings and the
 * string built-ins `str_replace(' ', '', _)`, `trim`/`ltrim`/`rtrim` with a
 * single-character list, `strtolower` and `strpos`.
 */
module Php {

  datatype Option<T> = None | Some(value: T)

  /** A PHP value bound in a variable scope or passed to Twig; objects are opaque handles. */
  datatype Value = Null | Bool(b: bool) | Int(i: int) | Str(s: string) | Object(id: nat)

  /** A string-keyed PHP array, as handed to `extract` or to Twig. */
  type Scope = map<string, Value>

  /**
   * What `is_dir` and `is_file` answer at the moment of the call. Paths are
   * taken as already canonical: `realpath` is the identity here.
   */
  datatype FileSystem = FileSystem(dirs: set<string>, files: set<string>)

  /**
   * `require` of a file under output buffering: the text the file prints when
   * it runs with the given variables extracted into its scope, while the
   * renderer's `views` property holds the given string.
   */
  type Exec = (string, Scope, string) -> string

  /** PHP's `(bool)` on a string: only "" and "0" are false. */
  predicate Falsy(s: string) {
    s == "" || s == "0"
  }

  /** `str_replace(' ', '', s)`: removes every ASCII space and nothing else, keeping the order. */
  function StripSpaces(s: string): (r: string)
    ensures |r| <= |s|
    ensures ' ' !in r
    ensures forall c :: c != ' ' ==> multiset(r)[c] == multiset(s)[c]
    ensures ' ' !in s ==> r == s
  {
    if s == [] then []
    else
      assert s == [s[0]] + s[1..];
      (if s[0] == ' ' then [] else [s[0]]) + StripSpaces(s[1..])
  }

  /** Removing the spaces of two strings in a row: the order of everything kept is the order it had. */
  lemma {:induction false} StripSpacesAppend(a: string, b: string)
    ensures StripSpaces(a + b) == StripSpaces(a) + StripSpaces(b)
  {
    if a == [] {
      assert a + b == b;
    } else {
      assert (a + b)[0] == a[0] && (a + b)[1..] == a[1..] + b;
      StripSpacesAppend(a[1..], b);
    }
  }

  /** One character: a space goes, any other character stays. */
  lemma StripSpacesChar(c: char)
    ensures StripSpaces([c]) == if c == ' ' then [] else [c]
  {
    assert [c][1..] == [];
  }

  /** `ltrim(s, c)`: drops the longest prefix made only of `c`. */
  function TrimLeft(s: string, c: char): (r: string)
    ensures |r| <= |s| && r == s[|s| - |r|..]
    ensures forall i :: 0 <= i < |s| - |r| ==> s[i] == c
    ensures r == [] || r[0] != c
  {
    if s != [] && s[0] == c then TrimLeft(s[1..], c) else s
  }

  /** `rtrim(s, c)`: drops the longest suffix made only of `c`. */
  function TrimRight(s: string, c: char): (r: string)
    ensures |r| <= |s| && r == s[..|r|]
    ensures forall i :: |r| <= i < |s| ==> s[i] == c
    ensures r == [] || r[|r| - 1] != c
  {
    if s != [] && s[|s| - 1] == c then TrimRight(s[..|s| - 1], c) else s
  }

  /** `trim(s, c)`: both ends. */
  function Trim(s: string, c: char): (r: string)
    ensures |r| <= |s|
    ensures r == [] || (r[0] != c && r[|r| - 1] != c)
  {
    TrimRight(TrimLeft(s, c), c)
  }

  /**
   * What `trim` keeps is one contiguous slice of its input, and everything
   * before and after that slice is `c`.
   */
  lemma TrimIsSlice(s: string, c: char)
    ensures exists i :: TrimmedAt(s, Trim(s, c), c, i)
  {
    var left := TrimLeft(s, c);
    var r := Trim(s, c);
    var i := |s| - |left|;
    assert left == s[i..];
    assert r == left[..|r|];
    forall j | i + |r| <= j < |s|
      ensures s[j] == c
    {
      assert s[j] == left[j - i];
    }
    assert TrimmedAt(s, r, c, i);
  }

  /** `r` is the slice of `s` that starts at index `i`. */
  predicate InfixAt(s: string, r: string, i: nat) {
    i + |r| <= |s| && s[i..i + |r|] == r
  }

  /** `r` is the slice of `s` at index `i`, and `s` holds only `c` before and after it. */
  predicate TrimmedAt(s: string, r: string, c: char, i: nat) {
    && InfixAt(s, r, i)
    && (forall j :: 0 <= j < i ==> s[j] == c)
    && (forall j :: i + |r| <= j < |s| ==> s[j] == c)
  }

  /** A string that neither starts nor ends with `c` comes out of every trim unchanged. */
  lemma TrimIdentity(s: string, c: char)
    requires s == [] || (s[0] != c && s[|s| - 1] != c)
    ensures TrimLeft(s, c) == s && TrimRight(s, c) == s && Trim(s, c) == s
  {
  }

  /**
   * `rtrim(s, '/') . '/'`: the text of `s` up to its trailing slashes, then
   * exactly one slash.
   */
  function SlashTerminated(s: string): (r: string)
    ensures 0 < |r| && r[|r| - 1] == '/'
    ensures |r| == 1 || r[|r| - 2] != '/'
    ensures |r| - 1 <= |s| && r[..|r| - 1] == s[..|r| - 1]
    ensures forall i :: |r| - 1 <= i < |s| ==> s[i] == '/'
  {
    TrimRight(s, '/') + "/"
  }

  /** Terminating with a slash twice changes nothing. */
  lemma SlashTerminatedIdempotent(s: string)
    ensures SlashTerminated(SlashTerminated(s)) == SlashTerminated(s)
  {
    var r := SlashTerminated(s);
    assert TrimRight(r, '/') == r[..|r| - 1];
  }

  /**
   * `array_merge` of two string-keyed arrays (and, equally, `extract` of one
   * after the other): every key of either, the incoming value winning a clash.
   */
  function ArrayMerge(base: Scope, incoming: Scope): (r: Scope)
    ensures forall k :: k in r <==> k in base || k in incoming
    ensures forall k :: k in incoming ==> r[k] == incoming[k]
    ensures forall k :: k in base && k !in incoming ==> r[k] == base[k]
  {
    base + incoming
  }

  /** `strtolower` on one character (ASCII only, as in PHP 8.2 and later). */
  function LowerChar(c: char): char {
    if 'A' <= c <= 'Z' then (c as int - 'A' as int + 'a' as int) as char else c
  }

  predicate IsUpper(c: char) {
    'A' <= c <= 'Z'
  }

  /** `strtolower`: the same length, every ASCII capital lowered, every other character kept. */
  function Lower(s: string): (r: string)
    ensures |r| == |s|
    ensures forall i :: 0 <= i < |s| ==> !IsUpper(r[i])
    ensures forall i :: 0 <= i < |s| && !IsUpper(s[i]) ==> r[i] == s[i]
    ensures forall i :: 0 <= i < |s| && IsUpper(s[i]) ==> r[i] as int == s[i] as int + 32
  {
    if s == [] then [] else [LowerChar(s[0])] + Lower(s[1..])
  }

  /** `needle` occurs in `haystack` starting at index `i`. */
  predicate OccursAt(haystack: string, needle: string, i: nat) {
    i + |needle| <= |haystack| && haystack[i..i + |needle|] == needle
  }

  /** `strpos(haystack, needle, from)`: the first index at or after `from` where `needle` occurs. */
  function StrPosFrom(haystack: string, needle: string, from: nat): (r: Option<nat>)
    requires from <= |haystack|
    ensures r.Some? ==> from <= r.value && OccursAt(haystack, needle, r.value)
    ensures r.Some? ==> forall j :: from <= j < r.value ==> !OccursAt(haystack, needle, j)
    ensures r.None? ==> forall j :: from <= j ==> !OccursAt(haystack, needle, j)
    decreases |haystack| - from
  {
    if OccursAt(haystack, needle, from) then Some(from)
    else if from + |needle| >= |haystack| then None
    else StrPosFrom(haystack, needle, from + 1)
  }

  /** `strpos(haystack, needle)`: `None` plays the part of PHP's `false`. */
  function StrPos(haystack: string, needle: string): (r: Option<nat>)
    ensures r.Some? ==> OccursAt(haystack, needle, r.value)
    ensures r.Some? ==> forall j :: 0 <= j < r.value ==> !OccursAt(haystack, needle, j)
    ensures r.None? <==> forall j :: !OccursAt(haystack, needle, j)
  {
    StrPosFrom(haystack, needle, 0)
  }
}
