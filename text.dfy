/**
 * The string helpers of Go's standard library that the bridge relies on:
 * `strings.HasPrefix`, `strings.Split` with a one-character separator,
 * joining, the `%s` rendering of a `[]string`, and `filepath.Join`/`filepath.Base`
 * on slash-separated paths.
 */
module Text {

  /** `strings.HasPrefix(s, prefix)`: a case-sensitive prefix test. */
  predicate HasPrefix(s: string, prefix: string) {
    |prefix| <= |s| && s[..|prefix|] == prefix
  }

  /** `t` occurs somewhere inside `s` (`strings.Contains(s, t)`). */
  predicate Contains(s: string, t: string) {
    exists i, j :: 0 <= i <= j <= |s| && s[i..j] == t
  }

  /**
   * `strings.Split(s, string(sep))`: the pieces of `s` between occurrences of `sep`.
   * Splitting the empty string gives `[""]`, never the empty list.
   */
  function Split(s: string, sep: char): (parts: seq<string>)
    ensures |parts| >= 1
    decreases |s|
  {
    if s == [] then [""]
    else
      var rest := Split(s[1..], sep);
      if s[0] == sep then [""] + rest
      else [[s[0]] + rest[0]] + rest[1..]
  }

  /** `strings.Join(parts, sep)`. */
  function Join(parts: seq<string>, sep: string): string
    decreases |parts|
  {
    if |parts| == 0 then ""
    else if |parts| == 1 then parts[0]
    else parts[0] + sep + Join(parts[1..], sep)
  }

  /** Joining the pieces back with the separator gives the original string. */
  lemma {:induction false} JoinSplit(s: string, sep: char)
    ensures Join(Split(s, sep), [sep]) == s
    decreases |s|
  {
    if s != [] {
      var rest := Split(s[1..], sep);
      JoinSplit(s[1..], sep);
      if s[0] == sep {
        assert Split(s, sep) == [""] + rest;
        assert ([""] + rest)[1..] == rest;
        assert s == [sep] + s[1..];
      } else if |rest| == 1 {
        assert s == [s[0]] + s[1..];
      } else {
        var parts := [[s[0]] + rest[0]] + rest[1..];
        assert parts[1..] == rest[1..];
        assert Join(rest, [sep]) == rest[0] + [sep] + Join(rest[1..], [sep]);
        assert s == [s[0]] + s[1..];
      }
    }
  }

  /** No piece produced by Split contains the separator. */
  lemma {:induction false} SplitPiecesOmitSeparator(s: string, sep: char)
    ensures forall k :: 0 <= k < |Split(s, sep)| ==> sep !in Split(s, sep)[k]
    decreases |s|
  {
    if s != [] {
      SplitPiecesOmitSeparator(s[1..], sep);
      var rest := Split(s[1..], sep);
      if s[0] != sep {
        var parts := Split(s, sep);
        forall k | 0 <= k < |parts| ensures sep !in parts[k] {
          if k == 0 {
            assert parts[0] == [s[0]] + rest[0];
          } else {
            assert parts[k] == rest[k];
          }
        }
      }
    }
  }

  /**
   * The first piece is empty exactly when the string is empty or starts with the
   * separator, so `Split(",123", ',')[0] == ""`.
   */
  lemma FirstPieceEmpty(s: string, sep: char)
    ensures Split(s, sep)[0] == "" <==> s == "" || s[0] == sep
  {
  }

  /** The `%s` rendering of a Go `[]string` by the fmt package: `[a b c]`. */
  function FormatList(items: seq<string>): (r: string)
    ensures |r| >= 2 && r[0] == '[' && r[|r| - 1] == ']'
  {
    "[" + Join(items, " ") + "]"
  }

  /** Every item of a joined list occurs in the joined string. */
  lemma {:induction false} JoinContainsItem(items: seq<string>, sep: string, k: nat)
    requires k < |items|
    ensures Contains(Join(items, sep), items[k])
    decreases |items|
  {
    var joined := Join(items, sep);
    if |items| == 1 {
      assert joined[0..|joined|] == items[k];
    } else if k == 0 {
      assert joined[0..|items[0]|] == items[0];
    } else {
      JoinContainsItem(items[1..], sep, k - 1);
      var tail := Join(items[1..], sep);
      var i, j :| 0 <= i <= j <= |tail| && tail[i..j] == items[1..][k - 1];
      var off := |items[0]| + |sep|;
      assert joined == items[0] + sep + tail;
      assert joined[off + i..off + j] == tail[i..j];
    }
  }

  /** Every item of a list occurs in its `%s` rendering. */
  lemma FormatListContainsItem(items: seq<string>, k: nat)
    requires k < |items|
    ensures Contains(FormatList(items), items[k])
  {
    JoinContainsItem(items, " ", k);
    var joined := Join(items, " ");
    var i, j :| 0 <= i <= j <= |joined| && joined[i..j] == items[k];
    assert FormatList(items)[i + 1..j + 1] == joined[i..j];
  }

  /** A substring of `t` is a substring of anything that has `t` as a suffix. */
  lemma ContainsInSuffix(prefix: string, t: string, u: string)
    requires Contains(t, u)
    ensures Contains(prefix + t, u)
  {
    var i, j :| 0 <= i <= j <= |t| && t[i..j] == u;
    assert (prefix + t)[|prefix| + i..|prefix| + j] == t[i..j];
  }

  /** `filepath.Join(dir, name)`, without the lexical cleaning of the result. */
  function PathJoin(dir: string, name: string): (p: string)
    ensures |p| == |dir| + 1 + |name|
  {
    dir + "/" + name
  }

  /** The path with every trailing slash removed. */
  function TrimTrailingSlashes(p: string): (r: string)
    ensures |r| <= |p| && r == p[..|r|]
    ensures r == [] || r[|r| - 1] != '/'
    decreases |p|
  {
    if p != [] && p[|p| - 1] == '/' then TrimTrailingSlashes(p[..|p| - 1]) else p
  }

  /** What follows the last slash of `p` (all of `p` if it has none). */
  function LastElement(p: string): (r: string)
    ensures '/' !in r
    decreases |p|
  {
    if p == [] || p[|p| - 1] == '/' then [] else LastElement(p[..|p| - 1]) + [p[|p| - 1]]
  }

  /**
   * `filepath.Base(p)`: the last element of the path after trailing slashes are
   * removed; "." for the empty path and "/" for a path of slashes only.
   */
  function Base(p: string): (r: string)
    ensures r != ""
  {
    if p == "" then "."
    else
      var q := TrimTrailingSlashes(p);
      if q == "" then "/" else
        LastElementNonEmpty(q);
        LastElement(q)
  }

  lemma LastElementNonEmpty(q: string)
    requires q != [] && q[|q| - 1] != '/'
    ensures LastElement(q) != []
  {
  }

  /** A slash-free name is the last element of anything it is appended to after a slash. */
  lemma {:induction false} LastElementAfterSlash(dir: string, name: string)
    requires '/' !in name
    ensures LastElement(dir + "/" + name) == name
    decreases |name|
  {
    var p := dir + "/" + name;
    if name == [] {
      assert p[|p| - 1] == '/';
    } else {
      var init := name[..|name| - 1];
      assert p[..|p| - 1] == dir + "/" + init;
      LastElementAfterSlash(dir, init);
      assert name == init + [name[|name| - 1]];
    }
  }

  /**
   * The base name of a joined path is the file name that was joined, when that
   * name is a single non-empty path element.
   */
  lemma BaseOfJoin(dir: string, name: string)
    requires name != "" && '/' !in name
    ensures Base(PathJoin(dir, name)) == name
  {
    var p := PathJoin(dir, name);
    assert p[|p| - 1] == name[|name| - 1];
    assert TrimTrailingSlashes(p) == p;
    LastElementAfterSlash(dir, name);
  }
}
