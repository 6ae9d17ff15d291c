/** File paths and the pathlib rules for a path's final component and suffix.
    A path is one of the three kinds `PathType` admits: a plain string, a
    local `pathlib.Path`, or a universal path (`UPath`) that carries the
    storage options of its file system. */
module Paths {
  import opened Strings

  datatype FilePath =
    | StrPath(text: string)
    | LocalPath(text: string)
    | UPath(text: string, storageOptions: map<string, string>)

  /** The final component of a POSIX path (`PurePath.name`): trailing
      separators and `.` segments are dropped, so `"dir/data.csv/"` and
      `"dir/data.csv/."` both name `"data.csv"`. */
  function FinalComponent(p: string): (r: string)
    decreases |p|
    ensures '/' !in r && r != "."
    ensures |r| <= |p|
  {
    var i := LastIndexOf(p, '/');
    var last := p[i + 1..];
    if last == "" || last == "." then
      if i < 0 then "" else FinalComponent(p[..i])
    else
      last
  }

  /** The final component holds no character the path does not. */
  lemma {:induction false} FinalComponentChars(p: string, c: char)
    requires c !in p
    ensures c !in FinalComponent(p)
    decreases |p|
  {
    var i := LastIndexOf(p, '/');
    if i >= 0 {
      var q := p[..i];
      assert c !in q by {
        assert forall k :: 0 <= k < |q| ==> q[k] == p[k];
      }
      FinalComponentChars(q, c);
    }
    var last := p[i + 1..];
    assert c !in last by {
      assert forall k :: 0 <= k < |last| ==> last[k] == p[i + 1 + k];
    }
  }

  /** A name without separators is its own final component. */
  lemma FinalComponentOfName(name: string)
    requires '/' !in name && name != "" && name != "."
    ensures FinalComponent(name) == name
  {
    assert LastIndexOf(name, '/') == -1;
    assert name[0..] == name;
  }

  /** A name appended to a directory is the final component of the result. */
  lemma FinalComponentOfJoin(dir: string, name: string)
    requires '/' !in name && name != "" && name != "."
    ensures FinalComponent(dir + "/" + name) == name
  {
    var p := dir + "/" + name;
    var i := LastIndexOf(p, '/');
    assert p[|dir|] == '/';
    assert forall k :: |dir| < k < |p| ==> p[k] == name[k - |dir| - 1];
    assert i == |dir|;
    assert p[i + 1..] == name;
  }

  /** A trailing separator does not change the final component. */
  lemma FinalComponentTrailingSlash(p: string)
    ensures FinalComponent(p + "/") == FinalComponent(p)
  {
    var q := p + "/";
    assert LastIndexOf(q, '/') == |p|;
    assert q[..|p|] == p;
  }

  /** A trailing `.` segment does not change the final component. */
  lemma FinalComponentTrailingDot(p: string)
    ensures FinalComponent(p + "/.") == FinalComponent(p)
  {
    var q := p + "/.";
    assert q[|p|] == '/' && q[|p| + 1] == '.';
    assert LastIndexOf(q, '/') == |p|;
    assert q[|p| + 1..] == ".";
    assert q[..|p|] == p;
  }

  /** The suffix of a final component: the text from its last `.`, or
      `""` when there is no `.` after the first character. A lone trailing
      `.` counts as a suffix, as Python 3.14's `PurePath.suffix` documents;
      the rule of earlier releases is `SuffixBeforePython314`. */
  function Suffix(name: string): (r: string)
    ensures r == "" <==> forall k :: 0 < k < |name| ==> name[k] != '.'
    ensures r != "" ==> 0 < |name| - |r| && forall k :: 0 <= k < |r| ==> r[k] == name[|name| - |r| + k]
    ensures r != "" ==> r[0] == '.' && forall k :: 0 < k < |r| ==> r[k] != '.'
  {
    var i := LastIndexOf(name, '.');
    if 0 < i then name[i..] else ""
  }

  /** `PurePath.suffix` before Python 3.14: as `Suffix`, except that a
      name ending in `.` has no suffix. */
  function SuffixBeforePython314(name: string): (r: string)
    ensures r == "" <==> (forall k :: 0 < k < |name| ==> name[k] != '.') || (|name| > 0 && name[|name| - 1] == '.')
    ensures r != "" ==> |r| > 1 && r == Suffix(name)
  {
    var i := LastIndexOf(name, '.');
    if 0 < i < |name| - 1 then name[i..] else ""
  }

  lemma SuffixRulesDifferOnlyOnLoneDot(name: string)
    ensures Suffix(name) != SuffixBeforePython314(name) ==>
              Suffix(name) == "." && SuffixBeforePython314(name) == ""
  {
  }

  /** The suffix of a path, taken from its final component. */
  function PathSuffix(p: FilePath): string
  {
    Suffix(FinalComponent(p.text))
  }
}
