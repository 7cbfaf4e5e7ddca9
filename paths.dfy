/**
 * The two parts of `pathlib.PurePath` the scanner and the config loaders look at: `name`
 * and `suffix`. Paths are strings as pathlib prints them (`/`-separated, no trailing `/`).
 */
module Paths {

  /** `Path(path).name`: the text after the last `/`. */
  function FileName(path: string): (name: string)
    ensures '/' !in name
    ensures |name| <= |path| && name == path[|path| - |name|..]
    ensures |name| < |path| ==> path[|path| - |name| - 1] == '/'
  {
    if path == [] || path[|path| - 1] == '/' then []
    else FileName(path[..|path| - 1]) + [path[|path| - 1]]
  }

  /** `s.rfind(c)`: the last index holding `c`, or -1. */
  function RFind(s: string, c: char): (i: int)
    ensures -1 <= i < |s|
    ensures 0 <= i ==> s[i] == c
    ensures c !in s[i + 1..]
  {
    if s == [] then -1
    else if s[|s| - 1] == c then |s| - 1
    else RFind(s[..|s| - 1], c)
  }

  /**
   * The suffix of a file name: the name from its last dot on, when that dot is neither the
   * first nor the last character of the name; otherwise empty.
   */
  function NameSuffix(name: string): (ext: string)
    ensures ext != [] ==> 2 <= |ext| < |name|
    ensures ext != [] ==> ext == name[|name| - |ext|..]
    ensures ext != [] ==> ext[0] == '.' && '.' !in ext[1..]
  {
    var i := RFind(name, '.');
    if 0 < i < |name| - 1 then
      assert name[i..][1..] == name[i + 1..];
      name[i..]
    else []
  }

  /**
   * `Path(path).suffix`: empty, or a dot and at least one more character ending the path,
   * with no further dot or `/`.
   */
  function Suffix(path: string): (ext: string)
    ensures ext != [] ==> 2 <= |ext| <= |path| && ext == path[|path| - |ext|..]
    ensures ext != [] ==> ext[0] == '.' && '.' !in ext[1..] && '/' !in ext
  {
    var name := FileName(path);
    var ext := NameSuffix(name);
    if ext == [] then ext
    else
      EndOfEnd(path, name, ext);
      ext
  }

  /** An end piece of an end piece of `a` is an end piece of `a`, and holds only characters of the middle one. */
  lemma EndOfEnd(a: string, b: string, c: string)
    requires |b| <= |a| && b == a[|a| - |b|..]
    requires |c| <= |b| && c == b[|b| - |c|..]
    ensures c == a[|a| - |c|..]
    ensures forall x :: x in c ==> x in b
  {
    forall k | 0 <= k < |c| ensures c[k] == a[|a| - |c| + k] && c[k] in b {
      assert c[k] == b[|b| - |c| + k];
    }
  }

  /** A name `stem.ext` with a non-empty stem and a dot-free, non-empty `ext` has suffix `.ext`. */
  lemma NameSuffixOfDotted(stem: string, ext: string)
    requires stem != [] && ext != [] && '.' !in ext
    ensures NameSuffix(stem + "." + ext) == "." + ext
  {
    var name := stem + "." + ext;
    var i := RFind(name, '.');
    assert name[|stem|] == '.';
    assert name[|stem| + 1..] == ext;
    assert i == |stem|;
    assert name[i..] == "." + ext;
  }

  /** A name whose only dot is its first character, such as `.json`, has no suffix. */
  lemma DotFileHasNoSuffix(name: string)
    requires name != [] && name[0] == '.' && '.' !in name[1..]
    ensures NameSuffix(name) == []
  {
    var i := RFind(name, '.');
    assert name[0..] == name;
    assert forall k :: 1 <= k < |name| ==> name[k] == name[1..][k - 1];
    assert i == 0;
  }

  /** The file `dir/stem.ext` has that name and suffix `.ext`. */
  lemma SuffixOfDottedName(dir: string, stem: string, ext: string)
    requires dir == [] || dir[|dir| - 1] == '/'
    requires stem != [] && ext != []
    requires '/' !in stem && '/' !in ext && '.' !in ext
    ensures FileName(dir + stem + "." + ext) == stem + "." + ext
    ensures Suffix(dir + stem + "." + ext) == "." + ext
  {
    var name := stem + "." + ext;
    assert dir + stem + "." + ext == dir + name;
    FileNameOfJoin(dir, name);
    NameSuffixOfDotted(stem, ext);
  }

  /** The name of `dir/name` is `name`. */
  lemma {:induction false} FileNameOfJoin(dir: string, name: string)
    requires dir == [] || dir[|dir| - 1] == '/'
    requires '/' !in name
    ensures FileName(dir + name) == name
    decreases |name|
  {
    if name == [] {
      assert dir + name == dir;
    } else {
      var last := name[|name| - 1];
      var init := name[..|name| - 1];
      assert last in name;
      assert '/' !in init by {
        forall k | 0 <= k < |init| ensures init[k] != '/' {
          assert init[k] == name[k];
        }
      }
      FileNameOfJoin(dir, init);
      assert (dir + name)[..|dir + name| - 1] == dir + init;
    }
  }
}
