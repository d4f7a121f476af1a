/** The part of Python's `pathlib` that the script relies on, for POSIX paths.
    A path is kept as the sequence of its components; the root is implicit. */
module Paths {

  /** Index of the first `c` in `s`, or `|s|` when there is none. */
  function IndexOf(s: string, c: char): (i: nat)
    ensures i <= |s|
    ensures i < |s| ==> s[i] == c
    ensures forall j :: 0 <= j < i ==> s[j] != c
  {
    if s == [] then 0
    else if s[0] == c then 0
    else 1 + IndexOf(s[1..], c)
  }

  /** A component that `pathlib` keeps: not empty, not ".", without a separator. */
  predicate IsComponent(part: string)
  {
    part != "" && part != "." && '/' !in part
  }

  /** `PurePosixPath(p).parts` without the root: the text between separators,
      with the empty and "." components dropped (".." is kept). */
  function Components(p: string): (parts: seq<string>)
    ensures forall k :: 0 <= k < |parts| ==> IsComponent(parts[k])
    decreases |p|
  {
    var i := IndexOf(p, '/');
    var head := p[..i];
    var rest := if i < |p| then Components(p[i + 1..]) else [];
    if head == "" || head == "." then rest else [head] + rest
  }

  /** The last component of a path, or "" when it has none (`Path.name`). */
  function BaseName(parts: seq<string>): string
  {
    if parts == [] then "" else parts[|parts| - 1]
  }

  /** `Path(p).name`. */
  function PathName(p: string): string
  {
    BaseName(Components(p))
  }

  predicate IsAbsolute(p: string)
  {
    |p| > 0 && p[0] == '/'
  }

  /** `Path(p).absolute()` when the working directory is `cwd`: the working directory is
      prefixed to a relative path, and nothing is resolved. */
  function Absolute(cwd: seq<string>, p: string): seq<string>
  {
    if IsAbsolute(p) then Components(p) else cwd + Components(p)
  }

  /** The directory the operating system reaches through `parts`: each ".." steps up
      one level (and stays at the root), as if every named directory existed. */
  function Normal(parts: seq<string>): seq<string>
  {
    NormalFrom([], parts)
  }

  function NormalFrom(done: seq<string>, parts: seq<string>): seq<string>
    decreases |parts|
  {
    if parts == [] then done
    else if parts[0] == ".." then NormalFrom(if done == [] then [] else done[..|done| - 1], parts[1..])
    else NormalFrom(done + [parts[0]], parts[1..])
  }

  /** A path with no ".." and only components `pathlib` keeps: its own normal form. */
  predicate IsNormal(parts: seq<string>)
  {
    forall k :: 0 <= k < |parts| ==> IsComponent(parts[k]) && parts[k] != ".."
  }

  /** The directory that holds `path`. */
  function Parent(path: seq<string>): seq<string>
    requires path != []
  {
    path[..|path| - 1]
  }

  /** `str(path)` of an absolute path: its components after the root separator. */
  function PosixString(parts: seq<string>): string
  {
    "/" + JoinSlash(parts)
  }

  function JoinSlash(parts: seq<string>): string
  {
    if parts == [] then ""
    else if |parts| == 1 then parts[0]
    else parts[0] + "/" + JoinSlash(parts[1..])
  }

  /** Searching `s + t` finds the first `c` of `s`, or else looks on into `t`. */
  lemma IndexOfConcat(s: string, t: string, c: char)
    ensures IndexOf(s + t, c) == if IndexOf(s, c) < |s| then IndexOf(s, c) else |s| + IndexOf(t, c)
  {
    var i := IndexOf(s, c);
    var k := IndexOf(s + t, c);
    assert forall j :: 0 <= j < |s| ==> (s + t)[j] == s[j];
    if i < |s| {
      assert (s + t)[i] == c;
    } else {
      var n := IndexOf(t, c);
      assert forall j :: 0 <= j < n ==> (s + t)[|s| + j] == t[j];
      assert n < |t| ==> (s + t)[|s| + n] == c;
    }
  }

  /** Appending a plain name to a path string makes that name the path's last component. */
  lemma {:induction false} ComponentsOfJoin(dir: string, name: string)
    requires IsComponent(name)
    ensures Components(dir + "/" + name) == Components(dir) + [name]
    decreases |dir|
  {
    var p := dir + "/" + name;
    var i := IndexOf(dir, '/');
    IndexOfConcat(dir, "/" + name, '/');
    assert p == dir + ("/" + name);
    if i < |dir| {
      var head, rest := dir[..i], dir[i + 1..];
      assert p[..i] == head;
      assert p[i + 1..] == rest + "/" + name;
      ComponentsOfJoin(rest, name);
      ComponentsAt(p, i);
      ComponentsAt(dir, i);
    } else {
      assert IndexOf(p, '/') == |dir|;
      assert p[..|dir|] == dir;
      assert p[|dir| + 1..] == name;
      ComponentsOfPlain(dir);
      ComponentsOfPlain(name);
      assert Components(p) == Components(dir) + Components(name);
    }
  }

  /** One step of `Components` at the first separator `i`. */
  lemma ComponentsAt(p: string, i: nat)
    requires i < |p| && IndexOf(p, '/') == i
    ensures Components(p) == if p[..i] == "" || p[..i] == "." then Components(p[i + 1..])
                             else [p[..i]] + Components(p[i + 1..])
  {
  }

  /** A string without a separator is one component, or none when it is "" or ".". */
  lemma ComponentsOfPlain(s: string)
    requires '/' !in s
    ensures Components(s) == if s == "" || s == "." then [] else [s]
  {
    assert IndexOf(s, '/') == |s|;
    assert s[..|s|] == s;
  }

  /** `Path(dir + "/" + name).name == name` for a plain name. */
  lemma PathNameOfJoin(dir: string, name: string)
    requires IsComponent(name)
    ensures PathName(dir + "/" + name) == name
  {
    ComponentsOfJoin(dir, name);
  }

  /** Lexical normalisation leaves a path without ".." as it is. */
  lemma {:induction false} NormalFromPlain(done: seq<string>, parts: seq<string>)
    requires forall k :: 0 <= k < |parts| ==> parts[k] != ".."
    ensures NormalFrom(done, parts) == done + parts
    decreases |parts|
  {
    if parts != [] {
      NormalFromPlain(done + [parts[0]], parts[1..]);
      assert done + [parts[0]] + parts[1..] == done + parts;
    }
  }

  lemma NormalOfNormal(parts: seq<string>)
    requires IsNormal(parts)
    ensures Normal(parts) == parts
  {
    NormalFromPlain([], parts);
  }
}
