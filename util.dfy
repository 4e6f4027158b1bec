/** The helpers of the util module that the creation handler relies on. */
module Util {
  import opened Wrappers
  import Text

  /** The elements of an option, as a sequence. */
  function Elements<T>(opt: Option<T>): (s: seq<T>)
  {
    match opt
    case None => []
    case Some(t) => [t]
  }

  /** The first element of a sequence, if there is one (`into_iter().next()`). */
  function FirstOf<T>(s: seq<T>): (r: Option<T>)
    ensures r.None? <==> s == []
    ensures r.Some? ==> r.value == s[0]
  {
    if s == [] then None else Some(s[0])
  }

  /** `option_to_vec`: start from an empty vector and push the value if there is one. */
  method OptionToVec<T>(opt: Option<T>) returns (v: seq<T>)
    ensures v == Elements(opt)
  {
    v := [];
    if opt.Some? {
      v := v + [opt.value];
    }
  }

  /** An option and its sequence of elements determine each other: at most one element, none exactly for None, and the first element gives the option back. */
  lemma ElementsRoundTrip<T>(opt: Option<T>)
    ensures |Elements(opt)| <= 1
    ensures Elements(opt) == [] <==> opt.None?
    ensures forall t :: t in Elements(opt) <==> opt == Some(t)
    ensures FirstOf(Elements(opt)) == opt
  {
  }

  /** A path component that names a file or directory (`Component::Normal`). */
  predicate IsNormal(part: string)
  {
    part != "" && part != "." && part != ".." && '/' !in part
  }

  /**
   * The components of a Unix path that `Path::components` keeps at the end:
   * empty pieces (repeated or trailing slashes) and `.` pieces are skipped.
   */
  function Components(parts: seq<string>): (r: seq<string>)
    ensures forall k :: 0 <= k < |r| ==> r[k] in parts && r[k] != "" && r[k] != "."
  {
    if parts == [] then []
    else
      var init := Components(parts[..|parts| - 1]);
      var last := parts[|parts| - 1];
      if last == "" || last == "." then init else init + [last]
  }

  /** `Path::file_name`: the final component, unless there is none or it is `..`. */
  function FileName(path: string): (r: Option<string>)
    ensures r.Some? ==> IsNormal(r.value)
  {
    var cs := Components(Text.Split(path, '/'));
    Text.SplitPiecesLackSeparator(path, '/');
    if cs == [] || cs[|cs| - 1] == ".." then None
    else Some(cs[|cs| - 1])
  }

  /** `get_entry_name`: the final component of a path; the source unwraps, so a path without one is excluded. */
  function GetEntryName(path: string): (name: string)
    requires FileName(path).Some?
    ensures IsNormal(name)
  {
    FileName(path).value
  }

  lemma {:induction false} ComponentsAppend(a: seq<string>, b: seq<string>)
    ensures Components(a + b) == Components(a) + Components(b)
  {
    if b != [] {
      var ab := a + b;
      assert ab[..|ab| - 1] == a + b[..|b| - 1];
      assert ab[|ab| - 1] == b[|b| - 1];
      ComponentsAppend(a, b[..|b| - 1]);
    } else {
      assert a + b == a;
    }
  }

  /** The entry name of `dir/name` is `name`, whatever the directory part is. */
  lemma EntryNameOfChild(dir: string, name: string)
    requires IsNormal(name)
    ensures FileName(dir + "/" + name) == Some(name)
    ensures GetEntryName(dir + "/" + name) == name
  {
    Text.SplitAtSeparator(dir, '/', name);
    Text.SplitWithoutSeparator(name, '/');
    assert dir + "/" + name == dir + ['/'] + name;
    var ps := Text.Split(dir, '/');
    ComponentsAppend(ps, [name]);
    assert Components([name]) == Components([][..0]) + [name];
  }

  /** Trailing slashes do not change the entry name. */
  lemma EntryNameIgnoresTrailingSlash(path: string)
    ensures FileName(path + "/") == FileName(path)
  {
    Text.SplitAtSeparator(path, '/', "");
    assert path + "/" == path + ['/'] + "";
    ComponentsAppend(Text.Split(path, '/'), [""]);
    assert Components([""]) == Components([""][..0]);
  }

  /** Paths without a final normal component: the root, the empty path, `.` and a path ending in `..`. */
  lemma NoEntryName(dir: string)
    ensures FileName("/") == None
    ensures FileName("") == None
    ensures FileName(".") == None
    ensures FileName(dir + "/..") == None
  {
    assert Text.Split("", '/') == [""];
    assert Components([""]) == Components([""][..0]);
    assert Text.Split("/", '/') == ["", ""] by {
      assert "/"[1..] == "";
    }
    assert Components(["", ""]) == Components(["", ""][..1]);
    assert ["", ""][..1] == [""];
    assert Text.Split(".", '/') == ["."] by {
      assert "."[1..] == "";
      assert Text.Split("", '/') == [""];
      assert ['.'] + "" == ".";
    }
    assert Components(["."]) == Components(["."][..0]);
    Text.SplitAtSeparator(dir, '/', "..");
    assert dir + "/.." == dir + ['/'] + "..";
    Text.SplitWithoutSeparator("..", '/');
    ComponentsAppend(Text.Split(dir, '/'), [".."]);
    assert Components([".."]) == Components([".."][..0]) + [".."];
  }
}
