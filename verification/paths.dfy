/** Go's lexical slash-path operations `path.Clean` and `path.Join`, which
    build the default configuration path from the home directory. */
module Paths {
  import opened Strings

  /** Element stack after reading `elems` left to right, as `path.Clean`
      does: empty and `.` elements vanish, `..` removes the element before
      it, and a `..` with nothing to remove is kept in a relative path and
      dropped at the root of a rooted one. */
  function Resolve(elems: seq<string>, rooted: bool): (stack: seq<string>)
    ensures forall i :: 0 <= i < |stack| ==> stack[i] != "" && stack[i] != "."
    ensures (forall i :: 0 <= i < |elems| ==> '/' !in elems[i]) ==>
              forall i :: 0 <= i < |stack| ==> '/' !in stack[i]
    decreases |elems|
  {
    if elems == [] then []
    else
      var front := elems[..|elems| - 1];
      var st := Resolve(front, rooted);
      var e := elems[|elems| - 1];
      assert forall i :: 0 <= i < |front| ==> front[i] == elems[i];
      if e == "" || e == "." then st
      else if e == ".." then
        if |st| > 0 && st[|st| - 1] != ".." then st[..|st| - 1]
        else if rooted then st
        else st + [".."]
      else st + [e]
  }

  /** `path.Clean`: the shortest lexically equivalent path; "." for a
      path that cleans to nothing. */
  function Clean(p: string): string
  {
    var rooted := |p| > 0 && p[0] == '/';
    Render(Resolve(Split(p, '/'), rooted), rooted)
  }

  /** The path text of an element stack. */
  function Render(stack: seq<string>, rooted: bool): string
  {
    if rooted then "/" + Join(stack, '/')
    else if stack == [] then "."
    else Join(stack, '/')
  }

  /** The elements of `elems` that are not empty, in order. */
  function NonEmpty(elems: seq<string>): (r: seq<string>)
    ensures forall i :: 0 <= i < |r| ==> r[i] != ""
    ensures forall e :: e in elems && e != "" ==> e in r
  {
    if elems == [] then []
    else if elems[0] == "" then NonEmpty(elems[1..])
    else [elems[0]] + NonEmpty(elems[1..])
  }

  /** `path.Join`: empty elements are ignored, the rest are joined with
      slashes and cleaned; with no non-empty element the result is "". */
  function PathJoin(elems: seq<string>): string
  {
    var parts := NonEmpty(elems);
    if parts == [] then "" else Clean(Join(parts, '/'))
  }

  /** The directory part a cleaned directory contributes to a path
      below it: nothing for ".", "/" for the root, else itself and a slash. */
  function DirPrefix(dir: string): string
  {
    if dir == "." then "" else if dir == "/" then "/" else dir + "/"
  }

  /** `path.Join(home, ".kube", "config")`. */
  function DefaultConfigPath(home: string): string
  {
    PathJoin([home, ".kube", "config"])
  }

  /** An ordinary path element: one that `Clean` keeps as it is. */
  predicate IsName(x: string)
  {
    x != "" && x != "." && x != ".." && '/' !in x
  }

  /** Two ordinary trailing elements are pushed onto the stack as they are. */
  lemma ResolveTwoNames(elems: seq<string>, rooted: bool, a: string, b: string)
    requires IsName(a) && IsName(b)
    ensures Resolve(elems + [a, b], rooted) == Resolve(elems, rooted) + [a, b]
  {
    var e2 := elems + [a, b];
    assert e2[..|e2| - 1] == elems + [a];
    assert (elems + [a])[..|elems|] == elems;
  }

  /** A non-empty stack joins to something that is neither "." nor "/"
      and does not start with a slash. */
  lemma JoinedStackShape(stack: seq<string>)
    requires stack != []
    requires forall i :: 0 <= i < |stack| ==> stack[i] != "" && stack[i] != "." && '/' !in stack[i]
    ensures var j := Join(stack, '/'); j != "." && j != "/" && j[0] != '/'
  {
    var j := Join(stack, '/');
    if |stack| == 1 {
      assert j == stack[0];
    } else {
      assert j == stack[0] + ['/'] + Join(stack[1..], '/');
      assert j[0] == stack[0][0];
      assert stack[0][0] in stack[0];
    }
  }

  /** `a/b` splits into its two elements. */
  lemma SplitTwoNames(a: string, b: string)
    requires IsName(a) && IsName(b)
    ensures Split(a + ['/'] + b, '/') == [a, b]
  {
    SplitWithoutSeparator(a, '/');
    SplitWithoutSeparator(b, '/');
    SplitAround(a, b, '/');
  }

  /** Empty leading elements are dropped and ordinary ones kept. */
  lemma NonEmptyThree(dir: string, a: string, b: string)
    requires a != "" && b != ""
    ensures dir == "" ==> NonEmpty([dir, a, b]) == [a, b]
    ensures dir != "" ==> NonEmpty([dir, a, b]) == [dir, a, b]
  {
    assert [dir, a, b][1..] == [a, b];
    assert [a, b][1..] == [b];
    assert [b][1..] == [];
    assert NonEmpty([b]) == [b];
    assert NonEmpty([a, b]) == [a, b];
  }

  /** With an empty directory the joined path is relative. */
  lemma PathJoinEmptyDir(a: string, b: string)
    requires IsName(a) && IsName(b)
    ensures PathJoin(["", a, b]) == a + ['/'] + b
    ensures Clean("") == "."
  {
    SplitTwoNames(a, b);
    NonEmptyThree("", a, b);
    assert Join([a, b], '/') == a + ['/'] + b;
    ResolveTwoNames([], false, a, b);
    assert Resolve([a, b], false) == [a, b];
    assert Split("", '/') == [""];
    assert Resolve([""], false) == [];
  }

  /** The elements of `dir/a/b` are those of `dir` followed by the two names. */
  lemma SplitParts(dir: string, a: string, b: string)
    requires IsName(a) && IsName(b)
    ensures Split(dir + ['/'] + (a + ['/'] + b), '/') == Split(dir, '/') + [a, b]
  {
    SplitTwoNames(a, b);
    SplitAround(dir, a + ['/'] + b, '/');
  }

  /** The stack of `dir/a/b` is the stack of `dir` with the two names pushed. */
  lemma PathJoinStack(dir: string, a: string, b: string)
    requires dir != "" && IsName(a) && IsName(b)
    ensures PathJoin([dir, a, b]) == Clean(dir + ['/'] + (a + ['/'] + b))
    ensures Resolve(Split(dir + ['/'] + (a + ['/'] + b), '/'), dir[0] == '/')
         == Resolve(Split(dir, '/'), dir[0] == '/') + [a, b]
  {
    var ab := a + ['/'] + b;
    NonEmptyThree(dir, a, b);
    assert Join([a, b], '/') == ab by {
      assert [a, b][1..] == [b];
    }
    assert Join([dir, a, b], '/') == dir + ['/'] + ab by {
      assert [dir, a, b][1..] == [a, b];
    }
    SplitParts(dir, a, b);
    ResolveTwoNames(Split(dir, '/'), dir[0] == '/', a, b);
  }

  /** Joining a stack with two names appended. */
  lemma JoinWithTwoNames(st: seq<string>, a: string, b: string)
    ensures st == [] ==> Join(st + [a, b], '/') == a + ['/'] + b
    ensures st != [] ==> Join(st + [a, b], '/') == Join(st, '/') + ['/'] + (a + ['/'] + b)
  {
    var full := st + [a, b];
    assert st + [a] + [b] == full;
    if st == [] {
      assert full[1..] == [b];
      assert Join(full, '/') == a + ['/'] + b;
    } else {
      JoinSnoc(st, a, '/');
      JoinSnoc(st + [a], b, '/');
    }
  }

  /** The directory prefix of a rendered non-empty stack is the rendering
      followed by a slash. */
  lemma DirPrefixOfJoined(j: string, rooted: bool)
    requires j != "" && j != "." && j != "/" && j[0] != '/'
    ensures rooted ==> DirPrefix("/" + j) == "/" + j + "/"
    ensures !rooted ==> DirPrefix(j) == j + "/"
  {
    if rooted {
      assert ("/" + j)[1] == j[0];
      assert "/" + j != "/" && "/" + j != ".";
    }
  }

  /** Rendering a non-empty stack with two names pushed. */
  lemma RenderNonEmptyWithTwoNames(st: seq<string>, rooted: bool, a: string, b: string)
    requires st != []
    requires forall i :: 0 <= i < |st| ==> st[i] != "" && st[i] != "." && '/' !in st[i]
    ensures Render(st + [a, b], rooted) == DirPrefix(Render(st, rooted)) + (a + ['/'] + b)
  {
    JoinWithTwoNames(st, a, b);
    JoinedStackShape(st);
    var j := Join(st, '/');
    DirPrefixOfJoined(j, rooted);
    if rooted {
      assert Render(st, rooted) == "/" + j;
    } else {
      assert Render(st, rooted) == j;
    }
  }

  /** Rendering a stack with two names pushed puts `a/b` below the
      rendering of the stack. */
  lemma RenderWithTwoNames(st: seq<string>, rooted: bool, a: string, b: string)
    requires forall i :: 0 <= i < |st| ==> st[i] != "" && st[i] != "." && '/' !in st[i]
    ensures Render(st + [a, b], rooted) == DirPrefix(Render(st, rooted)) + (a + ['/'] + b)
  {
    if st == [] {
      JoinWithTwoNames(st, a, b);
      assert st + [a, b] == [a, b];
    } else {
      RenderNonEmptyWithTwoNames(st, rooted, a, b);
    }
  }

  /** `path.Join(dir, a, b)` for two ordinary names is the path `a/b` below
      the cleaned directory, whatever the directory is: an empty directory
      makes it relative, the root gives "/a/b", and otherwise it is
      `Clean(dir) + "/a/b"`. */
  lemma PathJoinBelowDir(dir: string, a: string, b: string)
    requires IsName(a) && IsName(b)
    ensures PathJoin([dir, a, b]) == DirPrefix(Clean(dir)) + (a + ['/'] + b)
  {
    if dir == "" {
      PathJoinEmptyDir(a, b);
    } else {
      PathJoinStack(dir, a, b);
      var rooted := dir[0] == '/';
      var p := dir + ['/'] + (a + ['/'] + b);
      assert p[0] == dir[0];
      var st := Resolve(Split(dir, '/'), rooted);
      assert Clean(p) == Render(st + [a, b], rooted);
      RenderWithTwoNames(st, rooted, a, b);
    }
  }

  /** The default configuration file is `.kube/config` below the cleaned
      home directory: relative to the working directory for an empty home,
      "/.kube/config" for the root, else `Clean(home) + "/.kube/config"`. */
  lemma DefaultConfigPathInHome(home: string)
    ensures DefaultConfigPath(home) == DirPrefix(Clean(home)) + ".kube/config"
  {
    assert ".kube" + ['/'] + "config" == ".kube/config";
    PathJoinBelowDir(home, ".kube", "config");
  }
}
