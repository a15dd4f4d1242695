/** The two functions of Go's `path/filepath` package that decide the
    paths the file browser reports, on a Unix file system: `Clean`, which
    gives the shortest lexically equivalent path, and `Join` of a directory
    and one entry name. */
module Paths {
  import opened GoStrings

  /** A path element as a directory listing yields it: not empty, not one
      of the two dot entries, and free of separators. */
  predicate PlainName(name: string)
  {
    name != "" && name != "." && name != ".." && '/' !in name
  }

  /** An element that survives cleaning: neither empty nor ".". */
  predicate Kept(seg: string)
  {
    seg != "" && seg != "."
  }

  /** Elements as splitting on '/' yields them. */
  predicate NoSlash(segs: seq<string>)
  {
    forall k :: 0 <= k < |segs| ==> '/' !in segs[k]
  }

  /** A stack of cleaned elements. */
  predicate AllKept(segs: seq<string>)
  {
    NoSlash(segs) && forall k :: 0 <= k < |segs| ==> Kept(segs[k])
  }

  /** The element stack of `Clean`, processing `segs` left to right on top
      of `acc`: empty and "." elements vanish, ".." removes the element
      before it unless that is itself "..", and a ".." with nothing to
      remove is dropped at the root of an absolute path and kept in a
      relative one. */
  function Resolve(segs: seq<string>, rooted: bool, acc: seq<string>): (r: seq<string>)
    requires NoSlash(segs) && AllKept(acc)
    ensures AllKept(r)
    decreases |segs|
  {
    if |segs| == 0 then acc
    else
      var s := segs[0];
      if !Kept(s) then Resolve(segs[1..], rooted, acc)
      else if s == ".." then
        if |acc| > 0 && acc[|acc| - 1] != ".." then Resolve(segs[1..], rooted, acc[..|acc| - 1])
        else if rooted then Resolve(segs[1..], rooted, acc)
        else Resolve(segs[1..], rooted, acc + [s])
      else Resolve(segs[1..], rooted, acc + [s])
  }

  predicate Rooted(p: string)
  {
    |p| > 0 && p[0] == '/'
  }

  /** The text of a resolved element stack: the elements joined by single
      slashes, after a leading slash for an absolute path, and "." for a
      relative path with no elements. */
  function Assemble(rooted: bool, segs: seq<string>): string
  {
    var body := Join(segs, "/");
    if rooted then "/" + body
    else if body == "" then "."
    else body
  }

  /** `filepath.Clean`: "." for the empty path, otherwise its resolved
      elements reassembled. */
  function Clean(p: string): (r: string)
    ensures r != ""
  {
    if p == "" then "."
    else
      SplitOnSlash(p);
      Assemble(Rooted(p), Resolve(Split(p, "/"), Rooted(p), []))
  }

  lemma SplitOnSlash(p: string)
    ensures NoSlash(Split(p, "/"))
  {
    SplitPiecesAvoidSeparator(p, "/");
    forall k | 0 <= k < |Split(p, "/")|
      ensures '/' !in Split(p, "/")[k]
    {
      IndexOfChar(Split(p, "/")[k], '/');
    }
  }

  /** `filepath.Join(dir, name)`: the two joined by a slash and cleaned,
      or the cleaned name alone when the directory is empty. */
  function JoinPath(dir: string, name: string): string
  {
    if dir == "" then Clean(name) else Clean(dir + "/" + name)
  }

  // ---------------------------------------------------------------------
  // Joining a plain name
  // ---------------------------------------------------------------------

  /** Resolving a sequence in two parts is resolving the second part on top
      of the first part's stack. */
  lemma {:induction false} ResolveAppend(a: seq<string>, b: seq<string>, rooted: bool, acc: seq<string>)
    requires NoSlash(a) && NoSlash(b) && AllKept(acc)
    ensures Resolve(a + b, rooted, acc) == Resolve(b, rooted, Resolve(a, rooted, acc))
    decreases |a|
  {
    if |a| > 0 {
      assert (a + b)[0] == a[0];
      assert (a + b)[1..] == a[1..] + b;
      assert NoSlash(a[1..]);
      var s := a[0];
      if !Kept(s) {
        ResolveAppend(a[1..], b, rooted, acc);
      } else if s == ".." {
        if |acc| > 0 && acc[|acc| - 1] != ".." {
          ResolveAppend(a[1..], b, rooted, acc[..|acc| - 1]);
        } else if rooted {
          ResolveAppend(a[1..], b, rooted, acc);
        } else {
          ResolveAppend(a[1..], b, rooted, acc + [s]);
        }
      } else {
        ResolveAppend(a[1..], b, rooted, acc + [s]);
      }
    } else {
      assert a + b == b;
    }
  }

  /** A plain name is pushed onto the stack unchanged. */
  lemma ResolvePlain(name: string, rooted: bool, acc: seq<string>)
    requires PlainName(name) && AllKept(acc)
    ensures Resolve([name], rooted, acc) == acc + [name]
  {
    assert [name][1..] == [];
  }

  /** Splitting on '/' after appending a final piece without '/' adds that
      piece to the pieces. */
  lemma {:induction false} SplitAppendPiece(a: string, b: string)
    requires '/' !in b
    ensures Split(a + "/" + b, "/") == Split(a, "/") + [b]
    decreases |a|, 1
  {
    IndexOfChar(b, '/');
    SplitWithoutSeparator(b, "/");
    if '/' !in a {
      IndexOfChar(a, '/');
      SplitAtFirst(a, '/', b);
      SplitWithoutSeparator(a, "/");
    } else {
      SplitAppendPieceAfterSlash(a, b);
    }
  }

  /** The step of `SplitAppendPiece` past the first '/' of `a`. */
  lemma {:induction false} SplitAppendPieceAfterSlash(a: string, b: string)
    requires '/' !in b && '/' in a
    ensures Split(a + "/" + b, "/") == Split(a, "/") + [b]
    decreases |a|, 0
  {
    var i := FirstSlash(a);
    var a1, a2 := a[..i], a[i + 1..];
    SlashAt(a, i, b);
    SplitAtFirst(a1, '/', a2 + "/" + b);
    SplitAtFirst(a1, '/', a2);
    SplitAppendPiece(a2, b);
    SnocAssociates(a1, Split(a2, "/"), b);
  }

  /** Cutting `a` and `a + "/" + b` at a '/' of `a`. */
  lemma SlashAt(a: string, i: nat, b: string)
    requires i < |a| && a[i] == '/'
    ensures a == a[..i] + ['/'] + a[i + 1..]
    ensures a + "/" + b == a[..i] + ['/'] + (a[i + 1..] + "/" + b)
  {
    assert a == a[..i] + ['/'] + a[i + 1..];
  }

  lemma SnocAssociates(x: string, mid: seq<string>, y: string)
    ensures [x] + (mid + [y]) == ([x] + mid) + [y]
  {
  }

  /** The position of the first '/' of a path that has one. */
  lemma FirstSlash(a: string) returns (i: nat)
    requires '/' in a
    ensures i < |a| && a[i] == '/' && '/' !in a[..i]
  {
    var k := Index(a, "/");
    IndexOfChar(a, '/');
    assert OccursAt(a, "/", k);
    i := k;
    assert a[i..i + 1] == "/";
    forall j | 0 <= j < i
      ensures a[..i][j] != '/'
    {
      assert !OccursAt(a, "/", j);
      assert a[j..j + 1] == [a[j]];
    }
  }

  lemma JoinSnoc(parts: seq<string>, x: string, sep: string)
    requires |parts| > 0
    ensures Join(parts + [x], sep) == Join(parts, sep) + sep + x
    decreases |parts|
  {
    if |parts| == 1 {
      assert parts + [x] == [parts[0], x];
    } else {
      assert (parts + [x])[1..] == parts[1..] + [x];
      JoinSnoc(parts[1..], x, sep);
    }
  }

  /** Joining cleaned elements gives neither "", "." nor "/", unless
      there are no elements at all. */
  lemma JoinKept(segs: seq<string>)
    requires AllKept(segs) && |segs| > 0
    ensures Join(segs, "/") != "" && Join(segs, "/") != "." && Join(segs, "/") != "/"
  {
    assert Kept(segs[0]) && '/' !in segs[0];
    if |segs| > 1 {
      assert |Join(segs, "/")| >= |segs[0]| + 1;
      assert Kept(segs[1]);
      assert |Join(segs, "/")| >= |segs[0]| + 2;
    } else {
      assert segs[0] != "/";
    }
  }

  /** Adding a plain name to a stack adds it to the text after one slash:
      none after a bare "/" and none at all in place of ".". */
  lemma AssembleSnoc(rooted: bool, segs: seq<string>, name: string)
    requires AllKept(segs) && PlainName(name)
    ensures Assemble(rooted, segs + [name]) ==
              if Assemble(rooted, segs) == "." then name
              else if Assemble(rooted, segs) == "/" then "/" + name
              else Assemble(rooted, segs) + "/" + name
  {
    if |segs| == 0 {
      assert segs + [name] == [name];
    } else {
      JoinSnoc(segs, name, "/");
      JoinKept(segs);
      var body := Join(segs, "/");
      if rooted {
        assert |"/" + body| > 1;
        assert "/" + (body + "/" + name) == ("/" + body) + "/" + name;
      }
    }
  }

  /** The path the walk reports for an entry of `dir`: the cleaned
      directory, then the name; "." as the directory leaves the name alone
      and "/" is not doubled. */
  lemma JoinPathOfPlainName(dir: string, name: string)
    requires PlainName(name)
    ensures JoinPath(dir, name) ==
              if Clean(dir) == "." then name
              else if Clean(dir) == "/" then "/" + name
              else Clean(dir) + "/" + name
  {
    if dir == "" {
      IndexOfChar(name, '/');
      SplitWithoutSeparator(name, "/");
      ResolvePlain(name, false, []);
      assert Join([name], "/") == name;
    } else {
      var rooted := Rooted(dir);
      assert Rooted(dir + "/" + name) == rooted;
      SplitOnSlash(dir);
      var segs := Resolve(Split(dir, "/"), rooted, []);
      SplitAppendPiece(dir, name);
      ResolveAppend(Split(dir, "/"), [name], rooted, []);
      ResolvePlain(name, rooted, segs);
      AssembleSnoc(rooted, segs, name);
    }
  }

  /** Joining cleans the directory: an entry of "." is reported by its
      name alone. */
  lemma JoinPathInDot(name: string)
    requires PlainName(name)
    ensures JoinPath(".", name) == name
  {
    IndexOfChar(".", '/');
    SplitWithoutSeparator(".", "/");
    assert Resolve(["."], false, []) == [];
    JoinPathOfPlainName(".", name);
  }

  /** An element followed by ".." cancels out, unless the element is
      itself "..". */
  lemma ResolveCancelsParent(name: string, rooted: bool, acc: seq<string>)
    requires PlainName(name) && AllKept(acc)
    ensures Resolve([name, ".."], rooted, acc) == acc
  {
    var pushed := acc + [name];
    assert [name, ".."][1..] == [".."];
    assert Resolve([name, ".."], rooted, acc) == Resolve([".."], rooted, pushed);
    assert pushed[|pushed| - 1] == name != "..";
    assert pushed[..|pushed| - 1] == acc;
    assert Resolve([".."], rooted, pushed) == Resolve([], rooted, acc);
  }
}
