/**
 * Go's `path/filepath` on Unix: `Clean`, `Join`, `Dir` and `Ext`, plus the
 * component view of a clean absolute path (`/a/b` is `["a", "b"]`, `/` is `[]`)
 * in which the directory walk of FindComposeFile is stated.
 */
module GoPaths {
  import opened GoStrings

  /** Clean's lexical pass over the `/`-separated elements of a path. */
  function Resolve(parts: seq<string>, rooted: bool, stack: seq<string>): seq<string>
    decreases |parts|
  {
    if parts == [] then stack
    else
      var p := parts[0];
      if p == "" || p == "." then Resolve(parts[1..], rooted, stack)
      else if p == ".." then
        if stack != [] && stack[|stack| - 1] != ".." then Resolve(parts[1..], rooted, stack[..|stack| - 1])
        else if rooted then Resolve(parts[1..], rooted, stack)
        else Resolve(parts[1..], rooted, stack + [".."])
      else Resolve(parts[1..], rooted, stack + [p])
  }

  /**
   * filepath.Clean: repeated slashes and `.` elements go, `..` removes the element
   * before it (and is dropped at the root), an empty result is `.`.
   */
  function Clean(p: string): string {
    if p == "" then "."
    else
      var rooted := p[0] == '/';
      var body := Join(Resolve(Split(p, "/"), rooted, []), "/");
      if rooted then "/" + body else if body == "" then "." else body
  }

  /** filepath.Join: leading empty elements are skipped, the rest joined with `/` and cleaned. */
  function PathJoin(elems: seq<string>): string
    decreases |elems|
  {
    if elems == [] then ""
    else if elems[0] == "" then PathJoin(elems[1..])
    else Clean(Join(elems, "/"))
  }

  /** Index of the last `/`, or -1 when there is none. */
  function LastSlash(p: string): (i: int)
    ensures -1 <= i < |p|
    ensures i >= 0 ==> p[i] == '/'
    ensures forall k :: i < k < |p| ==> p[k] != '/'
    decreases |p|
  {
    if p == [] then -1
    else if p[|p| - 1] == '/' then |p| - 1
    else LastSlash(p[..|p| - 1])
  }

  /** filepath.Dir: everything up to the last `/`, cleaned. */
  function Dir(p: string): string {
    Clean(p[..LastSlash(p) + 1])
  }

  /**
   * filepath.Ext: the suffix of the last element that starts at its last `.`, or ""
   * when that element has no dot.
   */
  function Ext(p: string): (e: string)
    ensures e == [] || e[0] == '.'
    ensures |e| <= |p| && e == p[|p| - |e|..]
    decreases |p|
  {
    if p == [] then ""
    else
      var c := p[|p| - 1];
      if c == '/' then ""
      else if c == '.' then "."
      else
        var e := Ext(p[..|p| - 1]);
        if e == "" then "" else e + [c]
  }

  /** A path element that Clean leaves alone: not empty, not `.` or `..`, no `/`. */
  predicate PlainName(c: string) {
    c != "" && c != "." && c != ".." && '/' !in c
  }

  predicate PlainNames(cs: seq<string>) {
    forall k :: 0 <= k < |cs| ==> PlainName(cs[k])
  }

  /** `/c1/c2/.../cn`, empty for no elements. */
  function RenderTail(cs: seq<string>): string
    decreases |cs|
  {
    if cs == [] then "" else "/" + cs[0] + RenderTail(cs[1..])
  }

  /** The clean absolute path with the given elements; `/` for none. */
  function Render(cs: seq<string>): (p: string)
    ensures p != "" && p[0] == '/'
  {
    if cs == [] then "/" else RenderTail(cs)
  }

  /** The parent directory in the component view; the root is its own parent. */
  function Parent(cs: seq<string>): seq<string> {
    if cs == [] then [] else cs[..|cs| - 1]
  }

  lemma {:induction false} SplitNoSlash(d: string)
    requires '/' !in d
    ensures Split(d, "/") == [d]
    decreases |d|
  {
    if d != [] {
      SplitNoSlash(d[1..]);
      assert [d[0]] + d[1..] == d;
    }
  }

  /** For the one-character separator, splitting at a separator splits the two sides independently. */
  lemma {:induction false} SplitConcat(a: string, b: string)
    ensures Split(a + "/" + b, "/") == Split(a, "/") + Split(b, "/")
    decreases |a|
  {
    if a == [] {
      SplitConcatEmpty(b);
    } else {
      SplitConcat(a[1..], b);
      SplitConcatStep(a, b);
    }
  }

  lemma SplitConcatEmpty(b: string)
    ensures Split([] + "/" + b, "/") == Split([], "/") + Split(b, "/")
  {
    var s := [] + "/" + b;
    assert HasPrefix(s, "/") && s[1..] == b;
    assert Split([], "/") == [""];
  }

  /** A leading `/` ends an empty first piece. */
  lemma SplitFirstSlash(s: string)
    requires s != [] && s[0] == '/'
    ensures Split(s, "/") == [""] + Split(s[1..], "/")
  {
    assert s[..1] == "/";
  }

  /** Any other leading character starts the first piece. */
  lemma SplitFirstOther(s: string)
    requires s != [] && s[0] != '/'
    ensures Split(s, "/") == [[s[0]] + Split(s[1..], "/")[0]] + Split(s[1..], "/")[1..]
  {
    assert s[..1] != "/" by {
      assert s[..1][0] != "/"[0];
    }
  }

  /** Two strings with the same first character split alike, up to what follows that character. */
  lemma SplitSameFirst(s: string, a: string, rest: seq<string>)
    requires s != [] && a != [] && s[0] == a[0]
    requires Split(s[1..], "/") == Split(a[1..], "/") + rest
    ensures Split(s, "/") == Split(a, "/") + rest
  {
    if a[0] == '/' {
      SplitSameFirstSlash(s, a, rest);
    } else {
      SplitSameFirstOther(s, a, rest);
    }
  }

  lemma SplitSameFirstSlash(s: string, a: string, rest: seq<string>)
    requires s != [] && a != [] && s[0] == '/' && a[0] == '/'
    requires Split(s[1..], "/") == Split(a[1..], "/") + rest
    ensures Split(s, "/") == Split(a, "/") + rest
  {
    SplitFirstSlash(s);
    SplitFirstSlash(a);
    PrependAssoc("", Split(a[1..], "/"), rest);
  }

  lemma PrependAssoc(x: string, A: seq<string>, rest: seq<string>)
    ensures [x] + (A + rest) == ([x] + A) + rest
  {
  }

  lemma SplitSameFirstOther(s: string, a: string, rest: seq<string>)
    requires s != [] && a != [] && s[0] == a[0] && a[0] != '/'
    requires Split(s[1..], "/") == Split(a[1..], "/") + rest
    ensures Split(s, "/") == Split(a, "/") + rest
  {
    SplitFirstOther(s);
    SplitFirstOther(a);
    ExtendFirstPiece(a[0], Split(a[1..], "/"), rest);
  }

  /** Extending the first piece of `A + rest` is extending the first piece of `A`. */
  lemma ExtendFirstPiece(c: char, A: seq<string>, rest: seq<string>)
    requires |A| >= 1
    ensures [[c] + (A + rest)[0]] + (A + rest)[1..] == ([[c] + A[0]] + A[1..]) + rest
  {
    assert (A + rest)[0] == A[0] && (A + rest)[1..] == A[1..] + rest;
  }

  /** One step of SplitConcat: the first character of `a` is handled the same way in `a` and in `a + "/" + b`. */
  lemma SplitConcatStep(a: string, b: string)
    requires a != []
    requires Split(a[1..] + "/" + b, "/") == Split(a[1..], "/") + Split(b, "/")
    ensures Split(a + "/" + b, "/") == Split(a, "/") + Split(b, "/")
  {
    var s := a + "/" + b;
    assert s[0] == a[0];
    assert s[1..] == a[1..] + "/" + b;
    SplitSameFirst(s, a, Split(b, "/"));
  }

  lemma {:induction false} SplitInner(cs: seq<string>)
    requires cs != [] && PlainNames(cs)
    ensures Split(cs[0] + RenderTail(cs[1..]), "/") == cs
    decreases |cs|
  {
    var rest := cs[1..];
    if rest == [] {
      SplitNoSlash(cs[0]);
      assert cs[0] + RenderTail(rest) == cs[0];
    } else {
      SplitInner(rest);
      assert cs[0] + RenderTail(rest) == cs[0] + "/" + (rest[0] + RenderTail(rest[1..]));
      SplitConcat(cs[0], rest[0] + RenderTail(rest[1..]));
      SplitNoSlash(cs[0]);
      assert cs == [cs[0]] + rest;
    }
  }

  lemma {:induction false} ResolvePlain(cs: seq<string>, rooted: bool, stack: seq<string>)
    requires PlainNames(cs)
    ensures Resolve(cs, rooted, stack) == stack + cs
    decreases |cs|
  {
    if cs != [] {
      ResolvePlain(cs[1..], rooted, stack + [cs[0]]);
      assert stack + [cs[0]] + cs[1..] == stack + cs;
    }
  }

  lemma {:induction false} JoinRenderTail(cs: seq<string>)
    requires cs != []
    ensures "/" + Join(cs, "/") == RenderTail(cs)
    decreases |cs|
  {
    if |cs| > 1 {
      JoinRenderTail(cs[1..]);
    }
  }

  lemma {:induction false} RenderTailAppend(cs: seq<string>, ds: seq<string>)
    ensures RenderTail(cs + ds) == RenderTail(cs) + RenderTail(ds)
    decreases |cs|
  {
    if cs == [] {
      assert cs + ds == ds;
    } else {
      RenderTailAppend(cs[1..], ds);
      assert (cs + ds)[0] == cs[0];
      assert (cs + ds)[1..] == cs[1..] + ds;
    }
  }

  /** The root-relative form: after the leading `/`, the path splits into its elements. */
  lemma SplitRenderTail(cs: seq<string>)
    requires cs != [] && PlainNames(cs)
    ensures Split(RenderTail(cs), "/") == [""] + cs
  {
    var s := RenderTail(cs);
    assert s[0] == '/' && s[1..] == cs[0] + RenderTail(cs[1..]);
    SplitFirstSlash(s);
    SplitInner(cs);
  }

  lemma CleanRenderTail(cs: seq<string>)
    requires cs != [] && PlainNames(cs)
    ensures Clean(RenderTail(cs)) == RenderTail(cs)
  {
    var p := RenderTail(cs);
    assert p[0] == '/';
    SplitRenderTail(cs);
    ResolvePlainPrefixEmpty(cs);
    JoinRenderTail(cs);
  }

  /** A path built from plain elements is already clean. */
  lemma CleanRender(cs: seq<string>)
    requires PlainNames(cs)
    ensures Clean(Render(cs)) == Render(cs)
  {
    if cs == [] {
      SplitConcat("", "");
      assert "" + "/" + "" == "/";
      assert Resolve(["", ""], true, []) == [];
    } else {
      CleanRenderTail(cs);
    }
  }

  /** A doubled leading slash is cleaned away. */
  lemma CleanDoubleRoot(names: seq<string>)
    requires names != [] && PlainNames(names)
    ensures Clean("/" + RenderTail(names)) == RenderTail(names)
  {
    var p := "/" + RenderTail(names);
    assert p == "" + "/" + RenderTail(names);
    SplitConcat("", RenderTail(names));
    SplitRenderTail(names);
    assert Split(p, "/") == [""] + ([""] + names);
    assert ([""] + ([""] + names))[1..] == [""] + names;
    ResolvePlainPrefixEmpty(names);
    JoinRenderTail(names);
  }

  /** A single trailing slash is cleaned away. */
  lemma CleanTrailingSlash(cs: seq<string>)
    requires cs != [] && PlainNames(cs)
    ensures Clean(RenderTail(cs) + "/") == RenderTail(cs)
  {
    var p := RenderTail(cs) + "/";
    assert p == RenderTail(cs) + "/" + "";
    SplitConcat(RenderTail(cs), "");
    SplitRenderTail(cs);
    assert Split(p, "/") == [""] + cs + [""];
    ResolveDropEmpty([""] + cs, true, []);
    ResolvePlainPrefixEmpty(cs);
    JoinRenderTail(cs);
  }

  /** Joining plain names onto a clean absolute path appends them as elements. */
  lemma PathJoinRender(cs: seq<string>, names: seq<string>)
    requires PlainNames(cs) && PlainNames(names) && names != []
    ensures PathJoin([Render(cs)] + names) == Render(cs + names)
  {
    JoinOntoRender(cs, names);
    if cs == [] {
      CleanDoubleRoot(names);
      assert cs + names == names;
    } else {
      PathJoinRenderInner(cs, names);
    }
  }

  lemma JoinOntoRender(cs: seq<string>, names: seq<string>)
    requires names != []
    ensures PathJoin([Render(cs)] + names) == Clean(Render(cs) + RenderTail(names))
  {
    var r := Render(cs);
    PathJoinNonEmptyFirst([r] + names);
    JoinOnto(r, names);
  }

  /** filepath.Join with a non-empty first element cleans the joined string. */
  lemma PathJoinNonEmptyFirst(elems: seq<string>)
    requires elems != [] && elems[0] != ""
    ensures PathJoin(elems) == Clean(Join(elems, "/"))
  {
  }

  lemma JoinOnto(r: string, names: seq<string>)
    requires names != []
    ensures Join([r] + names, "/") == r + RenderTail(names)
  {
    JoinCons(r, names, "/");
    JoinRenderTail(names);
    assert r + "/" + Join(names, "/") == r + ("/" + Join(names, "/"));
  }

  lemma PathJoinRenderInner(cs: seq<string>, names: seq<string>)
    requires PlainNames(cs) && PlainNames(names) && cs != []
    ensures Clean(Render(cs) + RenderTail(names)) == Render(cs + names)
  {
    RenderTailAppend(cs, names);
    assert PlainNames(cs + names) by {
      forall k | 0 <= k < |cs + names|
        ensures PlainName((cs + names)[k])
      {
        if k < |cs| {
          assert (cs + names)[k] == cs[k];
        } else {
          assert (cs + names)[k] == names[k - |cs|];
        }
      }
    }
    CleanRenderTail(cs + names);
  }

  /** Dir of a clean absolute path is its parent; Dir("/") is "/". */
  lemma DirRender(cs: seq<string>)
    requires PlainNames(cs)
    ensures Dir(Render(cs)) == Render(Parent(cs))
  {
    var p := Render(cs);
    if cs == [] {
      assert p[..1] == "/";
      CleanRender([]);
    } else {
      var init, last := cs[..|cs| - 1], cs[|cs| - 1];
      assert cs == init + [last];
      RenderTailAppend(init, [last]);
      assert p == (RenderTail(init) + "/") + last;
      LastSlashAfter(RenderTail(init) + "/", last);
      assert p[..LastSlash(p) + 1] == RenderTail(init) + "/";
      assert Parent(cs) == init;
      if init == [] {
        assert RenderTail(init) + "/" == "/";
        CleanRender([]);
      } else {
        CleanTrailingSlash(init);
      }
    }
  }

  lemma ResolvePlainPrefixEmpty(cs: seq<string>)
    requires PlainNames(cs)
    ensures Resolve([""] + cs, true, []) == cs
  {
    assert ([""] + cs)[1..] == cs;
    ResolvePlain(cs, true, []);
  }

  /** A trailing empty element does not change Clean's pass. */
  lemma {:induction false} ResolveDropEmpty(parts: seq<string>, rooted: bool, stack: seq<string>)
    ensures Resolve(parts + [""], rooted, stack) == Resolve(parts, rooted, stack)
    decreases |parts|
  {
    if parts == [] {
      assert [""][1..] == [];
    } else {
      assert (parts + [""])[1..] == parts[1..] + [""];
      var p := parts[0];
      if p == "" || p == "." {
        ResolveDropEmpty(parts[1..], rooted, stack);
      } else if p == ".." {
        if stack != [] && stack[|stack| - 1] != ".." {
          ResolveDropEmpty(parts[1..], rooted, stack[..|stack| - 1]);
        } else if rooted {
          ResolveDropEmpty(parts[1..], rooted, stack);
        } else {
          ResolveDropEmpty(parts[1..], rooted, stack + [".."]);
        }
      } else {
        ResolveDropEmpty(parts[1..], rooted, stack + [p]);
      }
    }
  }

  lemma LastSlashAfter(a: string, b: string)
    requires a != [] && a[|a| - 1] == '/' && '/' !in b
    ensures LastSlash(a + b) == |a| - 1
    decreases |b|
  {
    if b == [] {
      assert a + b == a;
    } else {
      assert (a + b)[..|a + b| - 1] == a + b[..|b| - 1];
      LastSlashAfter(a, b[..|b| - 1]);
    }
  }

  /** An extension holds no second dot and no `/`. */
  lemma {:induction false} ExtOneDot(p: string)
    ensures Ext(p) == [] || ('.' !in Ext(p)[1..] && '/' !in Ext(p))
    decreases |p|
  {
    if p != [] {
      var c := p[|p| - 1];
      if c != '/' && c != '.' {
        var e := Ext(p[..|p| - 1]);
        ExtOneDot(p[..|p| - 1]);
        if e != "" {
          assert (e + [c])[1..] == e[1..] + [c];
        }
      }
    }
  }

  /** No path has the two-dot extension ".tar.gz". */
  lemma ExtNeverTarGz(p: string)
    ensures Ext(p) != ".tar.gz"
  {
    ExtOneDot(p);
    assert '.' in ".tar.gz"[1..];
  }
}
