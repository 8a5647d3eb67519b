/** Go's lexical slash-separated path functions (package `path`: Clean, Join, Dir,
    Base) and `filepath.Ext`, written element by element. Clean follows the rules Go
    documents for it (Rob Pike's "Lexical File Names in Plan 9"):
      1. replace multiple slashes by a single slash;
      2. eliminate each `.` element;
      3. eliminate each inner `..` element together with the non-`..` element before it;
      4. eliminate `..` elements that begin a rooted path;
    the result ends in a slash only if it is the root, and an empty result is ".". */
module GoPath {
  import opened GoStrings

  // ---------------------------------------------------------------------------
  // Splitting into elements and joining them again

  /** strings.Split(s, "/"): the elements between slashes; never empty. */
  function Split(s: string): (segs: seq<string>)
    ensures |segs| >= 1
    ensures forall i :: 0 <= i < |segs| ==> '/' !in segs[i]
    ensures JoinSegs(segs) == s
  {
    SplitFrom(s, |s|)
  }

  function SplitFrom(s: string, n: nat): (segs: seq<string>)
    requires n == |s|
    ensures |segs| >= 1
    ensures forall i :: 0 <= i < |segs| ==> '/' !in segs[i]
    ensures JoinSegs(segs) == s
    decreases n
  {
    if s == [] then [""]
    else
      var rest := SplitFrom(s[1..], n - 1);
      if s[0] == '/' then
        [""] + rest
      else
        var segs := [[s[0]] + rest[0]] + rest[1..];
        assert segs[1..] == rest[1..];
        segs
  }

  /** strings.Join(segs, "/"). */
  function JoinSegs(segs: seq<string>): string {
    if |segs| == 0 then ""
    else if |segs| == 1 then segs[0]
    else segs[0] + "/" + JoinSegs(segs[1..])
  }

  lemma {:induction false} SplitConcat(a: string, b: string)
    ensures Split(a + "/" + b) == Split(a) + Split(b)
  {
    if a == [] {
      assert a + "/" + b == "/" + b;
      assert ("/" + b)[1..] == b;
    } else {
      assert (a + "/" + b)[1..] == a[1..] + "/" + b;
      SplitConcat(a[1..], b);
    }
  }

  lemma {:induction false} SplitNoSlash(k: string)
    requires '/' !in k
    ensures Split(k) == [k]
  {
    if k != [] {
      SplitNoSlash(k[1..]);
      assert [k[0]] + k[1..] == k;
    }
  }

  /** Splitting undoes joining, for elements without slashes. */
  lemma {:induction false} SplitJoin(segs: seq<string>)
    requires |segs| >= 1
    requires forall i :: 0 <= i < |segs| ==> '/' !in segs[i]
    ensures Split(JoinSegs(segs)) == segs
  {
    if |segs| == 1 {
      SplitNoSlash(segs[0]);
    } else {
      SplitJoin(segs[1..]);
      SplitConcat(segs[0], JoinSegs(segs[1..]));
      SplitNoSlash(segs[0]);
    }
  }

  lemma {:induction false} JoinSegsSnoc(segs: seq<string>, k: string)
    ensures JoinSegs(segs + [k]) == if segs == [] then k else JoinSegs(segs) + "/" + k
  {
    if |segs| > 1 {
      assert (segs + [k])[1..] == segs[1..] + [k];
      JoinSegsSnoc(segs[1..], k);
    }
  }

  // ---------------------------------------------------------------------------
  // The scan at the heart of Clean

  /** A path element that survives cleaning unchanged. */
  predicate Normal(seg: string) {
    seg != "" && seg != "." && seg != ".." && '/' !in seg
  }

  /** The elements of a cleaned path: no empty or "." element and no slash in any;
      ".." only in a leading run of ".." elements, and not at all in a rooted path. */
  predicate CleanStack(stack: seq<string>, rooted: bool) {
    forall i :: 0 <= i < |stack| ==>
      && stack[i] != "" && stack[i] != "." && '/' !in stack[i]
      && (stack[i] == ".." ==> !rooted && forall j :: 0 <= j < i ==> stack[j] == "..")
  }

  /** One element of Clean's left-to-right scan. */
  function Push(stack: seq<string>, seg: string, rooted: bool): seq<string> {
    if seg == "" || seg == "." then stack
    else if seg != ".." then stack + [seg]
    else if |stack| > 0 && stack[|stack| - 1] != ".." then stack[..|stack| - 1]
    else if rooted then stack
    else stack + [".."]
  }

  /** The elements left after scanning `segs`, starting from `stack`. */
  function Resolve(stack: seq<string>, segs: seq<string>, rooted: bool): seq<string>
    decreases |segs|
  {
    if segs == [] then stack else Resolve(Push(stack, segs[0], rooted), segs[1..], rooted)
  }

  lemma {:induction false} ResolveSnoc(stack: seq<string>, segs: seq<string>, k: string, rooted: bool)
    ensures Resolve(stack, segs + [k], rooted) == Push(Resolve(stack, segs, rooted), k, rooted)
    decreases |segs|
  {
    if segs == [] {
      assert [] + [k] == [k];
      assert [k][1..] == [];
    } else {
      assert (segs + [k])[1..] == segs[1..] + [k];
      ResolveSnoc(Push(stack, segs[0], rooted), segs[1..], k, rooted);
    }
  }

  lemma PushClean(stack: seq<string>, seg: string, rooted: bool)
    requires '/' !in seg && CleanStack(stack, rooted)
    ensures CleanStack(Push(stack, seg, rooted), rooted)
  {
  }

  lemma {:induction false} ResolveIsClean(stack: seq<string>, segs: seq<string>, rooted: bool)
    requires CleanStack(stack, rooted)
    requires forall i :: 0 <= i < |segs| ==> '/' !in segs[i]
    ensures CleanStack(Resolve(stack, segs, rooted), rooted)
    decreases |segs|
  {
    if segs != [] {
      PushClean(stack, segs[0], rooted);
      ResolveIsClean(Push(stack, segs[0], rooted), segs[1..], rooted);
    }
  }

  /** Scanning the elements of a clean path appends them unchanged. */
  lemma {:induction false} ResolveClean(stack: seq<string>, t: seq<string>, rooted: bool)
    requires CleanStack(stack + t, rooted)
    ensures Resolve(stack, t, rooted) == stack + t
    decreases |t|
  {
    if t != [] {
      assert (stack + t)[|stack|] == t[0];
      assert Push(stack, t[0], rooted) == stack + [t[0]] by {
        if t[0] == ".." && |stack| > 0 {
          assert (stack + t)[|stack| - 1] == stack[|stack| - 1];
        }
      }
      assert stack + [t[0]] + t[1..] == stack + t;
      ResolveClean(stack + [t[0]], t[1..], rooted);
    }
  }

  // ---------------------------------------------------------------------------
  // Clean

  lemma SlashPrefix(s: string)
    ensures HasPrefix(s, "/") <==> |s| > 0 && s[0] == '/'
  {
    if |s| > 0 && s[0] == '/' {
      assert s[..1] == "/";
    }
  }

  /** The path spelled by a list of elements, rooted or not. */
  function Render(stack: seq<string>, rooted: bool): string {
    if rooted then "/" + JoinSegs(stack)
    else if stack == [] then "."
    else JoinSegs(stack)
  }

  /** The elements of a non-empty clean path join to neither "", ".", nor a string
      that starts with a slash. */
  lemma JoinSegsShape(stack: seq<string>, rooted: bool)
    requires stack != [] && CleanStack(stack, rooted)
    ensures |JoinSegs(stack)| > 0 && JoinSegs(stack)[0] == stack[0][0] != '/'
    ensures JoinSegs(stack) != "."
  {
    assert stack[0] != "" && stack[0] != "." && '/' !in stack[0];
    if |stack| > 1 {
      assert JoinSegs(stack) == stack[0] + "/" + JoinSegs(stack[1..]);
    }
  }

  /** True of exactly the strings that Clean returns. */
  predicate IsClean(r: string) {
    || r == "."
    || (|r| > 0 && r[0] == '/' && (r == "/" || CleanStack(Split(r[1..]), true)))
    || (|r| > 0 && r[0] != '/' && CleanStack(Split(r), false))
  }

  /** What a clean list of elements renders to is clean, rooted exactly when asked. */
  lemma RenderShape(stack: seq<string>, rooted: bool)
    requires CleanStack(stack, rooted)
    ensures IsClean(Render(stack, rooted))
    ensures HasPrefix(Render(stack, rooted), "/") <==> rooted
    ensures Render(stack, rooted) != ""
  {
    var r := Render(stack, rooted);
    SlashPrefix(r);
    if stack != [] {
      SplitJoin(stack);
      JoinSegsShape(stack, rooted);
      if rooted {
        assert r[1..] == JoinSegs(stack);
      }
    }
  }

  /** path.Clean */
  function Clean(p: string): (r: string)
    ensures IsClean(r)
    ensures HasPrefix(r, "/") <==> HasPrefix(p, "/")
  {
    SlashPrefix(p);
    if p == "" then
      assert IsClean(".");
      SlashPrefix(".");
      "."
    else
      var rooted := p[0] == '/';
      ResolveIsClean([], Split(p), rooted);
      RenderShape(Resolve([], Split(p), rooted), rooted);
      Render(Resolve([], Split(p), rooted), rooted)
  }

  /** Cleaning what a clean list of elements renders to gives it back. */
  lemma CleanRender(stack: seq<string>, rooted: bool)
    requires CleanStack(stack, rooted)
    ensures Clean(Render(stack, rooted)) == Render(stack, rooted)
  {
    if rooted && stack == [] {
      CleanRoot();
    } else if rooted {
      CleanRenderRooted(stack);
    } else if stack == [] {
      SplitNoSlash(".");
      assert Resolve([], ["."], false) == [];
    } else {
      SplitJoin(stack);
      assert [] + stack == stack;
      ResolveClean([], stack, false);
      JoinSegsShape(stack, false);
      CleanUnfold(JoinSegs(stack));
    }
  }

  lemma CleanRoot()
    ensures Clean("/") == "/"
  {
    assert Split("/") == ["", ""] by { SplitConcat("", ""); }
    assert Resolve([], ["", ""], true) == [];
    CleanUnfold("/");
  }

  lemma CleanRenderRooted(stack: seq<string>)
    requires stack != [] && CleanStack(stack, true)
    ensures Clean(Render(stack, true)) == Render(stack, true)
  {
    var r := Render(stack, true);
    SplitConcat("", JoinSegs(stack));
    assert r == "" + "/" + JoinSegs(stack);
    SplitJoin(stack);
    assert Split(r) == [""] + stack;
    assert [] + stack == stack;
    ResolveClean([], stack, true);
    assert r[0] == '/';
    assert Resolve([], [""] + stack, true) == Resolve([], stack, true) by {
      assert ([""] + stack)[1..] == stack;
    }
    CleanUnfold(r);
  }

  /** Clean(p) is what the scan of p's elements renders to. */
  lemma CleanUnfold(p: string)
    requires p != ""
    ensures Clean(p) == Render(Resolve([], Split(p), p[0] == '/'), p[0] == '/')
  {
  }

  /** Cleaning is idempotent. */
  lemma CleanIdempotent(p: string)
    ensures Clean(Clean(p)) == Clean(p)
  {
    if p != "" {
      var rooted := p[0] == '/';
      ResolveIsClean([], Split(p), rooted);
      CleanRender(Resolve([], Split(p), rooted), rooted);
    } else {
      CleanRender([], false);
    }
  }

  /** Cleaning a path whose last element is `k` applies one more scan step to the
      elements of the rest. */
  lemma CleanSnoc(p: string, k: string)
    requires p != "" && '/' !in k
    ensures Clean(p + "/" + k) == Render(Push(Resolve([], Split(p), p[0] == '/'), k, p[0] == '/'), p[0] == '/')
  {
    var q := p + "/" + k;
    assert q[0] == p[0];
    SplitConcat(p, k);
    SplitNoSlash(k);
    ResolveSnoc([], Split(p), k, p[0] == '/');
  }

  /** The element that Clean appends for a normal last element `k`. */
  function AppendSeg(cleaned: string, k: string): string {
    if cleaned == "." then k
    else if cleaned == "/" then "/" + k
    else cleaned + "/" + k
  }

  lemma AppendSegRender(stack: seq<string>, k: string, rooted: bool)
    requires CleanStack(stack, rooted)
    ensures AppendSeg(Render(stack, rooted), k) == Render(stack + [k], rooted)
  {
    JoinSegsSnoc(stack, k);
    if stack == [] {
      assert Render([], false) == ".";
      assert Render([], true) == "/";
    } else {
      JoinSegsShape(stack, rooted);
      var j := JoinSegs(stack);
      if rooted {
        assert Render(stack, rooted) == "/" + j;
        assert |"/" + j| >= 2;
        assert Render(stack + [k], rooted) == "/" + j + "/" + k;
      } else {
        assert Render(stack, rooted) == j;
        assert j != "/" by { assert j[0] != '/'; }
        assert Render(stack + [k], rooted) == j + "/" + k;
      }
    }
  }

  /** Cleaning a path that ends in a normal element appends that element to the
      cleaned remainder. */
  lemma CleanAppend(p: string, k: string)
    requires p != ""
    requires Normal(k)
    ensures Clean(p + "/" + k) == AppendSeg(Clean(p), k)
  {
    var rooted := p[0] == '/';
    CleanSnoc(p, k);
    ResolveIsClean([], Split(p), rooted);
    AppendSegRender(Resolve([], Split(p), rooted), k, rooted);
  }

  /** A trailing slash does not change the cleaned path. */
  lemma CleanTrailingSlash(p: string)
    requires p != ""
    ensures Clean(p + "/") == Clean(p)
  {
    assert p + "/" == p + "/" + "";
    CleanSnoc(p, "");
  }

  // ---------------------------------------------------------------------------
  // Join, Dir, Base, Ext

  /** The index just past the leading empty elements. */
  function FirstNonEmpty(elems: seq<string>): (i: nat)
    ensures i <= |elems|
    ensures forall j :: 0 <= j < i ==> elems[j] == ""
    ensures i < |elems| ==> elems[i] != ""
  {
    if elems == [] || elems[0] != "" then 0 else 1 + FirstNonEmpty(elems[1..])
  }

  /** path.Join: joins the elements from the first non-empty one with slashes and
      cleans the result; "" when every element is empty. */
  function Join(elems: seq<string>): (r: string)
    ensures r == "" <==> forall j :: 0 <= j < |elems| ==> elems[j] == ""
    ensures r != "" ==> IsClean(r)
  {
    var i := FirstNonEmpty(elems);
    if i == |elems| then "" else Clean(JoinSegs(elems[i..]))
  }

  /** path.Dir: everything up to the last slash, cleaned. */
  function Dir(p: string): (r: string)
    ensures IsClean(r)
    ensures HasPrefix(r, "/") <==> HasPrefix(p, "/")
  {
    Clean(p[..LastIndex(p, '/') + 1])
  }

  /** The path with its trailing slashes removed. */
  function TrimTrailingSlashes(p: string): (r: string)
    ensures |r| <= |p| && p[..|r|] == r
    ensures r == [] || r[|r| - 1] != '/'
    ensures forall i :: |r| <= i < |p| ==> p[i] == '/'
  {
    p[..TrimmedLength(p, |p|)]
  }

  /** The length of p[..n] once its trailing slashes are dropped. */
  function TrimmedLength(p: string, n: nat): (k: nat)
    requires n <= |p|
    ensures k <= n
    ensures k == 0 || p[k - 1] != '/'
    ensures forall i :: k <= i < n ==> p[i] == '/'
  {
    if n > 0 && p[n - 1] == '/' then TrimmedLength(p, n - 1) else n
  }

  /** path.Base: the last element, trailing slashes ignored; "." for "" and "/" for
      a path of slashes. */
  function Base(p: string): (r: string)
    ensures r != ""
    ensures r == "/" || '/' !in r
  {
    if p == "" then "."
    else
      var q := TrimTrailingSlashes(p);
      var last := q[LastIndex(q, '/') + 1..];
      if last == "" then "/" else last
  }

  /** Where the last element of a rendered clean path starts, and what comes before it. */
  lemma LastOfRender(stack: seq<string>, last: string, rooted: bool)
    requires CleanStack(stack + [last], rooted)
    ensures var p := Render(stack + [last], rooted);
            && |last| <= |p| && LastIndex(p, '/') + 1 == |p| - |last| && p[|p| - |last|..] == last
            && p[..|p| - |last|] == (if stack == [] then (if rooted then "/" else "") else Render(stack, rooted) + "/")
            && last != "" && p[|p| - 1] != '/'
  {
    var p := Render(stack + [last], rooted);
    assert (stack + [last])[|stack|] == last;
    JoinSegsSnoc(stack, last);
    assert last != "" && '/' !in last;
    var head := if stack == [] then (if rooted then "/" else "") else Render(stack, rooted) + "/";
    if !rooted && stack == [] {
      assert p == last;
      LastIndexAbsent(last, '/');
    } else {
      var h := head[..|head| - 1];
      assert head == h + ['/'];
      assert p == h + ['/'] + last;
      LastIndexAfter(h, '/', last);
    }
    assert p == head + last;
  }

  /** Dir of a clean path split off its last element. */
  lemma DirRender(stack: seq<string>, last: string, rooted: bool)
    requires CleanStack(stack + [last], rooted)
    ensures Dir(Render(stack + [last], rooted)) == Render(stack, rooted)
  {
    LastOfRender(stack, last, rooted);
    assert CleanStack(stack, rooted) by {
      assert forall i :: 0 <= i < |stack| ==> stack[i] == (stack + [last])[i];
    }
    if stack == [] {
      if rooted {
        CleanRender([], true);
      }
    } else {
      RenderShape(stack, rooted);
      CleanTrailingSlash(Render(stack, rooted));
      CleanRender(stack, rooted);
    }
  }

  /** Base of a clean path is its last element. */
  lemma BaseRender(stack: seq<string>, last: string, rooted: bool)
    requires CleanStack(stack + [last], rooted)
    ensures Base(Render(stack + [last], rooted)) == last
  {
    LastOfRender(stack, last, rooted);
    var p := Render(stack + [last], rooted);
    assert TrimmedLength(p, |p|) == |p|;
    assert p[..|p|] == p;
  }

  /** Dir and Base of a clean path split off its last element. */
  lemma DirBaseRender(stack: seq<string>, last: string, rooted: bool)
    requires CleanStack(stack + [last], rooted)
    ensures Dir(Render(stack + [last], rooted)) == Render(stack, rooted)
    ensures Base(Render(stack + [last], rooted)) == last
  {
    DirRender(stack, last, rooted);
    BaseRender(stack, last, rooted);
  }

  /** The final element of a slash-separated path. */
  function LastElement(p: string): string {
    p[LastIndex(p, '/') + 1..]
  }

  /** filepath.Ext (with '/' as the separator): the suffix of the final element that
      starts at its last '.', or "" when the final element has no '.'. */
  function Ext(p: string): (r: string)
    ensures HasSuffix(p, r)
    ensures r != "" ==> r[0] == '.' && '.' !in r[1..] && '/' !in r
    ensures r == "" <==> '.' !in LastElement(p)
  {
    var elem := LastElement(p);
    var dot := LastIndex(elem, '.');
    if dot < 0 then ""
    else
      assert p[|p| - |elem[dot..]|..] == elem[dot..];
      elem[dot..]
  }
}
