/** How a (prefix, filename, key) triple becomes a remote parameter name
    (buildParameterPath in ssmops.go). */
module ParamPath {
  import opened GoStrings
  import opened GoPath

  /** The name with its last extension removed: everything before the last '.'. */
  function StripExt(name: string): (r: string)
    ensures |r| <= |name| && name[..|r|] == r
    ensures '.' !in name ==> r == name
    ensures '.' in name ==> |r| < |name| && name[|r|] == '.' && '.' !in name[|r| + 1..]
  {
    if |name| > 0 && '.' in name then name[..LastIndex(name, '.')] else name
  }

  /** The file element used when no filename is given. */
  function FileElement(filename: string): (fn: string)
    ensures fn != ""
    ensures filename != "" ==> fn == filename
  {
    if |filename| == 0 then "$" else filename
  }

  /** buildParameterPath. The code also computes a copy of `prefix` with a leading
      '/' added but never uses it: the join below takes `prefix` as given, so a
      relative prefix gives a relative name. */
  function BuildParameterPath(prefix: string, filename: string, key: string): (r: string)
    ensures IsClean(r)
  {
    var base := Join([prefix, FileElement(filename)]);
    var realdir := Dir(base);
    var realfn := StripExt(Base(base));
    if |key| > 0 then Join([realdir, realfn, key]) else Join([realdir, realfn])
  }

  /** Stripping the extension of `stem + "." + ext` leaves `stem` when `ext` has no '.'. */
  lemma StripOneExt(stem: string, ext: string)
    requires '.' !in ext
    ensures StripExt(stem + "." + ext) == stem
  {
    var name := stem + "." + ext;
    assert name == stem + ['.'] + ext;
    LastIndexAfter(stem, '.', ext);
    assert name[|stem|] == '.';
    assert name[..|stem|] == stem;
  }

  /** A non-empty first element decides the first character of the joined elements. */
  lemma {:induction false} JoinSegsHead(elems: seq<string>)
    requires elems != [] && elems[0] != ""
    ensures JoinSegs(elems) != "" && JoinSegs(elems)[0] == elems[0][0]
  {
  }

  /** Joining a non-empty directory with further elements. */
  lemma JoinFrom(elems: seq<string>)
    requires elems != [] && elems[0] != ""
    ensures Join(elems) == Clean(JoinSegs(elems))
  {
    assert FirstNonEmpty(elems) == 0;
    assert elems[0..] == elems;
  }

  /** Clean directories are never empty. */
  lemma CleanNonEmpty(p: string)
    ensures Clean(p) != ""
  {
  }

  /** Without a key, the name is the cleaned directory and stripped base name. */
  lemma BuildNoKey(prefix: string, filename: string)
    ensures var base := Join([prefix, FileElement(filename)]);
            BuildParameterPath(prefix, filename, "") == Clean(Dir(base) + "/" + StripExt(Base(base)))
  {
    var base := Join([prefix, FileElement(filename)]);
    var d := Dir(base);
    var e := StripExt(Base(base));
    assert BuildParameterPath(prefix, filename, "") == Join([d, e]);
    CleanNonEmpty(base[..LastIndex(base, '/') + 1]);
    JoinFrom([d, e]);
    assert JoinSegs([d, e]) == d + "/" + e;
  }

  /** With a key, the key follows as one more element before cleaning. */
  lemma BuildWithKey(prefix: string, filename: string, key: string)
    requires key != ""
    ensures var base := Join([prefix, FileElement(filename)]);
            BuildParameterPath(prefix, filename, key)
              == Clean(Dir(base) + "/" + StripExt(Base(base)) + "/" + key)
  {
    var base := Join([prefix, FileElement(filename)]);
    var d := Dir(base);
    var e := StripExt(Base(base));
    assert BuildParameterPath(prefix, filename, key) == Join([d, e, key]);
    CleanNonEmpty(base[..LastIndex(base, '/') + 1]);
    JoinFrom([d, e, key]);
    assert [d, e] + [key] == [d, e, key];
    JoinSegsSnoc([d, e], key);
    assert JoinSegs([d, e]) == d + "/" + e;
  }

  /** When the joined prefix and file element clean to the elements `dirs + [last]`,
      the name without a key is those directories and `last` without its extension. */
  lemma ShapeNoKey(prefix: string, filename: string, dirs: seq<string>, last: string, rooted: bool)
    requires CleanStack(dirs + [last], rooted)
    requires Join([prefix, FileElement(filename)]) == Render(dirs + [last], rooted)
    requires Normal(StripExt(last))
    ensures BuildParameterPath(prefix, filename, "") == Render(dirs + [StripExt(last)], rooted)
  {
    var e := StripExt(last);
    DirBaseRender(dirs, last, rooted);
    var d := Render(dirs, rooted);
    assert CleanStack(dirs, rooted) by {
      assert forall i :: 0 <= i < |dirs| ==> dirs[i] == (dirs + [last])[i];
    }
    RenderShape(dirs, rooted);
    PushClean(dirs, e, rooted);
    CleanRender(dirs, rooted);
    AppendSegRender(dirs, e, rooted);
    CleanAppend(d, e);
    assert Clean(d + "/" + e) == Render(dirs + [e], rooted);
    BuildNoKey(prefix, filename);
  }

  /** The same with a normal key, which becomes the final element. */
  lemma BuildShape(prefix: string, filename: string, key: string,
                   dirs: seq<string>, last: string, rooted: bool)
    requires CleanStack(dirs + [last], rooted)
    requires Join([prefix, FileElement(filename)]) == Render(dirs + [last], rooted)
    requires Normal(StripExt(last))
    requires Normal(key)
    ensures BuildParameterPath(prefix, filename, key) == Render(dirs + [StripExt(last), key], rooted)
  {
    var e := StripExt(last);
    ShapeNoKey(prefix, filename, dirs, last, rooted);
    KeyIsLastElement(prefix, filename, key);
    assert CleanStack(dirs + [e], rooted) by {
      assert forall i :: 0 <= i < |dirs| ==> dirs[i] == (dirs + [last])[i];
      PushClean(dirs, e, rooted);
    }
    AppendSegRender(dirs + [e], key, rooted);
    assert dirs + [e] + [key] == dirs + [e, key];
  }

  /** A normal key becomes one more final element of the name built without a key. */
  lemma KeyIsLastElement(prefix: string, filename: string, key: string)
    requires Normal(key)
    ensures BuildParameterPath(prefix, filename, key)
         == AppendSeg(BuildParameterPath(prefix, filename, ""), key)
  {
    var base := Join([prefix, FileElement(filename)]);
    var d := Dir(base);
    var e := StripExt(Base(base));
    CleanNonEmpty(base[..LastIndex(base, '/') + 1]);
    JoinFrom([d, e, key]);
    JoinFrom([d, e]);
    assert [d, e, key] == [d, e] + [key];
    JoinSegsSnoc([d, e], key);
    JoinSegsHead([d, e]);
    CleanAppend(JoinSegs([d, e]), key);
  }

  /** The name a key is stored under starts with the name of its file and "/", and
      trimming those gives the key back, unless the file's name is "." or "/". */
  lemma KeyRoundTrip(prefix: string, filename: string, key: string)
    requires Normal(key)
    requires BuildParameterPath(prefix, filename, "") !in {".", "/"}
    ensures var path := BuildParameterPath(prefix, filename, "");
            var name := BuildParameterPath(prefix, filename, key);
            HasPrefix(name, path + "/") && TrimPrefix(name, path + "/") == key
  {
    KeyIsLastElement(prefix, filename, key);
    var path := BuildParameterPath(prefix, filename, "");
    var name := path + "/" + key;
    assert name[..|path + "/"|] == path + "/";
  }

  /** In a clean rooted path every element after the root is a normal name: no empty
      element (so no "//" and no trailing '/'), no "." and no "..". */
  lemma RootedElements(r: string)
    requires IsClean(r) && HasPrefix(r, "/")
    ensures r == "/" || forall i :: 1 <= i < |Split(r)| ==> Normal(Split(r)[i])
  {
    SlashPrefix(r);
    if r != "/" {
      assert r == "" + "/" + r[1..];
      SplitConcat("", r[1..]);
      assert Split(r) == [""] + Split(r[1..]);
      assert forall i :: 1 <= i < |Split(r)| ==> Split(r)[i] == Split(r[1..])[i - 1];
    }
  }

  /** An absolute prefix gives an absolute, clean name. */
  lemma AbsolutePrefix(prefix: string, filename: string, key: string)
    requires HasPrefix(prefix, "/")
    ensures var r := BuildParameterPath(prefix, filename, key);
            HasPrefix(r, "/") && IsClean(r)
            && (r == "/" || forall i :: 1 <= i < |Split(r)| ==> Normal(Split(r)[i]))
  {
    var fn := FileElement(filename);
    SlashPrefix(prefix);
    JoinFrom([prefix, fn]);
    JoinSegsHead([prefix, fn]);
    var base := Join([prefix, fn]);
    SlashPrefix(JoinSegs([prefix, fn]));
    SlashPrefix(base);
    var k := LastIndex(base, '/');
    assert k >= 0;
    var d := Dir(base);
    SlashPrefix(base[..k + 1]);
    SlashPrefix(d);
    var e := StripExt(Base(base));
    var r := BuildParameterPath(prefix, filename, key);
    if key == "" {
      JoinFrom([d, e]);
      JoinSegsHead([d, e]);
      SlashPrefix(JoinSegs([d, e]));
    } else {
      JoinFrom([d, e, key]);
      JoinSegsHead([d, e, key]);
      SlashPrefix(JoinSegs([d, e, key]));
    }
    RootedElements(r);
  }

  /** Clean of the joined elements `segs`, through the element scan. */
  lemma CleanOfSegs(segs: seq<string>)
    requires |segs| >= 1 && JoinSegs(segs) != ""
    requires forall i :: 0 <= i < |segs| ==> '/' !in segs[i]
    ensures var p := JoinSegs(segs);
            Clean(p) == Render(Resolve([], segs, p[0] == '/'), p[0] == '/')
  {
    SplitJoin(segs);
    CleanUnfold(JoinSegs(segs));
  }

  /** Joining two non-empty lists of elements. */
  lemma {:induction false} JoinSegsAppend(a: seq<string>, b: seq<string>)
    requires a != [] && b != []
    ensures JoinSegs(a + b) == JoinSegs(a) + "/" + JoinSegs(b)
  {
    if |a| > 1 {
      assert (a + b)[1..] == a[1..] + b;
      JoinSegsAppend(a[1..], b);
    } else {
      assert (a + b)[1..] == b;
    }
  }

  /** A prefix and a file element given by their elements join to the scan of all
      the elements. */
  lemma JoinedElements(prefix: string, fn: string, prefixSegs: seq<string>, fileSegs: seq<string>,
                       segs: seq<string>, rooted: bool)
    requires prefixSegs != [] && fileSegs != [] && segs == prefixSegs + fileSegs
    requires prefix == JoinSegs(prefixSegs) && fn == JoinSegs(fileSegs)
    requires forall i :: 0 <= i < |segs| ==> '/' !in segs[i]
    requires prefix != "" && (prefix[0] == '/' <==> rooted)
    ensures Join([prefix, fn]) == Render(Resolve([], segs, rooted), rooted)
  {
    JoinFrom([prefix, fn]);
    JoinSegsAppend(prefixSegs, fileSegs);
    var p := JoinSegs(segs);
    assert JoinSegs([prefix, fn]) == prefix + "/" + fn;
    assert p == prefix + "/" + fn;
    assert p[0] == prefix[0];
    CleanOfSegs(segs);
  }

  /** One worked example, read off the element scan: the prefix and the file element
      are the elements `prefixSegs` and `fileSegs`, which together clean to
      `dirs + [last]`; `last` is `stem` with at most one extension; and the expected
      name renders `full == dirs + [stem, key]`. */
  lemma Example(prefix: string, filename: string, key: string,
                prefixSegs: seq<string>, fileSegs: seq<string>, segs: seq<string>,
                dirs: seq<string>, last: string, stem: string, ext: string, rooted: bool,
                full: seq<string>, expected: string)
    requires prefixSegs != [] && fileSegs != [] && segs == prefixSegs + fileSegs
    requires prefix == JoinSegs(prefixSegs) && FileElement(filename) == JoinSegs(fileSegs)
    requires forall i :: 0 <= i < |segs| ==> '/' !in segs[i]
    requires prefix != "" && (prefix[0] == '/' <==> rooted)
    requires Resolve([], segs, rooted) == dirs + [last]
    requires (last == stem + "." + ext && '.' !in ext) || ('.' !in last && stem == last)
    requires Normal(stem) && Normal(key)
    requires full == dirs + [stem, key] && Render(full, rooted) == expected
    ensures BuildParameterPath(prefix, filename, key) == expected
  {
    JoinedElements(prefix, FileElement(filename), prefixSegs, fileSegs, segs, rooted);
    ResolveIsClean([], segs, rooted);
    if '.' !in last {
      assert StripExt(last) == stem;
    } else {
      StripOneExt(stem, ext);
    }
    BuildShape(prefix, filename, key, dirs, last, rooted);
  }

  // The element facts and scan results behind TestVectors, one case each.

  lemma TestVectorsElements1()
    ensures ["", "alpha", "beta"] != [] && ["one", "file.properties"] != [] && ["", "alpha", "beta", "one", "file.properties"] == ["", "alpha", "beta"] + ["one", "file.properties"]
    ensures Render(["alpha", "beta"], true) == JoinSegs(["", "alpha", "beta"]) && FileElement(JoinSegs(["one", "file.properties"])) == JoinSegs(["one", "file.properties"])
    ensures forall i :: 0 <= i < |["", "alpha", "beta", "one", "file.properties"]| ==> '/' !in ["", "alpha", "beta", "one", "file.properties"][i]
    ensures Render(["alpha", "beta"], true) != "" && (Render(["alpha", "beta"], true)[0] == '/' <==> true)
  {
  }

  lemma TestVectorsScan1()
    ensures Resolve([], ["", "alpha", "beta", "one", "file.properties"], true) == ["alpha", "beta", "one"] + ["file.properties"]
  {
  }

  lemma TestVectorsStem1()
    ensures ("file.properties" == "file" + "." + "properties" && '.' !in "properties") || ('.' !in "file.properties" && "file" == "file.properties")
    ensures Normal("file") && Normal("myprop")
    ensures ["alpha", "beta", "one", "file", "myprop"] == ["alpha", "beta", "one"] + ["file", "myprop"]
  {
  }

  lemma TestVectorsElements2()
    ensures ["", "alpha", "beta"] != [] && ["one", "file"] != [] && ["", "alpha", "beta", "one", "file"] == ["", "alpha", "beta"] + ["one", "file"]
    ensures Render(["alpha", "beta"], true) == JoinSegs(["", "alpha", "beta"]) && FileElement(JoinSegs(["one", "file"])) == JoinSegs(["one", "file"])
    ensures forall i :: 0 <= i < |["", "alpha", "beta", "one", "file"]| ==> '/' !in ["", "alpha", "beta", "one", "file"][i]
    ensures Render(["alpha", "beta"], true) != "" && (Render(["alpha", "beta"], true)[0] == '/' <==> true)
  {
  }

  lemma TestVectorsScan2()
    ensures Resolve([], ["", "alpha", "beta", "one", "file"], true) == ["alpha", "beta", "one"] + ["file"]
  {
  }

  lemma TestVectorsStem2()
    ensures ("file" == "file" + "." + "" && '.' !in "") || ('.' !in "file" && "file" == "file")
    ensures Normal("file") && Normal("myprop")
    ensures ["alpha", "beta", "one", "file", "myprop"] == ["alpha", "beta", "one"] + ["file", "myprop"]
  {
  }

  lemma TestVectorsElements3()
    ensures ["", "alpha", "beta"] != [] && [".", "one", "file.properties"] != [] && ["", "alpha", "beta", ".", "one", "file.properties"] == ["", "alpha", "beta"] + [".", "one", "file.properties"]
    ensures Render(["alpha", "beta"], true) == JoinSegs(["", "alpha", "beta"]) && FileElement(JoinSegs([".", "one", "file.properties"])) == JoinSegs([".", "one", "file.properties"])
    ensures forall i :: 0 <= i < |["", "alpha", "beta", ".", "one", "file.properties"]| ==> '/' !in ["", "alpha", "beta", ".", "one", "file.properties"][i]
    ensures Render(["alpha", "beta"], true) != "" && (Render(["alpha", "beta"], true)[0] == '/' <==> true)
  {
  }

  lemma TestVectorsScan3()
    ensures Resolve([], ["", "alpha", "beta", ".", "one", "file.properties"], true) == ["alpha", "beta", "one"] + ["file.properties"]
  {
  }

  lemma TestVectorsStem3()
    ensures ("file.properties" == "file" + "." + "properties" && '.' !in "properties") || ('.' !in "file.properties" && "file" == "file.properties")
    ensures Normal("file") && Normal("myprop")
    ensures ["alpha", "beta", "one", "file", "myprop"] == ["alpha", "beta", "one"] + ["file", "myprop"]
  {
  }

  lemma TestVectorsElements4()
    ensures ["", "alpha", "beta"] != [] && ["..", "one", "file.properties"] != [] && ["", "alpha", "beta", "..", "one", "file.properties"] == ["", "alpha", "beta"] + ["..", "one", "file.properties"]
    ensures Render(["alpha", "beta"], true) == JoinSegs(["", "alpha", "beta"]) && FileElement(JoinSegs(["..", "one", "file.properties"])) == JoinSegs(["..", "one", "file.properties"])
    ensures forall i :: 0 <= i < |["", "alpha", "beta", "..", "one", "file.properties"]| ==> '/' !in ["", "alpha", "beta", "..", "one", "file.properties"][i]
    ensures Render(["alpha", "beta"], true) != "" && (Render(["alpha", "beta"], true)[0] == '/' <==> true)
  {
  }

  lemma TestVectorsScan4()
    ensures Resolve([], ["", "alpha", "beta", "..", "one", "file.properties"], true) == ["alpha", "one"] + ["file.properties"]
  {
  }

  lemma TestVectorsStem4()
    ensures ("file.properties" == "file" + "." + "properties" && '.' !in "properties") || ('.' !in "file.properties" && "file" == "file.properties")
    ensures Normal("file") && Normal("myprop")
    ensures ["alpha", "one", "file", "myprop"] == ["alpha", "one"] + ["file", "myprop"]
  {
  }

  lemma TestVectorsElements5()
    ensures ["", "alpha", "beta"] != [] && ["two", "one", "file.properties"] != [] && ["", "alpha", "beta", "two", "one", "file.properties"] == ["", "alpha", "beta"] + ["two", "one", "file.properties"]
    ensures Render(["alpha", "beta"], true) == JoinSegs(["", "alpha", "beta"]) && FileElement(JoinSegs(["two", "one", "file.properties"])) == JoinSegs(["two", "one", "file.properties"])
    ensures forall i :: 0 <= i < |["", "alpha", "beta", "two", "one", "file.properties"]| ==> '/' !in ["", "alpha", "beta", "two", "one", "file.properties"][i]
    ensures Render(["alpha", "beta"], true) != "" && (Render(["alpha", "beta"], true)[0] == '/' <==> true)
  {
  }

  lemma TestVectorsScan5()
    ensures Resolve([], ["", "alpha", "beta", "two", "one", "file.properties"], true) == ["alpha", "beta", "two", "one"] + ["file.properties"]
  {
  }

  lemma TestVectorsStem5()
    ensures ("file.properties" == "file" + "." + "properties" && '.' !in "properties") || ('.' !in "file.properties" && "file" == "file.properties")
    ensures Normal("file") && Normal("myprop")
    ensures ["alpha", "beta", "two", "one", "file", "myprop"] == ["alpha", "beta", "two", "one"] + ["file", "myprop"]
  {
  }

  lemma TestVectorsElements6()
    ensures ["", "alpha", "beta"] != [] && ["two", ".", "file.properties"] != [] && ["", "alpha", "beta", "two", ".", "file.properties"] == ["", "alpha", "beta"] + ["two", ".", "file.properties"]
    ensures Render(["alpha", "beta"], true) == JoinSegs(["", "alpha", "beta"]) && FileElement(JoinSegs(["two", ".", "file.properties"])) == JoinSegs(["two", ".", "file.properties"])
    ensures forall i :: 0 <= i < |["", "alpha", "beta", "two", ".", "file.properties"]| ==> '/' !in ["", "alpha", "beta", "two", ".", "file.properties"][i]
    ensures Render(["alpha", "beta"], true) != "" && (Render(["alpha", "beta"], true)[0] == '/' <==> true)
  {
  }

  lemma TestVectorsScan6()
    ensures Resolve([], ["", "alpha", "beta", "two", ".", "file.properties"], true) == ["alpha", "beta", "two"] + ["file.properties"]
  {
  }

  lemma TestVectorsStem6()
    ensures ("file.properties" == "file" + "." + "properties" && '.' !in "properties") || ('.' !in "file.properties" && "file" == "file.properties")
    ensures Normal("file") && Normal("myprop")
    ensures ["alpha", "beta", "two", "file", "myprop"] == ["alpha", "beta", "two"] + ["file", "myprop"]
  {
  }

  lemma TestVectorsElements7()
    ensures ["", "alpha", "beta"] != [] && ["two", "..", "file.properties"] != [] && ["", "alpha", "beta", "two", "..", "file.properties"] == ["", "alpha", "beta"] + ["two", "..", "file.properties"]
    ensures Render(["alpha", "beta"], true) == JoinSegs(["", "alpha", "beta"]) && FileElement(JoinSegs(["two", "..", "file.properties"])) == JoinSegs(["two", "..", "file.properties"])
    ensures forall i :: 0 <= i < |["", "alpha", "beta", "two", "..", "file.properties"]| ==> '/' !in ["", "alpha", "beta", "two", "..", "file.properties"][i]
    ensures Render(["alpha", "beta"], true) != "" && (Render(["alpha", "beta"], true)[0] == '/' <==> true)
  {
  }

  lemma TestVectorsScan7()
    ensures Resolve([], ["", "alpha", "beta", "two", "..", "file.properties"], true) == ["alpha", "beta"] + ["file.properties"]
  {
  }

  lemma TestVectorsStem7()
    ensures ("file.properties" == "file" + "." + "properties" && '.' !in "properties") || ('.' !in "file.properties" && "file" == "file.properties")
    ensures Normal("file") && Normal("myprop")
    ensures ["alpha", "beta", "file", "myprop"] == ["alpha", "beta"] + ["file", "myprop"]
  {
  }

  lemma TestVectorsElements8()
    ensures ["", "alpha", "beta"] != [] && ["..", "two", "one", ".", "file.properties"] != [] && ["", "alpha", "beta", "..", "two", "one", ".", "file.properties"] == ["", "alpha", "beta"] + ["..", "two", "one", ".", "file.properties"]
    ensures Render(["alpha", "beta"], true) == JoinSegs(["", "alpha", "beta"]) && FileElement(JoinSegs(["..", "two", "one", ".", "file.properties"])) == JoinSegs(["..", "two", "one", ".", "file.properties"])
    ensures forall i :: 0 <= i < |["", "alpha", "beta", "..", "two", "one", ".", "file.properties"]| ==> '/' !in ["", "alpha", "beta", "..", "two", "one", ".", "file.properties"][i]
    ensures Render(["alpha", "beta"], true) != "" && (Render(["alpha", "beta"], true)[0] == '/' <==> true)
  {
  }

  lemma TestVectorsScan8()
    ensures Resolve([], ["", "alpha", "beta", "..", "two", "one", ".", "file.properties"], true) == ["alpha", "two", "one"] + ["file.properties"]
  {
  }

  lemma TestVectorsStem8()
    ensures ("file.properties" == "file" + "." + "properties" && '.' !in "properties") || ('.' !in "file.properties" && "file" == "file.properties")
    ensures Normal("file") && Normal("myprop")
    ensures ["alpha", "two", "one", "file", "myprop"] == ["alpha", "two", "one"] + ["file", "myprop"]
  {
  }

  /** The repository's own test of buildParameterPath. Each path is written as the list
      of its elements, `Render(elems, true)` being the rooted path "/" + the elements
      joined by '/', and `JoinSegs(elems)` the relative one: so the first case reads
      BuildParameterPath("/alpha/beta", "one/file.properties", "myprop") ==
      "/alpha/beta/one/file/myprop", and the fourth, with "../one/file.properties",
      gives "/alpha/one/file/myprop". */
  lemma TestVectors()
    ensures BuildParameterPath(Render(["alpha", "beta"], true), JoinSegs(["one", "file.properties"]), "myprop") == Render(["alpha", "beta", "one", "file", "myprop"], true)
    ensures BuildParameterPath(Render(["alpha", "beta"], true), JoinSegs(["one", "file"]), "myprop") == Render(["alpha", "beta", "one", "file", "myprop"], true)
    ensures BuildParameterPath(Render(["alpha", "beta"], true), JoinSegs([".", "one", "file.properties"]), "myprop") == Render(["alpha", "beta", "one", "file", "myprop"], true)
    ensures BuildParameterPath(Render(["alpha", "beta"], true), JoinSegs(["..", "one", "file.properties"]), "myprop") == Render(["alpha", "one", "file", "myprop"], true)
    ensures BuildParameterPath(Render(["alpha", "beta"], true), JoinSegs(["two", "one", "file.properties"]), "myprop") == Render(["alpha", "beta", "two", "one", "file", "myprop"], true)
    ensures BuildParameterPath(Render(["alpha", "beta"], true), JoinSegs(["two", ".", "file.properties"]), "myprop") == Render(["alpha", "beta", "two", "file", "myprop"], true)
    ensures BuildParameterPath(Render(["alpha", "beta"], true), JoinSegs(["two", "..", "file.properties"]), "myprop") == Render(["alpha", "beta", "file", "myprop"], true)
    ensures BuildParameterPath(Render(["alpha", "beta"], true), JoinSegs(["..", "two", "one", ".", "file.properties"]), "myprop") == Render(["alpha", "two", "one", "file", "myprop"], true)
  {
    TestVectorsElements1();
    TestVectorsScan1();
    TestVectorsStem1();
    TestVectorsElements2();
    TestVectorsScan2();
    TestVectorsStem2();
    TestVectorsElements3();
    TestVectorsScan3();
    TestVectorsStem3();
    TestVectorsElements4();
    TestVectorsScan4();
    TestVectorsStem4();
    TestVectorsElements5();
    TestVectorsScan5();
    TestVectorsStem5();
    TestVectorsElements6();
    TestVectorsScan6();
    TestVectorsStem6();
    TestVectorsElements7();
    TestVectorsScan7();
    TestVectorsStem7();
    TestVectorsElements8();
    TestVectorsScan8();
    TestVectorsStem8();
    Example(Render(["alpha", "beta"], true), JoinSegs(["one", "file.properties"]), "myprop",
            ["", "alpha", "beta"], ["one", "file.properties"], ["", "alpha", "beta", "one", "file.properties"],
            ["alpha", "beta", "one"], "file.properties", "file", "properties", true,
            ["alpha", "beta", "one", "file", "myprop"], Render(["alpha", "beta", "one", "file", "myprop"], true));
    Example(Render(["alpha", "beta"], true), JoinSegs(["one", "file"]), "myprop",
            ["", "alpha", "beta"], ["one", "file"], ["", "alpha", "beta", "one", "file"],
            ["alpha", "beta", "one"], "file", "file", "", true,
            ["alpha", "beta", "one", "file", "myprop"], Render(["alpha", "beta", "one", "file", "myprop"], true));
    Example(Render(["alpha", "beta"], true), JoinSegs([".", "one", "file.properties"]), "myprop",
            ["", "alpha", "beta"], [".", "one", "file.properties"], ["", "alpha", "beta", ".", "one", "file.properties"],
            ["alpha", "beta", "one"], "file.properties", "file", "properties", true,
            ["alpha", "beta", "one", "file", "myprop"], Render(["alpha", "beta", "one", "file", "myprop"], true));
    Example(Render(["alpha", "beta"], true), JoinSegs(["..", "one", "file.properties"]), "myprop",
            ["", "alpha", "beta"], ["..", "one", "file.properties"], ["", "alpha", "beta", "..", "one", "file.properties"],
            ["alpha", "one"], "file.properties", "file", "properties", true,
            ["alpha", "one", "file", "myprop"], Render(["alpha", "one", "file", "myprop"], true));
    Example(Render(["alpha", "beta"], true), JoinSegs(["two", "one", "file.properties"]), "myprop",
            ["", "alpha", "beta"], ["two", "one", "file.properties"], ["", "alpha", "beta", "two", "one", "file.properties"],
            ["alpha", "beta", "two", "one"], "file.properties", "file", "properties", true,
            ["alpha", "beta", "two", "one", "file", "myprop"], Render(["alpha", "beta", "two", "one", "file", "myprop"], true));
    Example(Render(["alpha", "beta"], true), JoinSegs(["two", ".", "file.properties"]), "myprop",
            ["", "alpha", "beta"], ["two", ".", "file.properties"], ["", "alpha", "beta", "two", ".", "file.properties"],
            ["alpha", "beta", "two"], "file.properties", "file", "properties", true,
            ["alpha", "beta", "two", "file", "myprop"], Render(["alpha", "beta", "two", "file", "myprop"], true));
    Example(Render(["alpha", "beta"], true), JoinSegs(["two", "..", "file.properties"]), "myprop",
            ["", "alpha", "beta"], ["two", "..", "file.properties"], ["", "alpha", "beta", "two", "..", "file.properties"],
            ["alpha", "beta"], "file.properties", "file", "properties", true,
            ["alpha", "beta", "file", "myprop"], Render(["alpha", "beta", "file", "myprop"], true));
    Example(Render(["alpha", "beta"], true), JoinSegs(["..", "two", "one", ".", "file.properties"]), "myprop",
            ["", "alpha", "beta"], ["..", "two", "one", ".", "file.properties"], ["", "alpha", "beta", "..", "two", "one", ".", "file.properties"],
            ["alpha", "two", "one"], "file.properties", "file", "properties", true,
            ["alpha", "two", "one", "file", "myprop"], Render(["alpha", "two", "one", "file", "myprop"], true));
  }

  /** How the element lists above read as paths: the prefix of every case of
      TestVectors, the filenames of its first two cases, and the prefixes of
      EdgeCases. */
  lemma LiteralPaths()
    ensures Render(["alpha", "beta"], true) == "/alpha/beta"
    ensures JoinSegs(["one", "file.properties"]) == "one/file.properties"
    ensures JoinSegs(["one", "file"]) == "one/file"
    ensures JoinSegs(["alpha"]) == "alpha" && Render(["alpha"], true) == "/alpha"
  {
  }

  // The element facts and scan results behind EdgeCases, one case each.

  lemma EdgeCasesElements1()
    ensures ["alpha"] != [] && ["file.properties"] != [] && ["alpha", "file.properties"] == ["alpha"] + ["file.properties"]
    ensures FileElement(JoinSegs(["file.properties"])) == JoinSegs(["file.properties"])
    ensures forall i :: 0 <= i < |["alpha", "file.properties"]| ==> '/' !in ["alpha", "file.properties"][i]
    ensures JoinSegs(["alpha"]) != "" && (JoinSegs(["alpha"])[0] == '/' <==> false)
  {
  }

  lemma EdgeCasesScan1()
    ensures Resolve([], ["alpha", "file.properties"], false) == ["alpha"] + ["file.properties"]
  {
  }

  lemma EdgeCasesStem1()
    ensures ("file.properties" == "file" + "." + "properties" && '.' !in "properties") || ('.' !in "file.properties" && "file" == "file.properties")
    ensures Normal("file") && Normal("k")
    ensures ["alpha", "file", "k"] == ["alpha"] + ["file", "k"] && Render(["alpha", "file", "k"], false) == JoinSegs(["alpha", "file", "k"])
  {
  }

  lemma EdgeCasesElements2()
    ensures ["", "alpha"] != [] && ["$"] != [] && ["", "alpha", "$"] == ["", "alpha"] + ["$"]
    ensures Render(["alpha"], true) == JoinSegs(["", "alpha"]) && FileElement("") == JoinSegs(["$"])
    ensures forall i :: 0 <= i < |["", "alpha", "$"]| ==> '/' !in ["", "alpha", "$"][i]
    ensures Render(["alpha"], true) != "" && (Render(["alpha"], true)[0] == '/' <==> true)
  {
  }

  lemma EdgeCasesScan2()
    ensures Resolve([], ["", "alpha", "$"], true) == ["alpha"] + ["$"]
  {
  }

  lemma EdgeCasesStem2()
    ensures ("$" == "$" + "." + "" && '.' !in "") || ('.' !in "$" && "$" == "$")
    ensures Normal("$") && Normal("k")
    ensures ["alpha", "$", "k"] == ["alpha"] + ["$", "k"]
  {
  }

  lemma EdgeCasesElements3()
    ensures ["", "alpha"] != [] && ["f.tar.gz"] != [] && ["", "alpha", "f.tar.gz"] == ["", "alpha"] + ["f.tar.gz"]
    ensures Render(["alpha"], true) == JoinSegs(["", "alpha"]) && FileElement(JoinSegs(["f.tar.gz"])) == JoinSegs(["f.tar.gz"])
    ensures forall i :: 0 <= i < |["", "alpha", "f.tar.gz"]| ==> '/' !in ["", "alpha", "f.tar.gz"][i]
    ensures Render(["alpha"], true) != "" && (Render(["alpha"], true)[0] == '/' <==> true)
  {
  }

  lemma EdgeCasesScan3()
    ensures Resolve([], ["", "alpha", "f.tar.gz"], true) == ["alpha"] + ["f.tar.gz"]
  {
  }

  lemma EdgeCasesStem3()
    ensures ("f.tar.gz" == "f.tar" + "." + "gz" && '.' !in "gz") || ('.' !in "f.tar.gz" && "f.tar" == "f.tar.gz")
    ensures Normal("f.tar") && Normal("k")
    ensures ["alpha", "f.tar", "k"] == ["alpha"] + ["f.tar", "k"]
  {
  }

  /** A relative prefix stays relative ("alpha" and "file.properties" give
      "alpha/file/k"); an empty filename stands for the file element "$" ("/alpha"
      gives "/alpha/$/k"); only the last extension is removed ("f.tar.gz" gives the
      element "f.tar"). */
  lemma EdgeCases()
    ensures BuildParameterPath(JoinSegs(["alpha"]), JoinSegs(["file.properties"]), "k") == JoinSegs(["alpha", "file", "k"])
    ensures BuildParameterPath(Render(["alpha"], true), "", "k") == Render(["alpha", "$", "k"], true)
    ensures BuildParameterPath(Render(["alpha"], true), JoinSegs(["f.tar.gz"]), "k") == Render(["alpha", "f.tar", "k"], true)
  {
    EdgeCasesElements1();
    EdgeCasesScan1();
    EdgeCasesStem1();
    EdgeCasesElements2();
    EdgeCasesScan2();
    EdgeCasesStem2();
    EdgeCasesElements3();
    EdgeCasesScan3();
    EdgeCasesStem3();
    Example(JoinSegs(["alpha"]), JoinSegs(["file.properties"]), "k",
            ["alpha"], ["file.properties"], ["alpha", "file.properties"],
            ["alpha"], "file.properties", "file", "properties", false,
            ["alpha", "file", "k"], JoinSegs(["alpha", "file", "k"]));
    Example(Render(["alpha"], true), "", "k",
            ["", "alpha"], ["$"], ["", "alpha", "$"],
            ["alpha"], "$", "$", "", true,
            ["alpha", "$", "k"], Render(["alpha", "$", "k"], true));
    Example(Render(["alpha"], true), JoinSegs(["f.tar.gz"]), "k",
            ["", "alpha"], ["f.tar.gz"], ["", "alpha", "f.tar.gz"],
            ["alpha"], "f.tar.gz", "f.tar", "gz", true,
            ["alpha", "f.tar", "k"], Render(["alpha", "f.tar", "k"], true));
  }
}
