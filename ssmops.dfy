/** The synchronisation engine of ssmops.go: paging through a parameter path, and
    get, put, clear and delete between local stores and the parameter store. */
module SsmOps {
  import opened Wrappers
  import opened GoStrings
  import opened GoPath
  import opened ParamPath
  import opened ValueCodec
  import opened Kms
  import opened Remote
  import opened FileStores
  import opened Args

  /** The store key suffix under which the KMS key of a secure parameter is kept. */
  const KeyIdSuffix := "_SecureStringKeyId"

  /** CmdContext: the preferences, one store per filename, the parameter store
      client and the alias map. */
  datatype Context = Context(prefs: ParsedArgs, stores: map<string, FileStore>, ssms: ParameterStore, kms: KmsMap)

  // ----- findAllParametersForPath -----

  /** The pages of a listing, one after the other. */
  function Flatten(pages: seq<seq<Parameter>>): seq<Parameter>
  {
    if pages == [] then [] else Flatten(pages[..|pages| - 1]) + pages[|pages| - 1]
  }

  /** Every listed parameter comes from some page, and every page's parameters are listed. */
  lemma {:induction false} FlattenMembers(pages: seq<seq<Parameter>>, p: Parameter)
    ensures p in Flatten(pages) <==> exists i :: 0 <= i < |pages| && p in pages[i]
  {
    if pages != [] {
      var n := |pages| - 1;
      FlattenMembers(pages[..n], p);
      if p in Flatten(pages[..n]) {
        var i :| 0 <= i < n && p in pages[..n][i];
        assert p in pages[i];
      }
      if exists i :: 0 <= i < |pages| && p in pages[i] {
        var i :| 0 <= i < |pages| && p in pages[i];
        if i < n { assert p in pages[..n][i]; }
      }
    }
  }

  /** findAllParametersForPath: the parameters of every page fetched, in order,
      with the error that ended the paging. */
  method FindAllParametersForPath(ctx: Context, paramPath: string) returns (params: seq<Parameter>, err: Option<string>)
    ensures params == Flatten(ctx.ssms.listing(paramPath).pages)
    ensures err == ctx.ssms.listing(paramPath).err
  {
    var pager := ctx.ssms.listing(paramPath);
    params := [];
    for i := 0 to |pager.pages|
      invariant params == Flatten(pager.pages[..i])
    {
      assert pager.pages[..i + 1][..i] == pager.pages[..i];
      var page := pager.pages[i];
      if |page| > 0 {
        params := params + page;
      }
    }
    assert pager.pages[..|pager.pages|] == pager.pages;
    err := pager.err;
  }

  // ----- dictionary writes -----

  /** A run of dictionary writes, and the error that cut it short, if any. */
  datatype Writes = Writes(writes: seq<(string, string)>, err: Option<string>)

  /** The dictionary after the writes, in order. */
  function Overwrite(d: map<string, string>, ws: seq<(string, string)>): map<string, string>
  {
    if ws == [] then d else Overwrite(d, ws[..|ws| - 1])[ws[|ws| - 1].0 := ws[|ws| - 1].1]
  }

  /** The value of the last write to `k`, if any. */
  function LastWrite(ws: seq<(string, string)>, k: string): Option<string>
  {
    if ws == [] then None
    else if ws[|ws| - 1].0 == k then Some(ws[|ws| - 1].1)
    else LastWrite(ws[..|ws| - 1], k)
  }

  lemma {:induction false} OverwriteAppend(d: map<string, string>, a: seq<(string, string)>, b: seq<(string, string)>)
    ensures Overwrite(d, a + b) == Overwrite(Overwrite(d, a), b)
    decreases |b|
  {
    if b == [] {
      assert a + b == a;
    } else {
      assert (a + b)[..|a + b| - 1] == a + b[..|b| - 1];
      OverwriteAppend(d, a, b[..|b| - 1]);
    }
  }

  /** The last write wins; a key never written keeps its entry, or its absence. */
  lemma {:induction false} OverwriteLastWins(d: map<string, string>, ws: seq<(string, string)>, k: string)
    ensures Get(Overwrite(d, ws), k) == OrElse(LastWrite(ws, k), Get(d, k))
  {
    if ws != [] {
      OverwriteLastWins(d, ws[..|ws| - 1], k);
    }
  }

  lemma {:induction false} LastWriteNone(ws: seq<(string, string)>, k: string)
    ensures LastWrite(ws, k).None? <==> forall i :: 0 <= i < |ws| ==> ws[i].0 != k
  {
    if ws != [] {
      LastWriteNone(ws[..|ws| - 1], k);
      assert forall i :: 0 <= i < |ws| - 1 ==> ws[..|ws| - 1][i] == ws[i];
    }
  }

  // ----- getParamsPerPath -----

  /** The filter of the get loop: lists are skipped, secure strings are skipped when
      they are not to be stored, and so is every name not directly under the path. */
  predicate Kept(prefs: ParsedArgs, paramPath: string, p: Parameter)
  {
    !(p.ptype == StringListParam || (prefs.noStoreSecureString && p.ptype == SecureStringParam)) &&
    HasPrefix(p.name, paramPath + "/")
  }

  /** The store key of a parameter: its name without the path and the slash. */
  function StoreKey(paramPath: string, p: Parameter): string
  {
    TrimPrefix(p.name, paramPath + "/")
  }

  /** The sidecar value a description gives: the alias of the first described
      parameter's key, when there is one and it has a KeyId. */
  function SidecarValue(kms: KmsMap, d: Description): Option<string>
  {
    if d.Described? && |d.keyIds| > 0 && d.keyIds[0].Some? then Some(kms.AliasFor(d.keyIds[0].value)) else None
  }

  /** What one parameter of the get loop writes. */
  function ParamWrites(ctx: Context, paramPath: string, p: Parameter): Writes
  {
    if !Kept(ctx.prefs, paramPath, p) then Writes([], None)
    else
      var key := StoreKey(paramPath, p);
      var stored := [(key, Unescape(p.value))];
      if p.ptype != SecureStringParam then Writes(stored, None)
      else
        var d := ctx.ssms.describe(p.name);
        if d.DescribeFailed? then Writes(stored, Some(d.err))
        else
          var sidecar := SidecarValue(ctx.kms, d);
          Writes(stored + (if sidecar.Some? then [(key + KeyIdSuffix, sidecar.value)] else []), None)
  }

  /** What the get loop writes over the listed parameters, stopping at the first
      describe error. */
  function PathWrites(ctx: Context, paramPath: string, params: seq<Parameter>): Writes
  {
    if params == [] then Writes([], None)
    else
      var w := PathWrites(ctx, paramPath, params[..|params| - 1]);
      if w.err.Some? then w
      else
        var s := ParamWrites(ctx, paramPath, params[|params| - 1]);
        Writes(w.writes + s.writes, s.err)
  }

  /** What getParamsPerPath writes: nothing when the listing fails. */
  function PathResult(ctx: Context, paramPath: string): Writes
  {
    var listing := ctx.ssms.listing(paramPath);
    if listing.err.Some? then Writes([], listing.err) else PathWrites(ctx, paramPath, Flatten(listing.pages))
  }

  /** Once a describe error has stopped the loop, later parameters change nothing. */
  lemma {:induction false} PathWritesSticky(ctx: Context, paramPath: string, params: seq<Parameter>, k: nat)
    requires k <= |params|
    requires PathWrites(ctx, paramPath, params[..k]).err.Some?
    ensures PathWrites(ctx, paramPath, params) == PathWrites(ctx, paramPath, params[..k])
    decreases |params| - k
  {
    if k < |params| {
      var n := |params| - 1;
      assert params[..n][..k] == params[..k];
      PathWritesSticky(ctx, paramPath, params[..n], k);
    } else {
      assert params[..k] == params;
    }
  }

  /** One turn of the get loop: the filter, the store write and the sidecar. */
  method GetParam(ctx: Context, paramPath: string, param: Parameter, store: FileStore) returns (err: Option<string>)
    modifies store
    ensures store.disk == old(store.disk)
    ensures store.dict == Overwrite(old(store.dict), ParamWrites(ctx, paramPath, param).writes)
    ensures err == ParamWrites(ctx, paramPath, param).err
  {
    var name := param.name;
    if param.ptype == StringListParam || (ctx.prefs.noStoreSecureString && param.ptype == SecureStringParam) {
      return None;
    }
    if !HasPrefix(name, paramPath + "/") {
      return None;
    }
    var storeKey := TrimPrefix(name, paramPath + "/");
    var value := UnescapeValueAfterGet(param.value);
    ghost var d0 := store.dict;
    store.dict := store.dict[storeKey := value];
    if param.ptype == SecureStringParam {
      var sidecarStoreKey := storeKey + KeyIdSuffix;
      var result := ctx.ssms.describe(name);
      if result.DescribeFailed? {
        return Some(result.err);
      }
      if |result.keyIds| > 0 {
        if result.keyIds[0].Some? {
          var alias := ctx.kms.AliasFor(result.keyIds[0].value);
          store.dict := store.dict[sidecarStoreKey := alias];
          ghost var ws := [(storeKey, value), (sidecarStoreKey, alias)];
          assert ws[..1] == [(storeKey, value)];
          assert Overwrite(d0, ws[..1]) == d0[storeKey := value];
        }
      }
    }
    return None;
  }

  /** getParamsPerPath: the dictionary receives the writes of PathResult, in order;
      the error, if any, is the listing's or the first describe error. */
  method GetParamsPerPath(ctx: Context, paramPath: string, store: FileStore) returns (err: Option<string>)
    modifies store
    ensures store.disk == old(store.disk)
    ensures store.dict == Overwrite(old(store.dict), PathResult(ctx, paramPath).writes)
    ensures err == PathResult(ctx, paramPath).err
  {
    var paramsForPath, findErr := FindAllParametersForPath(ctx, paramPath);
    if findErr.Some? {
      return findErr;
    }
    ghost var d0 := store.dict;
    for i := 0 to |paramsForPath|
      invariant PathWrites(ctx, paramPath, paramsForPath[..i]).err.None?
      invariant store.dict == Overwrite(d0, PathWrites(ctx, paramPath, paramsForPath[..i]).writes)
      invariant store.disk == old(store.disk)
    {
      ghost var before := PathWrites(ctx, paramPath, paramsForPath[..i]).writes;
      assert paramsForPath[..i + 1][..i] == paramsForPath[..i];
      var e := GetParam(ctx, paramPath, paramsForPath[i], store);
      OverwriteAppend(d0, before, ParamWrites(ctx, paramPath, paramsForPath[i]).writes);
      if e.Some? {
        PathWritesSticky(ctx, paramPath, paramsForPath, i + 1);
        return e;
      }
    }
    assert paramsForPath[..|paramsForPath|] == paramsForPath;
    return None;
  }
  /** A write the get loop makes for parameter `p`: its unescaped value under its
      store key, or the alias of its key under the sidecar key. */
  predicate WriteOf(ctx: Context, paramPath: string, p: Parameter, w: (string, string))
  {
    Kept(ctx.prefs, paramPath, p) &&
    (w == (StoreKey(paramPath, p), Unescape(p.value)) ||
     (p.ptype == SecureStringParam &&
      SidecarValue(ctx.kms, ctx.ssms.describe(p.name)).Some? &&
      w == (StoreKey(paramPath, p) + KeyIdSuffix, SidecarValue(ctx.kms, ctx.ssms.describe(p.name)).value)))
  }

  /** A kept parameter's name is the path, a slash and its store key. */
  lemma StoreKeyName(prefs: ParsedArgs, paramPath: string, p: Parameter)
    requires Kept(prefs, paramPath, p)
    ensures paramPath + "/" + StoreKey(paramPath, p) == p.name
  {
  }

  /** Every write of the get loop belongs to one of the listed parameters. */
  lemma {:induction false} PathWritesFrom(ctx: Context, paramPath: string, params: seq<Parameter>, w: (string, string))
    requires w in PathWrites(ctx, paramPath, params).writes
    ensures exists i :: 0 <= i < |params| && WriteOf(ctx, paramPath, params[i], w)
  {
    var n := |params| - 1;
    var prev := PathWrites(ctx, paramPath, params[..n]);
    if prev.err.Some? || w in prev.writes {
      PathWritesFrom(ctx, paramPath, params[..n], w);
      var i :| 0 <= i < n && WriteOf(ctx, paramPath, params[..n][i], w);
      assert params[..n][i] == params[i];
    } else {
      assert WriteOf(ctx, paramPath, params[n], w);
    }
  }

  /** When the get loop ends without error, every kept parameter's value is written
      under its store key, and so is every sidecar a description yields. */
  lemma {:induction false} PathWritesAll(ctx: Context, paramPath: string, params: seq<Parameter>, i: int, w: (string, string))
    requires PathWrites(ctx, paramPath, params).err.None?
    requires 0 <= i < |params| && WriteOf(ctx, paramPath, params[i], w)
    ensures w in PathWrites(ctx, paramPath, params).writes
  {
    var n := |params| - 1;
    var prev := PathWrites(ctx, paramPath, params[..n]);
    assert prev.err.None?;
    if i < n {
      assert params[..n][i] == params[i];
      PathWritesAll(ctx, paramPath, params[..n], i, w);
    }
  }

  /** A parameter is left out of the dictionary exactly when the filter skips it. */
  lemma PathWritesSkipped(ctx: Context, paramPath: string, p: Parameter)
    ensures ParamWrites(ctx, paramPath, p).writes == [] <==> !Kept(ctx.prefs, paramPath, p)
  {
  }

  /** A failed description stops the get loop right after the failing parameter's own
      value is stored: its sidecar and every later parameter are not written. */
  lemma {:induction false} PathWritesError(ctx: Context, paramPath: string, params: seq<Parameter>)
    requires PathWrites(ctx, paramPath, params).err.Some?
    ensures exists i :: 0 <= i < |params| && FailsAt(ctx, paramPath, params, i)
  {
    var n := |params| - 1;
    assert params[..n] + [params[n]] == params;
    if PathWrites(ctx, paramPath, params[..n]).err.Some? {
      PathWritesError(ctx, paramPath, params[..n]);
      var i :| 0 <= i < n && FailsAt(ctx, paramPath, params[..n], i);
      assert params[..n][..i] == params[..i];
      assert params[..n][i] == params[i];
      PathWritesSticky(ctx, paramPath, params, n);
      assert FailsAt(ctx, paramPath, params, i);
    } else {
      assert FailsAt(ctx, paramPath, params, n);
    }
  }

  /** Parameter `i` is a kept secure string whose description fails, no earlier one
      failed, and the writes are those before it and its own stored value. */
  predicate FailsAt(ctx: Context, paramPath: string, params: seq<Parameter>, i: int)
    requires 0 <= i < |params|
  {
    var p := params[i];
    var prev := PathWrites(ctx, paramPath, params[..i]);
    Kept(ctx.prefs, paramPath, p) && p.ptype == SecureStringParam &&
    ctx.ssms.describe(p.name).DescribeFailed? && prev.err.None? &&
    PathWrites(ctx, paramPath, params) ==
      Writes(prev.writes + [(StoreKey(paramPath, p), Unescape(p.value))], Some(ctx.ssms.describe(p.name).err))
  }

  // ----- getParamsPerFile -----

  /** The parameter paths of a file under each prefix, in order. */
  function FilePaths(filename: string, prefixes: seq<string>): seq<string>
  {
    seq(|prefixes|, i requires 0 <= i < |prefixes| => BuildParameterPath(prefixes[i], filename, ""))
  }

  /** What the reads of several paths write, one after the other, stopping at the
      first error. */
  function PathsWrites(ctx: Context, paths: seq<string>): Writes
  {
    if paths == [] then Writes([], None)
    else
      var w := PathsWrites(ctx, paths[..|paths| - 1]);
      if w.err.Some? then w
      else
        var s := PathResult(ctx, paths[|paths| - 1]);
        Writes(w.writes + s.writes, s.err)
  }

  /** What getParamsPerFile writes: the path of each prefix in turn. */
  function FileWrites(ctx: Context, filename: string, prefixes: seq<string>): Writes
  {
    PathsWrites(ctx, FilePaths(filename, prefixes))
  }

  /** getParamsPerFile on a store in state `st`: the writes of every prefix, then a
      save only when no error occurred and the dictionary is not empty. */
  function GetFile(ctx: Context, filename: string, st: FileState): (FileState, Option<string>)
    requires filename in ctx.stores
  {
    var w := FileWrites(ctx, filename, ctx.prefs.prefixes);
    var d := Overwrite(st.dict, w.writes);
    if w.err.Some? then (FileState(d, st.disk), w.err)
    else if |d| == 0 then (FileState(d, st.disk), None)
    else
      var saveError := ctx.stores[filename].saveError;
      (FileState(d, if saveError.None? then Some(d) else st.disk), saveError)
  }

  /** Reading one more path. */
  lemma PathsWritesSnoc(ctx: Context, paths: seq<string>, i: nat)
    requires i < |paths|
    requires PathsWrites(ctx, paths[..i]).err.None?
    ensures PathsWrites(ctx, paths[..i + 1]) ==
      Writes(PathsWrites(ctx, paths[..i]).writes + PathResult(ctx, paths[i]).writes, PathResult(ctx, paths[i]).err)
  {
    assert paths[..i + 1][..i] == paths[..i];
  }

  lemma {:induction false} PathsWritesSticky(ctx: Context, paths: seq<string>, k: nat)
    requires k <= |paths|
    requires PathsWrites(ctx, paths[..k]).err.Some?
    ensures PathsWrites(ctx, paths) == PathsWrites(ctx, paths[..k])
    decreases |paths| - k
  {
    if k < |paths| {
      var n := |paths| - 1;
      assert paths[..n][..k] == paths[..k];
      PathsWritesSticky(ctx, paths[..n], k);
    } else {
      assert paths[..k] == paths;
    }
  }

  /** getParamsPerFile: the store ends as GetFile says. */
  method GetParamsPerFile(ctx: Context, filename: string) returns (err: Option<string>)
    requires filename in ctx.stores
    modifies ctx.stores[filename]
    ensures (ctx.stores[filename].State(), err) == GetFile(ctx, filename, old(ctx.stores[filename].State()))
  {
    var prefixes := ctx.prefs.prefixes;
    var store := ctx.stores[filename];
    ghost var d0 := store.dict;
    ghost var paths := FilePaths(filename, prefixes);
    for i := 0 to |prefixes|
      invariant PathsWrites(ctx, paths[..i]).err.None?
      invariant store.dict == Overwrite(d0, PathsWrites(ctx, paths[..i]).writes)
      invariant store.disk == old(store.disk)
    {
      ghost var before := PathsWrites(ctx, paths[..i]).writes;
      var paramPath := BuildParameterPath(prefixes[i], filename, "");
      PathsWritesSnoc(ctx, paths, i);
      var e := GetParamsPerPath(ctx, paramPath, store);
      OverwriteAppend(d0, before, PathResult(ctx, paramPath).writes);
      if e.Some? {
        PathsWritesSticky(ctx, paths, i + 1);
        return e;
      }
    }
    assert paths[..|paths|] == paths;
    if |store.dict| > 0 {
      err := store.Save();
    } else {
      err := None;
    }
  }

  /** The file is written only after every prefix was read without error and the
      dictionary is not empty, and then it holds the whole dictionary. */
  lemma GetFileSaves(ctx: Context, filename: string, st: FileState)
    requires filename in ctx.stores
    ensures var (st', err) := GetFile(ctx, filename, st);
            var w := FileWrites(ctx, filename, ctx.prefs.prefixes);
            st'.dict == Overwrite(st.dict, w.writes) &&
            (st'.disk != st.disk ==> w.err.None? && |st'.dict| > 0 && st'.disk == Some(st'.dict)) &&
            (w.err.None? && |st'.dict| > 0 && ctx.stores[filename].saveError.None? ==> st'.disk == Some(st'.dict) && err.None?) &&
            (w.err.Some? ==> err == w.err)
  {
  }

  /** A later prefix wins: a key that the last prefix's path writes ends with that
      path's value; any other key keeps what the earlier prefixes left. */
  lemma LaterPrefixWins(ctx: Context, filename: string, prefixes: seq<string>, last: string, d: map<string, string>, k: string)
    requires FileWrites(ctx, filename, prefixes).err.None?
    ensures var own := PathResult(ctx, BuildParameterPath(last, filename, "")).writes;
            Get(Overwrite(d, FileWrites(ctx, filename, prefixes + [last]).writes), k) ==
            OrElse(LastWrite(own, k), Get(Overwrite(d, FileWrites(ctx, filename, prefixes).writes), k))
  {
    var paths := FilePaths(filename, prefixes + [last]);
    assert paths[..|paths| - 1] == FilePaths(filename, prefixes);
    var own := PathResult(ctx, BuildParameterPath(last, filename, "")).writes;
    var prev := FileWrites(ctx, filename, prefixes).writes;
    OverwriteAppend(d, prev, own);
    OverwriteLastWins(Overwrite(d, prev), own, k);
  }

  // ----- putParamsPerFile -----

  /** The request the put loop sends for one key, if any: sidecar keys are skipped,
      and so are keys with a sidecar when secure strings are not to be put. The key
      is secure when it has a sidecar or a KeyId is given for all; the KeyId given
      for all wins over the sidecar's, and either is dereferenced through the alias
      map. */
  function PlanPut(prefs: ParsedArgs, kms: KmsMap, dict: map<string, string>, filename: string, prefix: string, key: string): Option<Request>
    requires key in dict
  {
    if HasSuffix(key, KeyIdSuffix) then None
    else
      var sidecar := key + KeyIdSuffix;
      var hasSidecar := sidecar in dict;
      if hasSidecar && prefs.noPutSecureString then None
      else
        var name := BuildParameterPath(prefix, filename, key);
        var escaped := Escape(dict[key]);
        if |prefs.keyIdPutAll| > 0 then Some(PutRequest(name, escaped, SecureStringParam, Some(kms.Deref(prefs.keyIdPutAll)), prefs.overwritePut))
        else if hasSidecar then Some(PutRequest(name, escaped, SecureStringParam, Some(kms.Deref(dict[sidecar])), prefs.overwritePut))
        else Some(PutRequest(name, escaped, StringParam, None, prefs.overwritePut))
  }

  /** The steps of one turn of the put loop. */
  function KeySteps(prefs: ParsedArgs, kms: KmsMap, dict: map<string, string>, filename: string, prefix: string, key: string): seq<Step>
    requires key in dict
  {
    var r := PlanPut(prefs, kms, dict, filename, prefix, key);
    if r.Some? then [Issue(r.value)] else []
  }

  /** The steps of the put loop over the keys in the order visited. */
  function PutSteps(prefs: ParsedArgs, kms: KmsMap, dict: map<string, string>, filename: string, prefix: string, order: seq<string>): seq<Step>
    requires forall k :: k in order ==> k in dict
  {
    if order == [] then []
    else PutSteps(prefs, kms, dict, filename, prefix, order[..|order| - 1]) + KeySteps(prefs, kms, dict, filename, prefix, order[|order| - 1])
  }

  predicate Distinct(s: seq<string>)
  {
    forall i, j :: 0 <= i < j < |s| ==> s[i] != s[j]
  }

  /** `order` visits every key of `d` once: an order Go's map iteration may take. */
  ghost predicate IsKeyOrder(order: seq<string>, d: map<string, string>)
  {
    Distinct(order) && forall k :: k in order <==> k in d
  }

  /** Which keys are put, and how. */
  lemma PlanPutSends(prefs: ParsedArgs, kms: KmsMap, dict: map<string, string>, filename: string, prefix: string, key: string)
    requires key in dict
    ensures var r := PlanPut(prefs, kms, dict, filename, prefix, key);
            var hasSidecar := key + KeyIdSuffix in dict;
            (r.Some? <==> !HasSuffix(key, KeyIdSuffix) && !(hasSidecar && prefs.noPutSecureString)) &&
            (r.Some? ==>
              r.value.PutRequest? &&
              r.value.name == BuildParameterPath(prefix, filename, key) &&
              Unescape(r.value.value) == dict[key] && r.value.value != "" &&
              r.value.overwrite == prefs.overwritePut &&
              (r.value.ptype == SecureStringParam <==> hasSidecar || |prefs.keyIdPutAll| > 0) &&
              (r.value.ptype != SecureStringParam ==> r.value.ptype == StringParam && r.value.keyId == None) &&
              (r.value.ptype == SecureStringParam ==>
                r.value.keyId == Some(kms.Deref(if |prefs.keyIdPutAll| > 0 then prefs.keyIdPutAll else dict[key + KeyIdSuffix]))))
  {
    UnescapeEscape(dict[key]);
    EscapeNonEmpty(dict[key]);
  }

  /** Put, then get: the parameter put sends for a key, listed under the same
      prefix and file, is stored back under that key with the key's value, unless
      get skips it as a secure string not to be stored. The key must be a single
      normal path element, and the file's path neither "." nor "/". */
  lemma PutThenGet(putPrefs: ParsedArgs, ctx: Context, dict: map<string, string>, filename: string, prefix: string, key: string)
    requires key in dict && Normal(key)
    requires BuildParameterPath(prefix, filename, "") != "." && BuildParameterPath(prefix, filename, "") != "/"
    requires PlanPut(putPrefs, ctx.kms, dict, filename, prefix, key).Some?
    ensures var req := PlanPut(putPrefs, ctx.kms, dict, filename, prefix, key).value;
            var path := BuildParameterPath(prefix, filename, "");
            var p := Parameter(req.name, req.ptype, req.value);
            (Kept(ctx.prefs, path, p) <==> !(ctx.prefs.noStoreSecureString && req.ptype == SecureStringParam)) &&
            (Kept(ctx.prefs, path, p) ==> |ParamWrites(ctx, path, p).writes| > 0 && ParamWrites(ctx, path, p).writes[0] == (key, dict[key]))
  {
    PlanPutSends(putPrefs, ctx.kms, dict, filename, prefix, key);
    KeyRoundTrip(prefix, filename, key);
  }

  /** The outcome of the put loop over the keys visited so far. */
  function PutRun(ctx: Context, dict: map<string, string>, filename: string, prefix: string, params: map<string, Stored>, order: seq<string>): Outcome
    requires forall k :: k in order ==> k in dict
  {
    Run(ctx.ssms.refused, params, PutSteps(ctx.prefs, ctx.kms, dict, filename, prefix, order))
  }

  /** One more key, after the keys before it went through. */
  lemma PutRunSnoc(ctx: Context, dict: map<string, string>, filename: string, prefix: string, params: map<string, Stored>, order: seq<string>, key: string)
    requires forall k :: k in order ==> k in dict
    requires key in dict
    requires PutRun(ctx, dict, filename, prefix, params, order).err.None?
    ensures var o := PutRun(ctx, dict, filename, prefix, params, order);
            var o2 := Run(ctx.ssms.refused, o.params, KeySteps(ctx.prefs, ctx.kms, dict, filename, prefix, key));
            PutRun(ctx, dict, filename, prefix, params, order + [key]) == Outcome(o.sent + o2.sent, o2.params, o2.err)
  {
    assert (order + [key])[..|order|] == order;
    RunThen(ctx.ssms.refused, params, PutSteps(ctx.prefs, ctx.kms, dict, filename, prefix, order), KeySteps(ctx.prefs, ctx.kms, dict, filename, prefix, key));
  }

  /** One turn of the put loop, for one key of the store, after the keys before it
      went through. */
  method PutKey(ctx: Context, store: FileStore, filename: string, prefix: string, key: string,
                ghost order: seq<string>, ghost params0: map<string, Stored>, ghost log0: seq<Request>)
      returns (err: Option<string>)
    requires key in store.dict && forall k :: k in order ==> k in store.dict
    requires PutRun(ctx, store.dict, filename, prefix, params0, order).err.None?
    requires ctx.ssms.log == log0 + PutRun(ctx, store.dict, filename, prefix, params0, order).sent
    requires ctx.ssms.params == PutRun(ctx, store.dict, filename, prefix, params0, order).params
    modifies ctx.ssms
    ensures ctx.ssms.log == log0 + PutRun(ctx, store.dict, filename, prefix, params0, order + [key]).sent
    ensures ctx.ssms.params == PutRun(ctx, store.dict, filename, prefix, params0, order + [key]).params
    ensures err == PutRun(ctx, store.dict, filename, prefix, params0, order + [key]).err
  {
    ghost var mid := ctx.ssms.params;
    err := PutValue(ctx, store, filename, prefix, key);
    PutRunSnoc(ctx, store.dict, filename, prefix, params0, order, key);
    ghost var sentBefore := PutRun(ctx, store.dict, filename, prefix, params0, order).sent;
    ghost var sentNow := Run(ctx.ssms.refused, mid, KeySteps(ctx.prefs, ctx.kms, store.dict, filename, prefix, key)).sent;
    LogAssoc(log0, sentBefore, sentNow);
  }

  /** The body of the put loop for one key: skip it, or send its PutParameter request. */
  method PutValue(ctx: Context, store: FileStore, filename: string, prefix: string, key: string) returns (err: Option<string>)
    requires key in store.dict
    modifies ctx.ssms
    ensures var o := Run(ctx.ssms.refused, old(ctx.ssms.params), KeySteps(ctx.prefs, ctx.kms, store.dict, filename, prefix, key));
            ctx.ssms.log == old(ctx.ssms.log) + o.sent && ctx.ssms.params == o.params && err == o.err
  {
    var value := store.dict[key];
    if HasSuffix(key, KeyIdSuffix) {
      return None;
    }
    var sidecarKeyId := key + KeyIdSuffix;
    var name := BuildParameterPath(prefix, filename, key);
    var isSecure := sidecarKeyId in store.dict;
    var keyId := if isSecure then store.dict[sidecarKeyId] else "";
    if isSecure && ctx.prefs.noPutSecureString {
      return None;
    }
    if |ctx.prefs.keyIdPutAll| > 0 {
      isSecure := true;
      keyId := ctx.prefs.keyIdPutAll;
    }
    keyId := ctx.kms.Deref(keyId);
    var escaped := EscapeValueBeforePut(value);
    var input: Request;
    if isSecure {
      input := PutRequest(name, escaped, SecureStringParam, Some(keyId), ctx.prefs.overwritePut);
    } else {
      input := PutRequest(name, escaped, StringParam, None, ctx.prefs.overwritePut);
    }
    err := ctx.ssms.Send(input);
  }

  /** The steps of putParamsPerFile: the clear first when clear-on-put is set, then
      the put loop. */
  function PutFileSteps(ctx: Context, dict: map<string, string>, filename: string, prefix: string, order: seq<string>): seq<Step>
    requires forall k :: k in order ==> k in dict
  {
    (if ctx.prefs.clearOnPut then ClearSteps(ctx, filename, prefix) else []) +
    PutSteps(ctx.prefs, ctx.kms, dict, filename, prefix, order)
  }

  /** The loop of putParamsPerFile over the store's keys, in the order Go's map
      iteration takes; the ghost `order` names the keys visited, which are all of
      them unless a request was refused. */
  method PutLoop(ctx: Context, store: FileStore, filename: string, prefix: string) returns (err: Option<string>, ghost order: seq<string>)
    modifies ctx.ssms
    ensures Distinct(order) && forall k :: k in order ==> k in store.dict
    ensures err.None? ==> IsKeyOrder(order, store.dict)
    ensures ctx.ssms.log == old(ctx.ssms.log) + PutRun(ctx, store.dict, filename, prefix, old(ctx.ssms.params), order).sent
    ensures ctx.ssms.params == PutRun(ctx, store.dict, filename, prefix, old(ctx.ssms.params), order).params
    ensures err == PutRun(ctx, store.dict, filename, prefix, old(ctx.ssms.params), order).err
  {
    order := [];
    assert old(ctx.ssms.log) + [] == old(ctx.ssms.log);
    var remaining := store.dict.Keys;
    while remaining != {}
      invariant remaining <= store.dict.Keys
      invariant Distinct(order) && forall k :: k in order <==> k in store.dict && k !in remaining
      invariant PutRun(ctx, store.dict, filename, prefix, old(ctx.ssms.params), order).err.None?
      invariant ctx.ssms.log == old(ctx.ssms.log) + PutRun(ctx, store.dict, filename, prefix, old(ctx.ssms.params), order).sent
      invariant ctx.ssms.params == PutRun(ctx, store.dict, filename, prefix, old(ctx.ssms.params), order).params
      decreases |remaining|
    {
      var key :| key in remaining;
      remaining := remaining - {key};
      err := PutKey(ctx, store, filename, prefix, key, order, old(ctx.ssms.params), old(ctx.ssms.log));
      order := order + [key];
      if err.Some? {
        return;
      }
    }
    err := None;
  }

  /** The outcome of putParamsPerFile from the parameters `params`, visiting the
      keys in `order`: the clear (when clear-on-put is set) and, unless it failed,
      the puts from the state it left. */
  function FileRun(ctx: Context, dict: map<string, string>, filename: string, prefix: string, params: map<string, Stored>, order: seq<string>): Outcome
    requires forall k :: k in order ==> k in dict
  {
    if !ctx.prefs.clearOnPut then PutRun(ctx, dict, filename, prefix, params, order)
    else
      var c := ClearRun(ctx, filename, prefix, params);
      if c.err.Some? then c
      else
        var p := PutRun(ctx, dict, filename, prefix, c.params, order);
        Outcome(c.sent + p.sent, p.params, p.err)
  }

  /** The outcome is that of carrying out the steps of putParamsPerFile. */
  lemma FileRunSteps(ctx: Context, dict: map<string, string>, filename: string, prefix: string, params: map<string, Stored>, order: seq<string>)
    requires forall k :: k in order ==> k in dict
    ensures FileRun(ctx, dict, filename, prefix, params, order) == Run(ctx.ssms.refused, params, PutFileSteps(ctx, dict, filename, prefix, order))
  {
    var puts := PutSteps(ctx.prefs, ctx.kms, dict, filename, prefix, order);
    if ctx.prefs.clearOnPut {
      RunAppend(ctx.ssms.refused, params, ClearSteps(ctx, filename, prefix), puts);
    } else {
      assert PutFileSteps(ctx, dict, filename, prefix, order) == puts;
    }
  }

  /** A put loop that ended without error sent the planned request of every key it
      visited. */
  lemma {:induction false} PutRunSendsPlanned(ctx: Context, dict: map<string, string>, filename: string, prefix: string,
                                              params: map<string, Stored>, order: seq<string>, key: string)
    requires forall k :: k in order ==> k in dict
    requires PutRun(ctx, dict, filename, prefix, params, order).err.None?
    requires key in order && PlanPut(ctx.prefs, ctx.kms, dict, filename, prefix, key).Some?
    ensures PlanPut(ctx.prefs, ctx.kms, dict, filename, prefix, key).value in PutRun(ctx, dict, filename, prefix, params, order).sent
    decreases |order|
  {
    var n := |order| - 1;
    var a := PutSteps(ctx.prefs, ctx.kms, dict, filename, prefix, order[..n]);
    var b := KeySteps(ctx.prefs, ctx.kms, dict, filename, prefix, order[n]);
    RunAppend(ctx.ssms.refused, params, a, b);
    var o := Run(ctx.ssms.refused, params, a);
    if order[n] == key {
      var req := PlanPut(ctx.prefs, ctx.kms, dict, filename, prefix, key).value;
      assert b == [Issue(req)];
      assert b[1..] == [];
    } else {
      InInit(order, key);
      PutRunSendsPlanned(ctx, dict, filename, prefix, params, order[..n], key);
    }
  }

  /** A key that is not the last of the order is among the ones before it. */
  lemma InInit(order: seq<string>, key: string)
    requires key in order && order[|order| - 1] != key
    ensures key in order[..|order| - 1]
  {
    var i :| 0 <= i < |order| && order[i] == key;
    assert order[..|order| - 1][i] == key;
  }

  /** A putParamsPerFile that ended without error sent the planned request of every
      key of the store. */
  lemma FileRunSendsPlanned(ctx: Context, dict: map<string, string>, filename: string, prefix: string,
                            params: map<string, Stored>, order: seq<string>, key: string)
    requires IsKeyOrder(order, dict)
    requires FileRun(ctx, dict, filename, prefix, params, order).err.None?
    requires key in dict && PlanPut(ctx.prefs, ctx.kms, dict, filename, prefix, key).Some?
    ensures PlanPut(ctx.prefs, ctx.kms, dict, filename, prefix, key).value in FileRun(ctx, dict, filename, prefix, params, order).sent
  {
    if ctx.prefs.clearOnPut {
      PutRunSendsPlanned(ctx, dict, filename, prefix, ClearRun(ctx, filename, prefix, params).params, order, key);
    } else {
      PutRunSendsPlanned(ctx, dict, filename, prefix, params, order, key);
    }
  }

  /** putParamsPerFile. */
  method PutParamsPerFile(ctx: Context, filename: string, prefix: string) returns (err: Option<string>, ghost order: seq<string>)
    requires filename in ctx.stores
    modifies ctx.ssms
    ensures Distinct(order) && forall k :: k in order ==> k in ctx.stores[filename].dict
    ensures err.None? ==> IsKeyOrder(order, ctx.stores[filename].dict)
    ensures ctx.ssms.log == old(ctx.ssms.log) + FileRun(ctx, ctx.stores[filename].dict, filename, prefix, old(ctx.ssms.params), order).sent
    ensures ctx.ssms.params == FileRun(ctx, ctx.stores[filename].dict, filename, prefix, old(ctx.ssms.params), order).params
    ensures err == FileRun(ctx, ctx.stores[filename].dict, filename, prefix, old(ctx.ssms.params), order).err
  {
    var store := ctx.stores[filename];
    if ctx.prefs.clearOnPut {
      err := ClearParamsPerFile(ctx, filename, prefix);
      if err.Some? {
        order := [];
        return;
      }
    }
    ghost var params1 := ctx.ssms.params;
    err, order := PutLoop(ctx, store, filename, prefix);
    if ctx.prefs.clearOnPut {
      ghost var cleared := ClearRun(ctx, filename, prefix, old(ctx.ssms.params)).sent;
      ghost var put := PutRun(ctx, store.dict, filename, prefix, params1, order).sent;
      LogAssoc(old(ctx.ssms.log), cleared, put);
    }
  }

  // ----- batched deletes -----

  /** The number of batches of ten for `count` names: one more than the full batches. */
  function Batches(count: nat): nat
  {
    count / 10 + 1
  }

  lemma BatchBounds(count: nat, b: nat)
    requires b < Batches(count)
    ensures 10 * b <= count
    ensures b + 1 < Batches(count) ==> 10 * (b + 1) <= count
  {
  }

  /** Batch `b` of the names: ten names, or all that remain for the last batch. */
  function Chunk(names: seq<string>, count: nat, b: nat): seq<string>
    requires count <= |names| && b < Batches(count)
  {
    BatchBounds(count, b);
    if b + 1 < Batches(count) then names[10 * b..10 * (b + 1)] else names[10 * b..]
  }

  /** The first `b` batches. */
  function ChunksBefore(names: seq<string>, count: nat, b: nat): seq<seq<string>>
    requires count <= |names| && b <= Batches(count)
  {
    if b == 0 then [] else ChunksBefore(names, count, b - 1) + [Chunk(names, count, b - 1)]
  }

  function Chunks(names: seq<string>, count: nat): seq<seq<string>>
    requires count <= |names|
  {
    ChunksBefore(names, count, Batches(count))
  }

  /** A DeleteParameters request for every non-empty batch. */
  function DeleteSteps(chunks: seq<seq<string>>): seq<Step>
  {
    if chunks == [] then []
    else DeleteSteps(chunks[..|chunks| - 1]) + (if chunks[|chunks| - 1] != [] then [Issue(DeleteRequest(chunks[|chunks| - 1]))] else [])
  }

  /** The requests the batching loop sends for `names`, with `count` deciding the
      number of batches. */
  function BatchSteps(names: seq<string>, count: nat): seq<Step>
    requires count <= |names|
  {
    DeleteSteps(Chunks(names, count))
  }

  lemma {:induction false} DeleteStepsAppend(a: seq<seq<string>>, b: seq<seq<string>>)
    ensures DeleteSteps(a + b) == DeleteSteps(a) + DeleteSteps(b)
    decreases |b|
  {
    if b == [] {
      assert a + b == a;
    } else {
      assert (a + b)[..|a + b| - 1] == a + b[..|b| - 1];
      DeleteStepsAppend(a, b[..|b| - 1]);
    }
  }

  lemma {:induction false} ChunksBeforePrefix(names: seq<string>, count: nat, b: nat, n: nat)
    requires count <= |names| && b <= n <= Batches(count)
    ensures |ChunksBefore(names, count, n)| == n
    ensures ChunksBefore(names, count, n)[..b] == ChunksBefore(names, count, b)
    decreases n
  {
    if n > b {
      ChunksBeforePrefix(names, count, b, n - 1);
      assert ChunksBefore(names, count, n)[..n - 1] == ChunksBefore(names, count, n - 1);
    } else if n > 0 {
      ChunksBeforePrefix(names, count, n - 1, n - 1);
    }
  }

  /** The batches up to `b` are where the batching loop begins. */
  lemma ChunkStepsPrefix(names: seq<string>, count: nat, b: nat)
    requires count <= |names| && b <= Batches(count)
    ensures |Chunks(names, count)| == Batches(count)
    ensures BatchSteps(names, count) ==
            DeleteSteps(ChunksBefore(names, count, b)) + DeleteSteps(Chunks(names, count)[b..])
  {
    var cs := Chunks(names, count);
    ChunksBeforePrefix(names, count, b, Batches(count));
    assert cs == cs[..b] + cs[b..];
    DeleteStepsAppend(cs[..b], cs[b..]);
  }

  /** One more batch. */
  lemma ChunkStep(names: seq<string>, count: nat, b: nat)
    requires count <= |names| && b < Batches(count)
    ensures DeleteSteps(ChunksBefore(names, count, b + 1)) ==
            DeleteSteps(ChunksBefore(names, count, b)) +
            (if Chunk(names, count, b) != [] then [Issue(DeleteRequest(Chunk(names, count, b)))] else [])
  {
    var cs := ChunksBefore(names, count, b + 1);
    assert cs[..|cs| - 1] == ChunksBefore(names, count, b);
  }

  /** One batch: a request when the batch is not empty. */
  method SendBatch(ssms: ParameterStore, input: seq<string>) returns (err: Option<string>)
    modifies ssms
    ensures var o := Run(ssms.refused, old(ssms.params), if input != [] then [Issue(DeleteRequest(input))] else []);
            ssms.log == old(ssms.log) + o.sent && ssms.params == o.params && err == o.err
  {
    if |input| > 0 {
      err := ssms.Send(DeleteRequest(input));
    } else {
      err := None;
    }
  }

  /** The outcome of the first `b` batches. */
  function BatchesRun(refused: set<string>, params: map<string, Stored>, names: seq<string>, count: nat, b: nat): Outcome
    requires count <= |names| && b <= Batches(count)
  {
    Run(refused, params, DeleteSteps(ChunksBefore(names, count, b)))
  }

  /** Batch `b` of the batching loop, after the earlier batches went through. */
  method SendNextBatch(ssms: ParameterStore, names: seq<string>, count: nat, b: nat, ghost params0: map<string, Stored>, ghost log0: seq<Request>)
      returns (err: Option<string>)
    requires count <= |names| && b < Batches(count)
    requires BatchesRun(ssms.refused, params0, names, count, b).err.None?
    requires ssms.log == log0 + BatchesRun(ssms.refused, params0, names, count, b).sent
    requires ssms.params == BatchesRun(ssms.refused, params0, names, count, b).params
    modifies ssms
    ensures ssms.log == log0 + BatchesRun(ssms.refused, params0, names, count, b + 1).sent
    ensures ssms.params == BatchesRun(ssms.refused, params0, names, count, b + 1).params
    ensures err == BatchesRun(ssms.refused, params0, names, count, b + 1).err
  {
    BatchBounds(count, b);
    var batches := count / 10 + 1;
    var input: seq<string>;
    if b + 1 < batches {
      input := names[10 * b..10 * (b + 1)];
    } else {
      input := names[10 * b..];
    }
    assert Chunk(names, count, b) == input;
    ChunkStep(names, count, b);
    ghost var step := if input != [] then [Issue(DeleteRequest(input))] else [];
    ghost var sentBefore := BatchesRun(ssms.refused, params0, names, count, b).sent;
    RunThen(ssms.refused, params0, DeleteSteps(ChunksBefore(names, count, b)), step);
    ghost var mid := ssms.params;
    err := SendBatch(ssms, input);
    LogAssoc(log0, sentBefore, Run(ssms.refused, mid, step).sent);
  }

  /** A failed batch ends the batching loop. */
  lemma BatchesStop(refused: set<string>, params: map<string, Stored>, names: seq<string>, count: nat, b: nat)
    requires count <= |names| && b <= Batches(count)
    requires BatchesRun(refused, params, names, count, b).err.Some?
    ensures Run(refused, params, BatchSteps(names, count)) == BatchesRun(refused, params, names, count, b)
  {
    ChunkStepsPrefix(names, count, b);
    RunStops(refused, params, DeleteSteps(ChunksBefore(names, count, b)), DeleteSteps(Chunks(names, count)[b..]));
  }

  /** The batching loop of clearParamsPerFile and deleteParamsPerFile. */
  method SendBatches(ssms: ParameterStore, names: seq<string>, count: nat) returns (err: Option<string>)
    requires count <= |names|
    modifies ssms
    ensures var o := Run(ssms.refused, old(ssms.params), BatchSteps(names, count));
            ssms.log == old(ssms.log) + o.sent && ssms.params == o.params && err == o.err
  {
    var batches := count / 10 + 1;
    assert old(ssms.log) + [] == old(ssms.log);
    for b := 0 to batches
      invariant BatchesRun(ssms.refused, old(ssms.params), names, count, b).err.None?
      invariant ssms.log == old(ssms.log) + BatchesRun(ssms.refused, old(ssms.params), names, count, b).sent
      invariant ssms.params == BatchesRun(ssms.refused, old(ssms.params), names, count, b).params
    {
      err := SendNextBatch(ssms, names, count, b, old(ssms.params), old(ssms.log));
      if err.Some? {
        BatchesStop(ssms.refused, old(ssms.params), names, count, b + 1);
        return;
      }
    }
    err := None;
  }

  // ----- clearParamsPerFile -----

  /** The names of the listed parameters, in order. */
  function Names(params: seq<Parameter>): (r: seq<string>)
    ensures |r| == |params| && forall i :: 0 <= i < |params| ==> r[i] == params[i].name
  {
    if params == [] then [] else Names(params[..|params| - 1]) + [params[|params| - 1].name]
  }

  /** The steps of clearing the parameters a listing found: stop on a failed
      listing, otherwise delete every listed name in batches. */
  function ListedClearSteps(listing: Listing): seq<Step>
  {
    if listing.err.Some? then [Abort(listing.err.value)]
    else
      var params := Flatten(listing.pages);
      BatchSteps(Names(params), |params|)
  }

  /** The steps of clearParamsPerFile: those for the listing of the file's path. */
  function ClearSteps(ctx: Context, filename: string, prefix: string): seq<Step>
  {
    ListedClearSteps(ctx.ssms.listing(BuildParameterPath(prefix, filename, "")))
  }

  /** The outcome of clearParamsPerFile from the parameters `params`. */
  function ClearRun(ctx: Context, filename: string, prefix: string, params: map<string, Stored>): Outcome
  {
    Run(ctx.ssms.refused, params, ClearSteps(ctx, filename, prefix))
  }

  /** clearParamsPerFile. */
  method ClearParamsPerFile(ctx: Context, filename: string, prefix: string) returns (err: Option<string>)
    modifies ctx.ssms
    ensures ctx.ssms.log == old(ctx.ssms.log) + ClearRun(ctx, filename, prefix, old(ctx.ssms.params)).sent
    ensures ctx.ssms.params == ClearRun(ctx, filename, prefix, old(ctx.ssms.params)).params
    ensures err == ClearRun(ctx, filename, prefix, old(ctx.ssms.params)).err
  {
    var paramPath := BuildParameterPath(prefix, filename, "");
    err := ClearPath(ctx, paramPath);
  }

  /** The body of clearParamsPerFile once the path is built: list, then delete the
      listed names in batches. */
  method ClearPath(ctx: Context, paramPath: string) returns (err: Option<string>)
    modifies ctx.ssms
    ensures var o := Run(ctx.ssms.refused, old(ctx.ssms.params), ListedClearSteps(ctx.ssms.listing(paramPath)));
            ctx.ssms.log == old(ctx.ssms.log) + o.sent && ctx.ssms.params == o.params && err == o.err
  {
    var params, findErr := FindAllParametersForPath(ctx, paramPath);
    if findErr.Some? {
      return findErr;
    }
    var names := ListNames(params);
    err := SendBatches(ctx.ssms, names, |params|);
  }

  /** The names of the listed parameters, copied into a slice of their count. */
  method ListNames(params: seq<Parameter>) returns (r: seq<string>)
    ensures r == Names(params)
  {
    var count := |params|;
    var names := new string[count];
    var i := 0;
    while i < count
      invariant 0 <= i <= count
      invariant names[..i] == Names(params)[..i]
    {
      names[i] := params[i].name;
      i := i + 1;
    }
    assert names[..] == Names(params)[..count];
    r := names[..];
  }

  // ----- what the batching loop sends -----

  /** The batches, one after the other. */
  function Concat(chunks: seq<seq<string>>): seq<string>
  {
    if chunks == [] then [] else Concat(chunks[..|chunks| - 1]) + chunks[|chunks| - 1]
  }

  /** The names of the DeleteParameters requests of a plan, one after the other. */
  function DeletedNames(steps: seq<Step>): seq<string>
  {
    if steps == [] then []
    else
      var last := steps[|steps| - 1];
      DeletedNames(steps[..|steps| - 1]) + (if last.Issue? && last.req.DeleteRequest? then last.req.names else [])
  }

  /** Every step is a DeleteParameters request with between one and ten names, as
      the store accepts. */
  predicate SizedDeletes(steps: seq<Step>)
  {
    forall i :: 0 <= i < |steps| ==>
      steps[i].Issue? && steps[i].req.DeleteRequest? && 1 <= |steps[i].req.names| <= MaxDeleteNames
  }

  lemma ConcatSnoc(chunks: seq<seq<string>>, chunk: seq<string>)
    ensures Concat(chunks + [chunk]) == Concat(chunks) + chunk
  {
    assert (chunks + [chunk])[..|chunks|] == chunks;
  }

  lemma {:induction false} ConcatBefore(names: seq<string>, count: nat, b: nat)
    requires count <= |names| && b < Batches(count)
    ensures 10 * b <= |names|
    ensures Concat(ChunksBefore(names, count, b)) == names[..10 * b]
    decreases b
  {
    BatchBounds(count, b);
    if b == 0 {
      assert ChunksBefore(names, count, 0) == [] && names[..0] == [];
    } else {
      ConcatBefore(names, count, b - 1);
      var init := ChunksBefore(names, count, b - 1);
      var last := ChunksBeforeLast(names, count, b);
      ConcatSnoc(init, last);
      SliceJoin(names, 10 * (b - 1), 10 * b);
    }
  }

  /** Before the last batch, batch b - 1 is ten names. */
  lemma ChunksBeforeLast(names: seq<string>, count: nat, b: nat) returns (last: seq<string>)
    requires count <= |names| && 0 < b < Batches(count)
    ensures 10 * b <= |names| && last == names[10 * (b - 1)..10 * b]
    ensures ChunksBefore(names, count, b) == ChunksBefore(names, count, b - 1) + [last]
  {
    BatchBounds(count, b);
    BatchBounds(count, b - 1);
    last := names[10 * (b - 1)..10 * b];
  }

  lemma SliceJoin(names: seq<string>, lo: nat, hi: nat)
    requires lo <= hi <= |names|
    ensures names[..lo] + names[lo..hi] == names[..hi]
  {
  }

  /** The batches cover the names, in order, whatever `count` is. */
  lemma ChunksConcat(names: seq<string>, count: nat)
    requires count <= |names|
    ensures Concat(Chunks(names, count)) == names
  {
    var b := Batches(count) - 1;
    ConcatBefore(names, count, b);
    var cs := Chunks(names, count);
    assert cs[..|cs| - 1] == ChunksBefore(names, count, b);
    assert names[..10 * b] + names[10 * b..] == names;
  }

  lemma {:induction false} DeletedNamesOfChunks(chunks: seq<seq<string>>)
    ensures DeletedNames(DeleteSteps(chunks)) == Concat(chunks)
    decreases |chunks|
  {
    if chunks != [] {
      var init := chunks[..|chunks| - 1];
      var last := chunks[|chunks| - 1];
      DeletedNamesOfChunks(init);
      if last != [] {
        var steps := DeleteSteps(chunks);
        assert steps[..|steps| - 1] == DeleteSteps(init);
      } else {
        assert DeleteSteps(chunks) == DeleteSteps(init) + [];
        assert DeleteSteps(init) + [] == DeleteSteps(init);
        assert Concat(init) + last == Concat(init);
      }
    }
  }

  /** The batching loop sends every one of `names`, in order, whatever `count` is. */
  lemma BatchStepsCover(names: seq<string>, count: nat)
    requires count <= |names|
    ensures DeletedNames(BatchSteps(names, count)) == names
  {
    DeletedNamesOfChunks(Chunks(names, count));
    ChunksConcat(names, count);
  }

  /** The size of batch `b`: ten, except the last, which holds what remains. */
  lemma ChunkSize(names: seq<string>, count: nat, b: nat)
    requires count <= |names| && b < Batches(count)
    ensures b + 1 < Batches(count) ==> |Chunk(names, count, b)| == 10
    ensures b + 1 == Batches(count) ==> |Chunk(names, count, b)| == |names| - 10 * (count / 10)
  {
    BatchBounds(count, b);
  }

  lemma {:induction false} ChunksBeforeIndex(names: seq<string>, count: nat, n: nat, i: nat)
    requires count <= |names| && i < n <= Batches(count)
    ensures |ChunksBefore(names, count, n)| == n && ChunksBefore(names, count, n)[i] == Chunk(names, count, i)
    decreases n
  {
    ChunksBeforePrefix(names, count, n - 1, n);
    if i < n - 1 {
      ChunksBeforeIndex(names, count, n - 1, i);
    }
  }

  lemma {:induction false} DeleteStepsSized(chunks: seq<seq<string>>)
    requires forall i :: 0 <= i < |chunks| ==> |chunks[i]| <= MaxDeleteNames
    ensures SizedDeletes(DeleteSteps(chunks))
    decreases |chunks|
  {
    if chunks != [] {
      var init := chunks[..|chunks| - 1];
      assert forall i :: 0 <= i < |init| ==> init[i] == chunks[i];
      DeleteStepsSized(init);
    }
  }

  /** When `count` is the number of names, no batch holds more than ten names, so
      every request is one the store accepts unless it names a refused parameter. */
  lemma BatchStepsSized(names: seq<string>)
    ensures SizedDeletes(BatchSteps(names, |names|))
  {
    var cs := Chunks(names, |names|);
    ChunkStepsPrefix(names, |names|, 0);
    forall i | 0 <= i < |cs| ensures |cs[i]| <= MaxDeleteNames {
      ChunksBeforeIndex(names, |names|, Batches(|names|), i);
      ChunkSize(names, |names|, i);
    }
    DeleteStepsSized(cs);
  }

  // ----- deleteParamsPerFile -----

  /** The parameter names of the keys in `order`. */
  function KeyNames(filename: string, prefix: string, order: seq<string>): seq<string>
  {
    if order == [] then []
    else KeyNames(filename, prefix, order[..|order| - 1]) + [BuildParameterPath(prefix, filename, order[|order| - 1])]
  }

  /** The names of the store's keys, in the order Go's map iteration takes: the
      ghost `order` visits every key once. */
  method KeyNameList(store: FileStore, filename: string, prefix: string) returns (names: seq<string>, ghost order: seq<string>)
    ensures IsKeyOrder(order, store.dict)
    ensures names == KeyNames(filename, prefix, order)
  {
    names := [];
    order := [];
    var remaining := store.dict.Keys;
    while remaining != {}
      invariant remaining <= store.dict.Keys
      invariant Distinct(order) && forall k :: k in order <==> k in store.dict && k !in remaining
      invariant names == KeyNames(filename, prefix, order)
      decreases |remaining|
    {
      var key :| key in remaining;
      remaining := remaining - {key};
      names := names + [BuildParameterPath(prefix, filename, key)];
      order := order + [key];
      assert order[..|order| - 1] == order[..|order| - 1];
    }
  }

  /** The candidates that are also among the listed names, in candidate order. */
  function Intersect(cands: seq<string>, listed: seq<string>): (r: seq<string>)
    ensures |r| <= |cands|
    ensures forall x :: x in r ==> x in cands && x in listed
  {
    if cands == [] then []
    else
      var last := cands[|cands| - 1];
      Intersect(cands[..|cands| - 1], listed) + (if last in listed then [last] else [])
  }

  /** A candidate that is listed is kept. */
  lemma {:induction false} IntersectKeeps(cands: seq<string>, listed: seq<string>, x: string)
    requires x in cands && x in listed
    ensures x in Intersect(cands, listed)
    decreases |cands|
  {
    if cands[|cands| - 1] != x {
      var init := cands[..|cands| - 1];
      assert cands == init + [cands[|cands| - 1]];
      IntersectKeeps(init, listed, x);
    }
  }

  /** No candidate is listed: nothing is kept. */
  lemma {:induction false} IntersectNone(cands: seq<string>, listed: seq<string>)
    requires forall x :: x in cands ==> x !in listed
    ensures Intersect(cands, listed) == []
    decreases |cands|
  {
    if cands != [] {
      var init := cands[..|cands| - 1];
      assert forall x :: x in init ==> x in cands;
      IntersectNone(init, listed);
    }
  }

  /** The names of the listed parameters, appended one by one. */
  method AllNames(params: seq<Parameter>) returns (r: seq<string>)
    ensures r == Names(params)
  {
    r := [];
    for i := 0 to |params|
      invariant r == Names(params[..i])
    {
      assert params[..i + 1][..i] == params[..i];
      r := r + [params[i].name];
    }
    assert params[..|params|] == params;
  }

  /** The intersection loop: for each candidate, a scan of the listed names that
      stops at the first match. */
  method ToDelete(names: seq<string>, allNames: seq<string>) returns (toDelete: seq<string>)
    ensures toDelete == Intersect(names, allNames)
  {
    toDelete := [];
    for c := 0 to |names|
      invariant toDelete == Intersect(names[..c], allNames)
    {
      var cand := names[c];
      assert names[..c + 1][..c] == names[..c];
      for n := 0 to |allNames|
        invariant cand !in allNames[..n]
        invariant toDelete == Intersect(names[..c], allNames)
      {
        if cand == allNames[n] {
          toDelete := toDelete + [cand];
          break;
        }
        assert allNames[..n + 1] == allNames[..n] + [allNames[n]];
      }
      if toDelete == Intersect(names[..c], allNames) {
        assert allNames[..|allNames|] == allNames;
      }
    }
    assert names[..|names|] == names;
  }

  /** The steps of deleteParamsPerFile as written for the candidates `names`: stop
      on a failed listing; otherwise the batching loop takes its count from the
      listed candidates but its batches from all candidates. */
  function ListedDeleteSteps(listing: Listing, names: seq<string>): seq<Step>
  {
    if listing.err.Some? then [Abort(listing.err.value)]
    else BatchSteps(names, |Intersect(names, Names(Flatten(listing.pages)))|)
  }

  /** The steps deleteParamsPerFile evidently intends: the listed candidates, in
      batches of ten. */
  function ListedDeleteStepsCorrected(listing: Listing, names: seq<string>): seq<Step>
  {
    if listing.err.Some? then [Abort(listing.err.value)]
    else
      var toDelete := Intersect(names, Names(Flatten(listing.pages)));
      BatchSteps(toDelete, |toDelete|)
  }

  function DeleteFileSteps(ctx: Context, filename: string, prefix: string, order: seq<string>): seq<Step>
  {
    ListedDeleteSteps(ctx.ssms.listing(BuildParameterPath(prefix, filename, "")), KeyNames(filename, prefix, order))
  }

  function DeleteFileStepsCorrected(ctx: Context, filename: string, prefix: string, order: seq<string>): seq<Step>
  {
    ListedDeleteStepsCorrected(ctx.ssms.listing(BuildParameterPath(prefix, filename, "")), KeyNames(filename, prefix, order))
  }

  /** deleteParamsPerFile as written. */
  method DeleteParamsPerFile(ctx: Context, filename: string, prefix: string) returns (err: Option<string>, ghost order: seq<string>)
    requires filename in ctx.stores
    modifies ctx.ssms
    ensures IsKeyOrder(order, ctx.stores[filename].dict)
    ensures var o := Run(ctx.ssms.refused, old(ctx.ssms.params), DeleteFileSteps(ctx, filename, prefix, order));
            ctx.ssms.log == old(ctx.ssms.log) + o.sent && ctx.ssms.params == o.params && err == o.err
  {
    var store := ctx.stores[filename];
    var names;
    names, order := KeyNameList(store, filename, prefix);
    var paramPath := BuildParameterPath(prefix, filename, "");
    err := DeletePath(ctx, paramPath, names);
  }

  /** The body of deleteParamsPerFile once the candidates are named. */
  method DeletePath(ctx: Context, paramPath: string, names: seq<string>) returns (err: Option<string>)
    modifies ctx.ssms
    ensures var o := Run(ctx.ssms.refused, old(ctx.ssms.params), ListedDeleteSteps(ctx.ssms.listing(paramPath), names));
            ctx.ssms.log == old(ctx.ssms.log) + o.sent && ctx.ssms.params == o.params && err == o.err
  {
    var allParams, findErr := FindAllParametersForPath(ctx, paramPath);
    if findErr.Some? {
      return findErr;
    }
    var allNames := AllNames(allParams);
    var toDelete := ToDelete(names, allNames);
    err := SendBatches(ctx.ssms, names, |toDelete|);
  }

  /** deleteParamsPerFile with the batches taken from the listed candidates. */
  method DeleteParamsPerFileCorrected(ctx: Context, filename: string, prefix: string) returns (err: Option<string>, ghost order: seq<string>)
    requires filename in ctx.stores
    modifies ctx.ssms
    ensures IsKeyOrder(order, ctx.stores[filename].dict)
    ensures var o := Run(ctx.ssms.refused, old(ctx.ssms.params), DeleteFileStepsCorrected(ctx, filename, prefix, order));
            ctx.ssms.log == old(ctx.ssms.log) + o.sent && ctx.ssms.params == o.params && err == o.err
  {
    var store := ctx.stores[filename];
    var names;
    names, order := KeyNameList(store, filename, prefix);
    var paramPath := BuildParameterPath(prefix, filename, "");
    err := DeletePathCorrected(ctx, paramPath, names);
  }

  method DeletePathCorrected(ctx: Context, paramPath: string, names: seq<string>) returns (err: Option<string>)
    modifies ctx.ssms
    ensures var o := Run(ctx.ssms.refused, old(ctx.ssms.params), ListedDeleteStepsCorrected(ctx.ssms.listing(paramPath), names));
            ctx.ssms.log == old(ctx.ssms.log) + o.sent && ctx.ssms.params == o.params && err == o.err
  {
    var allParams, findErr := FindAllParametersForPath(ctx, paramPath);
    if findErr.Some? {
      return findErr;
    }
    var allNames := AllNames(allParams);
    var toDelete := ToDelete(names, allNames);
    err := SendBatches(ctx.ssms, toDelete, |toDelete|);
  }

  // ----- what clear and delete send -----

  /** clearParamsPerFile deletes every listed name, in order, in requests of one
      to ten names. */
  lemma ClearSendsListed(listing: Listing)
    requires listing.err.None?
    ensures SizedDeletes(ListedClearSteps(listing))
    ensures DeletedNames(ListedClearSteps(listing)) == Names(Flatten(listing.pages))
  {
    var names := Names(Flatten(listing.pages));
    BatchStepsSized(names);
    BatchStepsCover(names, |names|);
  }

  /** As written, deleteParamsPerFile sends every candidate, listed or not. */
  lemma DeleteSendsAllCandidates(listing: Listing, names: seq<string>)
    requires listing.err.None?
    ensures DeletedNames(ListedDeleteSteps(listing, names)) == names
  {
    BatchStepsCover(names, |Intersect(names, Names(Flatten(listing.pages)))|);
  }

  /** Every request of the batching loop is a DeleteParameters request, whatever the
      batches. */
  lemma {:induction false} DeleteStepsDeletesOnly(chunks: seq<seq<string>>)
    ensures DeletesOnly(DeleteSteps(chunks))
    decreases |chunks|
  {
    if chunks != [] {
      DeleteStepsDeletesOnly(chunks[..|chunks| - 1]);
    }
  }

  /** As written, deleteParamsPerFile sends delete requests only. */
  lemma ListedDeleteStepsDeletesOnly(listing: Listing, names: seq<string>)
    ensures DeletesOnly(ListedDeleteSteps(listing, names))
  {
    if listing.err.None? {
      DeleteStepsDeletesOnly(Chunks(names, |Intersect(names, Names(Flatten(listing.pages)))|));
    }
  }

  /** As written, eleven candidates none of which is listed go out as one request of
      eleven names, which the store refuses. */
  lemma DeleteOversizedBatch(listing: Listing, names: seq<string>, refused: set<string>, params: map<string, Stored>)
    requires listing.err.None? && |names| == 11
    requires forall n :: n in names ==> n !in Names(Flatten(listing.pages))
    ensures ListedDeleteSteps(listing, names) == [Issue(DeleteRequest(names))]
    ensures Run(refused, params, ListedDeleteSteps(listing, names)) == Outcome([DeleteRequest(names)], params, Some(RefusedError))
  {
    var toDelete := Intersect(names, Names(Flatten(listing.pages)));
    IntersectNone(names, Names(Flatten(listing.pages)));
    assert Chunk(names, 0, 0) == names;
    assert ChunksBefore(names, 0, 1) == [names];
    assert [names][..0] == [];
    assert DeleteSteps([names]) == [Issue(DeleteRequest(names))];
    var steps := ListedDeleteSteps(listing, names);
    assert steps == [Issue(DeleteRequest(names))];
    assert steps[1..] == [];
  }

  /** Corrected, deleteParamsPerFile deletes exactly the listed candidates, in
      order, in requests of one to ten names. */
  lemma DeleteSendsListedCandidates(listing: Listing, names: seq<string>)
    requires listing.err.None?
    ensures SizedDeletes(ListedDeleteStepsCorrected(listing, names))
    ensures DeletedNames(ListedDeleteStepsCorrected(listing, names)) == Intersect(names, Names(Flatten(listing.pages)))
    ensures forall x :: x in DeletedNames(ListedDeleteStepsCorrected(listing, names)) <==>
                        x in names && x in Names(Flatten(listing.pages))
  {
    var listed := Names(Flatten(listing.pages));
    var toDelete := Intersect(names, listed);
    BatchStepsSized(toDelete);
    BatchStepsCover(toDelete, |toDelete|);
    forall x | x in names && x in listed ensures x in toDelete {
      IntersectKeeps(names, listed, x);
    }
  }
}
