/** The operations of command.go (doGet, doPut, doDelete, doClear) and the command
    dispatch of execCmd in main.go. log.Fatal and log.Fatalf end the process with a
    message; they are the Fatal result here. */
module Command {
  import opened Wrappers
  import opened GoStrings
  import opened Kms
  import opened Remote
  import opened FileStores
  import opened ParamPath
  import Args
  import opened SsmOps

  datatype CmdResult = Completed | Fatal(msg: string)

  /** What a command did to the parameter store, and how it ended. */
  datatype Report = Report(sent: seq<Request>, params: map<string, Stored>, result: CmdResult)

  const PutPrefixError := "put command requires exactly one -s/--starts-with argument."
  const DeletePrefixError := "delete command requires exactly one -s/--starts-with argument."
  const ClearPrefixError := "clear command requires exactly one -s/--starts-with argument."

  /** The stores are distinct objects, one per filename. */
  predicate Separate(stores: map<string, FileStore>)
  {
    forall f, g :: f in stores && g in stores && f != g ==> stores[f] != stores[g]
  }

  /** The state of every store. */
  ghost function States(stores: map<string, FileStore>): map<string, FileState>
    reads set f | f in stores :: stores[f]
  {
    map f | f in stores :: stores[f].State()
  }

  /** The dictionary of every store. */
  ghost function Dicts(stores: map<string, FileStore>): map<string, map<string, string>>
    reads set f | f in stores :: stores[f]
  {
    map f | f in stores :: stores[f].dict
  }

  // ----- doGet -----

  /** doGet over the files from `states`: each file in turn, stopping at the first
      that fails. */
  function GetAll(ctx: Context, fs: seq<string>, states: map<string, FileState>): (map<string, FileState>, CmdResult)
    requires forall f :: f in fs ==> f in ctx.stores && f in states
    decreases |fs|
  {
    if fs == [] then (states, Completed)
    else
      var (st, err) := GetFile(ctx, fs[0], states[fs[0]]);
      var next := states[fs[0] := st];
      if err.Some? then (next, Fatal("Failed to get parameters for filename " + fs[0] + ". reason: " + err.value + "\n"))
      else GetAll(ctx, fs[1..], next)
  }

  /** Only the named files change, and the set of stores stays the same. */
  lemma {:induction false} GetAllFrame(ctx: Context, fs: seq<string>, states: map<string, FileState>, f: string)
    requires forall g :: g in fs ==> g in ctx.stores && g in states
    ensures GetAll(ctx, fs, states).0.Keys == states.Keys
    ensures f in states && f !in fs ==> GetAll(ctx, fs, states).0[f] == states[f]
    decreases |fs|
  {
    if fs != [] {
      var (st, err) := GetFile(ctx, fs[0], states[fs[0]]);
      if err.None? {
        assert forall g :: g in fs[1..] ==> g in fs;
        GetAllFrame(ctx, fs[1..], states[fs[0] := st], f);
      }
    }
  }

  /** A file processed without error leaves its successors to be processed from the
      state it produced. */
  lemma GetAllStep(ctx: Context, fs: seq<string>, i: nat, states: map<string, FileState>, st: FileState)
    requires i < |fs| && forall f :: f in fs ==> f in ctx.stores && f in states
    requires GetFile(ctx, fs[i], states[fs[i]]) == (st, None)
    ensures GetAll(ctx, fs[i..], states) == GetAll(ctx, fs[i + 1..], states[fs[i] := st])
  {
    assert fs[i..][0] == fs[i];
    assert fs[i..][1..] == fs[i + 1..];
  }

  /** getParamsPerFile on one store, seen from the whole set of stores. */
  method GetStep(ctx: Context, filename: string, ghost before: map<string, FileState>) returns (err: Option<string>)
    requires filename in ctx.stores && Separate(ctx.stores) && before == States(ctx.stores)
    modifies ctx.stores[filename]
    ensures (ctx.stores[filename].State(), err) == GetFile(ctx, filename, before[filename])
    ensures States(ctx.stores) == before[filename := ctx.stores[filename].State()]
  {
    err := GetParamsPerFile(ctx, filename);
    assert forall f :: f in ctx.stores ==> States(ctx.stores)[f] == before[filename := ctx.stores[filename].State()][f];
  }

  /** What doGet does, from the states of the stores before it to those after it:
      the directory error ends it at once, otherwise the files are read in turn. */
  ghost predicate GetDone(ctx: Context, dirErr: Option<string>, states0: map<string, FileState>, states: map<string, FileState>, r: CmdResult)
    requires forall f :: f in ctx.prefs.filenames ==> f in ctx.stores && f in states0
  {
    if dirErr.Some? then
      r == Fatal("Failed to create conf dir " + ctx.prefs.confDir + ". reason: " + dirErr.value) && states == states0
    else (states, r) == GetAll(ctx, ctx.prefs.filenames, states0)
  }

  /** doGet, after the configuration directory is made (or fails to be, with
      `dirErr`). */
  method DoGet(ctx: Context, dirErr: Option<string>) returns (r: CmdResult)
    requires forall f :: f in ctx.prefs.filenames ==> f in ctx.stores
    requires Separate(ctx.stores)
    modifies set f | f in ctx.stores :: ctx.stores[f]
    ensures GetDone(ctx, dirErr, old(States(ctx.stores)), States(ctx.stores), r)
  {
    if dirErr.Some? {
      return Fatal("Failed to create conf dir " + ctx.prefs.confDir + ". reason: " + dirErr.value);
    }
    var fs := ctx.prefs.filenames;
    for i := 0 to |fs|
      invariant GetAll(ctx, fs, old(States(ctx.stores))) == GetAll(ctx, fs[i..], States(ctx.stores))
    {
      var filename := fs[i];
      ghost var before := States(ctx.stores);
      ghost var st := GetFile(ctx, filename, before[filename]).0;
      var err := GetStep(ctx, filename, before);
      if err.Some? {
        assert fs[i..][0] == filename;
        return Fatal("Failed to get parameters for filename " + filename + ". reason: " + err.value + "\n");
      }
      GetAllStep(ctx, fs, i, before, st);
    }
    r := Completed;
  }

  // ----- doPut -----

  /** The keys of each file's store visited so far, in order, each at most once. */
  predicate OrdersIn(dicts: map<string, map<string, string>>, fs: seq<string>, orders: seq<seq<string>>)
  {
    |orders| == |fs| &&
    forall i :: 0 <= i < |fs| ==> fs[i] in dicts && Distinct(orders[i]) && forall k :: k in orders[i] ==> k in dicts[fs[i]]
  }

  /** Every key of a visited file's store was visited, for each file before the last
      one visited, and for that one too unless the run stopped there with `r`. */
  ghost predicate KeysCovered(dicts: map<string, map<string, string>>, fs: seq<string>, orders: seq<seq<string>>, r: CmdResult)
  {
    forall j :: 0 <= j < |orders| && j < |fs| && (j + 1 < |orders| || r.Completed?) ==>
      fs[j] in dicts && IsKeyOrder(orders[j], dicts[fs[j]])
  }

  /** doPut over the files, with the keys of each visited in the order given:
      each file in turn, stopping at the first that fails. */
  function PutAll(ctx: Context, dicts: map<string, map<string, string>>, fs: seq<string>, prefix: string,
                  params: map<string, Stored>, orders: seq<seq<string>>): Report
    requires OrdersIn(dicts, fs, orders)
    decreases |fs|
  {
    if fs == [] then Report([], params, Completed)
    else
      var n := |fs| - 1;
      var prev := PutAll(ctx, dicts, fs[..n], prefix, params, orders[..n]);
      if prev.result.Fatal? then prev
      else
        var o := FileRun(ctx, dicts[fs[n]], fs[n], prefix, prev.params, orders[n]);
        Report(prev.sent + o.sent, o.params,
               if o.err.Some? then Fatal("Failed to put parameters from filename " + fs[n] + " to prefix " + prefix + ". reason: " + o.err.value + "\n")
               else Completed)
  }

  /** One more file. */
  lemma PutAllSnoc(ctx: Context, dicts: map<string, map<string, string>>, fs: seq<string>, prefix: string,
                   params: map<string, Stored>, orders: seq<seq<string>>, order: seq<string>, i: nat)
    requires i < |fs| && OrdersIn(dicts, fs[..i], orders)
    requires fs[i] in dicts && Distinct(order) && forall k :: k in order ==> k in dicts[fs[i]]
    ensures OrdersIn(dicts, fs[..i + 1], orders + [order])
    ensures var prev := PutAll(ctx, dicts, fs[..i], prefix, params, orders);
            prev.result.Completed? ==>
            var o := FileRun(ctx, dicts[fs[i]], fs[i], prefix, prev.params, order);
            PutAll(ctx, dicts, fs[..i + 1], prefix, params, orders + [order]) ==
              Report(prev.sent + o.sent, o.params,
                     if o.err.Some? then Fatal("Failed to put parameters from filename " + fs[i] + " to prefix " + prefix + ". reason: " + o.err.value + "\n")
                     else Completed)
  {
    assert fs[..i + 1][..i] == fs[..i];
    assert (orders + [order])[..i] == orders;
  }

  /** putParamsPerFile for the next file of doPut's loop. */
  method PutStep(ctx: Context, prefix: string, ghost dicts: map<string, map<string, string>>,
                 ghost params0: map<string, Stored>, ghost log0: seq<Request>, ghost orders: seq<seq<string>>, i: nat)
      returns (r: CmdResult, ghost order: seq<string>)
    requires i < |ctx.prefs.filenames| && ctx.prefs.filenames[i] in ctx.stores
    requires dicts == Dicts(ctx.stores) && OrdersIn(dicts, ctx.prefs.filenames[..i], orders)
    requires var prev := PutAll(ctx, dicts, ctx.prefs.filenames[..i], prefix, params0, orders);
             prev.result.Completed? && ctx.ssms.log == log0 + prev.sent && ctx.ssms.params == prev.params
    modifies ctx.ssms
    ensures OrdersIn(dicts, ctx.prefs.filenames[..i + 1], orders + [order])
    ensures r.Completed? ==> IsKeyOrder(order, dicts[ctx.prefs.filenames[i]])
    ensures var rep := PutAll(ctx, dicts, ctx.prefs.filenames[..i + 1], prefix, params0, orders + [order]);
            ctx.ssms.log == log0 + rep.sent && ctx.ssms.params == rep.params && r == rep.result
  {
    var filename := ctx.prefs.filenames[i];
    ghost var prev := PutAll(ctx, dicts, ctx.prefs.filenames[..i], prefix, params0, orders);
    var err;
    err, order := PutParamsPerFile(ctx, filename, prefix);
    assert dicts[filename] == ctx.stores[filename].dict;
    PutAllSnoc(ctx, dicts, ctx.prefs.filenames, prefix, params0, orders, order, i);
    ghost var o := FileRun(ctx, dicts[filename], filename, prefix, prev.params, order);
    LogAssoc(log0, prev.sent, o.sent);
    r := if err.Some? then Fatal("Failed to put parameters from filename " + filename + " to prefix " + prefix + ". reason: " + err.value + "\n")
         else Completed;
  }

  /** What doPut does, from the request log and parameters before it to those
      after it: without exactly one prefix it stops at once; otherwise the files
      are put in turn, with the keys of each in the order given, and the files
      visited are all of them unless one failed, the last file visited. Every key
      of every file is visited, except in the file that failed. */
  ghost predicate PutDone(ctx: Context, dicts: map<string, map<string, string>>, log0: seq<Request>, params0: map<string, Stored>,
                    log: seq<Request>, params: map<string, Stored>, r: CmdResult, orders: seq<seq<string>>)
  {
    var fs := ctx.prefs.filenames;
    if |ctx.prefs.prefixes| != 1 then r == Fatal(PutPrefixError) && log == log0 && params == params0
    else
      |orders| <= |fs| && OrdersIn(dicts, fs[..|orders|], orders) &&
      var rep := PutAll(ctx, dicts, fs[..|orders|], ctx.prefs.prefixes[0], params0, orders);
      log == log0 + rep.sent && params == rep.params && r == rep.result &&
      (|orders| < |fs| ==> r.Fatal?) && KeysCovered(dicts, fs, orders, r)
  }

  /** A run of doPut's loop that got through every file sent the planned request of
      every key of every file. */
  lemma {:induction false} PutAllSendsPlanned(ctx: Context, dicts: map<string, map<string, string>>, fs: seq<string>, prefix: string,
                                              params: map<string, Stored>, orders: seq<seq<string>>, i: nat, key: string)
    requires OrdersIn(dicts, fs, orders) && KeysCovered(dicts, fs, orders, Completed)
    requires PutAll(ctx, dicts, fs, prefix, params, orders).result.Completed?
    requires i < |fs| && key in dicts[fs[i]] && PlanPut(ctx.prefs, ctx.kms, dicts[fs[i]], fs[i], prefix, key).Some?
    ensures PlanPut(ctx.prefs, ctx.kms, dicts[fs[i]], fs[i], prefix, key).value in PutAll(ctx, dicts, fs, prefix, params, orders).sent
    decreases |fs|
  {
    var n := |fs| - 1;
    var prev := PutAll(ctx, dicts, fs[..n], prefix, params, orders[..n]);
    if i == n {
      FileRunSendsPlanned(ctx, dicts[fs[n]], fs[n], prefix, prev.params, orders[n], key);
    } else {
      assert fs[..n][i] == fs[i];
      assert KeysCovered(dicts, fs[..n], orders[..n], Completed) by {
        forall j | 0 <= j < n ensures fs[..n][j] in dicts && IsKeyOrder(orders[..n][j], dicts[fs[..n][j]]) {
          assert fs[..n][j] == fs[j] && orders[..n][j] == orders[j];
        }
      }
      PutAllSendsPlanned(ctx, dicts, fs[..n], prefix, params, orders[..n], i, key);
    }
  }

  /** A doPut that completed sent, for every key of every file, the request that
      putParamsPerFile plans for it. */
  lemma PutCompletedSendsEveryKey(ctx: Context, dicts: map<string, map<string, string>>, log0: seq<Request>, params0: map<string, Stored>,
                                  log: seq<Request>, params: map<string, Stored>, orders: seq<seq<string>>, i: nat, key: string)
    requires |ctx.prefs.prefixes| == 1
    requires PutDone(ctx, dicts, log0, params0, log, params, Completed, orders)
    requires i < |ctx.prefs.filenames| && ctx.prefs.filenames[i] in dicts && key in dicts[ctx.prefs.filenames[i]]
    requires PlanPut(ctx.prefs, ctx.kms, dicts[ctx.prefs.filenames[i]], ctx.prefs.filenames[i], ctx.prefs.prefixes[0], key).Some?
    ensures PlanPut(ctx.prefs, ctx.kms, dicts[ctx.prefs.filenames[i]], ctx.prefs.filenames[i], ctx.prefs.prefixes[0], key).value in log
  {
    var fs := ctx.prefs.filenames;
    assert fs[..|orders|] == fs;
    PutAllSendsPlanned(ctx, dicts, fs, ctx.prefs.prefixes[0], params0, orders, i, key);
  }

  /** doPut. The ghost `orders` are the keys of each file visited, in the order
      they were visited. */
  method DoPut(ctx: Context) returns (r: CmdResult, ghost orders: seq<seq<string>>)
    requires forall f :: f in ctx.prefs.filenames ==> f in ctx.stores
    modifies ctx.ssms
    ensures PutDone(ctx, Dicts(ctx.stores), old(ctx.ssms.log), old(ctx.ssms.params), ctx.ssms.log, ctx.ssms.params, r, orders)
  {
    if |ctx.prefs.prefixes| != 1 {
      return Fatal(PutPrefixError), [];
    }
    r, orders := PutFiles(ctx, ctx.prefs.prefixes[0], Dicts(ctx.stores));
  }

  /** The loop of doPut over the files, with the one prefix. */
  method PutFiles(ctx: Context, prefix: string, ghost dicts: map<string, map<string, string>>) returns (r: CmdResult, ghost orders: seq<seq<string>>)
    requires forall f :: f in ctx.prefs.filenames ==> f in ctx.stores
    requires dicts == Dicts(ctx.stores)
    modifies ctx.ssms
    ensures |orders| <= |ctx.prefs.filenames| && OrdersIn(dicts, ctx.prefs.filenames[..|orders|], orders)
    ensures var rep := PutAll(ctx, dicts, ctx.prefs.filenames[..|orders|], prefix, old(ctx.ssms.params), orders);
            ctx.ssms.log == old(ctx.ssms.log) + rep.sent && ctx.ssms.params == rep.params && r == rep.result
    ensures |orders| < |ctx.prefs.filenames| ==> r.Fatal?
    ensures KeysCovered(dicts, ctx.prefs.filenames, orders, r)
  {
    orders := [];
    var fs := ctx.prefs.filenames;
    ghost var params0 := ctx.ssms.params;
    ghost var log0 := ctx.ssms.log;
    assert log0 + [] == log0;
    r := Completed;
    var i := 0;
    while i < |fs| && r.Completed?
      invariant i <= |fs| && |orders| == i && OrdersIn(dicts, fs[..i], orders)
      invariant ctx.ssms.log == log0 + PutAll(ctx, dicts, fs[..i], prefix, params0, orders).sent
      invariant ctx.ssms.params == PutAll(ctx, dicts, fs[..i], prefix, params0, orders).params
      invariant r == PutAll(ctx, dicts, fs[..i], prefix, params0, orders).result
      invariant KeysCovered(dicts, fs, orders, r)
    {
      ghost var order;
      r, order := PutStep(ctx, prefix, dicts, params0, log0, orders, i);
      orders := orders + [order];
      i := i + 1;
    }
  }

  // ----- doDelete and doClear -----

  /** One exchange with the store per file, each from the parameters the previous one
      left. An error ends that file's exchange only: doDelete and doClear ignore it. */
  function RunEach(refused: set<string>, params: map<string, Stored>, plans: seq<seq<Step>>): Report
    decreases |plans|
  {
    if plans == [] then Report([], params, Completed)
    else
      var prev := RunEach(refused, params, plans[..|plans| - 1]);
      var o := Run(refused, prev.params, plans[|plans| - 1]);
      Report(prev.sent + o.sent, o.params, Completed)
  }

  /** One more file. */
  lemma RunEachSnoc(refused: set<string>, params: map<string, Stored>, plans: seq<seq<Step>>, plan: seq<Step>)
    ensures RunEach(refused, params, plans + [plan]) ==
      var prev := RunEach(refused, params, plans);
      var o := Run(refused, prev.params, plan);
      Report(prev.sent + o.sent, o.params, Completed)
  {
    assert (plans + [plan])[..|plans|] == plans;
  }

  /** When no file's exchange holds a put, none is sent. */
  lemma {:induction false} RunEachDeletesOnly(refused: set<string>, params: map<string, Stored>, plans: seq<seq<Step>>)
    requires forall i :: 0 <= i < |plans| ==> DeletesOnly(plans[i])
    ensures forall req :: req in RunEach(refused, params, plans).sent ==> req.DeleteRequest?
    decreases |plans|
  {
    if plans != [] {
      var n := |plans| - 1;
      RunEachDeletesOnly(refused, params, plans[..n]);
      RunSendsDeletesOnly(refused, RunEach(refused, params, plans[..n]).params, plans[n]);
    }
  }

  /** The exchanges of clearParamsPerFile for each file. */
  function ClearPlans(ctx: Context, fs: seq<string>, prefix: string): (r: seq<seq<Step>>)
    ensures |r| == |fs|
  {
    if fs == [] then [] else ClearPlans(ctx, fs[..|fs| - 1], prefix) + [ClearSteps(ctx, fs[|fs| - 1], prefix)]
  }

  /** The exchanges of deleteParamsPerFile, as written, for each file, with the keys
      of each visited in the order given. */
  function DeletePlans(ctx: Context, fs: seq<string>, prefix: string, orders: seq<seq<string>>): (r: seq<seq<Step>>)
    requires |orders| == |fs|
    ensures |r| == |fs|
  {
    if fs == [] then []
    else
      var n := |fs| - 1;
      DeletePlans(ctx, fs[..n], prefix, orders[..n]) + [DeleteFileSteps(ctx, fs[n], prefix, orders[n])]
  }

  /** For each file, an order of all the keys of its store. */
  ghost predicate KeyOrdersIn(dicts: map<string, map<string, string>>, fs: seq<string>, orders: seq<seq<string>>)
  {
    |orders| == |fs| && forall i :: 0 <= i < |fs| ==> fs[i] in dicts && IsKeyOrder(orders[i], dicts[fs[i]])
  }

  lemma KeyOrdersSnoc(dicts: map<string, map<string, string>>, fs: seq<string>, orders: seq<seq<string>>, order: seq<string>, i: nat)
    requires i < |fs| && KeyOrdersIn(dicts, fs[..i], orders)
    requires fs[i] in dicts && IsKeyOrder(order, dicts[fs[i]])
    ensures KeyOrdersIn(dicts, fs[..i + 1], orders + [order])
  {
    forall j | 0 <= j < i + 1 ensures fs[..i + 1][j] in dicts && IsKeyOrder((orders + [order])[j], dicts[fs[..i + 1][j]]) {
      if j < i {
        assert fs[..i + 1][j] == fs[..i][j];
        assert (orders + [order])[j] == orders[j];
      }
    }
  }

  /** Each plan of clearParamsPerFile holds deletes only. */
  lemma {:induction false} ClearPlansDeleteOnly(ctx: Context, fs: seq<string>, prefix: string)
    ensures forall i :: 0 <= i < |fs| ==> DeletesOnly(ClearPlans(ctx, fs, prefix)[i])
  {
    if fs != [] {
      var n := |fs| - 1;
      ClearPlansDeleteOnly(ctx, fs[..n], prefix);
      ClearStepsDeleteOnly(ctx, fs[n], prefix);
      var plans := ClearPlans(ctx, fs, prefix);
      assert plans == ClearPlans(ctx, fs[..n], prefix) + [ClearSteps(ctx, fs[n], prefix)];
      forall i | 0 <= i < |fs| ensures DeletesOnly(plans[i]) {
        if i < n {
          assert plans[i] == ClearPlans(ctx, fs[..n], prefix)[i];
        }
      }
    }
  }

  lemma ClearStepsDeleteOnly(ctx: Context, filename: string, prefix: string)
    ensures DeletesOnly(ClearSteps(ctx, filename, prefix))
  {
    var listing := ctx.ssms.listing(BuildParameterPath(prefix, filename, ""));
    if listing.err.None? {
      ClearSendsListed(listing);
    }
  }

  /** Each plan of deleteParamsPerFile holds deletes only. */
  lemma {:induction false} DeletePlansDeleteOnly(ctx: Context, fs: seq<string>, prefix: string, orders: seq<seq<string>>)
    requires |orders| == |fs|
    ensures forall i :: 0 <= i < |fs| ==> DeletesOnly(DeletePlans(ctx, fs, prefix, orders)[i])
  {
    if fs != [] {
      var n := |fs| - 1;
      DeletePlansDeleteOnly(ctx, fs[..n], prefix, orders[..n]);
      ListedDeleteStepsDeletesOnly(ctx.ssms.listing(BuildParameterPath(prefix, fs[n], "")), KeyNames(fs[n], prefix, orders[n]));
    }
  }

  /** doClear sends delete requests only. */
  lemma ClearSendsNoPut(ctx: Context, fs: seq<string>, prefix: string, params: map<string, Stored>)
    ensures forall req :: req in RunEach(ctx.ssms.refused, params, ClearPlans(ctx, fs, prefix)).sent ==> req.DeleteRequest?
  {
    ClearPlansDeleteOnly(ctx, fs, prefix);
    RunEachDeletesOnly(ctx.ssms.refused, params, ClearPlans(ctx, fs, prefix));
  }

  /** doDelete sends delete requests only. */
  lemma DeleteSendsNoPut(ctx: Context, fs: seq<string>, prefix: string, orders: seq<seq<string>>, params: map<string, Stored>)
    requires |orders| == |fs|
    ensures forall req :: req in RunEach(ctx.ssms.refused, params, DeletePlans(ctx, fs, prefix, orders)).sent ==> req.DeleteRequest?
  {
    DeletePlansDeleteOnly(ctx, fs, prefix, orders);
    RunEachDeletesOnly(ctx.ssms.refused, params, DeletePlans(ctx, fs, prefix, orders));
  }

  /** What doClear does: without exactly one prefix it stops at once; otherwise
      each file's parameters are cleared in turn, whatever the errors. */
  predicate ClearDone(ctx: Context, log0: seq<Request>, params0: map<string, Stored>,
                      log: seq<Request>, params: map<string, Stored>, r: CmdResult)
  {
    if |ctx.prefs.prefixes| != 1 then r == Fatal(ClearPrefixError) && log == log0 && params == params0
    else
      var rep := RunEach(ctx.ssms.refused, params0, ClearPlans(ctx, ctx.prefs.filenames, ctx.prefs.prefixes[0]));
      log == log0 + rep.sent && params == rep.params && r == Completed
  }

  /** doClear. */
  method DoClear(ctx: Context) returns (r: CmdResult)
    modifies ctx.ssms
    ensures ClearDone(ctx, old(ctx.ssms.log), old(ctx.ssms.params), ctx.ssms.log, ctx.ssms.params, r)
  {
    if |ctx.prefs.prefixes| != 1 {
      return Fatal(ClearPrefixError);
    }
    ClearFiles(ctx, ctx.prefs.prefixes[0]);
    r := Completed;
  }

  lemma ClearPlansSnoc(ctx: Context, fs: seq<string>, prefix: string, i: nat)
    requires i < |fs|
    ensures ClearPlans(ctx, fs[..i + 1], prefix) == ClearPlans(ctx, fs[..i], prefix) + [ClearSteps(ctx, fs[i], prefix)]
  {
    assert fs[..i + 1][..i] == fs[..i];
  }

  /** clearParamsPerFile for the next file of doClear's loop. */
  method ClearStep(ctx: Context, prefix: string, ghost params0: map<string, Stored>, ghost log0: seq<Request>, i: nat)
    requires i < |ctx.prefs.filenames|
    requires var prev := RunEach(ctx.ssms.refused, params0, ClearPlans(ctx, ctx.prefs.filenames[..i], prefix));
             ctx.ssms.log == log0 + prev.sent && ctx.ssms.params == prev.params
    modifies ctx.ssms
    ensures var rep := RunEach(ctx.ssms.refused, params0, ClearPlans(ctx, ctx.prefs.filenames[..i + 1], prefix));
            ctx.ssms.log == log0 + rep.sent && ctx.ssms.params == rep.params
  {
    var fs := ctx.prefs.filenames;
    ghost var prev := RunEach(ctx.ssms.refused, params0, ClearPlans(ctx, fs[..i], prefix));
    var err := ClearParamsPerFile(ctx, fs[i], prefix);
    ClearPlansSnoc(ctx, fs, prefix, i);
    RunEachSnoc(ctx.ssms.refused, params0, ClearPlans(ctx, fs[..i], prefix), ClearSteps(ctx, fs[i], prefix));
    LogAssoc(log0, prev.sent, ClearRun(ctx, fs[i], prefix, prev.params).sent);
  }

  /** The loop of doClear over the files. */
  method ClearFiles(ctx: Context, prefix: string)
    modifies ctx.ssms
    ensures var rep := RunEach(ctx.ssms.refused, old(ctx.ssms.params), ClearPlans(ctx, ctx.prefs.filenames, prefix));
            ctx.ssms.log == old(ctx.ssms.log) + rep.sent && ctx.ssms.params == rep.params
  {
    var fs := ctx.prefs.filenames;
    ghost var params0 := ctx.ssms.params;
    ghost var log0 := ctx.ssms.log;
    assert log0 + [] == log0;
    for i := 0 to |fs|
      invariant ctx.ssms.log == log0 + RunEach(ctx.ssms.refused, params0, ClearPlans(ctx, fs[..i], prefix)).sent
      invariant ctx.ssms.params == RunEach(ctx.ssms.refused, params0, ClearPlans(ctx, fs[..i], prefix)).params
    {
      ClearStep(ctx, prefix, params0, log0, i);
    }
    assert fs[..|fs|] == fs;
  }

  /** What doDelete does: without exactly one prefix it stops at once; otherwise
      each file's keys are deleted in turn, in the order given, whatever the
      errors. */
  ghost predicate DeleteDone(ctx: Context, dicts: map<string, map<string, string>>, log0: seq<Request>, params0: map<string, Stored>,
                             log: seq<Request>, params: map<string, Stored>, r: CmdResult, orders: seq<seq<string>>)
  {
    if |ctx.prefs.prefixes| != 1 then r == Fatal(DeletePrefixError) && log == log0 && params == params0
    else
      KeyOrdersIn(dicts, ctx.prefs.filenames, orders) &&
      var rep := RunEach(ctx.ssms.refused, params0, DeletePlans(ctx, ctx.prefs.filenames, ctx.prefs.prefixes[0], orders));
      log == log0 + rep.sent && params == rep.params && r == Completed
  }

  /** doDelete. The ghost `orders` are the keys of each file in the order they were
      visited. */
  method DoDelete(ctx: Context) returns (r: CmdResult, ghost orders: seq<seq<string>>)
    requires forall f :: f in ctx.prefs.filenames ==> f in ctx.stores
    modifies ctx.ssms
    ensures DeleteDone(ctx, Dicts(ctx.stores), old(ctx.ssms.log), old(ctx.ssms.params), ctx.ssms.log, ctx.ssms.params, r, orders)
  {
    if |ctx.prefs.prefixes| != 1 {
      return Fatal(DeletePrefixError), [];
    }
    orders := DeleteFiles(ctx, ctx.prefs.prefixes[0], Dicts(ctx.stores));
    r := Completed;
  }

  lemma DeletePlansSnoc(ctx: Context, fs: seq<string>, prefix: string, orders: seq<seq<string>>, order: seq<string>, i: nat)
    requires i < |fs| && |orders| == i
    ensures DeletePlans(ctx, fs[..i + 1], prefix, orders + [order]) ==
            DeletePlans(ctx, fs[..i], prefix, orders) + [DeleteFileSteps(ctx, fs[i], prefix, order)]
  {
    assert fs[..i + 1][..i] == fs[..i];
    assert (orders + [order])[..i] == orders;
  }

  /** deleteParamsPerFile for the next file of doDelete's loop. */
  method DeleteStep(ctx: Context, prefix: string, ghost dicts: map<string, map<string, string>>,
                    ghost params0: map<string, Stored>, ghost log0: seq<Request>, ghost orders: seq<seq<string>>, i: nat)
      returns (ghost order: seq<string>)
    requires i < |ctx.prefs.filenames| && ctx.prefs.filenames[i] in ctx.stores
    requires dicts == Dicts(ctx.stores) && KeyOrdersIn(dicts, ctx.prefs.filenames[..i], orders)
    requires var prev := RunEach(ctx.ssms.refused, params0, DeletePlans(ctx, ctx.prefs.filenames[..i], prefix, orders));
             ctx.ssms.log == log0 + prev.sent && ctx.ssms.params == prev.params
    modifies ctx.ssms
    ensures KeyOrdersIn(dicts, ctx.prefs.filenames[..i + 1], orders + [order])
    ensures var rep := RunEach(ctx.ssms.refused, params0, DeletePlans(ctx, ctx.prefs.filenames[..i + 1], prefix, orders + [order]));
            ctx.ssms.log == log0 + rep.sent && ctx.ssms.params == rep.params
  {
    var fs := ctx.prefs.filenames;
    ghost var prev := RunEach(ctx.ssms.refused, params0, DeletePlans(ctx, fs[..i], prefix, orders));
    var err;
    err, order := DeleteParamsPerFile(ctx, fs[i], prefix);
    assert dicts[fs[i]] == ctx.stores[fs[i]].dict;
    KeyOrdersSnoc(dicts, fs, orders, order, i);
    ghost var plan := DeleteFileSteps(ctx, fs[i], prefix, order);
    DeletePlansSnoc(ctx, fs, prefix, orders, order, i);
    RunEachSnoc(ctx.ssms.refused, params0, DeletePlans(ctx, fs[..i], prefix, orders), plan);
    LogAssoc(log0, prev.sent, Run(ctx.ssms.refused, prev.params, plan).sent);
  }

  /** The loop of doDelete over the files. */
  method DeleteFiles(ctx: Context, prefix: string, ghost dicts: map<string, map<string, string>>) returns (ghost orders: seq<seq<string>>)
    requires forall f :: f in ctx.prefs.filenames ==> f in ctx.stores
    requires dicts == Dicts(ctx.stores)
    modifies ctx.ssms
    ensures KeyOrdersIn(dicts, ctx.prefs.filenames, orders)
    ensures var rep := RunEach(ctx.ssms.refused, old(ctx.ssms.params), DeletePlans(ctx, ctx.prefs.filenames, prefix, orders));
            ctx.ssms.log == old(ctx.ssms.log) + rep.sent && ctx.ssms.params == rep.params
  {
    var fs := ctx.prefs.filenames;
    ghost var params0 := ctx.ssms.params;
    ghost var log0 := ctx.ssms.log;
    assert log0 + [] == log0;
    orders := [];
    for i := 0 to |fs|
      invariant KeyOrdersIn(dicts, fs[..i], orders)
      invariant ctx.ssms.log == log0 + RunEach(ctx.ssms.refused, params0, DeletePlans(ctx, fs[..i], prefix, orders)).sent
      invariant ctx.ssms.params == RunEach(ctx.ssms.refused, params0, DeletePlans(ctx, fs[..i], prefix, orders)).params
    {
      ghost var order := DeleteStep(ctx, prefix, dicts, params0, log0, orders, i);
      orders := orders + [order];
    }
    assert fs[..|fs|] == fs;
  }

  // ----- execCmd -----

  datatype CmdName = GetCmd | PutCmd | DeleteCmd | ClearCmd | UnknownCmd

  /** The case of execCmd's switch that a command selects: its name compared in
      lower case. */
  function CommandOf(cmd: string): (r: CmdName)
    ensures r == UnknownCmd <==> ToLower(cmd) !in ["get", "put", "delete", "clear"]
  {
    var c := ToLower(cmd);
    if c == "get" then GetCmd
    else if c == "put" then PutCmd
    else if c == "delete" then DeleteCmd
    else if c == "clear" then ClearCmd
    else UnknownCmd
  }

  /** The command name is matched without regard to case. */
  lemma CommandOfIgnoresCase(cmd: string)
    ensures CommandOf(ToLower(cmd)) == CommandOf(cmd)
  {
    ToLowerIdempotent(cmd);
  }

  /** Whether execCmd lists the KMS aliases first: for get unless SecureString
      values are not stored locally, for put unless they are not put. */
  predicate NeedsAliases(prefs: Args.ParsedArgs)
  {
    match CommandOf(prefs.ssmCmd)
    case GetCmd => !prefs.noStoreSecureString
    case PutCmd => !prefs.noPutSecureString
    case _ => false
  }

  /** The alias map the command runs with: the listed aliases when they are needed
      and the listing did not fail (its error is ignored), otherwise empty. */
  function CommandKms(prefs: Args.ParsedArgs, aliases: AliasListing): KmsMap
  {
    if NeedsAliases(prefs) && aliases.Listed? then Record(Empty, aliases.aliases) else Empty
  }

  /** The context execCmd runs the command with: `aliases` is what ListAliases
      returns, listed only when the command needs it. */
  method CommandContext(prefs: Args.ParsedArgs, stores: map<string, FileStore>, ssms: ParameterStore,
                        aliases: AliasListing) returns (ctx: Context)
    ensures ctx == Context(prefs, stores, ssms, CommandKms(prefs, aliases))
  {
    var kms := Empty;
    if NeedsAliases(prefs) {
      var err;
      kms, err := BuildAliasList(aliases, kms);
    }
    ctx := Context(prefs, stores, ssms, kms);
  }

  /** The switch of execCmd. `dirErr` is the outcome of making the configuration
      directory, decided outside the model. */
  method ExecCmd(ctx: Context, dirErr: Option<string>) returns (r: CmdResult, ghost orders: seq<seq<string>>)
    requires forall f :: f in ctx.prefs.filenames ==> f in ctx.stores
    requires Separate(ctx.stores)
    modifies ctx.ssms, set f | f in ctx.stores :: ctx.stores[f]
    ensures CommandOf(ctx.prefs.ssmCmd) == UnknownCmd ==> r == Fatal("Unknown command " + ctx.prefs.ssmCmd)
    ensures CommandOf(ctx.prefs.ssmCmd) != GetCmd ==> States(ctx.stores) == old(States(ctx.stores))
    ensures CommandOf(ctx.prefs.ssmCmd) in {GetCmd, UnknownCmd} ==>
      ctx.ssms.log == old(ctx.ssms.log) && ctx.ssms.params == old(ctx.ssms.params)
    ensures CommandOf(ctx.prefs.ssmCmd) == GetCmd ==> GetDone(ctx, dirErr, old(States(ctx.stores)), States(ctx.stores), r)
    ensures CommandOf(ctx.prefs.ssmCmd) == PutCmd ==>
      PutDone(ctx, Dicts(ctx.stores), old(ctx.ssms.log), old(ctx.ssms.params), ctx.ssms.log, ctx.ssms.params, r, orders)
    ensures CommandOf(ctx.prefs.ssmCmd) == DeleteCmd ==>
      DeleteDone(ctx, Dicts(ctx.stores), old(ctx.ssms.log), old(ctx.ssms.params), ctx.ssms.log, ctx.ssms.params, r, orders)
    ensures CommandOf(ctx.prefs.ssmCmd) == ClearCmd ==>
      ClearDone(ctx, old(ctx.ssms.log), old(ctx.ssms.params), ctx.ssms.log, ctx.ssms.params, r)
  {
    orders := [];
    var cmd := CommandOf(ctx.prefs.ssmCmd);
    if cmd == GetCmd {
      r := DoGet(ctx, dirErr);
    } else {
      r, orders := ExecRemote(ctx, cmd);
    }
  }

  /** The cases of execCmd's switch other than get: they change the parameter
      store only. */
  method ExecRemote(ctx: Context, cmd: CmdName) returns (r: CmdResult, ghost orders: seq<seq<string>>)
    requires cmd != GetCmd
    requires forall f :: f in ctx.prefs.filenames ==> f in ctx.stores
    modifies ctx.ssms
    ensures cmd == UnknownCmd ==>
      r == Fatal("Unknown command " + ctx.prefs.ssmCmd) && ctx.ssms.log == old(ctx.ssms.log) && ctx.ssms.params == old(ctx.ssms.params)
    ensures cmd == PutCmd ==>
      PutDone(ctx, Dicts(ctx.stores), old(ctx.ssms.log), old(ctx.ssms.params), ctx.ssms.log, ctx.ssms.params, r, orders)
    ensures cmd == DeleteCmd ==>
      DeleteDone(ctx, Dicts(ctx.stores), old(ctx.ssms.log), old(ctx.ssms.params), ctx.ssms.log, ctx.ssms.params, r, orders)
    ensures cmd == ClearCmd ==>
      ClearDone(ctx, old(ctx.ssms.log), old(ctx.ssms.params), ctx.ssms.log, ctx.ssms.params, r)
  {
    orders := [];
    match cmd
    case PutCmd =>
      r, orders := DoPut(ctx);
    case DeleteCmd =>
      r, orders := DoDelete(ctx);
    case ClearCmd =>
      r := DoClear(ctx);
    case UnknownCmd =>
      r := Fatal("Unknown command " + ctx.prefs.ssmCmd);
  }
}
