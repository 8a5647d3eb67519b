/** The command-line parser of main.go (parseArgs): options and operation words in
    any order, a "--no-" form for every long option, then a fixed sequence of checks.
    log.Fatal, os.Exit and the runtime panic of an index past the end of the
    argument list are distinct outcomes. */
module Args {
  import opened Wrappers
  import opened GoStrings

  const NoOptPrefix := "--no-"

  /** ParsedArgs, the preferences every operation reads. */
  datatype ParsedArgs = ParsedArgs(
    useEc2Role: bool,
    awsProfile: string,
    awsRegion: string,
    ssmCmd: string,
    confDir: string,
    keyIdPutAll: string,
    overwritePut: bool,
    clearOnPut: bool,
    noStoreSecureString: bool,
    noPutSecureString: bool,
    filenames: seq<string>,
    prefixes: seq<string>)

  datatype ParseOutcome =
    | Parsed(prefs: ParsedArgs)
    | Exit(code: int)
    | Fatal(msg: string)
    | IndexOutOfRange(index: nat)

  /** The "--no-" rewrite: "--no-x" is read as "--x", marked as negated. */
  function Normalize(arg: string): (string, bool)
  {
    if HasPrefix(arg, NoOptPrefix) then ("--" + TrimPrefix(arg, NoOptPrefix), true) else (arg, false)
  }

  /** Every argument starting with "--no-" names the long option after it, negated;
      every other argument is taken as it is. */
  lemma NormalizeRewrites(x: string, arg: string)
    ensures Normalize(NoOptPrefix + x) == ("--" + x, true)
    ensures !HasPrefix(arg, NoOptPrefix) ==> Normalize(arg) == (arg, false)
  {
    assert (NoOptPrefix + x)[..|NoOptPrefix|] == NoOptPrefix;
    assert (NoOptPrefix + x)[|NoOptPrefix|..] == x;
  }

  /** The cases of the switch in the option loop. */
  datatype OptKind =
    | Help | Profile | Region | Ec2Role | ConfDir | Filename | Prefix | KeyId
    | Overwrite | Clear | StoreSecure | PutSecure | Command | Unknown

  /** Which case an option (after the rewrite) falls into. */
  function Kind(opt: string): OptKind
  {
    if opt == "-h" || opt == "--help" then Help
    else if opt == "-p" || opt == "--profile" then Profile
    else if opt == "-r" || opt == "--region" then Region
    else if opt == "--use-ec2-role" then Ec2Role
    else if opt == "-C" || opt == "--conf-dir" then ConfDir
    else if opt == "-f" || opt == "--filename" then Filename
    else if opt == "-s" || opt == "--starts-with" then Prefix
    else if opt == "-k" || opt == "--key-id-put-all" then KeyId
    else if opt == "-o" || opt == "--overwrite-put" then Overwrite
    else if opt == "--clear-on-put" then Clear
    else if opt == "--store-secure-string" then StoreSecure
    else if opt == "--put-secure-string" then PutSecure
    else if opt == "get" || opt == "put" || opt == "delete" || opt == "clear" then Command
    else Unknown
  }

  /** The options followed by a value argument. */
  predicate TakesValue(k: OptKind) {
    k == Profile || k == Region || k == ConfDir || k == Filename || k == Prefix || k == KeyId
  }

  /** The local variables of the option loop. */
  datatype Vars = Vars(prefs: ParsedArgs, isHelp: bool)

  const Initial := Vars(ParsedArgs(false, "", "", "", ".", "", false, false, false, false, [], []), false)

  /** One case of the switch, variable by variable: the option `opt` (after the
      rewrite), whether it was negated, and the value argument after it when it
      takes one. Each option sets its own variable and no other. */
  function Apply(v: Vars, k: OptKind, opt: string, negated: bool, value: string): Vars
  {
    var p := v.prefs;
    Vars(ParsedArgs(
      useEc2Role := if k == Ec2Role then !negated else p.useEc2Role,
      awsProfile := if k == Profile then value else p.awsProfile,
      awsRegion := if k == Region then value else p.awsRegion,
      ssmCmd := if k == Command then opt else p.ssmCmd,
      confDir := if k == ConfDir then value else p.confDir,
      keyIdPutAll := if k == KeyId then value else p.keyIdPutAll,
      overwritePut := if k == Overwrite then !negated else p.overwritePut,
      clearOnPut := if k == Clear then !negated else p.clearOnPut,
      noStoreSecureString := if k == StoreSecure then negated else p.noStoreSecureString,
      noPutSecureString := if k == PutSecure then negated else p.noPutSecureString,
      filenames := if k == Filename then p.filenames + [value] else p.filenames,
      prefixes := if k == Prefix then p.prefixes + [value] else p.prefixes),
      isHelp := v.isHelp || k == Help)
  }

  datatype Scan = Continue(vars: Vars) | Stop(outcome: ParseOutcome)

  /** The option loop from argument i on (argument 0 is the program name). */
  function RunScan(args: seq<string>, i: nat, v: Vars): Scan
    decreases |args| - i
  {
    if i >= |args| then Continue(v)
    else
      var (opt, negated) := Normalize(args[i]);
      if Kind(opt) == Unknown then Stop(Fatal("Unrecognized option " + opt))
      else if TakesValue(Kind(opt)) then
        if i + 1 >= |args| then Stop(IndexOutOfRange(i + 1))
        else RunScan(args, i + 2, Apply(v, Kind(opt), opt, negated, args[i + 1]))
      else RunScan(args, i + 1, Apply(v, Kind(opt), opt, negated, ""))
  }

  /** The checks after the loop, in the order the code makes them. The conversion
      of the configuration directory to an absolute path is not modelled. */
  function Check(v: Vars): ParseOutcome
  {
    if v.isHelp then Exit(0)
    else if |v.prefs.ssmCmd| == 0 then Exit(1)
    else if |v.prefs.prefixes| == 0 then Fatal("At least one -s/--starts-with path is required, like /ecs/dev/myapp")
    else if |v.prefs.filenames| == 0 then Fatal("At least one -f/--filename argument is required, like instance.properties")
    else Parsed(v.prefs)
  }

  /** What parseArgs makes of the process arguments os.Args. */
  function Parse(args: seq<string>): ParseOutcome
  {
    match RunScan(args, 1, Initial)
    case Stop(outcome) => outcome
    case Continue(v) => Check(v)
  }

  /** The switch of the option loop on one option, given the value argument that
      follows it when the option takes one: each case updates its own variable. */
  method Switch(v: Vars, opt: string, isNoOpt: bool, value: string) returns (r: Vars)
    requires Kind(opt) != Unknown
    ensures r == Apply(v, Kind(opt), opt, isNoOpt, value)
  {
    r := v;
    match Kind(opt)
    case Help => r := r.(isHelp := true);
    case Profile => r := r.(prefs := r.prefs.(awsProfile := value));
    case Region => r := r.(prefs := r.prefs.(awsRegion := value));
    case Ec2Role => r := r.(prefs := r.prefs.(useEc2Role := !isNoOpt));
    case ConfDir => r := r.(prefs := r.prefs.(confDir := value));
    case Filename => r := r.(prefs := r.prefs.(filenames := r.prefs.filenames + [value]));
    case Prefix => r := r.(prefs := r.prefs.(prefixes := r.prefs.prefixes + [value]));
    case KeyId => r := r.(prefs := r.prefs.(keyIdPutAll := value));
    case Overwrite => r := r.(prefs := r.prefs.(overwritePut := !isNoOpt));
    case Clear => r := r.(prefs := r.prefs.(clearOnPut := !isNoOpt));
    case StoreSecure => r := r.(prefs := r.prefs.(noStoreSecureString := isNoOpt));
    case PutSecure => r := r.(prefs := r.prefs.(noPutSecureString := isNoOpt));
    case Command => r := r.(prefs := r.prefs.(ssmCmd := opt));
  }

  /** One turn of the option loop at argument i, as RunScan takes it. */
  lemma ScanStep(args: seq<string>, i: nat, v: Vars)
    requires i < |args|
    ensures var (opt, negated) := Normalize(args[i]);
      (Kind(opt) == Unknown ==> RunScan(args, i, v) == Stop(Fatal("Unrecognized option " + opt))) &&
      (Kind(opt) != Unknown && TakesValue(Kind(opt)) && i + 1 >= |args| ==>
        RunScan(args, i, v) == Stop(IndexOutOfRange(i + 1))) &&
      (Kind(opt) != Unknown && TakesValue(Kind(opt)) && i + 1 < |args| ==>
        RunScan(args, i, v) == RunScan(args, i + 2, Apply(v, Kind(opt), opt, negated, args[i + 1]))) &&
      (Kind(opt) != Unknown && !TakesValue(Kind(opt)) ==>
        RunScan(args, i, v) == RunScan(args, i + 1, Apply(v, Kind(opt), opt, negated, "")))
  {
  }

  /** parseArgs: the option loop, then the checks. */
  method ParseArgs(args: seq<string>) returns (r: ParseOutcome)
    ensures r == Parse(args)
  {
    var scan := OptionLoop(args);
    if scan.Stop? {
      return scan.outcome;
    }
    var v := scan.vars;
    if v.isHelp {
      return Exit(0);
    }
    if |v.prefs.ssmCmd| == 0 {
      return Exit(1);
    }
    if |v.prefs.prefixes| == 0 {
      return Fatal("At least one -s/--starts-with path is required, like /ecs/dev/myapp");
    }
    if |v.prefs.filenames| == 0 {
      return Fatal("At least one -f/--filename argument is required, like instance.properties");
    }
    return Parsed(v.prefs);
  }

  /** The option loop of parseArgs. */
  method OptionLoop(args: seq<string>) returns (r: Scan)
    ensures r == RunScan(args, 1, Initial)
  {
    var v := Initial;
    var i := 1;
    while i < |args|
      invariant i >= 1
      invariant RunScan(args, 1, Initial) == RunScan(args, i, v)
      decreases |args| - i
    {
      var scan, next := OptionTurn(args, i, v);
      if scan.Stop? {
        return scan;
      }
      v, i := scan.vars, next;
    }
    return Continue(v);
  }

  /** One turn of the option loop with its manually advanced index: a
      value-taking option consumes the next argument, and reading past the end
      panics. */
  method OptionTurn(args: seq<string>, i: nat, v: Vars) returns (r: Scan, next: nat)
    requires 1 <= i < |args|
    ensures next > i
    ensures r.Stop? ==> r == RunScan(args, i, v)
    ensures r.Continue? ==> RunScan(args, i, v) == RunScan(args, next, r.vars)
  {
    var opt := args[i];
    var isNoOpt := HasPrefix(opt, NoOptPrefix);
    if isNoOpt {
      opt := "--" + TrimPrefix(opt, NoOptPrefix);
    }
    assert (opt, isNoOpt) == Normalize(args[i]);
    ScanStep(args, i, v);
    if Kind(opt) == Unknown {
      return Stop(Fatal("Unrecognized option " + opt)), i + 1;
    }
    if TakesValue(Kind(opt)) {
      if i + 1 >= |args| {
        return Stop(IndexOutOfRange(i + 1)), i + 1;
      }
      assert RunScan(args, i, v) == RunScan(args, i + 2, Apply(v, Kind(opt), opt, isNoOpt, args[i + 1]));
      var v' := Switch(v, opt, isNoOpt, args[i + 1]);
      return Continue(v'), i + 2;
    }
    assert RunScan(args, i, v) == RunScan(args, i + 1, Apply(v, Kind(opt), opt, isNoOpt, ""));
    var v' := Switch(v, opt, isNoOpt, "");
    return Continue(v'), i + 1;
  }

  /** The arguments read as a sequence of options, each with its value argument
      when it takes one: the reading the option loop makes, without its effect. */
  datatype Token = Token(kind: OptKind, opt: string, negated: bool, value: string)

  datatype Tokens = Tokens(ts: seq<Token>) | BadOption(opt: string) | MissingValue(index: nat)

  function Prepend(t: Token, r: Tokens): Tokens
  {
    if r.Tokens? then Tokens([t] + r.ts) else r
  }

  function Tokenize(args: seq<string>, i: nat): Tokens
    decreases |args| - i
  {
    if i >= |args| then Tokens([])
    else
      var (opt, negated) := Normalize(args[i]);
      if Kind(opt) == Unknown then BadOption(opt)
      else if TakesValue(Kind(opt)) then
        if i + 1 >= |args| then MissingValue(i + 1)
        else Prepend(Token(Kind(opt), opt, negated, args[i + 1]), Tokenize(args, i + 2))
      else Prepend(Token(Kind(opt), opt, negated, ""), Tokenize(args, i + 1))
  }

  /** The last token of kind `k`, if any. */
  function Last(ts: seq<Token>, k: OptKind): Option<Token>
  {
    if ts == [] then None
    else if ts[|ts| - 1].kind == k then Some(ts[|ts| - 1])
    else Last(ts[..|ts| - 1], k)
  }

  /** The values of all tokens of kind `k`, in order. */
  function Values(ts: seq<Token>, k: OptKind): seq<string>
  {
    if ts == [] then []
    else Values(ts[..|ts| - 1], k) + (if ts[|ts| - 1].kind == k then [ts[|ts| - 1].value] else [])
  }

  /** The value of the last option of a kind, or a default. */
  function LastValue(ts: seq<Token>, k: OptKind, default: string): string
  {
    var t := Last(ts, k);
    if t.Some? then t.value.value else default
  }

  /** Whether the last option of a kind was given in its "--no-" form, or a default. */
  function LastNegated(ts: seq<Token>, k: OptKind, default: bool): bool
  {
    var t := Last(ts, k);
    if t.Some? then t.value.negated else default
  }

  /** The preferences the tokens give, starting from `p`: single-valued options
      and switches are settled by their last occurrence, -f and -s collect every
      value in order, --use-ec2-role, --overwrite-put and --clear-on-put are on
      unless negated, the two secure-string options record that they were negated,
      and the last operation word is the command. */
  function Summary(p: ParsedArgs, ts: seq<Token>): ParsedArgs
  {
    ParsedArgs(
      useEc2Role := !LastNegated(ts, Ec2Role, !p.useEc2Role),
      awsProfile := LastValue(ts, Profile, p.awsProfile),
      awsRegion := LastValue(ts, Region, p.awsRegion),
      ssmCmd := (var c := Last(ts, Command); if c.Some? then c.value.opt else p.ssmCmd),
      confDir := LastValue(ts, ConfDir, p.confDir),
      keyIdPutAll := LastValue(ts, KeyId, p.keyIdPutAll),
      overwritePut := !LastNegated(ts, Overwrite, !p.overwritePut),
      clearOnPut := !LastNegated(ts, Clear, !p.clearOnPut),
      noStoreSecureString := LastNegated(ts, StoreSecure, p.noStoreSecureString),
      noPutSecureString := LastNegated(ts, PutSecure, p.noPutSecureString),
      filenames := p.filenames + Values(ts, Filename),
      prefixes := p.prefixes + Values(ts, Prefix))
  }

  /** The loop applies the tokens one by one. */
  function Fold(v: Vars, ts: seq<Token>): Vars
    decreases |ts|
  {
    if ts == [] then v else Fold(Apply(v, ts[0].kind, ts[0].opt, ts[0].negated, ts[0].value), ts[1..])
  }

  lemma {:induction false} FoldSnoc(v: Vars, ts: seq<Token>, t: Token)
    ensures Fold(v, ts + [t]) == Apply(Fold(v, ts), t.kind, t.opt, t.negated, t.value)
    decreases |ts|
  {
    if ts == [] {
      assert ([] + [t])[1..] == [];
    } else {
      assert (ts + [t])[1..] == ts[1..] + [t];
      FoldSnoc(Apply(v, ts[0].kind, ts[0].opt, ts[0].negated, ts[0].value), ts[1..], t);
    }
  }

  lemma LastSnoc(ts: seq<Token>, t: Token, k: OptKind)
    ensures Last(ts + [t], k) == if t.kind == k then Some(t) else Last(ts, k)
    ensures Values(ts + [t], k) == Values(ts, k) + if t.kind == k then [t.value] else []
  {
    assert (ts + [t])[..|ts|] == ts;
  }

  /** Each option moves only its own part of the summary: first the flags and
      single values, then the two lists. */
  lemma SummaryStepValues(v: Vars, ts: seq<Token>, t: Token)
    ensures var a := Apply(Vars(Summary(v.prefs, ts), v.isHelp || Last(ts, Help).Some?), t.kind, t.opt, t.negated, t.value);
      var b := Vars(Summary(v.prefs, ts + [t]), v.isHelp || Last(ts + [t], Help).Some?);
      a.isHelp == b.isHelp && a.prefs.useEc2Role == b.prefs.useEc2Role && a.prefs.awsProfile == b.prefs.awsProfile &&
      a.prefs.awsRegion == b.prefs.awsRegion && a.prefs.ssmCmd == b.prefs.ssmCmd && a.prefs.confDir == b.prefs.confDir
  {
    var a := Apply(Vars(Summary(v.prefs, ts), v.isHelp || Last(ts, Help).Some?), t.kind, t.opt, t.negated, t.value);
    var b := Vars(Summary(v.prefs, ts + [t]), v.isHelp || Last(ts + [t], Help).Some?);

    assert a.isHelp == b.isHelp by { LastSnoc(ts, t, Help); }
    assert a.prefs.useEc2Role == b.prefs.useEc2Role by { LastSnoc(ts, t, Ec2Role); }
    assert a.prefs.awsProfile == b.prefs.awsProfile by { LastSnoc(ts, t, Profile); }
    assert a.prefs.awsRegion == b.prefs.awsRegion by { LastSnoc(ts, t, Region); }
    assert a.prefs.ssmCmd == b.prefs.ssmCmd by { LastSnoc(ts, t, Command); }
    assert a.prefs.confDir == b.prefs.confDir by { LastSnoc(ts, t, ConfDir); }
  }

  lemma SummaryStepSwitches(v: Vars, ts: seq<Token>, t: Token)
    ensures var a := Apply(Vars(Summary(v.prefs, ts), v.isHelp || Last(ts, Help).Some?), t.kind, t.opt, t.negated, t.value);
      var b := Vars(Summary(v.prefs, ts + [t]), v.isHelp || Last(ts + [t], Help).Some?);
      a.prefs.keyIdPutAll == b.prefs.keyIdPutAll && a.prefs.overwritePut == b.prefs.overwritePut &&
      a.prefs.clearOnPut == b.prefs.clearOnPut && a.prefs.noStoreSecureString == b.prefs.noStoreSecureString &&
      a.prefs.noPutSecureString == b.prefs.noPutSecureString
  {
    var a := Apply(Vars(Summary(v.prefs, ts), v.isHelp || Last(ts, Help).Some?), t.kind, t.opt, t.negated, t.value);
    var b := Vars(Summary(v.prefs, ts + [t]), v.isHelp || Last(ts + [t], Help).Some?);

    assert a.prefs.keyIdPutAll == b.prefs.keyIdPutAll by { LastSnoc(ts, t, KeyId); }
    assert a.prefs.overwritePut == b.prefs.overwritePut by { LastSnoc(ts, t, Overwrite); }
    assert a.prefs.clearOnPut == b.prefs.clearOnPut by { LastSnoc(ts, t, Clear); }
    assert a.prefs.noStoreSecureString == b.prefs.noStoreSecureString by { LastSnoc(ts, t, StoreSecure); }
    assert a.prefs.noPutSecureString == b.prefs.noPutSecureString by { LastSnoc(ts, t, PutSecure); }
  }

  lemma ListAssoc(a: seq<string>, b: seq<string>, c: seq<string>)
    ensures a + b + c == a + (b + c)
  {
  }

  lemma SummaryStepLists(v: Vars, ts: seq<Token>, t: Token)
    ensures var a := Apply(Vars(Summary(v.prefs, ts), v.isHelp || Last(ts, Help).Some?), t.kind, t.opt, t.negated, t.value);
      var b := Vars(Summary(v.prefs, ts + [t]), v.isHelp || Last(ts + [t], Help).Some?);
      a.prefs.filenames == b.prefs.filenames && a.prefs.prefixes == b.prefs.prefixes
  {
    var a := Apply(Vars(Summary(v.prefs, ts), v.isHelp || Last(ts, Help).Some?), t.kind, t.opt, t.negated, t.value);
    var b := Vars(Summary(v.prefs, ts + [t]), v.isHelp || Last(ts + [t], Help).Some?);

    assert a.prefs.filenames == b.prefs.filenames by {
      LastSnoc(ts, t, Filename);
      var w := if t.kind == Filename then [t.value] else [];
      ListAssoc(v.prefs.filenames, Values(ts, Filename), w);
    }
    assert a.prefs.prefixes == b.prefs.prefixes by {
      LastSnoc(ts, t, Prefix);
      var w := if t.kind == Prefix then [t.value] else [];
      ListAssoc(v.prefs.prefixes, Values(ts, Prefix), w);
    }
  }

  lemma SummaryStep(v: Vars, ts: seq<Token>, t: Token)
    ensures Apply(Vars(Summary(v.prefs, ts), v.isHelp || Last(ts, Help).Some?), t.kind, t.opt, t.negated, t.value)
         == Vars(Summary(v.prefs, ts + [t]), v.isHelp || Last(ts + [t], Help).Some?)
  {
    SummaryStepValues(v, ts, t);
    SummaryStepSwitches(v, ts, t);
    SummaryStepLists(v, ts, t);
  }


  lemma {:induction false} FoldSummary(v: Vars, ts: seq<Token>)
    ensures Fold(v, ts) == Vars(Summary(v.prefs, ts), v.isHelp || Last(ts, Help).Some?)
    decreases |ts|
  {
    if ts != [] {
      var init := ts[..|ts| - 1];
      var t := ts[|ts| - 1];
      assert ts == init + [t];
      FoldSnoc(v, init, t);
      FoldSummary(v, init);
      SummaryStep(v, init, t);
    }
  }

  lemma {:induction false} ScanTokens(args: seq<string>, i: nat, v: Vars)
    ensures RunScan(args, i, v) ==
      match Tokenize(args, i)
      case Tokens(ts) => Continue(Fold(v, ts))
      case BadOption(opt) => Stop(Fatal("Unrecognized option " + opt))
      case MissingValue(k) => Stop(IndexOutOfRange(k))
    decreases |args| - i
  {
    if i < |args| {
      var (opt, negated) := Normalize(args[i]);
      if Kind(opt) != Unknown {
        if TakesValue(Kind(opt)) {
          if i + 1 < |args| {
            var t := Token(Kind(opt), opt, negated, args[i + 1]);
            ScanTokens(args, i + 2, Apply(v, Kind(opt), opt, negated, args[i + 1]));
            var r := Tokenize(args, i + 2);
            if r.Tokens? { assert ([t] + r.ts)[1..] == r.ts; }
          }
        } else {
          var t := Token(Kind(opt), opt, negated, "");
          ScanTokens(args, i + 1, Apply(v, Kind(opt), opt, negated, ""));
          var r := Tokenize(args, i + 1);
          if r.Tokens? { assert ([t] + r.ts)[1..] == r.ts; }
        }
      }
    }
  }

  /** A value-taking option can only lack its value when it is the last argument. */
  lemma {:induction false} MissingValueAtEnd(args: seq<string>, i: nat)
    ensures Tokenize(args, i).MissingValue? ==> Tokenize(args, i).index == |args|
    decreases |args| - i
  {
    if i < |args| {
      MissingValueAtEnd(args, i + 1);
      MissingValueAtEnd(args, i + 2);
    }
  }

  /** What parseArgs yields, stated over the options given: an unknown option is
      fatal and a value-taking option as the last argument reads past the argument
      list; otherwise the preferences are those of Summary, and the checks come in
      order: help exits 0 (even without a command), a missing command exits 1, then
      no -s prefix is fatal, then no -f filename is fatal. */
  lemma ParseByTokens(args: seq<string>)
    ensures match Tokenize(args, 1)
      case BadOption(opt) => Parse(args) == Fatal("Unrecognized option " + opt)
      case MissingValue(k) => Parse(args) == IndexOutOfRange(k) && k == |args|
      case Tokens(ts) =>
        var p := Summary(Initial.prefs, ts);
        Parse(args) ==
          if Last(ts, Help).Some? then Exit(0)
          else if p.ssmCmd == "" then Exit(1)
          else if p.prefixes == [] then Fatal("At least one -s/--starts-with path is required, like /ecs/dev/myapp")
          else if p.filenames == [] then Fatal("At least one -f/--filename argument is required, like instance.properties")
          else Parsed(p)
  {
    ScanTokens(args, 1, Initial);
    MissingValueAtEnd(args, 1);
    if Tokenize(args, 1).Tokens? {
      FoldSummary(Initial, Tokenize(args, 1).ts);
    }
  }
}
