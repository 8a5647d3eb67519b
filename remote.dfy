/** An abstract AWS Systems Manager parameter store, standing in for the SDK client
    the tool talks to: the parameters it holds, the log of the put and delete
    requests it has received, and fixed answers to the read-only calls (the pages of
    a GetParametersByPath listing and the result of DescribeParameters). */
module Remote {
  import opened Wrappers

  datatype ParamType = StringParam | StringListParam | SecureStringParam

  /** A parameter as a listing returns it (decrypted). */
  datatype Parameter = Parameter(name: string, ptype: ParamType, value: string)

  /** What the store keeps under a name. */
  datatype Stored = Stored(ptype: ParamType, value: string, keyId: Option<string>)

  /** The two mutating calls: PutParameter and DeleteParameters. */
  datatype Request =
    | PutRequest(name: string, value: string, ptype: ParamType, keyId: Option<string>, overwrite: bool)
    | DeleteRequest(names: seq<string>)

  /** The outcome of paging through GetParametersByPath: the pages fetched, and the
      error that ended the paging, if any. */
  datatype Listing = Listing(pages: seq<seq<Parameter>>, err: Option<string>)

  /** The outcome of DescribeParameters filtered to one name: the KeyId field of each
      parameter it describes. */
  datatype Description = DescribeFailed(err: string) | Described(keyIds: seq<Option<string>>)

  /** DeleteParameters accepts between 1 and 10 names per request. */
  const MaxDeleteNames := 10

  const RefusedError := "request refused by the parameter store"

  /** Whether the store accepts a request: a put of a name the store refuses, or of
      an existing name without the overwrite flag, fails; so does a delete naming a
      refused name or more names than one request may carry. */
  predicate Accepts(refused: set<string>, params: map<string, Stored>, req: Request)
  {
    match req
    case PutRequest(name, _, _, _, overwrite) => name !in refused && (overwrite || name !in params)
    case DeleteRequest(names) => 1 <= |names| <= MaxDeleteNames && forall n :: n in names ==> n !in refused
  }

  /** The parameters after an accepted request. */
  function Apply(params: map<string, Stored>, req: Request): (r: map<string, Stored>)
    ensures req.PutRequest? ==> r.Keys == params.Keys + {req.name}
    ensures req.DeleteRequest? ==> r.Keys == params.Keys - set n | n in req.names
  {
    match req
    case PutRequest(name, value, ptype, keyId, _) => params[name := Stored(ptype, value, keyId)]
    case DeleteRequest(names) => params - set n | n in names
  }

  /** One step of a planned exchange with the store: a request to send, or an error
      (a failed listing) that ends the exchange before anything more is sent. */
  datatype Step = Issue(req: Request) | Abort(err: string)

  datatype Outcome = Outcome(sent: seq<Request>, params: map<string, Stored>, err: Option<string>)

  /** Carrying out a planned exchange: the steps are taken in order until the first
      abort or refused request; a refused request has still been sent. */
  function Run(refused: set<string>, params: map<string, Stored>, steps: seq<Step>): Outcome
    decreases |steps|
  {
    if steps == [] then Outcome([], params, None)
    else match steps[0]
      case Abort(e) => Outcome([], params, Some(e))
      case Issue(req) =>
        if !Accepts(refused, params, req) then Outcome([req], params, Some(RefusedError))
        else
          var o := Run(refused, Apply(params, req), steps[1..]);
          Outcome([req] + o.sent, o.params, o.err)
  }

  /** Concatenating request logs is associative. */
  lemma LogAssoc(a: seq<Request>, b: seq<Request>, c: seq<Request>)
    ensures a + (b + c) == a + b + c
  {
  }

  /** Running two plans one after the other: the second one starts only if the first
      ended without error. */
  lemma {:induction false} RunAppend(refused: set<string>, params: map<string, Stored>, a: seq<Step>, b: seq<Step>)
    ensures Run(refused, params, a + b) ==
      var o := Run(refused, params, a);
      if o.err.Some? then o
      else var o2 := Run(refused, o.params, b); Outcome(o.sent + o2.sent, o2.params, o2.err)
    decreases |a|
  {
    if a == [] {
      assert a + b == b;
    } else {
      assert (a + b)[0] == a[0];
      assert (a + b)[1..] == a[1..] + b;
      if a[0].Issue? && Accepts(refused, params, a[0].req) {
        var p := Apply(params, a[0].req);
        RunAppend(refused, p, a[1..], b);
        var o := Run(refused, p, a[1..]);
        if o.err.None? {
          LogAssoc([a[0].req], o.sent, Run(refused, o.params, b).sent);
        }
      }
    }
  }

  /** A plan that failed is not continued. */
  lemma RunStops(refused: set<string>, params: map<string, Stored>, a: seq<Step>, b: seq<Step>)
    requires Run(refused, params, a).err.Some?
    ensures Run(refused, params, a + b) == Run(refused, params, a)
  {
    RunAppend(refused, params, a, b);
  }

  /** A plan that succeeded is followed by the next one, from the state it left. */
  lemma RunThen(refused: set<string>, params: map<string, Stored>, a: seq<Step>, b: seq<Step>)
    requires Run(refused, params, a).err.None?
    ensures Run(refused, params, a + b) ==
      Outcome(Run(refused, params, a).sent + Run(refused, Run(refused, params, a).params, b).sent,
              Run(refused, Run(refused, params, a).params, b).params,
              Run(refused, Run(refused, params, a).params, b).err)
  {
    RunAppend(refused, params, a, b);
  }

  /** The requests of a plan, in order. */
  function Requests(steps: seq<Step>): seq<Request>
  {
    if steps == [] then []
    else (if steps[0].Issue? then [steps[0].req] else []) + Requests(steps[1..])
  }

  /** Step k is where the plan stops: every step before it went through, and it is
      an abort or a request the store refuses. */
  predicate FailsAt(refused: set<string>, params: map<string, Stored>, steps: seq<Step>, k: nat)
    requires k < |steps|
  {
    var before := Run(refused, params, steps[..k]);
    before.err.None? && (steps[k].Abort? || !Accepts(refused, before.params, steps[k].req))
  }

  /** A plan that ends without error sends all of its requests. */
  lemma {:induction false} RunSendsAll(refused: set<string>, params: map<string, Stored>, steps: seq<Step>)
    requires Run(refused, params, steps).err.None?
    ensures Run(refused, params, steps).sent == Requests(steps)
    decreases |steps|
  {
    if steps != [] && steps[0].Issue? {
      RunSendsAll(refused, Apply(params, steps[0].req), steps[1..]);
    }
  }

  /** A plan that fails sends exactly the requests up to the step where it stops,
      and leaves the store as the steps before that one left it. */
  lemma {:induction false} RunFailsAt(refused: set<string>, params: map<string, Stored>, steps: seq<Step>)
    requires Run(refused, params, steps).err.Some?
    ensures exists k :: (0 <= k < |steps| && FailsAt(refused, params, steps, k) &&
                         Run(refused, params, steps).sent == Requests(steps[..k + 1]) &&
                         Run(refused, params, steps).params == Run(refused, params, steps[..k]).params)
    decreases |steps|
  {
    assert steps[..0] == [];
    assert steps[..1] == [steps[0]];
    assert Requests(steps[..1]) == (if steps[0].Issue? then [steps[0].req] else []) by {
      assert steps[..1][1..] == [];
    }
    if steps[0].Issue? && Accepts(refused, params, steps[0].req) {
      var p1 := Apply(params, steps[0].req);
      var rest := steps[1..];
      RunFailsAt(refused, p1, rest);
      var k :| 0 <= k < |rest| && FailsAt(refused, p1, rest, k) &&
        Run(refused, p1, rest).sent == Requests(rest[..k + 1]) &&
        Run(refused, p1, rest).params == Run(refused, p1, rest[..k]).params;
      assert steps[..k + 2][1..] == rest[..k + 1];
      assert steps[..k + 1][1..] == rest[..k];
      assert steps[..k + 1][0] == steps[0];
      assert steps[..k + 2][0] == steps[0];
      assert FailsAt(refused, params, steps, k + 1);
    } else {
      assert FailsAt(refused, params, steps, 0);
    }
  }

  /** Both ends of a plan: all of its requests sent, or those up to the first
      failing step. */
  lemma RunStopsAtFirstFailure(refused: set<string>, params: map<string, Stored>, steps: seq<Step>)
    ensures var o := Run(refused, params, steps);
      (o.err.None? ==> o.sent == Requests(steps)) &&
      (o.err.Some? ==> exists k :: (0 <= k < |steps| && FailsAt(refused, params, steps, k) &&
                                    o.sent == Requests(steps[..k + 1]) &&
                                    o.params == Run(refused, params, steps[..k]).params))
  {
    if Run(refused, params, steps).err.None? {
      RunSendsAll(refused, params, steps);
    } else {
      RunFailsAt(refused, params, steps);
    }
  }

  /** A plan none of whose requests is a put. */
  predicate DeletesOnly(steps: seq<Step>)
  {
    forall i :: 0 <= i < |steps| && steps[i].Issue? ==> steps[i].req.DeleteRequest?
  }

  /** Carrying out a plan without puts sends no put. */
  lemma {:induction false} RunSendsDeletesOnly(refused: set<string>, params: map<string, Stored>, steps: seq<Step>)
    requires DeletesOnly(steps)
    ensures forall req :: req in Run(refused, params, steps).sent ==> req.DeleteRequest?
    decreases |steps|
  {
    if steps != [] && steps[0].Issue? && Accepts(refused, params, steps[0].req) {
      assert DeletesOnly(steps[1..]) by {
        forall i | 0 <= i < |steps[1..]| && steps[1..][i].Issue? ensures steps[1..][i].req.DeleteRequest? {
          assert steps[1..][i] == steps[i + 1];
        }
      }
      RunSendsDeletesOnly(refused, Apply(params, steps[0].req), steps[1..]);
    }
  }

  /** The store. Its contents and its request log change with each put or delete;
      the names it refuses and its answers to listing and describe calls are fixed
      for the run. */
  class ParameterStore {
    var params: map<string, Stored>
    var log: seq<Request>
    const refused: set<string>
    const listing: string -> Listing
    const describe: string -> Description

    constructor (params0: map<string, Stored>, refused: set<string>, listing: string -> Listing, describe: string -> Description)
      ensures params == params0 && log == []
      ensures this.refused == refused && this.listing == listing && this.describe == describe
    {
      params := params0;
      log := [];
      this.refused := refused;
      this.listing := listing;
      this.describe := describe;
    }

    /** Sends one PutParameter or DeleteParameters request. */
    method Send(req: Request) returns (err: Option<string>)
      modifies this
      ensures log == old(log) + [req]
      ensures Run(refused, old(params), [Issue(req)]) == Outcome([req], params, err)
      ensures err.None? <==> Accepts(refused, old(params), req)
    {
      log := log + [req];
      if Accepts(refused, params, req) {
        params := Apply(params, req);
        err := None;
      } else {
        err := Some(RefusedError);
      }
      assert [Issue(req)][1..] == [];
    }
  }
}
