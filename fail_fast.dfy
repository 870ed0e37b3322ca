/** The fan-out shared by every query: run one collaborator per id, in order,
    and stop at the first error (Rust's `?` inside a `for` loop, or `collect`
    into a `Result`). The collaborator `f` is applied to a fixed context `ctx`
    and each id. A `Run` pairs the outcome with the trace of the collaborator
    calls that were made. */
module FailFast {
  import opened Wrappers
  import opened Programs

  /** Which collaborator a traced call went to. */
  datatype CallKind =
    | Priorities  // `CoherenceSolver::specialization_priorities`, per trait
    | Orphan      // `orphan::perform_orphan_check`, per local impl
    | WfStruct    // `WfSolver::verify_struct_decl`, per struct
    | WfImpl      // `WfSolver::verify_trait_impl`, per impl

  datatype Call = Call(kind: CallKind, id: RawId)

  datatype Run<T> = Run(result: Result<T>, calls: seq<Call>)

  /** One call of `kind` per id, in the order of `ids`. */
  function Calls(kind: CallKind, ids: seq<RawId>): seq<Call> {
    if ids == [] then [] else [Call(kind, ids[0])] + Calls(kind, ids[1..])
  }

  lemma {:induction false} CallsAppend(kind: CallKind, ids: seq<RawId>, id: RawId)
    ensures Calls(kind, ids + [id]) == Calls(kind, ids) + [Call(kind, id)]
  {
    if ids != [] {
      assert (ids + [id])[1..] == ids[1..] + [id];
      CallsAppend(kind, ids[1..], id);
    }
  }

  ghost predicate AllOk<C, V>(f: (C, RawId) -> Result<V>, ctx: C, ids: seq<RawId>) {
    forall k :: 0 <= k < |ids| ==> f(ctx, ids[k]).Ok?
  }

  /** `ids[k]` is the first id on which `f` fails. */
  ghost predicate FirstFailureAt<C, V>(f: (C, RawId) -> Result<V>, ctx: C, ids: seq<RawId>, k: int) {
    0 <= k < |ids| && f(ctx, ids[k]).Err? && AllOk(f, ctx, ids[..k])
  }

  /** `ids.map(f).collect::<Result<BTreeMap<_, _>, _>>()`. */
  function Collect<C, V>(kind: CallKind, f: (C, RawId) -> Result<V>, ctx: C, ids: seq<RawId>): Run<map<RawId, V>>
    decreases |ids|
  {
    if ids == [] then Run(Ok(map[]), [])
    else
      var call := Call(kind, ids[0]);
      match f(ctx, ids[0])
      case Err(e) => Run(Err(e), [call])
      case Ok(v) =>
        var rest := Collect(kind, f, ctx, ids[1..]);
        match rest.result
        case Err(e) => Run(Err(e), [call] + rest.calls)
        case Ok(m) => Run(Ok(m[ids[0] := v]), [call] + rest.calls)
  }

  /** `for id in ids { check(id)?; } Ok(())`: a collect whose values are discarded. */
  function CheckAll<C>(kind: CallKind, check: (C, RawId) -> Result<()>, ctx: C, ids: seq<RawId>): Run<()> {
    var run := Collect(kind, check, ctx, ids);
    Run(if run.result.Ok? then Ok(()) else Err(run.result.error), run.calls)
  }

  lemma AllOkStep<C, V>(f: (C, RawId) -> Result<V>, ctx: C, ids: seq<RawId>)
    requires ids != []
    ensures AllOk(f, ctx, ids) <==> f(ctx, ids[0]).Ok? && AllOk(f, ctx, ids[1..])
  {
    if f(ctx, ids[0]).Ok? && AllOk(f, ctx, ids[1..]) {
      forall k | 0 < k < |ids|
        ensures f(ctx, ids[k]).Ok?
      {
        assert ids[k] == ids[1..][k - 1];
      }
    }
  }

  /** The collect succeeds exactly when every id succeeds; it then calls
      the collaborator once per id, in order, and maps every id to its value. */
  lemma {:induction false} CollectSucceeds<C, V>(kind: CallKind, f: (C, RawId) -> Result<V>, ctx: C, ids: seq<RawId>)
    ensures Collect(kind, f, ctx, ids).result.Ok? <==> AllOk(f, ctx, ids)
    ensures AllOk(f, ctx, ids) ==>
      var m := Collect(kind, f, ctx, ids).result.value;
      && Collect(kind, f, ctx, ids).calls == Calls(kind, ids)
      && m.Keys == (set id | id in ids)
      && forall id :: id in m ==> f(ctx, id) == Ok(m[id])
    decreases |ids|
  {
    if ids != [] {
      AllOkStep(f, ctx, ids);
      CollectSucceeds(kind, f, ctx, ids[1..]);
      if AllOk(f, ctx, ids) {
        assert Calls(kind, ids) == [Call(kind, ids[0])] + Calls(kind, ids[1..]);
        assert (set id | id in ids) == {ids[0]} + (set id | id in ids[1..]);
      }
    }
  }

  /** At the first failing id the collect stops with that id's error: the
      calls are exactly those up to and including the failing one. */
  lemma {:induction false} CollectFailsFast<C, V>(kind: CallKind, f: (C, RawId) -> Result<V>, ctx: C, ids: seq<RawId>, k: int)
    requires FirstFailureAt(f, ctx, ids, k)
    ensures Collect(kind, f, ctx, ids) == Run(Err(f(ctx, ids[k]).error), Calls(kind, ids[..k + 1]))
    decreases |ids|
  {
    if k == 0 {
      assert Calls(kind, ids[..1]) == [Call(kind, ids[0])];
    } else {
      assert f(ctx, ids[..k][0]).Ok?;
      assert ids[1..][..k - 1] == ids[1..k];
      var tail := ids[1..][..k - 1];
      forall j | 0 <= j < |tail|
        ensures f(ctx, tail[j]).Ok?
      {
        assert tail[j] == ids[..k][j + 1];
      }
      CollectFailsFast(kind, f, ctx, ids[1..], k - 1);
      assert ids[..k + 1][1..] == ids[1..][..k];
    }
  }

  /** Whenever not every id succeeds, some id is the first to fail. */
  lemma {:induction false} FirstFailureExists<C, V>(f: (C, RawId) -> Result<V>, ctx: C, ids: seq<RawId>)
    requires !AllOk(f, ctx, ids)
    ensures exists k :: FirstFailureAt(f, ctx, ids, k)
    decreases |ids|
  {
    AllOkStep(f, ctx, ids);
    if f(ctx, ids[0]).Err? {
      assert FirstFailureAt(f, ctx, ids, 0);
    } else {
      FirstFailureExists(f, ctx, ids[1..]);
      var k :| FirstFailureAt(f, ctx, ids[1..], k);
      var prefix := ids[..k + 1];
      forall j | 0 <= j < |prefix|
        ensures f(ctx, prefix[j]).Ok?
      {
        if j > 0 {
          assert prefix[j] == ids[1..][..k][j - 1];
        }
      }
      assert FirstFailureAt(f, ctx, ids, k + 1);
    }
  }

  /** Whatever the outcome, the calls made are those of a prefix of `ids`. */
  lemma {:induction false} CollectCallsPrefix<C, V>(kind: CallKind, f: (C, RawId) -> Result<V>, ctx: C, ids: seq<RawId>)
    ensures var calls := Collect(kind, f, ctx, ids).calls;
      |calls| <= |ids| && calls == Calls(kind, ids[..|calls|])
    decreases |ids|
  {
    if ids != [] && f(ctx, ids[0]).Ok? {
      CollectCallsPrefix(kind, f, ctx, ids[1..]);
      var n := |Collect(kind, f, ctx, ids[1..]).calls|;
      assert ids[..n + 1][1..] == ids[1..][..n];
    }
  }

  /** The order of the phases of verification: the calls of a later phase
      never precede those of an earlier one. */
  function Phase(kind: CallKind): nat {
    match kind
    case Priorities => 0
    case Orphan => 1
    case WfStruct => 2
    case WfImpl => 3
  }

  ghost predicate PhaseOrdered(calls: seq<Call>) {
    forall i, j :: 0 <= i < j < |calls| ==> Phase(calls[i].kind) <= Phase(calls[j].kind)
  }

  ghost predicate InPhases(calls: seq<Call>, lo: nat, hi: nat) {
    forall k :: 0 <= k < |calls| ==> lo <= Phase(calls[k].kind) <= hi
  }

  lemma {:induction false} CallsOfKind(kind: CallKind, ids: seq<RawId>)
    ensures PhaseOrdered(Calls(kind, ids))
    ensures InPhases(Calls(kind, ids), Phase(kind), Phase(kind))
  {
    if ids != [] {
      CallsOfKind(kind, ids[1..]);
    }
  }

  /** A collect calls one collaborator only, so its calls are in one phase. */
  lemma CollectCallsOrdered<C, V>(kind: CallKind, f: (C, RawId) -> Result<V>, ctx: C, ids: seq<RawId>)
    ensures PhaseOrdered(Collect(kind, f, ctx, ids).calls)
    ensures InPhases(Collect(kind, f, ctx, ids).calls, Phase(kind), Phase(kind))
  {
    CollectCallsPrefix(kind, f, ctx, ids);
    CallsOfKind(kind, ids[..|Collect(kind, f, ctx, ids).calls|]);
  }

  lemma OrderedConcat(a: seq<Call>, b: seq<Call>, p: nat)
    requires PhaseOrdered(a) && PhaseOrdered(b)
    requires InPhases(a, 0, p) && InPhases(b, p, 3)
    ensures PhaseOrdered(a + b) && InPhases(a + b, 0, 3)
  {
  }
}
