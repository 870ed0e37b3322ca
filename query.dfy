/** The derived queries of the lowering database: `program_ir`,
    `orphan_check`, `coherence`, `checked_program` and `environment`.
    Each is computed from the database's two inputs (the program text and the
    solver choice) and the external collaborators, which are opaque here. */
module Query {
  import opened Wrappers
  import opened Programs
  import opened FailFast

  /** Values that only the collaborators construct or inspect. */
  type SyntaxTree
  type SolverChoice
  type SpecializationPriorities
  type ProgramEnvironment

  /** What `CoherenceSolver::new`, `orphan::perform_orphan_check` and
      `WfSolver { .. }` are given besides an item id: the lowered program and
      the solver choice (and the database as clause provider, which is
      determined by the same inputs). */
  datatype SolverContext = SolverContext(program: Program, solverChoice: SolverChoice)

  /** The external algorithms the queries call: the parser, lowering, the
      coherence solver, the orphan check, the well-formedness solver and the
      environment projection of `Program`. */
  datatype Collaborators = Collaborators(
    parseProgram: string -> Result<SyntaxTree>,
    lower: SyntaxTree -> Result<Program>,
    specializationPriorities: (SolverContext, TraitId) -> Result<SpecializationPriorities>,
    performOrphanCheck: (SolverContext, ImplId) -> Result<()>,
    verifyStructDecl: (SolverContext, StructId) -> Result<()>,
    verifyTraitImpl: (SolverContext, ImplId) -> Result<()>,
    environment: Program -> ProgramEnvironment)

  /** The database: its inputs `program_text` and `solver_choice`, and the
      collaborators it hands them to. */
  datatype Database = Database(programText: string, solverChoice: SolverChoice, ext: Collaborators)

  /** `program_ir`: parse the text, then lower the syntax tree. */
  function ProgramIr(db: Database): Result<Program> {
    var tree :- db.ext.parseProgram(db.programText);
    var program :- db.ext.lower(tree);
    Ok(program)
  }

  /** `program_ir` succeeds exactly when parsing and lowering both do;
      otherwise it is the parse error or, after a successful parse, the
      lowering error. */
  lemma ProgramIrOutcome(db: Database)
    ensures var parsed := db.ext.parseProgram(db.programText);
      && (ProgramIr(db).Ok? <==> parsed.Ok? && db.ext.lower(parsed.value).Ok?)
      && (parsed.Err? ==> ProgramIr(db) == Err(parsed.error))
      && (parsed.Ok? ==> ProgramIr(db) == db.ext.lower(parsed.value))
  {
  }

  /** `orphan_check`: the orphan rule on every local impl, in order. */
  function OrphanCheckRun(db: Database): Run<()> {
    match ProgramIr(db)
    case Err(e) => Run(Err(e), [])
    case Ok(program) => CheckAll(Orphan, db.ext.performOrphanCheck, SolverContext(program, db.solverChoice), program.LocalImplIds())
  }

  /** `coherence`: the specialization priorities of every trait, then the
      orphan check. */
  function CoherenceRun(db: Database): Run<map<TraitId, SpecializationPriorities>> {
    match ProgramIr(db)
    case Err(e) => Run(Err(e), [])
    case Ok(program) =>
      var priorities := Collect(Priorities, db.ext.specializationPriorities, SolverContext(program, db.solverChoice), program.TraitIds());
      if priorities.result.Err? then priorities
      else
        var orphan := OrphanCheckRun(db);
        Run(if orphan.result.Ok? then priorities.result else Err(orphan.result.error),
            priorities.calls + orphan.calls)
  }

  /** The body run under `set_current_program` in `checked_program`: every
      struct, then every impl. */
  function WellFormedRun(db: Database, program: Program): Run<()> {
    var solver := SolverContext(program, db.solverChoice);
    var structs := CheckAll(WfStruct, db.ext.verifyStructDecl, solver, program.StructIds());
    if structs.result.Err? then structs
    else
      var impls := CheckAll(WfImpl, db.ext.verifyTraitImpl, solver, program.ImplIds());
      Run(impls.result, structs.calls + impls.calls)
  }

  /** `checked_program`: the lowered program, once coherence and
      well-formedness have been checked. */
  function CheckedProgramRun(db: Database): Run<Program> {
    match ProgramIr(db)
    case Err(e) => Run(Err(e), [])
    case Ok(program) =>
      var coherence := CoherenceRun(db);
      if coherence.result.Err? then Run(Err(coherence.result.error), coherence.calls)
      else
        var wf := WellFormedRun(db, program);
        Run(if wf.result.Ok? then Ok(program) else Err(wf.result.error), coherence.calls + wf.calls)
  }

  /** `environment`: the lowered program as logic. */
  function Environment(db: Database): (r: Result<ProgramEnvironment>)
    ensures r.Ok? <==> ProgramIr(db).Ok?
    ensures r.Ok? ==> r.value == db.ext.environment(ProgramIr(db).value)
    ensures r.Err? ==> r.error == ProgramIr(db).error
  {
    var program :- ProgramIr(db);
    Ok(db.ext.environment(program))
  }

  // ---------------------------------------------------------------------
  // orphan_check

  /** With the program lowered, the orphan check passes exactly when every
      local impl passes, and then it has checked each of them once, in order. */
  lemma OrphanCheckSucceeds(db: Database, program: Program)
    requires ProgramIr(db) == Ok(program)
    ensures var solver := SolverContext(program, db.solverChoice);
      && (OrphanCheckRun(db).result.Ok? <==>
          AllOk(db.ext.performOrphanCheck, solver, program.LocalImplIds()))
      && (OrphanCheckRun(db).result.Ok? ==>
          OrphanCheckRun(db).calls == Calls(Orphan, program.LocalImplIds()))
  {
    CollectSucceeds(Orphan, db.ext.performOrphanCheck, SolverContext(program, db.solverChoice), program.LocalImplIds());
  }

  /** The orphan check reports the first local impl that fails, and checks
      no impl after it. */
  lemma OrphanCheckFailsFast(db: Database, program: Program, k: int)
    requires ProgramIr(db) == Ok(program)
    requires FirstFailureAt(db.ext.performOrphanCheck, SolverContext(program, db.solverChoice), program.LocalImplIds(), k)
    ensures var solver := SolverContext(program, db.solverChoice);
      var localImpls := program.LocalImplIds();
      OrphanCheckRun(db) ==
        Run(Err(db.ext.performOrphanCheck(solver, localImpls[k]).error), Calls(Orphan, localImpls[..k + 1]))
  {
    CollectFailsFast(Orphan, db.ext.performOrphanCheck, SolverContext(program, db.solverChoice), program.LocalImplIds(), k);
  }

  // ---------------------------------------------------------------------
  // coherence

  /** A successful coherence check has exactly one entry per trait of the
      program, holding that trait's specialization priorities. */
  lemma CoherenceCoversEveryTrait(db: Database)
    ensures var run := CoherenceRun(db);
      run.result.Ok? ==>
        && ProgramIr(db).Ok?
        && var program := ProgramIr(db).value;
           && run.result.value.Keys == program.traitData.Keys
           && forall traitId :: traitId in run.result.value ==>
                db.ext.specializationPriorities(SolverContext(program, db.solverChoice), traitId)
                == Ok(run.result.value[traitId])
  {
    if ProgramIr(db).Ok? {
      var program := ProgramIr(db).value;
      var traitIds := program.TraitIds();
      CollectSucceeds(Priorities, db.ext.specializationPriorities, SolverContext(program, db.solverChoice), traitIds);
      SortedKeysSpec(program.traitData.Keys);
      assert (set id | id in traitIds) == program.traitData.Keys;
    }
  }

  /** Coherence reports the first trait, in key order, whose priorities
      cannot be computed; it solves no later trait and never runs the
      orphan check. */
  lemma CoherenceFailsFast(db: Database, program: Program, k: int)
    requires ProgramIr(db) == Ok(program)
    requires FirstFailureAt(db.ext.specializationPriorities, SolverContext(program, db.solverChoice), program.TraitIds(), k)
    ensures var solver := SolverContext(program, db.solverChoice);
      var traitIds := program.TraitIds();
      CoherenceRun(db) ==
        Run(Err(db.ext.specializationPriorities(solver, traitIds[k]).error), Calls(Priorities, traitIds[..k + 1]))
  {
    CollectFailsFast(Priorities, db.ext.specializationPriorities, SolverContext(program, db.solverChoice), program.TraitIds(), k);
  }

  /** Once every trait's priorities are known, coherence runs the orphan
      check and its outcome is that of the orphan check. */
  lemma CoherenceEndsWithOrphanCheck(db: Database, program: Program)
    requires ProgramIr(db) == Ok(program)
    requires AllOk(db.ext.specializationPriorities, SolverContext(program, db.solverChoice), program.TraitIds())
    ensures CoherenceRun(db).calls == Calls(Priorities, program.TraitIds()) + OrphanCheckRun(db).calls
    ensures CoherenceRun(db).result.Ok? <==> OrphanCheckRun(db).result.Ok?
    ensures OrphanCheckRun(db).result.Err? ==> CoherenceRun(db).result == Err(OrphanCheckRun(db).result.error)
  {
    CollectSucceeds(Priorities, db.ext.specializationPriorities, SolverContext(program, db.solverChoice), program.TraitIds());
  }

  /** Coherence succeeds exactly when lowering, every trait's priorities and
      the orphan check all succeed; the orphan check's error can surface only
      when every trait's priorities were computed. */
  lemma CoherenceSucceeds(db: Database)
    ensures CoherenceRun(db).result.Ok? <==>
      && ProgramIr(db).Ok?
      && AllOk(db.ext.specializationPriorities, SolverContext(ProgramIr(db).value, db.solverChoice), ProgramIr(db).value.TraitIds())
      && OrphanCheckRun(db).result.Ok?
    ensures ProgramIr(db).Ok? &&
      !AllOk(db.ext.specializationPriorities, SolverContext(ProgramIr(db).value, db.solverChoice), ProgramIr(db).value.TraitIds())
      ==> InPhases(CoherenceRun(db).calls, 0, 0)
  {
    if ProgramIr(db).Ok? {
      var program := ProgramIr(db).value;
      var solver := SolverContext(program, db.solverChoice);
      if AllOk(db.ext.specializationPriorities, solver, program.TraitIds()) {
        CoherenceEndsWithOrphanCheck(db, program);
      } else {
        FirstFailureExists(db.ext.specializationPriorities, solver, program.TraitIds());
        var k :| FirstFailureAt(db.ext.specializationPriorities, solver, program.TraitIds(), k);
        CoherenceFailsFast(db, program, k);
        CallsOfKind(Priorities, program.TraitIds()[..k + 1]);
      }
    }
  }

  /** All priorities are computed before any orphan check, and coherence
      calls nothing else. */
  lemma CoherenceCallsOrdered(db: Database)
    ensures PhaseOrdered(CoherenceRun(db).calls) && InPhases(CoherenceRun(db).calls, 0, 1)
  {
    if ProgramIr(db).Ok? {
      var program := ProgramIr(db).value;
      var solver := SolverContext(program, db.solverChoice);
      CollectCallsOrdered(Priorities, db.ext.specializationPriorities, solver, program.TraitIds());
      CollectCallsOrdered(Orphan, db.ext.performOrphanCheck, solver, program.LocalImplIds());
      OrderedConcat(
        Collect(Priorities, db.ext.specializationPriorities, solver, program.TraitIds()).calls,
        OrphanCheckRun(db).calls, 1);
    }
  }

  // ---------------------------------------------------------------------
  // checked_program

  /** The well-formedness check reports the first struct that is not
      well-formed and verifies nothing after it. */
  lemma WellFormedFailsAtStruct(db: Database, program: Program, k: int)
    requires FirstFailureAt(db.ext.verifyStructDecl, SolverContext(program, db.solverChoice), program.StructIds(), k)
    ensures var solver := SolverContext(program, db.solverChoice);
      var structIds := program.StructIds();
      WellFormedRun(db, program) ==
        Run(Err(db.ext.verifyStructDecl(solver, structIds[k]).error), Calls(WfStruct, structIds[..k + 1]))
  {
    CollectFailsFast(WfStruct, db.ext.verifyStructDecl, SolverContext(program, db.solverChoice), program.StructIds(), k);
  }

  /** With every struct well-formed, the well-formedness check reports the
      first impl that is not well-formed and verifies nothing after it. */
  lemma WellFormedFailsAtImpl(db: Database, program: Program, k: int)
    requires AllOk(db.ext.verifyStructDecl, SolverContext(program, db.solverChoice), program.StructIds())
    requires FirstFailureAt(db.ext.verifyTraitImpl, SolverContext(program, db.solverChoice), program.ImplIds(), k)
    ensures var solver := SolverContext(program, db.solverChoice);
      var implIds := program.ImplIds();
      WellFormedRun(db, program) ==
        Run(Err(db.ext.verifyTraitImpl(solver, implIds[k]).error),
            Calls(WfStruct, program.StructIds()) + Calls(WfImpl, implIds[..k + 1]))
  {
    var solver := SolverContext(program, db.solverChoice);
    CollectSucceeds(WfStruct, db.ext.verifyStructDecl, solver, program.StructIds());
    CollectFailsFast(WfImpl, db.ext.verifyTraitImpl, solver, program.ImplIds(), k);
  }

  /** The well-formedness check passes exactly when every struct and every
      impl is well-formed, and then it has verified every struct and then
      every impl, once each. */
  lemma WellFormedSucceeds(db: Database, program: Program)
    ensures var solver := SolverContext(program, db.solverChoice);
      WellFormedRun(db, program).result.Ok? <==>
        AllOk(db.ext.verifyStructDecl, solver, program.StructIds()) &&
        AllOk(db.ext.verifyTraitImpl, solver, program.ImplIds())
    ensures WellFormedRun(db, program).result.Ok? ==>
      WellFormedRun(db, program).calls == Calls(WfStruct, program.StructIds()) + Calls(WfImpl, program.ImplIds())
  {
    var solver := SolverContext(program, db.solverChoice);
    CollectSucceeds(WfStruct, db.ext.verifyStructDecl, solver, program.StructIds());
    CollectSucceeds(WfImpl, db.ext.verifyTraitImpl, solver, program.ImplIds());
  }

  /** Every struct is verified before any impl. */
  lemma WellFormedCallsOrdered(db: Database, program: Program)
    ensures PhaseOrdered(WellFormedRun(db, program).calls) && InPhases(WellFormedRun(db, program).calls, 2, 3)
  {
    var solver := SolverContext(program, db.solverChoice);
    var structs := Collect(WfStruct, db.ext.verifyStructDecl, solver, program.StructIds());
    var impls := Collect(WfImpl, db.ext.verifyTraitImpl, solver, program.ImplIds());
    if structs.result.Ok? {
      assert WellFormedRun(db, program).calls == structs.calls + impls.calls;
      assert PhaseOrdered(structs.calls + impls.calls) && InPhases(structs.calls + impls.calls, 2, 3) by {
        CollectCallsOrdered(WfStruct, db.ext.verifyStructDecl, solver, program.StructIds());
        CollectCallsOrdered(WfImpl, db.ext.verifyTraitImpl, solver, program.ImplIds());
        OrderedConcat(structs.calls, impls.calls, 2);
      }
    } else {
      assert WellFormedRun(db, program).calls == structs.calls;
      CollectCallsOrdered(WfStruct, db.ext.verifyStructDecl, solver, program.StructIds());
    }
  }

  /** If coherence fails, `checked_program` returns its error unchanged and
      verifies no struct and no impl. */
  lemma CheckedProgramGatedByCoherence(db: Database)
    requires CoherenceRun(db).result.Err?
    ensures CheckedProgramRun(db) == Run(Err(CoherenceRun(db).result.error), CoherenceRun(db).calls)
    ensures InPhases(CheckedProgramRun(db).calls, 0, 1)
  {
    CoherenceCallsOrdered(db);
  }

  /** `checked_program` succeeds exactly when coherence and then the
      well-formedness check succeed, and it then returns the program that
      `program_ir` produced, unchanged. */
  lemma CheckedProgramReturnsLoweredProgram(db: Database, program: Program)
    requires ProgramIr(db) == Ok(program)
    ensures CheckedProgramRun(db).result.Ok? <==>
      CoherenceRun(db).result.Ok? && WellFormedRun(db, program).result.Ok?
    ensures CheckedProgramRun(db).result.Ok? ==> CheckedProgramRun(db).result == Ok(program)
    ensures CoherenceRun(db).result.Ok? ==>
      CheckedProgramRun(db).calls == CoherenceRun(db).calls + WellFormedRun(db, program).calls
    ensures CoherenceRun(db).result.Ok? && WellFormedRun(db, program).result.Err? ==>
      CheckedProgramRun(db).result == Err(WellFormedRun(db, program).result.error)
  {
  }

  /** The calls of `checked_program` come phase by phase: priorities, orphan
      checks, struct checks, impl checks. In particular every struct is
      verified before any impl, and nothing is verified before coherence. */
  lemma CheckedProgramCallsOrdered(db: Database)
    ensures PhaseOrdered(CheckedProgramRun(db).calls)
  {
    CoherenceCallsOrdered(db);
    if ProgramIr(db).Ok? && CoherenceRun(db).result.Ok? {
      var program := ProgramIr(db).value;
      WellFormedCallsOrdered(db, program);
      OrderedConcat(CoherenceRun(db).calls, WellFormedRun(db, program).calls, 2);
    }
  }

  /** An orphan-rule violation in a program whose priorities are all computed
      is the error of both `coherence` and `checked_program`. */
  lemma OrphanViolationPropagates(db: Database, program: Program)
    requires ProgramIr(db) == Ok(program)
    requires AllOk(db.ext.specializationPriorities, SolverContext(program, db.solverChoice), program.TraitIds())
    requires OrphanCheckRun(db).result.Err?
    ensures CoherenceRun(db).result == Err(OrphanCheckRun(db).result.error)
    ensures CheckedProgramRun(db).result == Err(OrphanCheckRun(db).result.error)
  {
    CoherenceEndsWithOrphanCheck(db, program);
  }

  // ---------------------------------------------------------------------
  // environment

  /** `program_ir` and `environment` read only the program text: the solver
      choice and the coherence and well-formedness collaborators do not
      affect them. */
  lemma EnvironmentIgnoresChecks(db1: Database, db2: Database)
    requires db1.programText == db2.programText
    requires db1.ext.parseProgram == db2.ext.parseProgram && db1.ext.lower == db2.ext.lower
    requires db1.ext.environment == db2.ext.environment
    ensures ProgramIr(db1) == ProgramIr(db2)
    ensures Environment(db1) == Environment(db2)
  {
  }

  /** The imperative `orphan_check`: a loop over the local impls that
      returns at the first error. */
  method OrphanCheck(db: Database) returns (r: Result<()>, ghost calls: seq<Call>)
    ensures r == OrphanCheckRun(db).result
    ensures calls == OrphanCheckRun(db).calls
  {
    calls := [];
    var program :- ProgramIr(db);
    var solver := SolverContext(program, db.solverChoice);
    var localImpls := program.LocalImplIds();
    for i := 0 to |localImpls|
      invariant AllOk(db.ext.performOrphanCheck, solver, localImpls[..i])
      invariant calls == Calls(Orphan, localImpls[..i])
    {
      var implId := localImpls[i];
      var outcome := db.ext.performOrphanCheck(solver, implId);
      calls := calls + [Call(Orphan, implId)];
      assert localImpls[..i + 1] == localImpls[..i] + [implId];
      CallsAppend(Orphan, localImpls[..i], implId);
      if outcome.Err? {
        OrphanCheckFailsFast(db, program, i);
        return Err(outcome.error), calls;
      }
    }
    assert localImpls[..|localImpls|] == localImpls;
    OrphanCheckSucceeds(db, program);
    r := Ok(());
  }

  /** The closure run under `set_current_program` in `checked_program`: a
      loop over the structs, then a loop over the impls, each returning at
      the first error. */
  method VerifyWellFormed(db: Database, program: Program) returns (r: Result<()>, ghost calls: seq<Call>)
    ensures r == WellFormedRun(db, program).result
    ensures calls == WellFormedRun(db, program).calls
  {
    calls := [];
    var solver := SolverContext(program, db.solverChoice);
    var structIds := program.StructIds();
    for i := 0 to |structIds|
      invariant AllOk(db.ext.verifyStructDecl, solver, structIds[..i])
      invariant calls == Calls(WfStruct, structIds[..i])
    {
      var structId := structIds[i];
      var outcome := db.ext.verifyStructDecl(solver, structId);
      calls := calls + [Call(WfStruct, structId)];
      assert structIds[..i + 1] == structIds[..i] + [structId];
      CallsAppend(WfStruct, structIds[..i], structId);
      if outcome.Err? {
        WellFormedFailsAtStruct(db, program, i);
        return Err(outcome.error), calls;
      }
    }
    assert structIds[..|structIds|] == structIds;

    ghost var verified := calls;
    var implIds := program.ImplIds();
    for i := 0 to |implIds|
      invariant AllOk(db.ext.verifyTraitImpl, solver, implIds[..i])
      invariant calls == verified + Calls(WfImpl, implIds[..i])
    {
      var implId := implIds[i];
      var outcome := db.ext.verifyTraitImpl(solver, implId);
      calls := calls + [Call(WfImpl, implId)];
      assert implIds[..i + 1] == implIds[..i] + [implId];
      CallsAppend(WfImpl, implIds[..i], implId);
      if outcome.Err? {
        WellFormedFailsAtImpl(db, program, i);
        return Err(outcome.error), calls;
      }
    }
    assert implIds[..|implIds|] == implIds;
    WellFormedSucceeds(db, program);
    r := Ok(());
  }

  /** The imperative `checked_program`: lowering, then coherence, then the
      well-formedness closure; any error is returned unchanged. */
  method CheckedProgram(db: Database) returns (r: Result<Program>, ghost calls: seq<Call>)
    ensures r == CheckedProgramRun(db).result
    ensures calls == CheckedProgramRun(db).calls
  {
    calls := [];
    var program :- ProgramIr(db);
    var coherence := CoherenceRun(db);
    calls := coherence.calls;
    if coherence.result.Err? {
      return Err(coherence.result.error), calls;
    }
    var wellFormed, wellFormedCalls := VerifyWellFormed(db, program);
    calls := calls + wellFormedCalls;
    if wellFormed.Err? {
      return Err(wellFormed.error), calls;
    }
    r := Ok(program);
  }
}
