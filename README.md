# Lowering-database queries of a trait-resolution engine, in Dafny

This project models the verification pipeline of the chalk trait solver
(`src/query.rs`). Starting from the program text, five derived queries turn it
into a checked program:

- `program_ir` parses the text and lowers the syntax tree into a `Program`.
- `orphan_check` runs the orphan rule on every locally declared impl.
- `coherence` computes the specialization priorities of every trait into a
  map keyed by trait id, then requires the orphan check to pass.
- `checked_program` requires coherence. It then checks the well-formedness of
  every struct, then of every impl, and returns the lowered program.
- `environment` projects the lowered program into logic.

Every error is propagated unchanged (Rust's `?` and `collect` into a
`Result`). Each fan-out stops at its first failing item.

## Layout

- `wrappers.dfy` (`Wrappers`): `ChalkError` and a failure-compatible
  `Result`, so that `:-` plays the part of `?`.
- `program.dfy` (`Programs`): the lowered `Program`, reduced to its trait,
  struct and impl maps. `SortedKeys` gives the iteration order of a
  `BTreeMap`'s keys. `LocalImplIds` gives the impls declared locally.
- `fail_fast.dfy` (`FailFast`): `Collect` and `CheckAll` run one collaborator
  per id and stop at the first error. A `Run` pairs the result with the trace
  of collaborator calls made (`Priorities`, `Orphan`, `WfStruct`, `WfImpl`).
  The trace is what lets ordering and gating be stated.
- `query.dfy` (`Query`): the `Database` (program text, solver choice and the
  external collaborators as function values) and the five queries. `program_ir`,
  `coherence` and `environment` are functions, as in the source.
  `orphan_check` and the well-formedness closure of `checked_program` are
  `for` loops in the source. Here they are methods with loops, proved equal to
  the specification functions `OrphanCheckRun` and `WellFormedRun`.

The parser, lowering, `CoherenceSolver`, `orphan::perform_orphan_check`,
`wf::WfSolver` and `Program::environment` are foreign code. They are fields
of `Collaborators`: total functions returning `Result`, about which nothing
is assumed. Every property below holds for every choice of them.

## Model

| member | source | states |
|---|---|---|
| Programs.SortedKeysSpec | src/query.rs:92-96 | `keys()` of a `BTreeMap` yields every key of the map exactly once, in strictly ascending order |
| Programs.Program.LocalImplIdsSpec | src/query.rs:51-52 | `local_impl_ids()` lists exactly the impls whose type is local, each once, in ascending key order |
| FailFast.CollectSucceeds | src/query.rs:64-72 | collecting into a `Result` map is `Ok` iff every id succeeds; then the collaborator was called once per id in order, the map's keys are exactly the ids, and each id maps to its own result |
| FailFast.CollectFailsFast | src/query.rs:52-54 | at the first failing id the loop returns that id's error; the calls made are exactly those up to and including that id |
| Query.ProgramIrOutcome | src/query.rs:41-44 | `program_ir` is `Ok` iff parsing and lowering both succeed; otherwise it is the parse error, or, after a successful parse, the lowering error |
| Query.OrphanCheckSucceeds | src/query.rs:46-57 | with the program lowered, `orphan_check` is `Ok` iff every local impl passes the orphan rule, and then each local impl was checked once, in order |
| Query.OrphanCheckFailsFast | src/query.rs:51-54 | `orphan_check` returns the error of the first failing local impl, and no later impl is checked |
| Query.OrphanCheck | src/query.rs:46-57 | the loop returns exactly the result and makes exactly the calls of `OrphanCheckRun`, including propagating a `program_ir` error with no calls |
| Query.CoherenceCoversEveryTrait | src/query.rs:64-77 | a successful `coherence` map has exactly the keys of `trait_data`, and each key maps to that trait's specialization priorities |
| Query.CoherenceFailsFast | src/query.rs:64-73 | if some trait's priorities fail, `coherence` returns the error of the first failing trait in key order; no later trait is solved and the orphan check is never called |
| Query.CoherenceEndsWithOrphanCheck | src/query.rs:73-77 | once every trait's priorities succeed, the orphan check runs after them and `coherence` is `Ok` iff it passes, else it returns the orphan error |
| Query.CoherenceSucceeds | src/query.rs:62-77 | `coherence` is `Ok` iff lowering, every trait's priorities and the orphan check all succeed; when some priority fails, no orphan check is ever called |
| Query.CoherenceCallsOrdered | src/query.rs:64-75 | `coherence` calls only the priority solver and the orphan check, and every priority call precedes every orphan call |
| Query.WellFormedFailsAtStruct | src/query.rs:92-94 | the well-formedness closure returns the error of the first ill-formed struct, and verifies no later struct and no impl |
| Query.WellFormedFailsAtImpl | src/query.rs:92-98 | with every struct well-formed, the closure returns the error of the first ill-formed impl, after verifying all structs and no later impl |
| Query.WellFormedSucceeds | src/query.rs:85-100 | the closure is `Ok` iff every struct and every impl is well-formed; then it verified every struct and then every impl, once each |
| Query.WellFormedCallsOrdered | src/query.rs:92-98 | every `verify_struct_decl` call precedes every `verify_trait_impl` call |
| Query.VerifyWellFormed | src/query.rs:85-101 | the two loops return exactly the result and make exactly the calls of `WellFormedRun` |
| Query.CheckedProgramGatedByCoherence | src/query.rs:81-83 | if `coherence` fails, `checked_program` returns that error unchanged and verifies no struct and no impl |
| Query.CheckedProgramReturnsLoweredProgram | src/query.rs:80-104 | `checked_program` is `Ok` iff coherence and then the well-formedness closure succeed; it then returns the program `program_ir` produced, unchanged |
| Query.CheckedProgramCallsOrdered | src/query.rs:80-104 | the calls of `checked_program` come phase by phase: priorities, orphan checks, struct checks, impl checks |
| Query.CheckedProgram | src/query.rs:80-104 | the method returns exactly the result and makes exactly the calls of `CheckedProgramRun` |
| Query.OrphanViolationPropagates | src/query.rs:73-83 | when every trait's priorities succeed, an orphan violation is the error of both `coherence` and `checked_program` |
| Query.Environment | src/query.rs:106-109 | `environment` is `Ok` iff `program_ir` is; then it is the projection of the lowered program, else the error of `program_ir` |
| Query.EnvironmentIgnoresChecks | src/query.rs:106-108 | `program_ir` and `environment` depend only on the program text, the parser, lowering and the projection; the solver choice and the coherence and well-formedness collaborators do not affect them |

## Left out

- The salsa query-group machinery (src/query.rs:18-39) is left out: input storage, memoization, dependency tracking and invalidation. The library that generates it is not part of this model. Each query is modelled as computed from scratch, so a trace lists every collaborator call a fresh computation makes. With memoization, a cached sub-query makes none.
- `tls::set_current_program` is left out. It is thread-local ambient state. It is treated as a transparent wrapper that runs its closure and returns the closure's result.
- `Arc` sharing is modelled as passing values. "Returns the same program" is value equality.
- The `ProgramClauseSet` database capability is left out. Collaborators receive the lowered program and the solver choice. The clause provider they would query is determined by the same inputs.
- The internals of the parser, lowering, `CoherenceSolver`, the orphan check, `WfSolver` and `Program::environment` are left out. They are foreign code, modelled as arbitrary total functions. `SyntaxTree`, `SolverChoice`, `SpecializationPriorities`, `ProgramEnvironment` and the declaration contents are abstract types.
- src/program.rs is not part of this model. `local_impl_ids` is modelled as the impls whose `impl_type` is local, in key order.
- Item ids are modelled as natural numbers ordered by index, which is the order of `BTreeMap` iteration over them.
- `FailFast.Collect` lets an earlier duplicate key win, while Rust's `collect` into a `BTreeMap` lets the later one win. The two agree on trait ids, because `keys()` yields each id once.
