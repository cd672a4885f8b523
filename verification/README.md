# A verified model of the Kāra compiler's analyses

This project models the control-flow graph builder of the Kāra compiler and six
of its smaller analyses and writers, and proves what they promise. Dafny checks
all of it with `dafny verify dfyconfig.toml`.

## What is modelled

**The CFG builder (`src/cfg.rs`).** `CfgSyntax` is the syntax tree as the builder
distinguishes it. The class `CfgBuilder.Builder` has the builder's fields (blocks,
defer stack, rename stack, seen names, counter) and its methods; its methods are
proved to write exactly what the function `CfgLowering.LowerBody` says, a log of
uses and edges in the order in which they are written, and `CfgBuild.BuildCfg` returns
the blocks that this log stands for. That is for *tame* bodies, whose cleanup bodies neither
return, use `?` nor leave an outer loop (`CfgTame`); for others the log is not the source's.
About the log, and so about the graph of a tame body, we prove:

- *meaning*: the uses along the walks from the entry to the exit are exactly the
  uses of the finishing runs of the body, with early exits, loops, labels, `?`,
  let-else and cleanups, when no use follows an edge out of its block (`CfgRuns` is the
  reference semantics, by structure of the source; `CfgSound` and `CfgComplete` are
  the two directions, `CfgMeaning` the result), and where such a use loses the meaning
  (`CfgLoss`);
- *content*: each recorded use is an identifier of the body, with the kind, origin and place
  that the classification has for it, or the marker of a name that a pattern introduces, and
  none outside errdefer bodies is missing (`CfgOccurrences` says what there is to record, `CfgUses` that it is recorded);
- *shape*: the graph is reducible, and the uses in closures and sink arguments are
  incomparable with all later uses (`CfgGood`, `CfgInvariant`, `CfgDominance`, `CfgUses`;
  `CfgEscape` has a side branch that is not);
- *unwinding*: which cleanup bodies an exit runs, each once, in which order (`CfgUnwind`);
- *termination*: on which bodies the lowering ends, exactly (`CfgEnds`, `CfgHalts`);
- *renaming*: when recorded identities are lexical bindings (`CfgRename`), and that copies of
  cleanup bodies share none but outer ones (`CfgCopies`);
- *place paths*: what disjoint and covering paths mean for nested values (`Places`, `PlaceMeaning`).

**Walks over bodies (`src/binding_use.rs`, `src/ast.rs`).** `TreeSyntax` is the
tree, `TreeRuns` an interpreter with closures that are called, early exits,
cleanups and unknown callees; values, branches, matches and iterations are up to
the world's chances, so a statement about all worlds is one about all runs.
`TreeSafety` bounds what a run does to a variable by the ways its name occurs.
From it follow the soundness of the read-through verdicts (`BindingUse`) and the
frame theorem of capture mutation (`AssignedRoots`).

**Others.** `CallGraph`: construction and traversals. `CacheText`, `BuildCache`:
key encoding, metadata text, and the store against a plain map. `CHeader`: the
order of definitions. `Catalog`: the JSON that is written by hand, against a
reader for RFC 8259. `CostSummary`: totals, rows
and entries against the program. `Options`, `Sums`,
`KeyOrder` and `TextForms` are shared.

## What turned out not to hold

- A block that a `let-else` branches from keeps recording uses behind the branch, so every
  walk through the block passes uses that a diverging run does not have. Meaning is
  kept when no use follows an edge out of its block (`CfgMeaning.MeaningPreserved`),
  and lost when uses that are recorded only there stand on both sides of an edge by which
  the exit is reached (`CfgLoss.BranchLosesMeaning`; in the entry block a use behind the
  edge is enough, `CfgLoss.EntryLosesMeaning`).
- A cleanup body is lowered at each exit with the scopes of that exit still open, so one
  that unwinds its own scope is lowered again without end: a defer body that returns,
  uses `?` or leaves a loop around its scope, and an errdefer body that returns or uses `?`
  with a `return` or `?` behind it. On all other bodies the lowering ends
  (`CfgHalts.EndsExactly`). `return` in a defer passes the type checker, which rejects
  `?` there (src/typechecker/exprs.rs:4549).
- `if let` gives its names no frame of their own. A variable it binds shares the identity
  of an earlier binding exactly when it has its name and that binding was introduced
  under the frame now on top (`CfgRename.IfLetShares`).
- `let-else` notes the names it re-binds before its branch is lowered, although they are not
  visible there: a use of such a name in the branch keeps the identity of its binding
  exactly if that was introduced under the frame now on top (`CfgRename.ElseUse`).
- A rebind of an indexed place covers a consumed one even where the indices differ
  at run time: a covering rebind restores what was moved out exactly if it has no index
  step (`PlaceMeaning.CoveringRestoresIff`).
- The call graph promises no false negatives (src/call_graph.rs:12-15), and its walk misses
  some call sites: all in the operand of a `lock`; the bare stage of a pipe, as `f` in
  `x |> f`, although the pipe is defined to be the call `f(x)`; and calls of callees that
  have no key, such as values and longer paths (`CallGraph.FoundOrMissed`). Edges cover all
  calls exactly if they cover what those run (`CallGraph.CallsAreEdges`).
- The walk of the cost summary skips match guards, operands of `lock` and the holes of
  texts (`CostSummary.FoundOrMissed`), and default bodies of traits (`CostSummary.TraitsSkipped`).
- The recursion of `emit_struct` ends exactly if no struct holds itself by value
  (`CHeader.EndsExactly`).
- With repeated keys `forward` keeps the last body's callees and `reverse` those of
  all bodies; they are inverse exactly if the last body has all of them
  (`CallGraph.InverseExactly`).
- Text with U+007F is written raw in a TOML basic string and cannot be read back
  (`CacheText.QuotedReadsBack` says exactly when it can).
- The comment on `lookup` (src/build_cache.rs:289-291) says that a wrong schema
  version is a miss. The code reports it as malformed metadata; the model follows
  the code.
- The walk over receivers of mutating methods does not enter some forms, such as
  the value of a `return`, so the two walks together can miss a variable that a
  body changes (`AssignedRoots.ReturnedPushUnseen`); `AssignedRoots.RootsExactly`
  says exactly when they do not.

## Model

| member | source | states |
|---|---|---|
| CfgMeaning.MeaningPreserved | src/cfg.rs:908-1488 | for plain tame bodies in which no use is recorded behind an edge out of its block, a sequence of uses (names erased) is that of a finishing run if and only if it is that of a walk from entry to exit |
| CfgMeaning.RunsArePaths | src/cfg.rs:908-1488 | for all plain tame bodies, with let-else wherever it stands, the finishing runs are the paths that leave each block at the position of an edge |
| CfgMeaning.LetElseFreeSealed | src/cfg.rs:598-628 | without let-else, closures and sink arguments no use is recorded behind an edge out of its block |
| CfgMeaning.LaidOut | src/cfg.rs:598-628 | every use stands at its position of the finished block, also behind a let-else |
| CfgLoss.BranchLosesMeaning | src/cfg.rs:830-863 | if a block records one use, then branches, and then records another, both nowhere else, and the branch is reached and leads to the exit, then some finishing run is no walk |
| CfgLoss.EntryLosesMeaning | src/cfg.rs:830-863 | the same for the entry block, where the use behind the branch is enough |
| CfgLoss.LetElseLosesMeaning | src/cfg.rs:830-863 | `let-else` with a returning block: the diverging run uses one name, and no walk from entry to exit does |
| CfgLoss.LiteralLosesMeaning | src/cfg.rs:830-863 | with a literal instead: the diverging run has no use, and every walk has one |
| CfgSound.SoundE | src/cfg.rs:908-1488 | whatever a run of an expression does and however it ends, its uses lie on a path of any graph that holds the fragment |
| CfgSound.SoundLoop | src/cfg.rs:1165-1288 | runs of a loop with any number of rounds, broken or continued by label, are paths through its header |
| CfgSound.SoundLetElse | src/cfg.rs:830-863 | runs of a block whose next statement is a let-else, that goes on or diverges, are paths past its branch or through it |
| CfgSound.SoundChain | src/cfg.rs:696-759 | the runs of a chain of cleanup bodies are paths through their blocks |
| CfgComplete.CompleteE | src/cfg.rs:908-1488 | from any path out of an expression's entry one reads off a run of the expression with the same uses, and where the path goes on |
| CfgComplete.CompleteLoop | src/cfg.rs:1165-1288 | from a path through a loop: its rounds, and how the last one ends |
| CfgComplete.CompleteBlock | src/cfg.rs:649-677 | from a path through a block: a run of its statements and of the cleanup that its end requires |
| CfgComplete.CompleteLetElse | src/cfg.rs:830-863 | from a path at a let-else: its value, and then either the rest of the block or the diverging block and where it leaves for |
| CfgDominance.Reducible | src/cfg.rs:1165-1348 | for every tame body: without back edges and `continue` edges the graph has no cycle, the target of each such edge dominates its source, and the exit has no successor and no use |
| CfgDominance.HeaderDominates | src/cfg.rs:1165-1288 | a loop's header dominates the sources of the edges back to it |
| CfgDominance.Incomparable | src/cfg.rs:1374-1408 | in a tame body, reachable blocks of a closure body, or of the sink arguments of a call, that no `break` or `continue` of theirs leaves, neither dominate nor are dominated by any reachable block with a use lowered later, in loops as well |
| CfgUses.SideUsesAside | src/cfg.rs:1374-1408 | in a let-else-free body each identifier in a closure, or in the sink arguments of a call, that is not itself inside sink arguments and whose side branch no `break` or `continue` leaves, is recorded in a block that neither dominates nor is dominated by any reachable block with a use lowered behind the side branch |
| CfgEscape.LeftBranchDominates | src/cfg.rs:1000-1036 | in `loop { v.push(break) }` the sink branch dominates the use behind the loop |
| CfgDominance.NotDominatedBySide | src/cfg.rs:1000-1036 | from the side branch only the exit can be reached, so it dominates no later use |
| CfgInvariant.GoodE | src/cfg.rs:908-1488 | every fragment is linked: edges leave and enter where allowed, marks nest, no use follows an edge out of its block unless let-else is present |
| CfgInvariant.GoodLowering | src/cfg.rs:290-311 | the same for a whole body, if it is tame |
| CfgUnwind.UnwindOrder | src/cfg.rs:696-759 | an unwind runs innermost scopes first, in a scope errdefers (on error paths only) before defers, of each kind the last registered first, each once |
| CfgUnwind.OrderUnique | src/cfg.rs:696-759 | only one sequence of registered bodies has that order |
| CfgUnwind.ExitUnwinds | src/cfg.rs:1290-1363 | `return` and a failing `?` unwind all scopes with errdefers and go to the exit; `break` and `continue` unwind the scopes inside their loop without errdefers and go to its merge or header |
| CfgUnwind.ResolvesInnermost | src/cfg.rs:1495-1500 | a label means the innermost loop that has it, no label the innermost loop, and otherwise there is none |
| CfgHalts.EndsExactly | src/cfg.rs:649-759 | when every `break` and `continue` in a cleanup body has its loop around it (as src/resolver/resolve_block.rs:253-324 demands of labels), lowering with all scopes and loops of each exit open ends if and only if no bad defer is registered and no `return` or `?` is under a bad errdefer; then cleanup nests no deeper than twice the body's size |
| CfgHalts.TameEnds | src/cfg.rs:649-759 | so it ends on bodies whose cleanup neither returns, uses `?` nor leaves an outer loop |
| CfgHalts.NeverEnds | src/cfg.rs:696-759 | on the others no nesting depth is enough, whatever the labels |
| CfgHalts.BreakingDefer | src/cfg.rs:1290-1316 | `loop { defer { break } }` is one of them |
| CfgHalts.ReturningErrDefer | src/cfg.rs:1330-1348 | so is an errdefer that returns, with a `return` behind it but not in front of it |
| CfgRename.LexicalIdentities | src/cfg.rs:482-561 | in closed bodies of lets, arms, `for`, control flow, and `if let` and let-else whose names are new where they stand, two recorded uses carry the same identity if and only if they resolve to the same lexical binding |
| CfgRename.RenThen | src/cfg.rs:1070-1111 | the uses of a then-branch of `if let` with new names carry identities that tell lexical bindings apart, and afterwards outer names keep theirs |
| CfgRename.IfLetShares | src/cfg.rs:1070-1111 | for every pattern, branch and context: a variable of `if let` is never an earlier binding, and carries the identity of one if and only if it has its name and that binding was introduced under the frame now on top |
| CfgRename.ReusedNameConflates | src/cfg.rs:1070-1111 | in any context the variables of two `if let` in a row are different, and carry one identity exactly if they have one name |
| CfgRename.IfLetConflates | src/cfg.rs:1070-1111 | two `if let` of one name in a row: two recorded uses that resolve to different bindings have equal identities |
| CfgRename.RenArm | src/cfg.rs:1119-1158 | an arm's uses carry identities that tell lexical bindings apart, its own names from all that were bound before, and afterwards outer names keep theirs |
| CfgRename.RenForLoop | src/cfg.rs:1214-1271 | the same for a `for` loop, whose names are its body's only |
| CfgRename.RenElseRest | src/cfg.rs:830-863 | a let-else with new names binds them in what follows and not in its branch, and identities tell them apart |
| CfgRename.ElseUse | src/cfg.rs:830-863 | in every context: a use of a re-bound name in the branch of a let-else carries the identity of the binding it resolves to if and only if that was introduced under the frame now on top |
| CfgCopies.CopiesApart | src/cfg.rs:696-734 | the cleanup of any two exits, one lowered behind the other: an identity that both record is that of a binding from outside at both, and each name that a cleanup body of the first introduces carries an identity that the second does not record |
| CfgGraph.SuccsAreEdges | src/cfg.rs:598-603 | a block's successors are the targets of its edges, without repetition |
| CfgBuilder.Builder.constructor | src/cfg.rs:449-461 | a builder with no blocks, that has seen the parameters |
| CfgBuilder.Builder.NewBlock | src/cfg.rs:585-596 | one more empty block; its identifier is the old number of blocks |
| CfgBuilder.Builder.AddEdge | src/cfg.rs:598-603 | one more edge, a successor unless it is one already |
| CfgBuilder.Builder.RecordUse | src/cfg.rs:605-625 | one more use at the end of the block, under its mangled name |
| CfgBuilder.Builder.MangleBinding | src/cfg.rs:554-561 | the suffix of the innermost frame that introduced the name, or none |
| CfgBuilder.Builder.PushRenameFrame | src/cfg.rs:463-532 | a new frame with a fresh number |
| CfgBuilder.Builder.PopRenameFrame | src/cfg.rs:534-541 | the frames without the last |
| CfgBuilder.Builder.NoteLocalIntroduced | src/cfg.rs:543-552 | the name is seen, and known to the innermost frame |
| CfgBuilder.Builder.IntroducePattern | src/cfg.rs:772-820 | each name of a pattern noted and marked, in order |
| CfgBuilder.Builder.LowerExpr | src/cfg.rs:908-1488 | terminates on tame bodies, writes exactly the fragment of `LowerE`, and leaves both stacks as high as it found them |
| CfgBuilder.Builder.LowerScope | src/cfg.rs:649-677 | the same for a block, whose scope is open during its statements and closed after its cleanup |
| CfgBuilder.Builder.EmitScopeCleanup | src/cfg.rs:696-734 | lowers the bodies of one scope in order, each in a fresh block and frame, without changing the scopes |
| CfgBuilder.Builder.EmitUnwindChain | src/cfg.rs:745-759 | lowers the bodies of all scopes from a depth on, innermost first |
| CfgBuilder.Builder.LowerStmt | src/cfg.rs:761-905 | a statement other than the last: what it writes and registers |
| CfgBuilder.Builder.LowerLetElse | src/cfg.rs:830-863 | the diverging block branches off and the same block goes on |
| CfgBuilder.Builder.LowerIf | src/cfg.rs:1047-1112 | both branches from the condition's block to a merge block |
| CfgBuilder.Builder.LowerMatch | src/cfg.rs:1113-1164 | one branch and one rename frame for each arm |
| CfgBuilder.Builder.LowerWhile | src/cfg.rs:1165-1213 | header, body, back edge and merge |
| CfgBuilder.Builder.LowerForLoop | src/cfg.rs:1214-1272 | the same with the loop's names in a frame of their own |
| CfgBuilder.Builder.LowerLoopForever | src/cfg.rs:1273-1289 | the same without an edge from header to merge |
| CfgBuilder.Builder.LowerBreak | src/cfg.rs:1290-1316 | unwinds to the loop's depth, jumps to its merge, and goes on in a fresh block |
| CfgBuilder.Builder.LowerContinue | src/cfg.rs:1317-1329 | the same towards the header |
| CfgBuilder.Builder.LowerReturn | src/cfg.rs:1330-1348 | unwinds every scope and jumps to the exit |
| CfgBuilder.Builder.LowerQuestion | src/cfg.rs:1349-1363 | the error edge unwinds every scope, the other goes on |
| CfgBuilder.Builder.LowerClosure | src/cfg.rs:1374-1408 | the body in a side branch beside the block that goes on |
| CfgBuilder.Builder.LowerMethodCall | src/cfg.rs:1000-1036 | sink arguments after the others, in a side branch |
| CfgBuild.BuildCfg | src/cfg.rs:290-311 | for a tame body returns the blocks of `LowerBody`, with a bare exit; each use in a block is an identifier of the body under its name and span with the kind, origin and place that the classification has for the span (Read, Direct and the whole binding where it has none), or a Define marker of a pattern, and every one outside errdefer bodies is in a block; for plain bodies in which no use follows an edge out of its block, the uses along walks of successors from entry to exit are exactly those of the finishing runs |
| CfgUses.UsesAreOccurrences | src/cfg.rs:563-583 | for every tame body the uses in the blocks are exactly its identifiers, as they are classified, and the markers of its patterns; those of errdefer bodies where an error path runs them |
| PlaceMeaning.DisjointSymmetric | src/cfg.rs:67-80 | disjointness is symmetric |
| PlaceMeaning.DisjointExtends | src/cfg.rs:67-80 | and survives extending either path |
| PlaceMeaning.DisjointIndependent | src/cfg.rs:55-80 | for any choice of indices, a write at one place does not change a read at a disjoint one |
| PlaceMeaning.DisjointExactly | src/cfg.rs:67-80 | paths are disjoint if and only if no choice of indices makes one place contain the other and they do not differ in the kind of a step |
| PlaceMeaning.MixedInconsistent | src/cfg.rs:67-80 | no value has places for two paths that, where they first differ, stand an index step against a field or tuple position, if the first path has no index step |
| PlaceMeaning.RebindExactly | src/cfg.rs:112-115 | for any two places that some value has together, a write at the one restores all that was moved out of the other, for all values and indices, if and only if the rebind covers it and has no index step |
| PlaceMeaning.CoveringRestoresIff | src/cfg.rs:112-115 | a rebind that covers restores exactly if it has no index step |
| PlaceMeaning.IndexRebindLeavesHole | src/cfg.rs:112-115 | the shortest rebind that covers and does not restore |
| TreeSafety.EvalSafe | src/binding_use.rs:1-36 | in any run an expression does to a variable, and lets closures do, only what the occurrences of its names allow; unless a write is among them its value stays |
| TreeSafety.ApplySafe | src/ast.rs:1328-1336 | calling a closure touches a captured variable only in the ways its code mentions it |
| TreeSafety.LeaveSafe | src/cfg.rs:313-329 | the cleanups at a scope's end do no more to a variable than their bodies allow |
| TreeSafety.HeadLogged | src/binding_use.rs:180-190 | in every run a name at the head of `if let` or `match` is matched on, and one at the head of `if` is read as a value |
| TreeSafety.LoopHeadLogged | src/binding_use.rs:180-190 | the same for `while let` and `while` |
| BindingUse.Tally.WalkExpr | src/binding_use.rs:160-385 | adds exactly the counts of the tree to the counters |
| BindingUse.Tally.WalkList | src/binding_use.rs:234-252 | the same for arguments, of which a bare borrowed one is read and not walked |
| BindingUse.Tally.WalkBlock | src/binding_use.rs:387-394 | the same for a block |
| BindingUse.Tally.WalkStmt | src/binding_use.rs:396-421 | the same for a statement |
| BindingUse.BindingOnlyReadThrough | src/binding_use.rs:41-70 | says yes if and only if every occurrence of the name is read through, or lent to a callee that borrows, and none is in a closure; in particular no wherever the name stands at the head of `if let`, `while let` or `match`, or is an argument that is not borrowed |
| BindingUse.BindingOnlyNestedMatchScrutinee | src/binding_use.rs:94-98 | says yes if and only if the name occurs and every occurrence is the head of a nested match |
| BindingUse.ReadExactly | src/binding_use.rs:150-154 | the counters explain no more than the mentions, agree exactly if every position is of the kind counted, and the nested verdict excludes the read-through one |
| BindingUse.OracleAdds | src/binding_use.rs:113-137 | an oracle changes only the read-through counter, and only upwards |
| BindingUse.BlindVerdictHolds | src/binding_use.rs:46-70 | a verdict without an oracle holds with any |
| BindingUse.ReadThroughSound | src/binding_use.rs:10-17 | after the verdict no run takes the binding as a bare value, captures it, matches on it or replaces it |
| BindingUse.NestedScrutineeSound | src/binding_use.rs:80-98 | after the nested verdict a run only matches on the binding and leaves its value alone |
| AssignedRoots.Collector.CollectAssignedRootsExpr | src/ast.rs:1386-1548 | inserts exactly the roots of the walk over assignment targets |
| AssignedRoots.Collector.CollectAssignedRootsStmt | src/ast.rs:1356-1379 | the same for a statement |
| AssignedRoots.Collector.CollectAssignedRootsBlock | src/ast.rs:1355-1383 | the same for a block |
| AssignedRoots.Collector.CollectMutMethodReceiverRootsExpr | src/ast.rs:1629-1757 | inserts exactly the roots of the walk over receivers of mutating methods, which `ReceiverCollected` ties to what methods do |
| AssignedRoots.Collector.CollectMutMethodReceiverRootsBlock | src/ast.rs:1599-1626 | the same for a block |
| AssignedRoots.FoundOrMissed | src/ast.rs:1629-1757 | what a walk that enters everything finds is what the walk finds and what is written in the parts it does not enter |
| AssignedRoots.QuietExactly | src/ast.rs:1341-1348 | a name occurs as written, in a target or at the root of a mutated receiver, if and only if a walk that enters everything collects it |
| AssignedRoots.RootsExactly | src/ast.rs:1590-1598 | the two walks collect exactly the written names if and only if the names written in parts not entered are collected elsewhere |
| AssignedRoots.MutatesExactly | src/ast.rs:1558-1589 | for every method name and place: the method is listed if and only if some call of it there changes the variable, by a meaning of the built-in methods of collections that does not use the list |
| AssignedRoots.ReceiverCollected | src/ast.rs:1640-1660 | so the root of a receiver is collected at a call if and only if some run of the method changes the variable |
| AssignedRoots.Frame | src/ast.rs:1328-1336 | any run of a block leaves unchanged every outer variable that the walks do not collect and that is not written in a part not entered |
| AssignedRoots.MultiAssignUnseen | src/ast.rs:1377-1377 | a multiple assignment, which desugaring removes before the walks are used: no walk sees it, and it changes its target |
| AssignedRoots.ReturnedPushUnseen | src/ast.rs:1755-1757 | a returned `push` that no walk sees and that changes its receiver |
| CallGraph.Collect | src/call_graph.rs:223-437 | finds exactly the known functions and methods that some call site may call, other than the missed ones |
| CallGraph.FoundOrMissed | src/call_graph.rs:223-437 | every call site, of pipes as well, is found, or is in the operand of a `lock`, is the bare stage of a pipe, or calls something that has no key |
| CallGraph.PipeIsCall | src/ast/exprs.rs:508-586 | a pipe has the call sites of the call it is rewritten to, with or without a placeholder; the walk finds those that it would find in that call, except the callee of a bare stage |
| CallGraph.Build | src/call_graph.rs:63-138 | from the items: one node for each function, method of an `impl` (`T.m`) and default body of a trait (`Trait.m`), with the test flag of the last definition of its key; an edge from it to exactly the known keys that the last body calls by name, path or field, or by the name of a method, outside operands of `lock`; and in `reverse` exactly the callers that some body has |
| CallGraph.FoundCalls | src/call_graph.rs:223-437 | the call sites found in a body may call a key if and only if a call in it, outside operands of `lock`, names the key or calls a method of its name |
| CallGraph.EdgesKnown | src/call_graph.rs:105-138 | both ends of an edge are nodes, and its inverse is in `reverse` |
| CallGraph.CallsAreEdges | src/call_graph.rs:223-437 | for any way to resolve calls at run time, what the call sites found run is an edge if it is known; and that holds of all call sites exactly if it holds of the missed ones |
| CallGraph.LockedCallMissed | src/call_graph.rs:305-305 | a function whose only call is in the operand of a `lock` has no edge |
| CallGraph.PipedCallMissed | src/call_graph.rs:287-293 | a function whose only call is the pipe of a value into `f` has no edge to `f` |
| CallGraph.InverseExactly | src/call_graph.rs:118-133 | `reverse` is the inverse of `forward` if and only if no earlier body of a key calls what the last does not; so it is when keys are distinct |
| CallGraph.ReachSet | src/call_graph.rs:490-509 | the worklist terminates with exactly the nodes at the end of some walk of one or more edges |
| CallGraph.BfsReach | src/call_graph.rs:490-512 | the known nodes among them, strictly sorted by key |
| CallGraph.ReachingTests | src/call_graph.rs:483-488 | exactly the transitive callers that are tests, strictly sorted |
| CallGraph.CallersAreCallees | src/call_graph.rs:468-476 | when the last bodies say all, x calls y transitively if and only if y is called by x transitively |
| CacheText.CanonicalBytes | src/build_cache.rs:104-119 | the six fields, package name first, each behind its length in four bytes |
| CacheText.DecodeEncoded | src/build_cache.rs:104-119 | a decoder recovers all fields shorter than 2^32 bytes |
| CacheText.EncodingInjective | src/build_cache.rs:99-119 | keys with the same bytes are the same |
| CacheText.TomlString | src/build_cache.rs:559-581 | the text in quotes, with each character escaped as it must be |
| CacheText.QuotedReadsBack | src/build_cache.rs:559-581 | a reader of TOML basic strings gives the text back if and only if it has no U+007F |
| CacheText.RenderEntry | src/build_cache.rs:438-471 | the nine lines of the metadata in order, each a name and the quoted text or number |
| CacheText.EntryReadsBack | src/build_cache.rs:473-525 | parsing what was rendered gives the entry back if its texts have no U+007F and its time is below 2^63, and fails otherwise |
| CacheText.ChangedLine | src/build_cache.rs:491-501 | with any other value on one line of any entry: another schema version than 1, or a value of another type, is malformed |
| CacheText.MissingLine | src/build_cache.rs:528-557 | metadata of any entry without one of its nine lines is malformed |
| BuildCache.Cache.Record | src/build_cache.rs:331-367 | the slot of the key, the directory of its package name and digest, has the new metadata and artifact; all others stay |
| BuildCache.Cache.WriteArtifact | src/build_cache.rs:336-347 | the slot has the new artifact, and the metadata it had |
| BuildCache.Cache.Find | src/build_cache.rs:295-323 | what a lookup on the disk says |
| BuildCache.Cache.Stats | src/build_cache.rs:380-434 | the number of slots with both files and the sum of their artifacts' lengths |
| BuildCache.LookupExactly | src/build_cache.rs:295-367 | for any digest and any writes: a lookup decides by the latest write with the same package name and digest, whether it hits, misses or fails; a hit has the entry and the artifact of the key's latest write |
| BuildCache.OtherSchemaMalformed | src/build_cache.rs:491-501 | metadata of any entry with another schema version is malformed to every key of the slot |
| BuildCache.LookupIsMap | src/build_cache.rs:245-323 | if no other key written has the package name and digest of the key, the cache is the plain map from keys to latest writes |
| BuildCache.HashedLookupIsMap | src/build_cache.rs:99-126 | so it is when the digest is a hash of the key's encoding that tells it from the encodings of the other keys written, as long as fields are shorter than 2^32 bytes |
| BuildCache.StatsAreMap | src/build_cache.rs:380-434 | then the statistics are the map's size and the sum of its artifacts' lengths |
| BuildCache.InterruptedWrite | src/build_cache.rs:325-330 | a first write stopped before its metadata is a miss and is not counted; one over an old entry still hits |
| CHeader.EmitStruct | src/cheader.rs:791-839 | on acyclic dependencies terminates, keeps what was emitted, emits the struct, and keeps every struct behind those it holds by value |
| CHeader.EmitStructs | src/cheader.rs:606-620 | exactly the needed structs, each once and behind every needed struct it holds by value |
| CHeader.OrderNeedsAcyclic | src/cheader.rs:601-605 | such an order exists only if no needed struct holds itself |
| CHeader.EndsExactly | src/cheader.rs:791-819 | over all needed structs the recursion ends at some depth if and only if no struct holds itself by value |
| CHeader.CPrimitiveExactly | src/cheader.rs:766-786 | a name has a C type if and only if it is that of a number or truth value, and the type is the one of the same kind, signedness and width |
| CHeader.ShapeNames | src/cheader.rs:82-124 | a boxed shape's names determine its element types |
| CHeader.PushDef | src/cheader.rs:534-541 | a typedef is added unless its name is there, and names stay distinct and behind their element types |
| CHeader.BoxedDefs | src/cheader.rs:532-566 | the typedefs are exactly those that some result asks for (a string, a vector of numbers, or a vector of those with its element), each name once and element types first |
| Catalog.JsonString | src/catalog.rs:904-923 | the text in quotes, each character escaped as it must be |
| Catalog.FieldsRead | src/catalog.rs:897-902 | reading the members of a printed object gives back their keys and values, whatever the texts contain |
| Catalog.Render | src/catalog.rs:111-178 | a record as JSON text |
| Catalog.RenderItems | src/catalog.rs:637-659 | an array, with commas between its items only |
| Catalog.RenderFields | src/catalog.rs:723-743 | an object, with commas between its members only |
| Catalog.Emit | src/catalog.rs:32-38 | one line for each record |
| Catalog.ParsePrint | src/catalog.rs:111-178 | reading a printed record by sections 2 to 7 of RFC 8259 gives back its keys, texts, numbers, flags, nulls and nesting, whatever the texts contain |
| Catalog.PrintOneLine | src/catalog.rs:104-107 | no printed record has a raw newline |
| Catalog.LinesReadBack | src/catalog.rs:6-8 | splitting the catalog at newlines and reading each line gives back exactly the records |
| CostSummary.Walk | src/cost_summary.rs:341-503 | finds exactly the provider sites of a body outside match guards, operands of `lock` and holes of texts, in order |
| CostSummary.FoundOrMissed | src/cost_summary.rs:386-492 | every provider site is found or is in one of those parts |
| CostSummary.TraitsSkipped | src/cost_summary.rs:148-204 | a trait adds no body to those walked, whatever its default bodies contain |
| CostSummary.RcRow | src/cost_summary.rs:117-141 | counts each binding of a function once, as arc or as rc, and adds one entry for it, with its flavor and its span, and no other |
| CostSummary.RcRows | src/cost_summary.rs:112-141 | rc and arc together are the sum over the rows, and suppressed that over the flagged rows |
| CostSummary.WrapRows | src/cost_summary.rs:148-204 | the number of wraps is the sum over the rows, also when methods share a key, and the other sums stay |
| CostSummary.Build | src/cost_summary.rs:105-256 | all totals are sums over the rows, which are strictly sorted by function; from the items: wraps is the number of calls of `with_provider[R]` in functions and methods of an `impl` outside the parts skipped; a row stands under the name or `T.m` of each that has one, and of each function with bindings; and it has as many entries for a resource at a span as there are such calls, one entry for each binding with its flavor and span, and no other |
| CostSummary.CallIsListed | src/cost_summary.rs:148-204 | a call of `with_provider[R]` in the body of a function or method of an `impl`, outside the parts skipped, has an entry for R at its span in the row of that function or method |
| CostSummary.CountSites | src/cost_summary.rs:341-503 | the walk finds each call of a resource at a span as often as it stands there |
| KeyOrder.LessIs | src/cost_summary.rs:234-237 | rows are ordered by the first character in which two names differ, a proper prefix first |

## Left out

- CfgMeaning.MeaningPreserved: is for bodies without closures, sink arguments, guards and short-circuit operators, which are tame. A failing guard has no edge to the next arm, `&&`, `||`, `??` and `?.` are lowered strictly, and side branches end without an edge, so for these the source promises no such equality. Where uses follow an edge out of their block and are recorded elsewhere too, a walk may make up for them, and neither this lemma nor `CfgLoss.BranchLosesMeaning` decides.
- CfgDominance.Incomparable: is for tame let-else-free bodies and branches that no `break` or `continue` of theirs leaves; a branch left that way can dominate what it goes to (`CfgEscape.LeftBranchDominates`).
- CfgRename.LexicalIdentities: is for bodies without defer, `while let` and closure parameters, whose names get no frame of their own or are resolved at the exit, and for `if let` and let-else with new names. Names are free of suffixes, so an identity is a pair of name and suffix and not their concatenation.
- CfgUses.SideUsesAside: is for let-else-free bodies, and says nothing of uses that are lowered between the closure and the end of its side branch, which are in the branch.
- CfgUses.UsesAreOccurrences: does not say how often an identifier is recorded; in plain bodies the runs do. Identifiers of errdefer bodies are recorded only where an error path unwinds them.
- CfgBuild.BuildCfg: requires that cleanup bodies do not return, use `?` or leave an outer loop. On defer bodies that do, the source's lowering does not end; an errdefer body that leaves an outer loop, or that exits with no exit behind it, is lowered by the source and not by this model.
- CfgHalts.EndsExactly: an unlabelled `break` in a cleanup body with no loop around it is resolved at the exit and is not decided.
- CfgLowering.LowerBody lowers cleanup bodies without the scopes and loops of the exit. For the bodies that `CfgBuild.BuildCfg` accepts this is what the source does; that is part of what is proved of the builder. For the others the theorems about `LowerBody` are not about the source.
- CfgBuilder.Builder.LowerIf: `pattern_bindings` (src/cfg.rs:1506-1560) is not modelled; a pattern is the list of its names. Spans are numbers.
- CfgBuilder.Builder.LowerClosure: the set of blocks inside closure bodies and its depth counter are not modelled.
- CfgSyntax merges forms that the builder lowers alike: the loops `while` and `while let`, blocks of all kinds, and operators. Labelled blocks and the operand of `lock` are not walked by the builder and are leaves.
- PlaceMeaning.RebindExactly: is for paths that some value can have both.
- BindingUse.ReadThroughSound: is about variables known by one name and stores whose closures do no more to the variable; references as values and `mut ref` arguments are not modelled. A verdict of no does not promise a run that takes the binding, which may be in code that never runs.
- AssignedRoots.MutatesExactly: a collection is a sequence of entries with room for more, and what callbacks and comparisons decide is any chance. A method is listed if it can change its receiver; that it does so in a given run is not claimed.
- BindingUse.BindingOnlyReadThrough: the variants for blocks are the same walk from `Tally.WalkBlock`.
- AssignedRoots.Frame: is for targets rooted at identifiers; `self` is a leaf, as in the source, and writes through `mut ref` arguments and user-defined methods are not modelled.
- TreeRuns.Eval has fuel for the nesting of calls, iterations and cleanups; a run that needs more is cut short where it is, so the theorems hold of every prefix. `par` blocks run in order.
- CallGraph.Build: positions of nodes, the file name, and the resolution of targets by file and line are not modelled; a body is a tree of calls, pipes, closures, `lock` and other forms with their parts in order. A call site is a call or pipe that is written as one: what operators, `??`, iteration, formatting and drops call is not in the model, and a name that is called means the function of that name and no local variable.
- CacheText.EntryReadsBack: the TOML reader is one for the lines that are written; the directory of an entry is not part of the text.
- BuildCache.Cache.Find: permission and write errors, the clock, the environment, the directory tree and the digest function are not modelled; the digest is any function.
- CHeader.EmitStructs: requires acyclic dependencies; on cyclic ones the source's recursion does not end (`CHeader.EndsExactly`). Other C types than those of numbers and boxed returns, prototypes, enums, effect comments, `validate_exports` and the list of exported symbols are not modelled.
- Catalog.ParsePrint: numbers are naturals. Which members each kind of record has, and how types and effects become texts, is not modelled: the printer takes any tree of records.
- CostSummary.Build: borrow-flag fields, performance notes, spans and the texts of derivations are not modelled.
- The type checker, the use classifier, ownership analysis, `dominator.rs` and code generation are not part of this model; dominance is defined by paths, and the classification is any map.
- Command line, process and terminal code, and report text.
