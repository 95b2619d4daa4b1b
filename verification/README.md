# Trellis: sequence views, durable indexing and bounded caches

This project models parts of Trellis, a code-evidence server, and proves what they
promise. `dafny verify dfyconfig.toml` checks everything.

**Sequence views.** A sequence view draws the possible paths of one function as a tree of
steps. `Behaviour` gives both sides a meaning, the set of their runs (a trace of events and
how it ends): a syntax tree runs in the evaluation order of its language, and a step tree
runs as its labels say. `RustAdapter`, `JavaAdapter` and `PythonAdapter` hold that
evaluation order, in the terms of `Forms`, and the recursive walk that lowers a syntax tree
to steps, over the builder in `Lowering`. The main theorem is `Lowered`: a view that was not
cut shows every run, and no run that does not cross an opaque marker is drawn without being
one; it says exactly what its form draws, which leaves out what follows a part that is drawn
as going nowhere; the flags `continues` and `exits` tell the truth; in every view, cut or
not, a deed drawn outside all branches and loops is done by every execution; and a view is
cut only for a form with more steps than it may have, or a tree too deep or too large. Step
numbers are distinct, so a view has at most 200 steps. `Chains` is the presentation-only grouping of fluent call chains: it
is undone exactly by flattening and does not change what a view says. `Coroutines` says
what a Rust view is worth when a coroutine is resumed. `Cursors` relates the iterative tree
scans to recursive traversals, and `Views` puts a whole view together.

The executions are those in which nothing fails on its own: a call returns, a lookup or an
operator yields a value, and nothing panics, throws, is cancelled or runs forever except by a
form that says so. "Done by every execution" and "every run" are meant of these, which is
also what the views tell their readers in a warning.

**Durable requests.** `RequestQueue` is the queue of indexing requests as a state machine.
Its actions are the store operations, and crashes, takeovers, contention, commits whose
acknowledgement is lost, cancellation and replacement of the workspace root. An invariant
over every run gives first-in-first-out, increasing results, one publication for each claim
and incarnation, and what happens to a lost result. `QueueDriver` is the drain loop and the
takeover as the leader runs them: whatever they do is a run of that machine.

**Watch hints.** `WatchHints` is the watcher of the leader and the inventory that accounts
for its hints, with edits and deliveries between any two steps.

**Bounded state.** `DependencyIndex` coalesces catalog rebuilds under one driver,
`PacketCache` evicts by count and bytes and rolls back, `ClassCatalog` composes file
extractions under interacting budgets, `PackageIndex` walks a package breadth-first over
paged listings, and `Citations` anchors the quotes of an answer in its sources.

## Where the code and its promises part

The models follow the code. Where a promise is not kept, the exact condition is proved or
the contract says where it ends.

- A Rust `yield` is drawn as leaving the function. When the coroutine is resumed, what
  follows the yield is missing from the view, at every level around it.
  `Coroutines.ResumedShown` computes from the whole body how the runs that are missed can end.
  When there is no such end, a view that was not cut is right about the resumed coroutine;
  when there is one, it misses a run, provided that no dropped part has the byte range of a
  drawn one. `Views.RustResumed` says so of finished views, and `Coroutines.YieldDropsWrite` is
  a block whose write gets lost after a yield in it, or in a block inside it.
- The queue is finished*, running?, queued* only for the rows of one root. A leader can fail
  a row while an earlier one of another root is still open: `RequestQueue.ShapeStep` gives
  the exact condition, `RequestQueue.ShapeLost` a run in which the root is replaced twice,
  and `RequestQueue.ShapeLostOnReturn` one in which it is moved away and back.
- A recorded result can become impossible to write or to forget: when its row fails because
  the root is away and the root then comes back under the same leader, every retry finds a
  terminal row that differs from the result. `RequestQueue.RecordedResolves` says that this
  is the only obstacle, `RequestQueue.StrandedStep` exactly what leads to it,
  `RequestQueue.StrandedRun` is a run, and `RequestQueue.NeverStranded` excludes it while the
  root stays.
- Results increase within one index generation; a recreated index starts a later one, so
  that pins are compared by generation first.
- A Python definition is found exactly when it lies less than 512 levels deep and behind
  fewer than 4800 siblings on each level (`Views.FoundExactlyNear`). Any other is drawn as one
  opaque boundary, in a view that is not called truncated (src/behavior_python.rs:774-795);
  `Views.DefinitionLost` is one that gets lost.
- A package stops without being called partial when its declaration text reaches 64 MiB
  exactly (src/dependency_rust.rs:785-787). `PackageIndex.Indexer.IndexPackage` says exactly when
  this leaves something out: when some of its files in the order of the walk, but not all, bring
  the text to the limit. `PackageIndex.StoppedUnmarked` is such a package.

Duplicate relations are looked for only among neighbours. That finds all of them, because an
id is made of its owner and offsets and so names one place (`ClassCatalog.CatalogDistinct`);
`ClassCatalog.DedupDistinct` is what would be needed of ids in general.

## Model

| member | source | states |
|---|---|---|
| `Views.BuildRust` | src/behavior_rust.rs:684-744 | A finished Rust view that was not cut has exactly the runs of the selected definition and says exactly what its form draws; cut or not, every deed outside branches and loops is done by every execution; step numbers are distinct, so there are at most 200 steps; lanes are distinct, at most 20, the seed first. It is called cut only when the form of the definition can take 200 steps or more, guards included, or its body is deeper than 24 levels, with a level for each guard that siblings may need. Grouping is undone by flattening, reads the same, and when not limited is the chain rewrite offered every non-opaque node once in preorder |
| `Views.BuildJava` | src/behavior_java.rs:501-583 | The same promise for a Java view, also when the seed search or the walk runs out of its budget. It is called cut when the seed search costs 10000 visits or more, and otherwise only when the form can take 200 steps or more, the body is deeper than 24 levels, both with the guards, or it has 10000 nodes or more |
| `Views.BuildPython` | src/behavior_python.rs:718-805 | The same promise for a Python view of the definition that the unbounded search finds, wherever that is within 512 levels and 4800 siblings; it is called cut only when the form can take 200 steps or more, the body is deeper than 24 levels, both with the guards, or it has 4800 nodes or more. Beyond the bounds of the search the view is exactly one boundary and is not called cut |
| `Views.Finish` | src/behavior_rust.rs:722-744 | Whatever was lowered from a fresh builder makes a sound view of at most 200 steps with the seed's lane first, which is cut only when its form can take 200 steps or more or the tree is too deep or too large |
| `Views.RustResumed` | src/behavior_rust.rs:193-196 | A finished Rust view that was not cut is right about a coroutine that is resumed when nothing is lost, and misses a run of it when something is and dropped parts lie apart from drawn ones |
| `Views.SeekRust` | src/behavior_rust.rs:705-721 | The descent computes the recursive search for the definition exactly at the range |
| `Views.SeekJava` | src/behavior_java.rs:526-555 | What remains of the budget is exactly what the recursive search leaves of it, visit by visit, and while something remains the scan finds what the search finds |
| `Views.SeekPython` | src/behavior_python.rs:771-790 | The bounded loop computes the bounded recursive search |
| `Views.NearFinds` | src/behavior_python.rs:771-790 | The bounded search finds a definition exactly when the unbounded one does and turns at fewer than 512 levels, each below 4800; it is then the same one |
| `Views.FoundExactlyNear` | src/behavior_python.rs:771-790 | In a tree whose siblings do not overlap, an outermost callable at any place is what the unbounded search finds, and what the bounded one finds exactly when the place is within the bounds |
| `Views.DefinitionLost` | src/behavior_python.rs:774-795 | Behind any 4800 or more statements, in a tree whose siblings do not overlap, a definition lies beyond the bound of the search, and the view that is drawn for it breaks the promise |
| `Syntax.RouteLeads` | src/behavior_rust.rs:705-721 | In such a tree the descent goes straight to the outermost callable at the range |
| `Syntax.SeekFinds` | src/behavior_rust.rs:705-721 | In a tree whose siblings do not overlap the search finds a callable exactly at a nonempty range whenever one is there |
| `Lowering.Builder.constructor` | src/behavior_rust.rs:722-725 | A new builder has no steps and one lane, that of the seed, and is not cut |
| `Lowering.Builder.NewStep` | src/behavior_rust.rs:72-91 | One childless step with the next number below the cap; at the cap none, and the view is marked cut |
| `Lowering.Builder.Limit` | src/behavior_rust.rs:68-71 | A view is marked cut only where the steps are used up, or the body that is walked is too deep or has too many nodes |
| `Lowering.Builder.Event` | src/behavior_rust.rs:166-171 | A drawn step continues and does not leave |
| `Lowering.Builder.BoundaryAt` | src/behavior_rust.rs:92-98 | A boundary step continues and does not leave |
| `Lowering.Builder.Unknown` | src/behavior_rust.rs:172-176 | An unknown form continues and may leave |
| `Lowering.Builder.Compose` | src/behavior_rust.rs:144-162 | Composition of any two flows whose numbers are apart: the second under a guard when the first may leave, after it otherwise, dropped when the first cannot end; numbers stay apart, and reading, flags and certain deeds are those of the runs in sequence. At most one step is added, and only a full view is cut by it |
| `Lowering.Builder.Then` | src/behavior_rust.rs:144-162 | Two lowered parts compose to a lowering of their runs in sequence, in every state of the budget |
| `Lowering.Builder.Lane` | src/behavior_rust.rs:300-327 | A lane of its own while fewer than 19 are taken, else the shared one; lanes stay distinct and at most 20, and when they are 20 the shared one is among them, so the fallback for a missing lane is unreachable |
| `Lowering.Builder.Invoke` | src/behavior_rust.rs:283-337 | A call with a measured site becomes a call step that carries its evidence whatever the lanes, with its own lane or the shared one present; one without stays an opaque form and takes no lane |
| `Lowering.Builder.Perform` | src/behavior_rust.rs:252-263 | A deed step lowers exactly that deed, and a full view adds no step |
| `Lowering.Builder.Depart` | src/behavior_rust.rs:238-242 | A return or throw step lowers the deed followed by leaving, and never continues |
| `Lowering.Builder.Transfer` | src/behavior_python.rs:429-435 | A break or continue step lowers a transfer to that destination, and never continues |
| `Lowering.Builder.Mask` | src/behavior_rust.rs:172-176 | An unknown form lowers every behaviour that opaque form may have |
| `Lowering.Builder.GiveUp` | src/behavior_rust.rs:182-185 | What a bound kept from being walked is lowered soundly by a boundary that may leave, in a view marked cut |
| `Lowering.Builder.CutShort` | src/behavior_rust.rs:107-110 | A block that a bound stops is lowered soundly by what was drawn of it |
| `Lowering.Builder.RoundOf` | src/behavior_rust.rs:431-447 | The children of a loop step show one round: the test, then the body or the way out |
| `Lowering.ThenLowered` | src/behavior_rust.rs:144-162 | Composing two lowerings in evaluation order lowers the sequence |
| `Lowering.FoundedSuffix` | src/behavior_rust.rs:121-139 | A prefix and the rest under a guard step lower the two in sequence, with the steps of both and one more |
| `Lowering.FoundedCut` | src/behavior_rust.rs:107-110 | A suffix dropped at a bound leaves the promise of a cut view intact |
| `Lowering.BlockNext` | src/behavior_rust.rs:104-120 | One more node after a prefix that cannot leave lowers one more part of a block |
| `Lowering.BlockGuarded` | src/behavior_rust.rs:121-139 | So the prefix of a block and the rest of it under a guard step lower the whole block |
| `Lowering.CutLowered` | src/behavior_rust.rs:182-185 | An unknown boundary may stand for anything in a cut view |
| `Lowering.ForkLowered` | src/behavior_rust.rs:211-221 | A branch over two lowered sides shows exactly the choice between their runs, and its flags are honest |
| `Lowering.ForkLoweredAfter` | src/behavior_python.rs:492-515 | The same for a branch drawn after its sides |
| `Lowering.WayOutLowered` | src/behavior_rust.rs:374-386 | The body of a round or of a guarded arm runs only after its test or guard, and is drawn so |
| `Lowering.LoopLowered` | src/behavior_rust.rs:408-449 | A loop step over one round shows exactly the loop; it may say that it does not continue only when no run of the loop ends normally |
| `Forms.JoinedDrafts` | src/behavior_rust.rs:144-162 | Two composed flows say exactly what the two forms in sequence draw: the second is left out when the first goes nowhere |
| `Forms.FoldConcat` | src/behavior_rust.rs:104-142 | Lists of forms in sequence mean and draw the same as one list |
| `Diagram.ReadingConcat` | src/behavior_rust.rs:144-162 | Step lists in sequence mean their runs in sequence |
| `Diagram.NoTransfer` | src/behavior_rust.rs:420-427 | A tree without boundaries has no break and no continue, which is what the search for boundaries is for |
| `Diagram.UniqueSize` | src/behavior_rust.rs:72-91 | Numbers handed out once bound the size of the tree by the counter |
| `Behaviour.EndlessWithin` | src/behavior_java.rs:367-399 | A loop that never fails its test has no run that is missing from the loop that may |
| `RustAdapter.Walk` | src/behavior_rust.rs:177-277 | Every Rust node is lowered to exactly its runs unless the view is cut; flags are honest; no deed drawn as certain is skipped by an execution, also in a cut view; what is drawn is exactly what the form of the node draws, where a yield goes nowhere; and the view is cut only when the steps of the form or the depth of the node exceed a bound |
| `RustAdapter.WalkPlain` | src/behavior_rust.rs:190-202 | The same for deferred bodies, opaque forms, transfers and forms that only evaluate their parts |
| `RustAdapter.WalkControl` | src/behavior_rust.rs:211-251 | The same for control forms |
| `RustAdapter.WalkOperation` | src/behavior_rust.rs:203-264 | The same for let, short-circuit, call, await and assignment |
| `RustAdapter.Hide` | src/behavior_rust.rs:190-198 | One boundary lowers the behaviours the form may have, with flags that admit exactly them |
| `RustAdapter.Pause` | src/behavior_rust.rs:193-196 | A yield is one boundary with no way on |
| `RustAdapter.WalkField` | src/behavior_rust.rs:99-103 | A missing field evaluates nothing |
| `RustAdapter.WalkBlock` | src/behavior_rust.rs:104-142 | A list of nodes is lowered to its runs in order, with the suffix after a possible exit under a guard, cut at the bounds; nothing is drawn after a node that is drawn as going nowhere |
| `RustAdapter.GuardSuffix` | src/behavior_rust.rs:121-139 | The guarded suffix of a block, also at the depth and step bounds |
| `RustAdapter.WalkLet` | src/behavior_rust.rs:203-209 | let evaluates its value; let-else may leave after it |
| `RustAdapter.WalkIf` | src/behavior_rust.rs:211-221 | Condition, then one of the two sides |
| `RustAdapter.WalkShortCircuit` | src/behavior_rust.rs:224-236 | Left operand, then the right one or nothing |
| `RustAdapter.WalkReturn` | src/behavior_rust.rs:238-242 | Operand, then the return |
| `RustAdapter.WalkTry` | src/behavior_rust.rs:243-251 | Operand, then success or an early return |
| `RustAdapter.Residual` | src/behavior_rust.rs:245-250 | ? continues on success and returns early otherwise |
| `RustAdapter.WalkAwait` | src/behavior_rust.rs:252-256 | Operand, then the suspension |
| `RustAdapter.WalkAssignment` | src/behavior_rust.rs:257-264 | The right side before the place, then the write |
| `RustAdapter.WalkCall` | src/behavior_rust.rs:278-339 | Operands in order, then the call |
| `RustAdapter.MatchStep` | src/behavior_rust.rs:340-398 | The value, then the first arm whose pattern matches and whose guard holds |
| `RustAdapter.WalkArms` | src/behavior_rust.rs:341-396 | The arms are lowered to exactly that selection, and the match continues only if some arm does |
| `RustAdapter.WalkArm` | src/behavior_rust.rs:359-392 | A drawn arm shows its guard before its body although the body is walked first, and its flags cover every end but a false guard |
| `RustAdapter.ArmChildren` | src/behavior_rust.rs:369-390 | With or without a guard the children of an arm step show the arm |
| `RustAdapter.Select` | src/behavior_rust.rs:374-386 | The body of a guarded arm runs only after its guard holds |
| `RustAdapter.ArmsShown` | src/behavior_rust.rs:353-394 | Drawn arms read as exactly the selection among them |
| `RustAdapter.ArmsFlags` | src/behavior_rust.rs:342-390 | The flags gathered from the arms are honest for the whole match, and no value falls through |
| `RustAdapter.LoopStep` | src/behavior_rust.rs:399-451 | A labelled loop stays opaque; the others are lowered to their rounds |
| `RustAdapter.WalkIteration` | src/behavior_rust.rs:403-450 | A for loop evaluates its iterator once before the rounds |
| `RustAdapter.Rounds` | src/behavior_rust.rs:408-449 | The loop step shows all its rounds; only loop is ever drawn as not continuing |
| `RustAdapter.RoundSteps` | src/behavior_rust.rs:417-447 | The test, then the body; a loop without a test is drawn as not continuing exactly when its body goes nowhere and has no boundary |
| `RustAdapter.NoWayOut` | src/behavior_rust.rs:420-430 | loop is drawn as not continuing only when no run of it ends normally |
| `Coroutines.ResumedShown` | src/behavior_rust.rs:104-162 | A view that was not cut is right about the resumed coroutine when `Lost` of its form is empty; when it is not, and no dropped part has the range of a drawn one, a resumed run is missing |
| `Coroutines.LostOnly` | src/behavior_rust.rs:104-162 | Every resumed run that the drawing lacks ends in one of the computed ways, through every sequence, branch, arm and loop around a yield |
| `Coroutines.LostStrays` | src/behavior_rust.rs:104-162 | For each of these ways there is a resumed run that ends so and goes through a place that is not drawn |
| `Coroutines.DrawnPlaces` | src/behavior_rust.rs:104-162 | What is drawn happens only in the parts that are not dropped |
| `Coroutines.ResumedMore` | src/behavior_rust.rs:193-196 | Being resumed only adds runs |
| `Coroutines.RustSteady` | src/behavior_rust.rs:177-277 | The form of any Rust tree is one that these results are about, and pauses only where the tree yields |
| `Coroutines.YieldSuffix` | src/behavior_rust.rs:193-196 | Right after a yield no proviso is needed: dropping what follows is right exactly when that does nothing or never comes to an end |
| `Coroutines.YieldDropsWrite` | src/behavior_rust.rs:193-196 | No view of a block that yields in a statement and then writes shows the runs of the resumed coroutine, whether the yield is in the block or in a block inside it |
| `Coroutines.YieldFreeSame` | src/behavior_rust.rs:193-196 | Without a yield nothing depends on being resumed |
| `Coroutines.IdleRuns` | src/behavior_rust.rs:177-277 | A form that is computed to be idle does nothing at all; any other does something in every run |
| `Coroutines.EndsExact` | src/behavior_rust.rs:177-277 | The ways in which a form can end, computed from it, are exactly those of its runs |
| `JavaAdapter.Walk` | src/behavior_java.rs:196-307 | Every Java node is lowered to exactly its runs unless the view is cut, flags honest, certain deeds certain; a node of so many nodes takes at most so many visits, the visit budget never exceeds its cap, and a walk that does not admit to leave has spent a visit |
| `JavaAdapter.WalkPlain` | src/behavior_java.rs:216-307 | The same for deferred bodies, transfers, opaque forms and forms that only evaluate their parts |
| `JavaAdapter.WalkStatement` | src/behavior_java.rs:231-287 | The same for statements |
| `JavaAdapter.WalkOperation` | src/behavior_java.rs:241-281 | The same for operators |
| `JavaAdapter.WalkAction` | src/behavior_java.rs:282-300 | The same for calls, assignments and updates |
| `JavaAdapter.WalkField` | src/behavior_java.rs:104-108 | A missing field evaluates nothing |
| `JavaAdapter.WalkBlock` | src/behavior_java.rs:109-147 | A list of nodes is lowered in order; one that does not admit to leave has visited each of its nodes |
| `JavaAdapter.GuardSuffix` | src/behavior_java.rs:126-144 | The guarded suffix of a block, also at the depth and step bounds |
| `JavaAdapter.WalkChildren` | src/behavior_java.rs:168-184 | All children are accounted for: beyond 10000 a boundary stands for the rest |
| `JavaAdapter.WalkList` | src/behavior_java.rs:231-237 | A list cut at 10000 nodes loses nothing silently: the walk of the prefix runs out of visits and admits to leave |
| `JavaAdapter.WalkLocals` | src/behavior_java.rs:231-237 | Only the initializers of the declarators are evaluated, in order |
| `JavaAdapter.WalkFields` | src/behavior_java.rs:308-318 | All children of a field are evaluated in order |
| `JavaAdapter.WalkPair` | src/behavior_java.rs:241-245 | The first operand before the second |
| `JavaAdapter.WalkIf` | src/behavior_java.rs:252-264 | Condition, then one of the two sides |
| `JavaAdapter.WalkShortCircuit` | src/behavior_java.rs:266-281 | Left operand, then the right one or nothing |
| `JavaAdapter.WalkReturn` | src/behavior_java.rs:283-287 | Operand, then the return or throw |
| `JavaAdapter.WalkAssignment` | src/behavior_java.rs:288-295 | The destination before the right side, then the write |
| `JavaAdapter.WalkUpdate` | src/behavior_java.rs:296-300 | The operand, then the update |
| `JavaAdapter.WalkCall` | src/behavior_java.rs:402-469 | Receiver, arguments, then the call |
| `JavaAdapter.WalkOperands` | src/behavior_java.rs:403-419 | The receiver before the arguments |
| `JavaAdapter.WalkReceiver` | src/behavior_java.rs:403-417 | The receiver of a call, or the qualifier of a construction, is evaluated |
| `JavaAdapter.LoopStep` | src/behavior_java.rs:319-401 | A for statement with a continue stays opaque, also when the scan gives up; the other loops are lowered to their rounds |
| `JavaAdapter.WalkIteration` | src/behavior_java.rs:362-400 | The initialization once, then the rounds |
| `JavaAdapter.Rounds` | src/behavior_java.rs:367-399 | The loop step shows all its rounds |
| `JavaAdapter.RoundSteps` | src/behavior_java.rs:376-397 | One round: the condition, then the body and its update |
| `JavaAdapter.WalkBody` | src/behavior_java.rs:384-391 | The update runs after every body that ends normally or by continue |
| `JavaAdapter.ScanContinue` | src/behavior_java.rs:322-361 | Within its budget the cursor scan reports a continue exactly when the recursive search that skips nested definitions finds one; it gives up only on a tree of at least 10000 nodes |
| `JavaAdapter.VisitsContinue` | src/behavior_java.rs:333-346 | The nodes a scan visits contain a continue exactly when the recursive search finds one |
| `JavaAdapter.NoContinue` | src/behavior_java.rs:320-361 | A tree in which the scan finds no continue never continues a loop |
| `PythonAdapter.Walk` | src/behavior_python.rs:338-450 | Every Python node is lowered to exactly its runs unless the view is cut, flags honest, certain deeds certain; a node of so many nodes takes at most so many visits |
| `PythonAdapter.WalkPlain` | src/behavior_python.rs:348-449 | The same for definitions, displays, strings and atoms |
| `PythonAdapter.WalkControl` | src/behavior_python.rs:411-435 | The same for control forms |
| `PythonAdapter.WalkOperation` | src/behavior_python.rs:373-440 | The same for lookups, calls, assignments, boolean operators and await |
| `PythonAdapter.IsPlain` | src/behavior_python.rs:267-337 | Within its budget the check accepts exactly the definitions whose header evaluates nothing; it refuses such a one only in a view it marks as cut |
| `PythonAdapter.WalkDefinition` | src/behavior_python.rs:348-358 | A plain definition only binds its name; any other one is opaque |
| `PythonAdapter.WalkField` | src/behavior_python.rs:180-184 | A missing field evaluates nothing |
| `PythonAdapter.WalkChildren` | src/behavior_python.rs:249-255 | All children in order, or one boundary for a node that is too wide |
| `PythonAdapter.WalkBlock` | src/behavior_python.rs:185-228 | A list of nodes is lowered in order; at a bound a boundary that may leave stands for the rest |
| `PythonAdapter.GuardSuffix` | src/behavior_python.rs:207-225 | The guarded suffix of a block, also at the depth and step bounds |
| `PythonAdapter.IfStep` | src/behavior_python.rs:451-480 | Condition, then the consequence or the chain of alternatives |
| `PythonAdapter.WalkOtherwise` | src/behavior_python.rs:465-472 | Cutting the alternatives at 4801 loses nothing, because the depth bound ends the chain first |
| `PythonAdapter.Elifs` | src/behavior_python.rs:481-516 | elif clauses nest: each is tried only where those before it failed |
| `PythonAdapter.ElifStep` | src/behavior_python.rs:492-515 | One elif: its condition, then its consequence or the later alternatives |
| `PythonAdapter.WalkConditional` | src/behavior_python.rs:517-540 | The condition of a conditional expression before either side |
| `PythonAdapter.WalkBoolean` | src/behavior_python.rs:413-423 | Left operand, then the right one or nothing |
| `PythonAdapter.WalkExit` | src/behavior_python.rs:429-435 | Operand, then return, raise, break or continue to its own destination |
| `PythonAdapter.WalkAccess` | src/behavior_python.rs:373-382 | The object, then an opaque lookup that does not leave |
| `PythonAdapter.WalkAwait` | src/behavior_python.rs:436-440 | Operand, then the suspension |
| `PythonAdapter.WalkCall` | src/behavior_python.rs:610-680 | Callee and arguments in order, then the call; unpacking stays opaque |
| `PythonAdapter.WalkAssignment` | src/behavior_python.rs:384-409 | An annotation alone evaluates nothing for a name; a chained assignment stays opaque |
| `PythonAdapter.WalkWrite` | src/behavior_python.rs:399-408 | The value before its target, then the write |
| `PythonAdapter.AssignmentTarget` | src/behavior_python.rs:599-609 | What finding the target evaluates |
| `PythonAdapter.LoopStep` | src/behavior_python.rs:541-598 | The iterable once, then the rounds |
| `PythonAdapter.Rounds` | src/behavior_python.rs:552-596 | The loop step shows all its rounds |
| `PythonAdapter.WalkRound` | src/behavior_python.rs:561-577 | Each round of a for statement writes its target before the body |
| `Cursors.TreeCursor.Advance` | src/behavior_rust.rs:582-591 | Backing up ends at the next sibling of the nearest level that has one, or at the root with nothing left |
| `Cursors.TreeCursor.GotoFirstChild` | src/behavior_rust.rs:574-577 | Down to the first child exactly when there is one |
| `Cursors.TreeCursor.GotoNextSibling` | src/behavior_rust.rs:586-588 | On to the next sibling exactly when there is one |
| `Cursors.PendingResumed` | src/behavior_rust.rs:582-591 | What a recursive traversal has still to visit is what the cursor goes on to, for every rule of where to descend |
| `Cursors.ScanDown` | src/behavior_rust.rs:571-577 | Going down keeps the visited prefix of the recursive traversal |
| `Cursors.ScanLeaf` | src/behavior_rust.rs:571-591 | Leaving a node keeps it too, and at the root the traversal is complete |
| `Chains.GroupChains` | src/behavior_rust.rs:555-593 | The result is the fold of the chain rewrite over the nodes offered in preorder; limited says exactly whether the work bound or the depth bound kept a node that is not opaque from being visited |
| `Chains.WrapSyntaxChain` | src/behavior_rust.rs:594-639 | A node is rewritten exactly when it is a call with a chain of 3 to 24 calls |
| `Chains.FollowChain` | src/behavior_rust.rs:596-604 | The chain is the recursive one, and is given up exactly when it is longer than 24 |
| `Chains.WrapChain` | src/behavior_rust.rs:641-683 | The rewrite in place equals the recursive rewrite: the eligible run becomes one group here, or else the lists below are tried outside groups |
| `Chains.WrapBelow` | src/behavior_rust.rs:676-682 | Every list below is rewritten, except inside groups |
| `Chains.FirstInside` | src/behavior_rust.rs:644-646 | The first step inside the range |
| `Chains.RunEnd` | src/behavior_rust.rs:647-655 | The end of the run of steps inside the range |
| `Chains.CallFunctionFirst` | src/behavior_rust.rs:455-461 | The callee is the first node along the function fields that is not a generic function, and there is none exactly when no such node is there |
| `Chains.ChainLinks` | src/behavior_rust.rs:594-604 | A chain starts at its call, each link is the call that the one before is made on, and the last one is made on none |
| `Chains.WrappedFlatten` | src/behavior_rust.rs:641-683 | Undoing the groups after a rewrite gives what it gave before, at every depth |
| `Chains.GroupedFlatten` | src/behavior_rust.rs:553-593 | Whatever was offered, flattening gives back exactly the measured tree, and the grouped tree reads the same |
| `Chains.ReadingFlatten` | src/behavior_rust.rs:553-554 | A tree whose groups hold measured calls means the same without the groups |
| `Chains.NumberedUngrouped` | src/behavior_rust.rs:553-554 | A lowered tree has no group before grouping |
| `RequestQueue.RunKeeps` | src/index_coordinator.rs:801-963 | Every run of enqueue, root replacement and return, takeover, crash, claim, publication, requeue, cancellation, lost writes and acknowledgement keeps the whole invariant |
| `RequestQueue.StepKeeps` | src/store/requests.rs:854-1216 | Each store operation keeps it |
| `RequestQueue.FirstInFirstOut` | src/store/requests.rs:957-982 | A row is finished before an earlier one only by failing for a changed root that the earlier one does not share; one row runs at a time; only an incarnation that has reconciled owns a running or done row |
| `RequestQueue.ShapedWithoutReplacement` | src/index_coordinator.rs:801-963 | While the root stays the queue is always finished*, at most one running, queued* |
| `RequestQueue.ShapeStep` | src/store/requests.rs:853-920 | That shape is lost exactly when rows fail for a changed root and an open row that does not fail is before one that does |
| `RequestQueue.ShapeLost` | src/store/requests.rs:853-920 | A run with two root replacements in which a leader that lost its root does this |
| `RequestQueue.ShapeLostOnReturn` | src/store/requests.rs:884-905 | A run in which the root comes back and its leader does this |
| `RequestQueue.ResultsIncrease` | src/store/requests.rs:1186-1202 | Done rows carry strictly later revisions along the queue, each later than the head at its own enqueue |
| `RequestQueue.PublishedOnce` | src/index_coordinator.rs:864-947 | One incarnation commits at most one publication for one row |
| `RequestQueue.RequeuedExactlyUncommitted` | src/store/requests.rs:983-1051 | Contention returns a row that still runs to the queue exactly when the attempt committed nothing |
| `RequestQueue.LostStays` | src/index_coordinator.rs:936-947 | A row whose committed result was lost is neither queued nor finished nor published again under its owner, whatever comes next: it keeps running, or fails when the root is lost |
| `RequestQueue.RecordedResolves` | src/store/requests.rs:1091-1154 | A recorded result can be written, or was written and can be acknowledged, unless its row failed while the root was away |
| `RequestQueue.StrandedStep` | src/store/requests.rs:1091-1125 | Exactly two steps lead there: the row fails while the root is away with the result recorded, or the result is recorded after that |
| `RequestQueue.StrandedRun` | src/store/requests.rs:1091-1125 | A run of a leader that ends there |
| `RequestQueue.NeverStranded` | src/store/requests.rs:1091-1154 | While the root stays no run ends there, and the driver always has its row |
| `RequestQueue.FinishedStays` | src/store/requests.rs:1164-1216 | A finished row never changes again in any run |
| `RequestQueue.FreshIncarnation` | src/http.rs:1415-1420 | A new incarnation has reconciled nothing and inherits no cached result |
| `RequestQueue.DrivenRow` | src/index_coordinator.rs:838-947 | While the driver is at a row the row is its own, or failed when the root was lost under it |
| `RequestQueue.Front` | src/store/requests.rs:964 | The first row that is neither done nor failed |
| `RequestQueue.FailRoots` | src/store/requests.rs:887-905 | Exactly the open rows of other roots fail while the root is there, and those of the leader's root once it is not |
| `QueueDriver.Driver.Do` | src/store/requests.rs:854-1216 | Every change of the queue is one enabled action of the protocol |
| `QueueDriver.Driver.Interleave` | src/store/requests.rs:707-752 | Other processes only append queued rows and move the root |
| `QueueDriver.Driver.FailChangedRoots` | src/store/requests.rs:854-920 | Success means that exactly the open rows that the root decides on have failed; a failure may have done the same or nothing |
| `QueueDriver.Driver.ClaimRequest` | src/store/requests.rs:957-982 | A claim is the front row under a held lock; none is returned only when the queue is finished or its front already runs here |
| `QueueDriver.Driver.Publish` | src/index_coordinator.rs:848-876 | One attempt of the protocol at the claimed row, whatever others did before it; a request that expects another head is rejected and publishes nothing |
| `QueueDriver.Driver.RequeueBusyClaim` | src/store/requests.rs:983-1051 | Success means that the row was requeued with nothing committed by this owner, or was left because it had failed for the lost root |
| `QueueDriver.Driver.RetryRecordedCompletion` | src/store/requests.rs:1091-1154 | Success means that nothing waits for its terminal write, and true exactly when a result of this incarnation was recorded; failure keeps the recorded result |
| `QueueDriver.Driver.RecordAndFinish` | src/store/requests.rs:1053-1078 | Success means one more acknowledged result and none waiting |
| `QueueDriver.Driver.DrainOne` | src/index_coordinator.rs:826-956 | From the claim to the acknowledgement: finished counts one result, stopped means drained, deferred means given back, interrupted leaves nothing recorded |
| `QueueDriver.Driver.Settle` | src/index_coordinator.rs:915-956 | A cancelled waiter changes nothing but letting go of the driver, so that no row becomes terminal |
| `QueueDriver.Driver.DrainRequests` | src/index_coordinator.rs:804-963 | The whole drain is a run of the protocol; the count is the number of acknowledged results; it ends well only when drained, at a bound or deferred |
| `QueueDriver.Driver.RetryRecorded` | src/index_coordinator.rs:976-1003 | A command resolves only its own recorded result, without publishing again |
| `QueueDriver.Driver.Takeover` | src/http.rs:1415-1524 | A new owner is kept only with its own reconciliation committed; otherwise the lock is released |
| `QueueDriver.Driver.MandatoryReconcile` | src/http.rs:1421-1469 | True exactly when this incarnation has reconciled |
| `WatchHints.WatchSignals.constructor` | src/watch.rs:192-270 | A new watcher starts with a full inventory pending |
| `WatchHints.WatchSignals.Settled` | src/watch.rs:274-283 | When nothing is pending, an inventory accounts for every hint there ever was |
| `WatchHints.WatchSignals.Count` | src/watch.rs:51 | A hint counts before it is sent, and leaves something that wakes the leader |
| `WatchHints.WatchSignals.Deliver` | src/watch.rs:52-60 | A hint that does not fit the channel leaves the overflow mark |
| `WatchHints.WatchSignals.Elsewhere` | src/watch.rs:37-61 | Edits and hints between any two steps keep every hint accounted for or pending |
| `WatchHints.WatchSignals.RequireFull` | src/watch.rs:300-305 | A full inventory is pending and unacknowledged |
| `WatchHints.WatchSignals.Record` | src/watch.rs:419-472 | Dirty paths stay within 256, an overflow of them asks for a full inventory, and nothing pending is forgotten |
| `WatchHints.WatchSignals.Drain` | src/watch.rs:321-351 | The batch carries a generation read after the channel was emptied; pending work is kept |
| `WatchHints.WatchSignals.Acknowledge` | src/watch.rs:369-393 | A batch becomes acknowledged only together with a content that every hint up to it preceded; otherwise nothing is acknowledged, and a later hint keeps work pending in every interleaving |
| `WatchHints.WatchSignals.Confirm` | src/watch.rs:384-392 | A hint that raced the clearing forces a full inventory |
| `WatchHints.LeaderWork.ReconcileDue` | src/index_coordinator.rs:575-725 | True means that the selected head is the content of one inventory, captured during this call, that accounts for every hint up to the acknowledged one; anything else that was tried leaves a full inventory pending |
| `WatchHints.LeaderWork.Inventory` | src/index_coordinator.rs:639-724 | The same for the part under the publication permit |
| `WatchHints.LeaderWork.Publish` | src/index_coordinator.rs:639-687 | Success means that the head equals a capture made after every hint of the batch |
| `WatchHints.LeaderWork.Cutoff` | src/index_coordinator.rs:655-663 | The cutoff passes only when no hint was counted since the batch |
| `DependencyIndex.Dependencies.RequestBuild` | src/http.rs:107-121 | A refresh replaces the generation and asks for a driver exactly when there is none and no shutdown |
| `DependencyIndex.Dependencies.TakeWork` | src/http.rs:1554-1561 | The driver takes the latest generation with its flag, or retires after shutdown |
| `DependencyIndex.Dependencies.PublishBuild` | src/http.rs:1596-1628 | A build is published only for the generation in force, with a flag that is not set, before shutdown |
| `DependencyIndex.Dependencies.RetireUnlessOvertaken` | src/http.rs:1586-1590 | The driver retires exactly when its generation is still the latest or after shutdown |
| `DependencyIndex.Dependencies.CancelActive` | src/http.rs:1639-1651 | Shutdown empties the catalog and supersedes every build |
| `DependencyIndex.StepKeeps` | src/http.rs:1544-1628 | Every critical section, worker panic and shutdown keeps the invariant |
| `DependencyIndex.RunKeeps` | src/http.rs:1544-1650 | So does every interleaving of them |
| `DependencyIndex.LatestPublished` | src/http.rs:1586-1592 | No refresh is lost: once no driver runs, the latest generation has been published as ready with its own catalog or as failed |
| `DependencyIndex.OneDriverOneCatalog` | src/http.rs:107-121 | At most one driver exists, and a held catalog is that of the latest generation |
| `DependencyIndex.StoppedStaysEmpty` | src/http.rs:1639-1650 | After shutdown no interleaving brings a catalog back |
| `PacketCache.PacketCache.Remember` | src/http.rs:67-80 | The cache becomes the longest fitting suffix of the other entries followed by the new one; both caps, distinct ids and the byte count are kept; it panics exactly on a packet larger than the whole cache |
| `PacketCache.PacketCache.Drop` | src/http.rs:68-74 | The entry of that id is gone and the byte count is adjusted |
| `PacketCache.PacketCache.RememberFenced` | src/http.rs:81-96 | A response that cannot be finished restores the exact prior cache |
| `PacketCache.LongestSuffix` | src/http.rs:75-77 | The eviction loop keeps a suffix that fits, and every suffix that fits is at most as long |
| `ClassCatalog.Compose` | src/classes.rs:252-374 | The nested loops with their early breaks compute the catalog of the longest affordable prefixes of the path-ordered streams |
| `ClassCatalog.Admit` | src/classes.rs:267-353 | The loop over the files ends with what the admitted prefix holds, and reports truncation and incompleteness exactly when something was cut off or flagged |
| `ClassCatalog.AddFile` | src/classes.rs:300-352 | The declarations of a file up to the class limit, full exactly when one more was left |
| `ClassCatalog.AddClass` | src/classes.rs:313-351 | One declaration with the details that the record and text budgets still allow |
| `ClassCatalog.KeptFits` | src/classes.rs:316-343 | The kept details are within both budgets and the next one is not |
| `ClassCatalog.AdmittedFits` | src/classes.rs:272-295 | The admitted files are within both budgets and the next one is not |
| `ClassCatalog.TakenGrows` | src/classes.rs:267-353 | Raising any budget only extends the admitted files, the kept declarations and the kept details |
| `ClassCatalog.OrderIrrelevant` | src/classes.rs:267-268 | The catalog does not depend on the order of the extractions when their paths are distinct |
| `ClassCatalog.ClassHonest` | src/classes.rs:313-351 | A declaration that is not called truncated shows all its details, and all of them were kept |
| `ClassCatalog.CatalogHonest` | src/classes.rs:252-374 | Every declaration of a composed catalog that is not called truncated is one of a file with all its details, its relations included, also in a catalog that was cut |
| `ClassCatalog.NothingLost` | src/classes.rs:252-374 | A catalog that is not called truncated has every declaration of every file with all the details of its class index, and every relation by its id |
| `ClassCatalog.RelationsDistinct` | src/classes.rs:361-364 | Relations whose ids name one place each, as the extractor makes them, come out sorted and without duplicates |
| `ClassCatalog.CatalogDistinct` | src/classes.rs:252-374 | So the relations of every composed catalog, cut or not, are sorted and without duplicates when each id of the extractions names one place |
| `ClassCatalog.DedupDistinct` | src/classes.rs:364 | Of relations in general, removing equal neighbours removes all duplicates exactly when equal ids are neighbours |
| `Sorting.SortPermuted` | src/classes.rs:268 | A stable sort of elements without ties does not depend on their order |
| `PackageIndex.Indexer.IndexPackage` | src/dependency_rust.rs:595-800 | Whatever is indexed is an eligible file, none twice. A package that is not called partial has indexed its eligible files in the order of the walk up to some place, with all their declarations; it is incomplete exactly when some of its files in that order, but not all, bring the declaration text to 64 MiB. It is not called partial whenever every directory and eligible file in it can be read in full and the files that the walk comes to use up no other budget; it is called partial whenever there was no text left at its start |
| `PackageIndex.StoppedUnmarked` | src/dependency_rust.rs:785-787 | A package of two files in which nothing can go wrong and whose first file uses up the declaration text |
| `PackageIndex.TourReachable` | src/dependency_rust.rs:595-800 | The order of the walk, the files of a directory before the directories queued, has every eligible file below the root exactly once |
| `PackageIndex.Indexer.IndexDirectory` | src/dependency_rust.rs:612-798 | All pages of one directory are walked in order, or the package ends: marked, or with its text used up by the last file and not before |
| `PackageIndex.Indexer.IndexPage` | src/dependency_rust.rs:650-791 | Every entry of a page is indexed in its turn, queued, excluded or dropped with a mark |
| `PackageIndex.Indexer.IndexEntry` | src/dependency_rust.rs:650-682 | One entry does not lose what it holds unless the package is marked, and marks nothing where nothing can go wrong |
| `PackageIndex.Indexer.IndexFile` | src/dependency_rust.rs:676-790 | Without a mark a file is recorded with all its declarations, and ends the walk exactly when it makes the declaration text reach its limit; a file that no budget stops is recorded without a mark |
| `PackageIndex.Indexer.AddSymbols` | src/dependency_rust.rs:732-767 | All declarations are added, in order, unless a budget drops some and says so; no budget is ever exceeded, and nothing is marked when they fit |
| `PackageIndex.Indexer.TakePage` | src/dependency_rust.rs:637-649 | The page is worked off in order and the rest of the directory is left; a directory that cannot be listed is given up with a mark |
| `PackageIndex.List` | src/file_tree.rs:152-174 | A page is refused exactly for an invalid path, with its length in bytes, an invalid limit or offset, or an unreadable directory |
| `PackageIndex.PagesComplete` | src/file_tree.rs:296-304 | Following the offsets enumerates the sorted listing exactly once |
| `Citations.RawRoundTrip` | src/answer.rs:129-131 | The raw lines concatenate to the source, one for each line feed and one for an unterminated rest |
| `Citations.PromptShowsSource` | src/answer.rs:127-133 | The entries of a prompt are numbered from 1 and hold the source exactly once |
| `Citations.RecipeAccepted` | src/answer.rs:146 | For every range of at most twelve lines, the quote made by the instructions is accepted unless it is blank, and nothing else is accepted for that range |
| `Citations.QuoteIsSlice` | src/answer.rs:110-118 | A quote is a run of whole lines of the CRLF-normalised source |
| `Citations.JoinNormalized` | src/answer.rs:37-45 | Joined lines are the normalised source without the last terminator |
| `Citations.ParseResponse` | src/answer.rs:47-122 | An answer is accepted exactly when it meets every bound and every claim is anchored in the packet |
| `Citations.CheckCitation` | src/answer.rs:93-119 | A citation is accepted exactly when its coordinates lie in the named file and its quote is what they name |
| `Citations.Gather` | src/answer.rs:72-83 | The sources by path, refused exactly when a path occurs twice |

## Left out

- RustAdapter.Walk: a `yield` ends the activation that is drawn; `Coroutines` has what that means when it is resumed. Panics and cancelled awaits are not runs.
- Coroutines.ResumedShown: that a run is missing is claimed only where no dropped part has the byte range of a drawn one, which a match arm with a yield in its guard does not meet; that nothing is missing needs no such proviso.
- RustAdapter.Rounds: executions that never end are not runs; every run is finite.
- JavaAdapter.Rounds: whether a test can fail is not decided, so a loop without a condition may also end after a round; `Behaviour.EndlessWithin` shows that this only adds runs.
- PythonAdapter.Rounds: the same, and the iterator protocol of a for statement is not a step.
- Views.BuildRust: parsing and the checks of the seed and its range are not modelled; the syntax tree is given.
- Views.BuildPython: the parse-budget boundary, which is not numbered, and the detection of postponed annotations from source text are not modelled; the latter is a parameter.
- QueueDriver.Driver.RetryRecorded: the wait is bounded by a number of attempts; the original waits until it succeeds, is cancelled or fails otherwise.
- QueueDriver.Driver.DrainRequests: says nothing about claims beyond the cutoff, which a row enqueued between the check and the claim of an empty queue can pass.
- PackageIndex.Indexer.IndexPackage: cancellation of the walk is not modelled.
- PacketCache.PacketCache.RememberFenced: only for packets no larger than the cache; both callers admit at most 1 MiB (src/http.rs:3308, src/http.rs:7946).
- WatchHints.LeaderWork.ReconcileDue: a capture is one content of the workspace; a torn one is a failure, as its verification makes it.
- Syntax nodes are given with their kinds, fields and ranges; kinds that a walk treats alike share one name, listed at the top of each adapter.
- Labels, warning texts and the resolution of lanes from source spelling (a lane is named by a given hint) are not modelled.
- src/behavior_js.rs and src/behavior_bindings.rs are not part of this model.
- SQLite, file locks, file identity checks and fsync appear only as atomic actions that may fail; a check and the commit it guards are one action.
- The retained-leader branch of the daemon's queue tick, the waiting loop of a command and the reading of request options are not modelled.
- Reconciliation, capture and publication themselves are actions that advance the head or fail.
- The classification of a filesystem event is given with the event, and clock readings are given to each call.
- Counters do not wrap around, and saturating additions are unbounded ones.
- Extraction of classes and declarations from source text is given; the warning lists of catalogs and packages are left out.
- Reading a directory stream is given as a listing; only its sorting, paging and argument checks are modelled.
- The JSON schema and size of an answer are given, and the validation of a packet is left out.
- The HTTP surface, authentication, providers, the ACP ledger and capture are left out.
