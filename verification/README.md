# Model of the compiler front end and its runtime

Eight parts of one compiler are modelled: the thread pool and the string
replacement that it embeds in every program it generates, its lexer, its
expression and type parsers with their printers, the loading of imported
modules, the equality and interning of types, the narrowing of types by
conditions, the capture analysis of functions, and the clean-up chains of
generated code.  Each part that works step by step in the source does so here:
classes with fields that methods update, arrays that are filled, loops with the
source's own exits.  Every such method is tied to a specification, and what the
source promises is proved of the specification.

* **Thread pool** (`PoolModel`, `PoolInv`, `PoolProof`, `PoolQueue`, `PoolLive`,
  `PoolSteps`, `PoolErrors`, `PoolTheorems`, `PoolShutdown`, `PoolWait`).  A state machine: one
  main thread that initialises the pool, adds jobs, waits and shuts down, and any
  number of workers, each with a program point; three mutexes, two condition
  variables with parked threads, the linked job queue and its counters.  Each
  access to a field that another thread may touch is one step.  Job functions
  insert jobs they own, set the error state, or return, in any order.  A signal
  wakes any one parked thread, and parked threads may wake by themselves.
* **Expressions** (`Parsing`, `ExprSyntax`, `ExprSpec`, `ExprShape`, `ExprRound`,
  `ExprSound`, `ExprTokens`, `ExprExact`, `ExprClimb`, `ExprAccept`, `ExprConcat`,
  `ExprJoins`, `ExprValue`, `ExprSource`, `ExprGrammar`, `ExprOrder`, `ParserMethods`
  in `Parser.dfy`).  The parser
  reads an operand and inserts every later operator into the right spine of the
  finished tree.  `Obeys` says what the tables of precedence and associativity
  demand of a tree; `Climb` is an independent precedence-climbing parser; `Print`
  is `stringify` as tokens.  `At` is the grammar level by level, with the operators
  of every level written out.
  The flag `g` of the specification turns the regrouping of string literals on;
  the source always has it on.  `NoJoin` and `NoBadJoin` say of the tokens, read
  from left to right, that none are regrouped, or none behind another operator
  than `+`.
* **Types** (`TypeSyntax`, `TypeRound`, `TypeSound`, `TypeTokens`, `TypeExact`,
  `ParserMethods`).  Function, array, map, optional, member, reference and union
  types, with named, `mut` and variadic parameters.
* **Imports** (`Imports`, `ImportState`, `ImportTheorems`, `ImportLoader` in
  `Loader.dfy`).  A depth-first loader over a finite graph of files, and the
  recursive relaxation of priorities.  An entry's `initialized` flag is what
  detects cycles; the proof keeps the stack of modules being read, and the order
  in which modules are finished is what makes the relaxation terminate.
* **Clean-up chains** (`CleanUpSpec`, `CleanUpChain` in `CleanUp.dfy`,
  `CleanUpLevels`).  `FromTop` and `FromLabel` say what runs when the emitted code
  is entered; for the asynchronous form `FromCase` does so for a switch whose
  cases fall through.
  The ghost fields `log`, `handed` and `handedAsync` record what was added and
  which labels were given to jumps, and when.  `CleanUpLevels.State` enters and
  leaves blocks.
* **Types at rest** (`TypeMatch`, `TypeEquivalence`, `TypeNormal`, `Interning`) and
  **narrowing** (`Narrowing`, `NarrowExact`, `NarrowComplete`).  `Distinct` says that no
  union has two matching members; `Normal` is what `matchStrict` can tell of a type;
  `HasType` says which values a type has; `Told` says access by access what a
  condition tells.
* **String replacement** (`ReplaceSpec`, `StrReplace`).  `Replaced` is the
  specification, `Leftmost`, `Chosen` and `Splice` an independent description of it.
* **Captures** (`CaptureSpec`, `CaptureOccurs`, `Capture`, `CaptureAst`).  `Uses` and
  `Captures` say by lexical scoping alone which variables an expression and a
  function refer to; `LeadsTo` says the same by paths through the program; the
  classes maintain frames, fresh code names and marks.
* **Lexer** (`LexerSpec`, `LexerTiling`, `LexerFailures`, `LexerMethods` in
  `Lexer.dfy`).  `Fits` says, without an order of trials, which token stands
  from one position to another; `Tiles` says that tokens and gaps alternate up to
  the end.

Behaviour worth knowing, each shown by a lemma:
`a * "x" + "y"` multiplies the joined literals (`RegroupingAfterProduct`);
`(A B...)` is the type `B` in parentheses (`ListWithoutArrow`); after
`x is A || x is B` the variable is taken to be of type B (`OrCastsTooMuch`), and
after a failed `x is A && y` not to be of type A (`AndCastsTooMuch`); a union with
a repeated member matches unions that do not match it (`RepeatedMembersMatch`).

## Model

| member | source | states |
|---|---|---|
| PoolSteps.InvByStep | src/codegen-api.hpp:4342-4366 | Every step of any thread, and every spurious wake-up, keeps the invariant: lock owners match program points, counters match regions, the queue is a chain, tickets are unique, no wake-up is missing |
| PoolSteps.InvInRun | src/codegen-api.hpp:4138-4160 | The invariant holds in every state of every run of a pool of any size |
| PoolTheorems.Quiescence | src/codegen-api.hpp:4323-4330 | When `threadpool_wait` leaves its loop without an error, every job ever inserted has been popped and its function has returned, the queue is empty and no worker is inside a job; this stays so until main adds again |
| PoolTheorems.NoLostWakeUp | src/codegen-api.hpp:4170-4184 | While the pool is active and a job is queued, some worker is awake or some thread has yet to signal `cond2`; while main is parked in `threadpool_wait`, a worker is counted as working, a job is queued, or a worker is about to signal |
| PoolTheorems.FifoAndCounters | src/codegen-api.hpp:4116-4133 | Insertions are the pops followed by the chain from `jobs`; `jobs_tail` is its last node whenever `lock2` is free; no node is in the chain twice; both counters equal the number of workers in their regions |
| PoolTheorems.OnePlace | src/codegen-api.hpp:4170-4184 | A node that a thread holds is not queued, and no two threads hold the same node |
| PoolTheorems.FreedOnce | src/codegen-api.hpp:4054-4080 | `threadpool_deinit` frees the jobs still queued, each once and in queue order, and when it returns all workers have exited |
| PoolShutdown.NoNull | src/codegen-api.hpp:4116-4133 | Neither `threadpool_insert` nor `threadpool_get` dereferences NULL, although `jobs` is read under three different locks |
| PoolShutdown.NoDeadlock | src/codegen-api.hpp:4323-4366 | In every reachable state some thread can go on by itself, unless main is in its own code or has finished: lock waits form no cycle and no condition is waited for in vain |
| PoolShutdown.LockOrder | src/codegen-api.hpp:4170-4184 | `lock1` and `lock2` each come before `lock3`, and nobody asks for one of the first two while holding any lock |
| PoolShutdown.ShutdownCompletes | src/codegen-api.hpp:4054-4080 | Once `active` is cleared, a run takes a bounded number of steps, and a fixed number more for each spurious wake-up and each thing a job function does but return; the only state in which nobody can go on is the one where deinit has returned |
| PoolWait.WaitCompletes | src/codegen-api.hpp:4323-4330 | A run stays inside `threadpool_wait` for a bounded number of steps, and a bounded number more for all its spurious wake-ups and for all that job functions do but return; as long as it is inside, some thread can go on by itself |
| PoolErrors.ErrorIsRecorded | src/codegen-api.hpp:4092-4096 | A job function that leaves the write of the error state has recorded the error |
| PoolErrors.ErrorStays | src/codegen-api.hpp:4092-4096 | An error once recorded stays until main is back in its own code |
| PoolErrors.NotParkedAgain | src/codegen-api.hpp:4323-4330 | From a test with an error recorded on, main neither waits nor parks again before it is back in its own code, whatever is queued |
| PoolErrors.ErrorIsAnnounced | src/codegen-api.hpp:4356-4360 | Whenever main is parked in `threadpool_wait` with an error recorded, some worker is in a job or at its end and has the signal still before it |
| PoolErrors.SignalsFirst | src/codegen-api.hpp:4356-4360 | Such a worker does not come back to its loop while main stays parked: it signals first |
| PoolErrors.ErrorEndsWait | src/codegen-api.hpp:4323-4360 | With an error recorded main changes its program point at most three times before `threadpool_wait` ends, and while it is parked one worker owes the signal all along and makes a bounded number of moves of its own until then; neither bound speaks of the queue |
| PoolErrors.SignalHasReason | src/codegen-api.hpp:4356-4360 | A worker at its end that is about to signal main has found, when it last tested, nobody working and nothing queued, or an error |
| PoolTheorems.PassesOn | src/codegen-api.hpp:4170-4184 | A worker that leaves jobs behind when it takes one wakes another worker, if any is parked, before it starts its own |
| ExprRound.PrintParse | src/ParserExpr.cpp:20-137 | Parsing the tokens of any tree that obeys the operator tables gives the tree back and consumes exactly these tokens |
| ExprRound.OperandReads | src/Parser.cpp:778-995 | Of a printed tree the parser reads its leftmost operand and stops where the first operator stands |
| ExprRound.Reaches | src/Parser.cpp:1463-1559 | Inserting the operators of a printed tree one after the other, starting from that operand, rebuilds the whole tree |
| ExprSound.InsertKeepsObeys | src/Parser.cpp:1119-1205 | Inserting an operator into the right spine of a tree that obeys the precedence and associativity tables leaves a tree that obeys them |
| ExprSound.ParseExprObeys | src/Parser.cpp:778-995 | Every tree the parser builds, from any token list, obeys the tables |
| ExprSound.ParsePrintParse | src/ParserExpr.cpp:20-137 | parse(print(parse(ts))) = parse(ts) for every accepted token list, with and without the regrouping of string literals |
| ExprSound.ImageOfParser | src/Token.cpp:203-301 | The trees the parser can build are exactly the trees that obey the tables |
| ExprSound.OneTreePerTokenList | src/Token.cpp:203-301 | No two trees that obey the tables have the same tokens |
| ExprOrder.GrammarOfParser | src/Token.cpp:203-301 | The trees the parser can build are exactly those of a grammar by levels in which the operators and their order are written out, from `*`, `/` and `%` down to the logical or, then `?:` and assignment; the tables are not read by it |
| ExprOrder.GrammarIsRead | src/Parser.cpp:1119-1205 | The tokens of every tree of the grammar are read as that tree, with no regard to string literals; as the source runs, if and only if the tokens join none |
| ExprOrder.BinaryPairs | src/Token.cpp:247-301 | For all binary operators p and q: `a p b q c` is read as `(a p b) q c` if the class of p is that of q or a tighter one, and as `a p (b q c)` otherwise |
| ExprOrder.NamePairs | src/Token.cpp:247-301 | The same of names, with and without the regrouping of string literals |
| ExprOrder.AssignTakesAll | src/Token.cpp:203-245 | Behind every assignment operator stands a whole expression, another assignment too: assignments group to the right and are looser than everything else |
| ExprOrder.CondTakesAll | src/Token.cpp:247-301 | In front of `?` stands everything but an assignment or a conditional, and behind the colon a whole expression |
| ExprOrder.PrefixThenBinary | src/Token.cpp:247-301 | `-x + y` is `(-x) + y`, for all prefix and all binary operators |
| ExprOrder.PrefixThenSuffix | src/Token.cpp:247-301 | `-x.p`, `-x[i]` and `-f()` take what stands behind the operand first, for all prefix operators |
| ExprOrder.NoAssignment | src/Parser.cpp:1252-1263 | Assigning to anything but a name, a property or an element is E0140 |
| ExprOrder.NoStep | src/Parser.cpp:1437-1443 | `++` or `--` behind anything else is E0142 |
| ExprTokens.InsertPrints | src/Parser.cpp:1119-1205 | However deep an operator is inserted, and whatever it regroups, the tokens of the new tree are the old ones followed by the operator's |
| ExprTokens.ParseExprTidies | src/ParserExpr.cpp:20-137 | The tokens of the tree are the tokens consumed, but for doubled parentheses and for the commas of array literals and argument lists, which are put between the elements |
| ExprExact.NeatExprs | src/ParserExpr.cpp:20-137 | The tokens of the tree are exactly those consumed if and only if in these, at any depth, commas stand between the elements of a list and nowhere else and no parentheses stand directly inside others |
| ExprClimb.InsertionIsClimbing | src/Parser.cpp:1119-1205 | With no regard to string literals, right-spine insertion accepts the same token lists as a precedence-climbing parser over the same tables and builds the same tree |
| ExprAccept.InsertSeen | src/Parser.cpp:1119-1205 | What an insertion accepts, its error, and what the next operator can see of the result depend only on what could be seen before, whether literals are joined or not |
| ExprAccept.SameVerdict | src/Parser.cpp:1265-1302 | For every token list, joining string literals changes nothing but the tree: not whether the list is accepted, not where the parser stops, not the error |
| ExprJoins.InsertSpot | src/Parser.cpp:1265-1302 | Reading operators from left to right and remembering two things tells where the next `+` would be attached, and to what |
| ExprJoins.InsertFree | src/Parser.cpp:1265-1302 | An insertion joins two literals if and only if this reading says so |
| ExprJoins.ExprFree | src/Parser.cpp:1265-1302 | The tree has joined literals, or ones joined behind another operator than `+`, if and only if the reading of the tokens finds some, brackets included |
| ExprSource.SourceAgainstClimbing | src/Parser.cpp:1119-1302 | The parser as the source runs it accepts exactly what precedence climbing accepts and stops at the same token; the trees are equal if and only if the tokens join no literals, and equal up to reassociating sums if and only if they join none behind another operator than `+` |
| ExprSource.AddedProductJoinsNothing | src/Parser.cpp:1271-1281 | In `b + a * "x" + "y"` nothing is joined: a product within a sum is not where the second `+` is attached |
| ExprConcat.InsertFlat | src/Parser.cpp:1265-1302 | Inserting with regrouping and then flattening the sums is the same as flattening and then inserting without |
| ExprValue.RegroupingDoesNothing | src/Parser.cpp:1265-1302 | The tree is the one without regrouping if and only if the tokens join no literals |
| ExprValue.RegroupingReassociates | src/Parser.cpp:1265-1302 | It is that tree up to reassociating sums if and only if the tokens join none behind `-`, `*`, `/` or `%` |
| ExprValue.RegroupingKeepsValue | src/Parser.cpp:1265-1302 | Then it has the same value under every meaning of the operators, and of parentheses, in which `+` is associative |
| ExprValue.FreeMeaningTells | src/Parser.cpp:1265-1302 | Under one such meaning, in which a value is the tree itself up to reassociating sums, the values are the same only then |
| ExprValue.RegroupingAfterProduct | src/Parser.cpp:1265-1302 | With numbers: `a * "x" + "y"` is read as `a * ("x" + "y")` |
| ParserMethods.Parser.StmtExpr | src/Parser.cpp:778-995 | The method that moves the lexer reads what the specification parser reads, gives back its position when there is no expression, and fails with the same error |
| ParserMethods.Parser.Operand | src/Parser.cpp:778-985 | The same for the branches before the operators, with the position given back where the source seeks back |
| ParserMethods.Parser.Parenthesised | src/Parser.cpp:954-991 | The same for a parenthesised expression |
| ParserMethods.Parser.WrapStmtExpr | src/Parser.cpp:1463-1559 | The loop that inserts operator after operator ends where the specification does |
| ParserMethods.Parser.WrapExpr | src/Parser.cpp:1119-1205 | Descending the right spine and rebuilding it equals insertion at the level the precedence of the operator fixes |
| ParserMethods.Parser.WrapIndex | src/Parser.cpp:1207-1235 | Access by index, with errors E0150 and E0151 |
| ParserMethods.Parser.WrapBinary | src/Parser.cpp:1265-1302 | A binary operator, its right operand and the regrouping of string literals |
| ParserMethods.Parser.WrapAssign | src/Parser.cpp:1252-1263 | An assignment operator and its right operand |
| ParserMethods.Parser.WrapCall | src/Parser.cpp:1304-1338 | A call, its named arguments and commas |
| ParserMethods.Parser.WrapCond | src/Parser.cpp:1341-1361 | A conditional: both branches are whole expressions |
| TypeRound.TypePrintParse | src/ParserType.cpp:20-66 | For every type tree the parser can produce, parsing the tokens of its `stringify` gives the tree back and consumes exactly these tokens, given a follower that cannot extend a type |
| TypeSound.TypeParsePrintParse | src/Parser.cpp:997-1117 | parse(print(parse(ts))) = parse(ts) for every token list |
| TypeSound.ImageOfTypeParser | src/Parser.cpp:997-1117 | The type trees the parser can produce are exactly the formed ones |
| TypeSound.OneTypePerTokenList | src/ParserType.cpp:20-66 | No two of them print alike |
| TypeTokens.TypeTidies | src/ParserType.cpp:20-66 | For every accepted token list the tokens of the tree are those consumed, but for five things: the commas of a parameter list are put between its parameters; `( ->` is closed; of a list without an arrow only the last type is kept, without its dots and its own parentheses; a second `async` and parentheses behind `async` are dropped |
| TypeExact.NeatTypes | src/Parser.cpp:997-1117 | The tokens of the tree are exactly those consumed if and only if the tokens have none of these, at any depth |
| TypeSound.ListWithoutArrow | src/Parser.cpp:1067-1074 | An example: `(A B...)` is read as `(B)` |
| ParserMethods.Parser.ReadType | src/Parser.cpp:997-1117 | The method with its seeks back reads what the specification type parser reads, with the same errors |
| ParserMethods.Parser.WrapTypeRead | src/Parser.cpp:1657-1727 | The same for what may follow a type: arrays, optionals, members and unions |
| ImportLoader.LoadRoot | src/AST.cpp:617-635 | Over any finite file graph loading terminates, and it succeeds if and only if no cycle, even through the root, can be reached from the root |
| ImportLoader.Loader.Gen | src/AST.cpp:588-645 | Reading one module keeps the state of the whole load, and reports E1032 only when there is a cycle |
| ImportLoader.Loader.Load | src/AST.cpp:621-635 | A file met for the first time is entered, read with everything it imports, and marked as initialized, before its importer goes on |
| ImportLoader.Loader.Record | src/AST.cpp:637-645 | The edge is recorded and afterwards every recorded edge goes up by at least one in priority |
| ImportLoader.Loader.UpdatePriorities | src/AST.cpp:69-80 | Relaxation terminates, only raises, raises only modules that can be reached, and leaves no recorded edge of a raised module unsatisfied |
| ImportLoader.Loader.Find | src/AST.cpp:617-619 | The first entry of that path, or the end |
| ImportTheorems.NoCycle | src/AST.cpp:633-635 | A load that ends without E1032 proves that there is no cycle |
| ImportTheorems.EachFileOnce | src/AST.cpp:617-631 | The entries are exactly the files imported from the root, each once |
| ImportTheorems.PriorityIsLongestChain | src/AST.cpp:69-80 | The priority of a module is the length of the longest chain of imports that leads to it |
| ImportTheorems.ImportsComeFirst | src/Codegen.cpp:143-145 | Any order by descending priority puts every module after all it imports |
| CleanUpSpec.DeferStack | src/CodegenCleanUp.cpp:137-151 | Entering the generated code from the top runs all clean-ups, newest first; entering at a label runs exactly those added before the label was handed out, newest first |
| CleanUpSpec.FromCaseMerges | src/CodegenCleanUp.cpp:153-168 | The asynchronous form: statements merged into the last case run after everything an earlier case runs |
| CleanUpSpec.EmittedFurther | src/CodegenCleanUp.cpp:153-168 | Patching a counter in the middle of a switch keeps what every counter patched before it runs |
| CleanUpChain.CleanUp.constructor | src/CodegenCleanUp.cpp:21-31 | A level starts empty and takes the first free label of its parent |
| CleanUpChain.CleanUp.Add | src/CodegenCleanUp.cpp:33-51 | The statement goes in front of all others of its level; a group whose label has been used is left as it is and a new one is opened; all parents learn of the label taken |
| CleanUpChain.CleanUp.Merge | src/CodegenCleanUp.cpp:174-184 | A merged block runs in its own order, before everything added earlier |
| CleanUpChain.CleanUp.CurrentLabel | src/CodegenCleanUp.cpp:77-88 | The label handed out is the one of the newest group of the nearest level that has something to run, what had been added there is on record beside all that was recorded of other labels, and an error is raised only when no level has anything |
| CleanUpChain.CleanUp.JumpStaysInside | src/CodegenCleanUp.cpp:170-172 | `hasCleanUp` says whether a level that a jump leaves has something to run; then the nearest such level is one of these |
| CleanUpChain.CleanUp.CurrentLabelAsync | src/CodegenCleanUp.cpp:90-101 | The same for the counter of an asynchronous level |
| CleanUpChain.CleanUp.Jump | src/codegen/block.cpp:133-134 | A jump goes to a label if and only if a level that it leaves has something to run, and then to the label of the nearest such level |
| CleanUpChain.CleanUp.JumpAsync | src/codegen/block.cpp:297-299 | The same for the counter that an asynchronous jump returns to |
| CleanUpChain.CleanUp.LabelsDiffer | src/CodegenCleanUp.cpp:33-51 | No two groups of a chain of levels share a label |
| CleanUpLevels.State.LabelsDiffer | src/codegen/block.cpp:31-36 | No two groups of a whole function share a label, whichever of its blocks they belong to and in whatever order these were open |
| CleanUpLevels.State.Enter | src/codegen/block.cpp:31-36 | The level of a block is opened below the current one and keeps that so |
| CleanUpLevels.State.Add | src/CodegenCleanUp.cpp:33-51 | So does adding to the current level |
| CleanUpLevels.State.CurrentLabel | src/CodegenCleanUp.cpp:77-88 | So does handing out a label of its chain |
| CleanUpLevels.State.Leave | src/codegen/block.cpp:181 | So does going back to the level around it |
| CleanUpChain.CleanUp.Gen | src/CodegenCleanUp.cpp:137-151 | The emitted code has the property of DeferStack at every label ever handed out: no record of one is lost |
| CleanUpChain.CleanUp.GenAsync | src/CodegenCleanUp.cpp:153-168 | The emitted cases have it too, at the value patched into every counter handed out |
| TypeEquivalence.MatchReflexive | src/Type.cpp:610-709 | `matchStrict` holds of every type and itself |
| TypeEquivalence.MatchTransitive | src/Type.cpp:610-709 | `matchStrict` is transitive on all types, also recursive through members, parameters and unions |
| TypeEquivalence.MatchSymmetric | src/Type.cpp:610-709 | It is symmetric on types whose unions have no two matching members |
| TypeEquivalence.UnionSymmetric | src/Type.cpp:269-285 | Equal numbers of members and one inclusion are enough for two unions to have the same members |
| TypeNormal.MatchIsNormal | src/Type.cpp:610-709 | Two types match if and only if they have the same normal form: aliases removed, the members of a union as a set, every flag kept, names of parameters and code names kept only when `exact`; so nothing else is told apart and nothing is mixed up |
| TypeEquivalence.SymmetricExactly | src/Type.cpp:610-709 | A union is matched back by every union of plain members that it matches, if and only if no two of its members match |
| TypeEquivalence.RepeatedMembersMatch | src/Type.cpp:610-709 | With a repeated member symmetry fails: a union of `int` twice matches the union of `int` and `str`, but not the other way round |
| Interning.SamePointer | src/TypeMap.cpp:284-303 | Two calls, however far apart, return the same pointer if and only if their alias-stripped arguments match and have equal `builtin` flags, or for functions, if the whole signatures match; the same with equal normal forms in place of matching |
| Interning.TypeMap.SamePointers | src/TypeMap.cpp:126-303 | The same for any two calls out of any sequence of them, as long as no union that is given to one, or comes in when members are defined, has two matching members |
| Interning.FoundAlike | src/TypeMap.cpp:126-150 | Which stored type is found does not depend on which of two alike arguments is given |
| Interning.TypeMap.Search | src/TypeMap.cpp:284-303 | The first stored type that passes the test, or none |
| Interning.TypeMap.CreateRef | src/TypeMap.cpp:284-303 | The result is the first reference type that passes; types are only added behind the others |
| Interning.TypeMap.Create | src/TypeMap.cpp:126-150 | The same for arrays and optionals, with the types that defining the members adds in between |
| Interning.TypeMap.CreateFn | src/TypeMap.cpp:167-189 | The same for function types |
| Narrowing.BodyCastsHold | src/AST.cpp:405-519 | Where a condition without `or` is true every entry of the body map holds; with it, as long as both sides say the same |
| Narrowing.AltCastsHold | src/AST.cpp:405-519 | Where a condition without `and` is false every entry of the alternative map holds; with it, as long as that leaves none |
| NarrowExact.OrCastsExactly | src/AST.cpp:424-440 | For a chain of `or` of any length: the body map holds wherever it is true if and only if a test of finitely many values finds every value that a link but the last lets through to be of the type the last casts to |
| NarrowExact.AndCastsExactly | src/AST.cpp:424-440 | For a chain of `and` of any length: the alternative map holds wherever it is false if and only if such a test finds every value with which a link is false to be of the type cast to |
| NarrowExact.FewEnvironmentsTell | src/AST.cpp:405-519 | For every condition, however nested: its casts hold wherever it is true, or false, if and only if they do in each of finitely many assignments of values to variables |
| NarrowExact.CandidatesStandForAll | src/AST.cpp:424-440 | The finitely many values tested stand for all: every value has the same of the types mentioned as one of them |
| Narrowing.UnionSubHolds | src/TypeMap.cpp:408-425 | A value of the union that is not of the type left out is of the type that remains |
| Narrowing.UnionSubDistinct | src/TypeMap.cpp:408-425 | Leaving members out keeps the members of the union different |
| Narrowing.UnionSubExactly | src/TypeMap.cpp:408-425 | No member of what remains matches the type left out, unless all did, and every member that does not match it remains; one that remains alone is not put into a union |
| NarrowComplete.CastsAreTold | src/AST.cpp:405-519 | For every condition and every access both maps hold exactly what the condition tells of the access: the right operand of `and` sees what the left one told and has the last word, of `or` both operands have to tell something |
| NarrowComplete.ConjunctsAreTold | src/AST.cpp:405-519 | A condition without `or` casts an access where it is true if and only if one of its tests does, each seeing the casts before it, and to the type the last of these gives |
| NarrowComplete.ConjunctsAreToldElse | src/AST.cpp:405-519 | Where it is false, to what the last test that tells something then tells |
| NarrowComplete.NilIsExcluded | src/AST.cpp:440-460 | An access of optional type that one of its tests compares with nil by `!=` is cast, and nil is not of its type any more, unless what is in the optional is optional itself or a later test casts it again |
| NarrowComplete.NilIsExcludedElse | src/AST.cpp:440-460 | The same for `==` where the condition is false |
| NarrowComplete.LastTestDecides | src/AST.cpp:485-499 | An access of any, optional or union type that is tested by `is` is cast to the type last tested, if no comparison follows |
| NarrowComplete.RemainderElse | src/AST.cpp:485-499 | Where the condition is false an access of union type is cast to what remains of the union |
| NarrowComplete.DisjunctsAreTold | src/AST.cpp:424-440 | A condition without `and` casts an access if and only if all its tests cast it, both where it is true and where it is false; which tests do is written out |
| Narrowing.OrCastsTooMuch | src/AST.cpp:424-440 | Where one of `x is A` and `x is B` is true, `x` is taken to be of type B |
| Narrowing.AndCastsTooMuch | src/AST.cpp:424-440 | Where `x is A && y` is false, `x` is taken not to be of type A |
| Narrowing.Analyser.EvalTypeCasts | src/AST.cpp:405-519 | Both maps are those of the specification, and the casts in force are restored |
| Narrowing.Analyser.LeaveOut | src/TypeMap.cpp:408-425 | The loop keeps the members that do not match, in order; a single one stands for itself |
| ReplaceSpec.ReplacedIsSpliced | src/codegen-api.hpp:3152-3223 | The result is the string spliced at its first leftmost non-overlapping occurrences, whatever list of positions describes these |
| ReplaceSpec.LeftmostUnique | src/codegen-api.hpp:3152-3223 | There is only one such list of positions |
| ReplaceSpec.PlacesAreLeftmost | src/codegen-api.hpp:3182-3187 | Scanning forward and stepping over each occurrence finds them |
| ReplaceSpec.InsertedLength | src/codegen-api.hpp:3156-3157 | The length computed before the loop for an empty pattern is the length of the result |
| ReplaceSpec.ReplacedIsChosen | src/codegen-api.hpp:3152-3223 | The occurrences replaced are the leftmost ones that do not overlap, for an empty pattern every place: as many as asked for, and all of them for a count of zero or less |
| ReplaceSpec.ChosenUnique | src/codegen-api.hpp:3152-3223 | There is only one list of such occurrences |
| StrReplace.Replace | src/codegen-api.hpp:3152-3224 | All five branches put the new string at those occurrences, all of them when the count is zero or less; every write is inside the current allocation and the buffer returned is written to its end |
| StrReplace.Insert | src/codegen-api.hpp:3156-3167 | The branch for an empty pattern: the string goes in front of every character and at the end, up to the limit |
| StrReplace.ReplaceWhole | src/codegen-api.hpp:3168-3177 | The branch for a pattern as long as the string |
| StrReplace.Delete | src/codegen-api.hpp:3178-3192 | The branch that puts nothing in place of the pattern |
| StrReplace.Substitute | src/codegen-api.hpp:3193-3214 | The branch that grows the buffer with each occurrence that does not fit, and shrinks it once at the end |
| StrReplace.Fit | src/codegen-api.hpp:3199-3206 | Growing keeps what has been written and makes room for one more occurrence |
| CaptureOccurs.UsesAreMentions | src/AST.cpp:1194-1203 | A variable in scope is used by an expression if and only if it is the innermost of its name and a path through the expression, however many closures and functions it enters, leads to the name and passes no declaration that hides it |
| CaptureOccurs.StmtIsMentions | src/AST.cpp:825-912 | The same for a statement |
| CaptureOccurs.ResolvesMentions | src/AST.cpp:1194-1203 | An expression is accepted if and only if every name that a path leads to, past no declaration of it, is in scope |
| CaptureOccurs.ClosureCaptures | src/AST.cpp:1446-1493 | A closure captures exactly the variables that such a path leads to |
| CaptureOccurs.FunctionCaptures | src/AST.cpp:880-912 | So does a function; what its inner functions capture of the outside it captures too |
| CaptureAst.Ast.NodeFn | src/AST.cpp:880-912 | A function captures exactly the variables in scope where it stands that are neither built in nor ignored, are the innermost of their name, and are mentioned at any depth inside it where nothing hides them |
| CaptureAst.Ast.NodeClosure | src/AST.cpp:1446-1493 | The same for a closure, which has a variable for itself |
| CaptureAst.Ast.FnBody | src/AST.cpp:894-906 | The frame of the function is gone afterwards, and what its parameters and body mention of the outside is captured |
| CaptureAst.Ast.NodeExpr | src/AST.cpp:1194-1203 | An expression is accepted if and only if all its names are in scope, it marks exactly the variables it refers to, and it leaves the scope as it was |
| CaptureAst.Ast.Node | src/AST.cpp:825-912 | The same for a statement, with the names in scope behind it |
| CaptureAst.Ast.NodeBlock | src/AST.cpp:375-403 | The same for a block, whose functions are in scope before its statements |
| CaptureAst.Ast.Forward | src/AST.cpp:542-587 | Function names are added once, at the current frame |
| Capture.SomeNumberFree | src/VarMap.cpp:139-157 | As many numbers as there are variables cannot all be taken: the search for a code name ends |
| Capture.VarMap.FreshName | src/VarMap.cpp:139-157 | The code name returned is in use by no variable |
| Capture.VarMap.Get | src/VarMap.cpp:31-39 | The innermost variable of the name |
| Capture.VarMap.Restore | src/VarMap.cpp:159-172 | Erasing in place removes exactly the variables of the innermost frame |
| Capture.VarMap.Stack | src/VarMap.cpp:178-198 | All variables that can be captured, innermost first and none marked |
| Capture.VarStack.Mark | src/VarStack.cpp:36-43 | Exactly the entry of that code name becomes marked |
| Capture.VarStack.MarkAll | src/VarStack.cpp:45-49 | Exactly the entries of these code names become marked |
| Capture.VarStack.Snapshot | src/VarStack.cpp:51-61 | Exactly the marked variables |
| LexerTiling.OneTokenPerPlace | src/Lexer.cpp:25-257 | At most one token of one kind and one length stands at a place of a text |
| LexerTiling.OneTiling | src/Lexer.cpp:25-257 | A text has at most one tiling by tokens and gaps of whitespace and comments |
| LexerTiling.TilesRebuild | src/Lexer.cpp:430-435 | The tokens and the gaps between them put together are the text: nothing is lost |
| LexerTiling.BrokenHasNoTiling | src/Lexer.cpp:501-566 | After a block comment without an end, or where no token stands, a text has no tiling |
| LexerTiling.GapHaltsOnce | src/Lexer.cpp:501-566 | Whitespace and comments after a token end at one place only |
| LexerTiling.PointTakesNext | src/Lexer.cpp:337-375 | Behind a point, a character that is neither a digit nor an exponent is taken into the fraction if and only if it cannot be in a name and is no second point; `FloatWithAnyCharacter` says where such a float ends |
| LexerMethods.Lexer.All | src/Lexer.cpp:25-257 | Taking tokens to the end gives the one tiling of the text, or an error, and then the text has none |
| LexerMethods.Lexer.Next | src/Lexer.cpp:25-257 | One token: its text is what stands there, both its locations are true, only a gap lies before it; an error says why no token stands there |
| LexerMethods.Lexer.Whitespace | src/Lexer.cpp:501-566 | The whole gap is skipped, or up to the first comment when comments are kept; E0001 where a block comment has no end |
| LexerMethods.Lexer.LitNum | src/Lexer.cpp:287-379 | A number that ends where it must, or an error where no number stands |
| LexerMethods.Lexer.LitFraction | src/Lexer.cpp:332-375 | The same behind the point |
| LexerMethods.Lexer.LitFloat | src/Lexer.cpp:264-285 | A float that no name follows; binary, octal and hexadecimal floats are errors |
| LexerMethods.Lexer.WalkLitFloatExp | src/Lexer.cpp:450-499 | A whole exponent, or E0013 where there is none of any length |
| LexerMethods.Lexer.OpEq2 | src/Lexer.cpp:397-428 | The longest of an operator, its double and their forms with `=` |
| LexerMethods.Lexer.OpEq | src/Lexer.cpp:381-395 | The longer of an operator and its form with `=` |
| LexerMethods.Lexer.Walk | src/Lexer.cpp:437-448 | All characters of the class and no other, and the position given back |
| LexerMethods.Lexer.Str | src/Lexer.cpp:185-211 | A string ends at its first quote that is not escaped, or there is none |
| LexerMethods.Lexer.Chr | src/Lexer.cpp:213-254 | One character or escape between quotes, or the error that says what is wrong |
| LexerSpec.LocIsTrue | src/Reader.cpp:67-98 | The line of a position is one more than the line ends in front of it, and its column the distance to the last one |
| LexerSpec.LongestOperator | src/Lexer.cpp:44-183 | An operator token is the longest operator, out of the list of all, that stands at its place |
| LexerMethods.Reader.Next | src/Reader.cpp:67-98 | The character at the position; line and column stay true |
| LexerFailures.NoDecimal | src/Lexer.cpp:320-325 | Digits that end badly and have no float behind them are no token of any kind |

## Left out

- PoolShutdown.NoDeadlock: is for pools with at least one worker; the generated main function asks for five (src/Codegen.cpp:198-199), and without workers a queued job is waited for without end.
- PoolTheorems.NoLostWakeUp: is for pools with at least one worker, for the same reason.
- PoolShutdown.ShutdownCompletes: a run with spurious wake-ups or job functions that go on for ever is not bounded; nothing in the source ends it.
- Thread pool: reads are sequentially consistent; failures of the threading library and of allocation, and the bodies of job functions (`threadpool_job_step` with them), are not modelled; starting and joining a thread are single steps.
- ExprTokens.ParseExprTidies: is about tokens, not characters: `- -x` prints without a blank between its signs.
- PoolWait.WaitCompletes: the same goes for a run that never ends inside `threadpool_wait`.
- ParserMethods.Parser.StmtExpr: where the source goes on to read a closure, an object or map literal, `ref`, `as`, `is` or an `async` operand, the model ends with the outcome `Beyond`; what such an operand is read as is not modelled.
- ParserMethods.Parser.Operand: the same for operands that begin with `ref`, a brace or `async`.
- ParserMethods.Parser.Parenthesised: the same for parameter lists of closures.
- Expressions and types: closures, object and map literals, `as`, `is`, `ref`, `async` blocks, statements, the retries for `if` and `loop` heads, and the source locations of nodes.
- ImportLoader.LoadRoot: takes the graph of files as given; paths, packages, reading files and all other errors of a module are left out.
- CleanUpChain.CleanUp.CurrentLabel: the names of the break, continue, return and value variables and the flags that go with them, but `valueVarUsed`, are left out.
- CleanUpChain.CleanUp.Add: a statement is a value; only whether it is Null, a block or anything else matters.
- TypeEquivalence.SymmetricExactly: is about one union whose members are plain; for types that hold such unions deeper inside, MatchSymmetric gives one direction. Type trees are finite.
- Types at rest: `matchNice`, `largest`, `numberTypeMatch`, `createMap`, `createUnion`, `createObj` and the names that types get in C.
- NarrowExact.OrCastsExactly: is about values whose own types have no repeated members; for conditions that mix `&&` and `||`, FewEnvironmentsTell is the exact test.
- Narrowing.BodyCastsHold: conditions that assign to the variables they test are left out, and that the type of a property depends on the cast of its object.
- Narrowing.Analyser.LeaveOut: the new union is built; looking it up by name is left out.
- StrReplace.Replace: lengths and the counter are unbounded, so it is for strings below 2^31 characters; the `memcmp` and `memcpy` of C are loops or comparisons of their own here.
- CaptureAst.Ast.Forward: declares functions only; type aliases, objects, enums and imports add nothing here, and a method or namespace member is not looked up by its shortcut (src/AST.cpp:1213-1231).
- Capture.VarMap.FreshName: code names of functions are taken to differ from those of variables, as different constructors do.
- LexerMethods.Lexer.Next: the location an error points to is left out, and so is the reading of `\r\n` as one character on Windows. Characters are those of the C locale.
- File system, process, network, random, date and URL runtime, the other string functions, the code generator itself, documentation and XML output, and the playground.
