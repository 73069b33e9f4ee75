# A verified model of the core of a Lua-scripted streamer

The program is a stream processor, Astra, that is driven by scripts. It brings its own copy of the Lua 5.2 interpreter
and a small portability layer. This project models the parts of the interpreter on which every script depends, and the
emulated condition variable of the portability layer, and proves what they are for:

- **The garbage collector** (`CollectorState` to `Collector`, 18 modules). An incremental tricolour mark-and-sweep
  collector with weak tables, ephemeron tables, open upvalues, closure caches and three kinds of write barriers. Every
  operation of a program and every collector step, in any order, keeps one invariant. So nothing that a program can
  reach is freed, and an uninterrupted cycle leaves no garbage. `Collector` has the same steps as methods that change
  lists, colours and objects in place.
- **The expression compiler** (`Numbers` to `Statements`, 18 modules). Code generation in one pass with delayed
  instructions, jump lists that are threaded through the code that is being generated, constant folding, short-circuit
  evaluation and register allocation. Compiled functions do what the expressions and assignments mean. `FuncStates` has
  the generator that rewrites instructions in place. What the operations on values promise is said by laws
  (`ValueLaws`), and the comparison of strings is proved to be their order (`StringCompare`).
- **Scopes and closures** (`Scoping`, `Upvalues`, `Closures`, `ScopedPrograms` to `ScopedRuns`). Names are resolved to
  registers and to upvalue descriptors while nested functions are parsed; at run time variables are shared through open
  and closed upvalues. Whole programs with nested functions, blocks, loops and calls come to the same output as under a
  semantics in which each declaration makes a new variable and a function holds the variables in its scope.
- **Tables** (`TableSizes` to `TableTraversal`). Chained scatter tables with Brent's variation and an array part refine
  finite maps, through collisions and rehashes. The array size is the best one, and a traversal gives each key once.
- **Patterns** (`Patterns`, `Matching`, `MatchStates`, `Searching`, `PatternTexts` to `PatternMeaning`). The backtracking
  matcher returns the outcome of the most preferred way through the pattern; searches find the first match. What a
  pattern means is said once more for a tree of parts, with sets of characters, and its text is proved to mean that.
- **The condition variable** (`CondVar`, `WakeUps`, `TimedWaits`) that is made of a semaphore, an event and two locks. For
  any number of threads and any interleaving, a signal wakes one of the threads that wait when it looks, and a broadcast
  wakes them all; no wake-up is lost, stolen or left over. With waits that may time out this fails, and it is said
  exactly when.
- **Binary chunks** (`Chunks`, `ChunkRoundTrip`, `ChunkLayout`, `ChunkStreams`). A dumped function is loaded as it was, in
  whatever pieces it arrives; the layout is fixed byte by byte.
- **Expressions in text** (`Precedence`, `Grouping`, `ExprParser`), **quoted strings** (`Quoting`, `Spellings`,
  `StringReader`) and **sorting** (`Orders`, `Sorter`).

`Basics` holds what these share. A datatype or function states what a piece of code computes; a class has the code's
fields and methods, and its methods are proved to compute those functions; the lemmas are about the functions.

## Findings

Some promises of the code hold only under a condition. Each time the condition is stated, both directions are proved
where a row below says "exactly", and a lemma gives an input that fails.

- **`lua_setmetatable` while a cycle is being marked.** An all-weak table is put into a list and not visited again before
  it is cleared (lua/lgc.c:447-448), and `lua_setmetatable` has only a backward barrier, which needs a black table
  (lua/lapi.c:825-829). A new metatable of such a table is not marked, and can be freed while the table refers to it
  (`MetatableLoss.MetatableFreed`). If the table is not weak any more, it is not visited either, and the key of an empty
  entry is freed under it (`MetatableLoss.WeaknessLost`).
- **Freed keys of all-weak tables.** Their empty entries keep keys that have been freed, since only the other kinds of
  traversal mark such keys as dead (lua/lgc.c:107-110). When the table gets another mode, in whatever phase, the
  collector looks at the colour of these keys (`MetatableLoss.StaleKey`). Each of the three states is shown to come up in
  a run from a new state. `CollectorRuns.SetMetaExact` has the exact condition, and
  `CollectorRuns.KeyLost` says what is lost.
- **`string.find` without special characters.** The plain search stands in for the matcher when the pattern has no
  special characters, but `)` is not one of them (lua/lstrlib.c:223). `string.find(s, ")")` finds a parenthesis where
  `string.match(s, ")")` raises an error. `Searching.PlainIsPattern` says exactly when both agree.
- **Waits with a timeout.** A waiter whose time runs out takes itself off the count and sets no event
  (src/astra/core/cond.c:245-262). A signal or broadcast that has counted it waits for that event, with the lock that all
  later calls need. `TimedWaits.SignalHangs` is a run of two threads in which a signal waits for ever;
  `TimedWaits.HopelessExact` says exactly in which states that is so.
- **Invalid order functions.** `table.sort` with a comparison that is not an order may raise an error, but never loses
  an element and never goes deeper than the logarithm of the size (`Sorter.Sort.SortTable`).

## Model

| member | source | states |
|---|---|---|
| CollectorRuns.RunSafe | lua/lgc.c:1040-1103 | in every state of every run in which a program and collector steps alternate in any way, every object that the program can reach is in the heap and not dead, and so is what it refers to |
| CollectorRuns.OpOk | lua/lgc.c:135-183 | each operation of a program, with the barrier that it uses, keeps the invariant in every phase: allocation, stores to stacks, tables, userdata, closures and upvalues, rehashing, changes of metatables and modes, capturing and closing, resuming, interning |
| CollectorRuns.OpenWriteOk | lua/lvm.c:595-600 | a write through an open upvalue is safe in every phase, whether or not anything names the thread of its slot, also when that thread is dead |
| CollectorRuns.SetModeOk | lua/lgc.c:434-454 | under the same condition the mode of a table, dead or alive, may change without a barrier, as it does when the `__mode` of its metatable is written |
| CollectorRuns.RehashOk | lua/ltable.c:304-334 | moving entries between the parts of a table is safe in every phase without a barrier |
| CollectorRuns.SweepSafe | lua/lgc.c:719-752 | a sweep step frees nothing that a program can reach and leaves the contents of such objects alone |
| CollectorRuns.CycleCollectsGarbage | lua/lgc.c:1040-1103 | a cycle that is not interrupted ends, and what is left then is in every closed set that contains the roots |
| CollectorRuns.SetMetaExact | lua/lapi.c:812-849 | `setmetatable` on a table keeps the invariant exactly when a table waiting to be cleared stays all-weak with a marked metatable, and an all-weak table that gets another mode has no freed keys |
| CollectorRuns.KeyLost | lua/lgc.c:107-110 | in every state, giving another mode to a reachable all-weak table with a freed key lets the program reach something that has been freed or is dead |
| MetatableLoss.MetatableFreed | lua/lapi.c:812-849 | a state that a run reaches, from which `setmetatable` and one collector step leave a reachable table whose metatable has been freed |
| MetatableLoss.WeaknessLost | lua/lgc.c:434-454 | a state that a run reaches, from which a table that is not weak any more refers to a freed key after the next collector step |
| MetatableLoss.StaleKey | lua/lgc.c:107-110 | a state that a run reaches, in which taking the metatable from an all-weak table leaves a strong table with a freed key, and the invariant fails |
| CollectorInvariant.AccessibleAlive | lua/lgc.c:999-1037 | what a program can reach by any path, even through weak tables and caches, is not dead |
| CollectorSteps.SingleStepOk | lua/lgc.c:1040-1103 | every single step, of any size and in any phase, keeps the invariant |
| CollectorSteps.StepNeeded | lua/lgc.c:1040-1103 | a step marks nothing outside a closed set that contains the roots, and at the end of the cycle nothing else is left |
| CollectorSteps.AtomicOk | lua/lgc.c:999-1037 | after the atomic phase every object that is not dead refers only to such objects, and all of them are in every closed set with the roots |
| Propagation.PropagateMarkOk | lua/lgc.c:521-563 | one visit keeps the tricolour invariant, marks nothing beyond a closed bound, and leaves what the object refers to marked |
| Traversal.PropagateMarkVisits | lua/lgc.c:521-563 | every visit leaves less to do, so marking ends |
| Convergence.ConvergedClosed | lua/lgc.c:594-609 | when the ephemeron tables have converged, the marked objects and strings are closed under all references that keep objects alive |
| Convergence.LeastClosed | lua/lgc.c:594-609 | and they are the least such set |
| Clearing.CleanTable | lua/lgc.c:625-660 | a weak table that has been cleared as its list demands refers to marked objects only |
| Clearing.ClearedSame | lua/lgc.c:625-660 | clearing removes entries and changes no other |
| SweepingProof.SweepObjectOk | lua/lgc.c:719-752 | one step along the list frees a dead object or makes a live one white, with the open upvalues of threads, and keeps all else |
| OpenUpvals.CloseInv | lua/lfunc.c:89-107 | closing upvalues keeps the invariant in every phase, whatever their colours |
| OpenUpvals.CloseExact | lua/lfunc.c:89-107 | in every state: the open list of the thread keeps exactly the upvalues of slots below the level; of the others the dead ones are freed and the rest have the values of their slots; nothing else in the heap changes |
| OpenUpvals.FindUpvalShares | lua/lfunc.c:47-72 | in every state: a slot that has an open upvalue gets that one; otherwise a new one joins the list, which stays in order, and nothing else in the heap changes |
| Collector.GlobalState.Mark | lua/lgc.c:243-295 | changes colours and lists in place as the function of the model says |
| Collector.GlobalState.PropagateMark | lua/lgc.c:521-563 | takes one gray object and visits it in place; ties the state to `Traversal.PropagateMark` |
| Collector.GlobalState.ConvergeEphemerons | lua/lgc.c:594-609 | the loop over rounds, in place, ends in the state of `AtomicPhase.Converge` |
| Collector.GlobalState.AtomicStep | lua/lgc.c:999-1037 | the atomic phase in place |
| Collector.GlobalState.SweepObjects | lua/lgc.c:719-752 | the loop of `sweeplist` in place |
| Collector.GlobalState.SweepToLive | lua/lgc.c:758-767 | sweeps up to the first live object |
| Collector.GlobalState.SingleStep | lua/lgc.c:1040-1103 | the state machine of the collector in place; it keeps the invariant |
| Collector.GlobalState.RunTilPause | lua/lgc.c:1110-1114 | the loop to the end of a cycle ends, with the invariant and with nothing outside any set that has all that the cycle must keep |
| Collector.GlobalState.CloseUpvals | lua/lfunc.c:89-107 | the loop of `luaF_close` in place; it keeps the invariant and closes exactly the upvalues from the level on |
| Collector.GlobalState.Barrier | lua/lgc.c:135-146 | the forward barrier in place |
| Collector.GlobalState.BarrierBack | lua/lgc.c:155-161 | the backward barrier in place |
| Collector.GlobalState.BarrierProto | lua/lgc.c:172-183 | the barrier of closure caches in place |
| FuncStates.CompileBody | lua/lparser.c:604-613 | compiles declarations and assignments into an instruction array, in place; for all arguments the machine then ends with every variable in its register, or raises an error exactly when the body does |
| Statements.FunctionCorrect | lua/lparser.c:527-552 | the same for the functions of the generator, for all bodies, arguments and upvalues |
| Statements.BlockCorrect | lua/lparser.c:1434-1451 | a block compiled after any code: every run that arrives leaves with the new values of the variables, or fails exactly as the block does |
| Correctness.LocalCorrect | lua/lcode.c:492-497 | an expression compiled for a new local: wherever a run arrives, it goes on to the end with the value in the next register and all registers below as they were |
| Correctness.StoreCorrect | lua/lcode.c:558-582 | the same for an assignment to an active local |
| Correctness.CompileOk | lua/lparser.c:1037-1064 | wherever control arrives, the descriptor of a compiled expression has the value of the expression, with its pending exits and delayed instructions |
| Closing.Exp2RegOk | lua/lcode.c:468-489 | `exp2reg` closes both exit lists: afterwards the value is in the register on every path and nothing is pending |
| Meaning.CodeNilRun | lua/lcode.c:37-56 | a run that arrives leaves with exactly the range set to nil, whether the instruction is merged with the one before or emitted; other runs are not changed |
| Bytecode.RunIsExecution | lua/lvm.c:534-866 | for complete code of the fragment, what `Run` says is what the machine does step by step |
| ValueLaws.OrderDefined | lua/lvm.c:231-256 | order raises an error exactly for operands that are neither two numbers nor two strings; only NaN differs from itself |
| ValueLaws.Trichotomy | lua/lvm.c:231-256 | `<=` is `<` or `==`; exactly one of `<`, `==` and `>` holds, and none for NaN |
| ValueLaws.LessTransitive | lua/lvm.c:231-241 | `<` is transitive |
| ValueLaws.StringOrder | lua/lvm.c:209-228 | a string is less than another exactly if it is a proper beginning of it or has the smaller character at the first difference |
| ValueLaws.NumberOrder | lua/luaconf.h:447-449 | adding a number to both sides keeps `<`, products of positive numbers are positive, 0 is below 1, and the infinities are at the ends |
| ValueLaws.ArithDefined | lua/lvm.c:360-371 | arithmetic, minus and length raise an error exactly for operands of other types |
| ValueLaws.FieldLaws | lua/luaconf.h:442-444 | sums and products are commutative and distribute, with 0 and 1 |
| ValueLaws.SumUndone | lua/luaconf.h:442-443 | subtraction undoes addition and addition subtraction, also at the infinities |
| ValueLaws.ProductUndone | lua/luaconf.h:444-445 | division undoes multiplication and multiplication division |
| ValueLaws.ByZero | lua/luaconf.h:442-446 | dividing by zero gives an infinity of the sign, or NaN for zero; NaN stays NaN |
| ValueLaws.Remainder | lua/luaconf.h:436-436 | quotient and remainder recombine, the remainder is on the side of the divisor, and no other number is like that |
| ValueLaws.RemainderSigns | lua/luaconf.h:436-436 | -5 % -3 is -2, 5 % -3 is -1, -5 % 3 is 1 and 5.5 % 2 is 1.5 |
| ValueLaws.Exponents | lua/luaconf.h:437-437 | powers with whole exponents, negative ones included, multiply when exponents add |
| ValueLaws.Infinities | lua/luaconf.h:436-446 | products, sums, quotients and remainders with infinities follow the signs, or are NaN |
| ValueLaws.PowerEdges | lua/luaconf.h:437-437 | powers of and with zero, one, the infinities and NaN |
| ValueLaws.MinusLaws | lua/luaconf.h:446-446 | minus is subtraction from 0, undoes itself, and turns the order round |
| ValueLaws.LengthLaws | lua/lvm.c:335-357 | the length of a string is additive under concatenation, 0 for the empty string and 1 for one character |
| ValueLaws.FalseLaws | lua/lobject.h:170-170 | nil and false count as false; true, every number and every string do not |
| StringCompare.LStrCmp | lua/lvm.c:209-228 | comparing piece by piece between zero characters gives the order of the whole strings |
| FuncStates.FuncState.Concat | lua/lcode.c:198-209 | walks the first list in the code and links the second to its end: the threads stand for the concatenated lists |
| FuncStates.FuncState.Exp2Reg | lua/lcode.c:468-489 | the method with its patching in place refines the function that `Exp2RegOk` is about |
| FuncStates.FuncState.GoIfTrue | lua/lcode.c:621-642 | the same for the test before the second operand of `and` |
| FuncStates.FuncState.CodeNot | lua/lcode.c:668-700 | negation in place: swaps the lists, rewrites tests, drops values |
| FuncStates.FuncState.CompileExp | lua/lparser.c:1037-1064 | the calls that the parser makes for any expression, in place, refine `CodeGen.Compile` |
| ScopedRuns.ProgramRuns | lua/lparser.c:1604-1615 | for every program with functions nested in any way, blocks, loops, assignments and calls: the code with registers, upvalues and closing comes to the same outcome and the same output as the program under lexical scoping |
| ScopedRuns.NameLeads | lua/lparser.c:271-294 | at every point of an activation, the register or upvalue that a name is resolved to is where the variable is that the name means |
| ScopedRuns.ClosureFits | lua/lvm.c:401-417 | a new closure holds, for each descriptor of its prototype, the variable that the descriptor leads to |
| ScopedPlaces.DropOk | lua/lfunc.c:89-107 | when a block or a function is left, closed variables keep their values and all closures that share one still do |
| Scoping.ParseResolves | lua/lparser.c:271-294 | at every point of every parse each name resolves to its innermost declaration in scope, or to none exactly if there is none, and all upvalues recorded before still lead to their own |
| Scoping.LeaveCloses | lua/lparser.c:472-492 | a block that declares a captured variable closes its upvalues when it is left |
| Scoping.FuncStates.SingleVarAux | lua/lparser.c:271-294 | the recursion over enclosing functions, in place, is `Resolve` |
| Upvalues.RunShares | lua/lfunc.c:47-107 | for any interleaving of captures, writes and closes, slots and upvalues read as if each captured variable were one shared cell |
| Upvalues.NewThreadStands | lua/lfunc.c:47-107 | and that is how a stack without upvalues starts |
| Upvalues.FindOk | lua/lfunc.c:47-72 | the open upvalue of a slot is found or made, the list stays sorted, and there is never a second one |
| Upvalues.CloseOk | lua/lfunc.c:89-107 | exactly the upvalues from the level on are closed, and none changes its value |
| Upvalues.CachedSame | lua/lvm.c:379-392 | a cached closure that is reused has the upvalues that a new one would have |
| Closures.Thread.OpClosure | lua/lvm.c:833-843 | with a cache or without, the result has the upvalues of a new closure and the thread is as if one had been made |
| Closures.Thread.FindUpval | lua/lfunc.c:47-72 | the search and insertion in the list, in place |
| Closures.Thread.Close | lua/lfunc.c:89-107 | the loop that closes upvalues, in place |
| Closures.Thread.SetUpval | lua/lvm.c:595-600 | a write through an upvalue goes to the slot while it is open and to its own value after that |
| LuaTables.LuaTable.Get | lua/ltable.c:481-503 | the walk along the chain finds the value that the map has for the key |
| LuaTables.LuaTable.Set | lua/ltable.c:510-515 | the map changes at the key and nowhere else; nil and NaN are refused |
| LuaTables.LuaTable.NewKey | lua/ltable.c:405-440 | inserting a new key, with a move of the colliding node or a rehash if needed, keeps all other keys |
| LuaTables.LuaTable.Rehash | lua/ltable.c:343-359 | no key changes its value, the array size is the largest power of two that is more than half full, and there is room for the new key |
| LuaTables.LuaTable.Resize | lua/ltable.c:304-334 | moving all entries between the parts changes no value and never grows the table again |
| LuaTables.SizesFit | lua/ltable.c:343-359 | the counts are exact: the new hash part has one node for every key that is not in the new array part |
| LuaTables.LuaTable.Next | lua/ltable.c:169-186 | gives the first entry with a value behind the key, or an error exactly for a key that the table does not have |
| TableSizes.ComputeSizes | lua/ltable.c:196-215 | the size is the best among all powers of two, although the loop skips and stops early |
| TableTraversal.ExactlyOnce | lua/ltable.c:169-186 | a traversal in which values are overwritten or removed on the way gives every key that keeps a value exactly once |
| TableTraversal.EveryKeyOnce | lua/ltable.c:169-186 | said of keys: one that the table has a value for all the time comes exactly once |
| TableTraversal.EntryThere | lua/ltable.c:169-186 | every key that comes has at that time the value that comes with it |
| TableTraversal.StepBound | lua/ltable.c:169-186 | and ends after at most as many steps as the table has places |
| Matching.MatchMeans | lua/lstrlib.c:410-510 | a match returns the outcome of the most preferred of all ways through the pattern, and fails exactly if there is none |
| MatchStates.MatchState.MatchAt | lua/lstrlib.c:410-510 | with captures written in place and undone on failure, the matcher computes `Patterns.Match` and leaves its captures |
| MatchStates.MatchState.MaxExpandAt | lua/lstrlib.c:346-358 | the loop from the most repetitions down |
| MatchStates.MatchState.MinExpandAt | lua/lstrlib.c:361-371 | the loop from the fewest repetitions up |
| Searching.FindPattern | lua/lstrlib.c:595-624 | the method finds the first place from which there is a way through the pattern, with its outcome, and none exactly if there is none |
| PatternReading.ClassMeans | lua/lstrlib.c:266-283 | each letter names its class, given as a set of characters one by one, and the capital letter the complement |
| PatternReading.SetMeans | lua/lstrlib.c:286-306 | a set in brackets ends at its bracket and holds exactly the characters, ranges and classes that it lists, or with `^` all others |
| PatternReading.PartMeans | lua/lstrlib.c:410-510 | the text of every part of a pattern is read as that part: characters with `?`, `*`, `+`, `-` or nothing behind them, captures, positions, `%b`, `%f`, `%1`, `$`, and malformed ends |
| PatternMeaning.BalanceMeans | lua/lstrlib.c:325-343 | `%bxy` ends at the first place where both characters have come equally often |
| PatternMeaning.CaptureMeans | lua/lstrlib.c:399-407 | a back reference matches exactly the text of its capture |
| PatternMeaning.TextItems | lua/lstrlib.c:410-510 | for every list of parts, the items that the matcher reads from its text are those parts |
| PatternMeaning.MatchText | lua/lstrlib.c:410-510 | for every list of parts, the matcher, given its text, returns the outcome of the best way through the parts |
| PatternMeaning.SearchText | lua/lstrlib.c:595-624 | and a search, anchored or not, finds exactly the first place where the parts match or an error is raised |
| PatternMeaning.LongestAndShortest | lua/lstrlib.c:491-499 | in a text of one character only, `*` goes to the end and `-` takes nothing |
| Searching.MemFind | lua/lstrlib.c:514-533 | finds the first occurrence |
| Searching.PlainIsPattern | lua/lstrlib.c:566-574 | for a pattern without special characters the plain search agrees with the pattern exactly if there is no closing parenthesis, or what precedes it does not occur |
| Searching.ParenthesisDiffers | lua/lstrlib.c:223-223 | an input on which they differ |
| Searching.StrFind | lua/lstrlib.c:577-626 | both kinds of search, chosen as the code does |
| CondVar.RunOk | src/astra/core/cond.c:159-266 | the invariant holds in every interleaving of any number of threads |
| CondVar.FromStart | src/astra/core/cond.c:109-138 | and so it does after any turns of any threads on a new condition variable |
| CondVar.SignalWakesOne | src/astra/core/cond.c:159-183 | when a signal that released the semaphore goes on, exactly one thread that was waiting when it looked has been woken, and semaphore and event are back at their initial state |
| CondVar.BroadcastWakesAll | src/astra/core/cond.c:185-219 | when a broadcast goes on, exactly those that were waiting have been woken, and nothing is left over |
| WakeUps.SignalLooks | src/astra/core/cond.c:159-183 | a signal that looks while threads are registered goes on to wait with one token released for them; if none is, it ends and releases nothing |
| WakeUps.BroadcastLooks | src/astra/core/cond.c:185-219 | a broadcast releases a token for each registered thread, or ends |
| WakeUps.WholeCall | src/astra/core/cond.c:159-219 | from the first step of a signal to its last, with any turns of the others in between: of the threads registered when it looks exactly one is not registered any more, and none if there was none; after a broadcast no thread is registered; semaphore and event are as before the call |
| WakeUps.EveryCall | src/astra/core/cond.c:159-219 | the same for every call in every run of a new condition variable |
| WakeUps.WaitKeepsMutex | src/astra/core/cond.c:221-266 | a wait lets go of the mutex only when it is registered, and ends with the mutex locked |
| WakeUps.WokenByCall | src/astra/core/cond.c:221-266 | a wait gets a token only from a signal or broadcast that looked after it had registered, and at most one from each |
| TimedWaits.TimedRunOk | src/astra/core/cond.c:221-266 | with timeouts in any interleaving, what is left of the invariant holds |
| TimedWaits.SignalHangs | src/astra/core/cond.c:159-266 | a run of two threads after which a signal waits for ever: it has counted a waiter whose time ran out |
| TimedWaits.HopelessForEver | src/astra/core/cond.c:159-266 | in such a state no turns of any threads help, and the lock that all later calls need is never free again |
| TimedWaits.WakerRescued | src/astra/core/cond.c:159-266 | in every other state there are steps after which the waker has gone on |
| TimedWaits.HopelessExact | src/astra/core/cond.c:159-266 | a signal or broadcast that waits does so for ever exactly if the event is not set, nobody is about to set it, and nobody is left who waits or has a token and has not given up, but for one that takes itself off the count of a broadcast while others that gave up are still counted |
| TimedWaits.EveryHopeless | src/astra/core/cond.c:109-266 | the same in every run of a new condition variable |
| CondVar.NothingLeft | src/astra/core/cond.c:221-266 | between wake-ups there is no token and no event that a later waiter could take |
| CondVar.NeverStuck | src/astra/core/cond.c:159-266 | while a waker waits, it can go on, or some thread can take a step that leaves less to do |
| CondVar.NeverMore | src/astra/core/cond.c:159-266 | and no step of any thread adds to what is left |
| CondVar.WakerGoesOn | src/astra/core/cond.c:159-266 | from every such state there are steps, as many as are left to do and one more, after which the waker has gone on |
| CondVar.EverySignal | src/astra/core/cond.c:159-183 | what a signal has done when it goes on, in every run of a new condition variable |
| CondVar.EveryBroadcast | src/astra/core/cond.c:185-219 | the same for a broadcast |
| CondVar.EveryPause | src/astra/core/cond.c:221-266 | in every such run nothing is left over between wake-ups |
| CondVar.EveryWaker | src/astra/core/cond.c:159-266 | in every such run a waker can come to its end |
| ChunkRoundTrip.UndumpDump | lua/lundump.c:206-233 | loading a dumped chunk gives the function back, stripped or not, and leaves exactly what follows |
| ChunkRoundTrip.FunctionBack | lua/ldump.c:139-150 | the same for every nested function |
| ChunkRoundTrip.StrippedExact | lua/ldump.c:120-137 | two functions have the same stripped form exactly if, at every depth, they differ in debug information only |
| ChunkRoundTrip.LoadedSame | lua/ldump.c:162-173 | what is loaded from a chunk is the dumped function but for debug information, and that function itself if it was not stripped |
| ChunkLayout.ChunkStart | lua/lundump.c:244-258 | every chunk begins with the 18 bytes of the header |
| ChunkLayout.FirstWrongByte | lua/lundump.c:190-201 | the first wrong byte of a header decides which error is raised |
| ChunkLayout.ShortHeader | lua/lundump.c:190-201 | a chunk that ends within the header is truncated |
| ChunkLayout.ByteOrder | lua/ldump.c:39-53 | numbers are written with the least significant byte first |
| ChunkLayout.ConstantLayout | lua/ldump.c:61-105 | the bytes of nil, booleans, numbers and strings |
| ChunkLayout.FunctionLayout | lua/ldump.c:139-150 | every field of a function has its place, stripped or not, and nested functions stand between constants and upvalues |
| ChunkStreams.LoadDumped | lua/lundump.c:171-182 | the reader may hand over the bytes in any pieces |
| ChunkStreams.DumpState.DumpChunk | lua/ldump.c:162-173 | the writer gets exactly the bytes of the chunk, or, if it fails, a beginning of them: it is called until its first status other than 0 and never after that |
| ChunkStreams.LoadState.UndumpChunk | lua/lundump.c:206-233 | loading by methods does what the function says, errors included |
| Precedence.PrintParse | lua/lparser.c:1037-1064 | every tree, printed with parentheses only where priorities demand them, is parsed to itself |
| Grouping.TextRead | lua/lparser.c:1019-1064 | the same for parentheses placed by a list of classes of operators and by which of them group from the right, without the table of priorities |
| Grouping.TwoOperators | lua/lparser.c:1019-1064 | `a o1 b o2 c` groups from the left exactly if `o1` is of a tighter class, or of the same class and neither `^` nor `..` |
| Grouping.UnaryFirst | lua/lparser.c:1030-1064 | a unary operator in front takes the first operand alone unless `^` follows |
| Grouping.UnarySecond | lua/lparser.c:1030-1064 | behind a binary operator it needs no parentheses |
| Grouping.ParensTransparent | lua/lparser.c:1037-1064 | parentheses are read as what is inside |
| Precedence.RightNeedsParens | lua/lparser.c:1019-1030 | none of the parentheses around a right operand can be omitted |
| Precedence.LeftNeedsParens | lua/lparser.c:1019-1030 | nor any around a left operand |
| Precedence.LeftOverWeak | lua/lparser.c:1037-1064 | for all token sequences, the operator that is left unread does not bind tighter than the limit |
| ExprParser.TokenStream.SubExpr | lua/lparser.c:1037-1064 | the method that takes tokens from the stream refines the function, errors included |
| Quoting.QuoteRead | lua/lstrlib.c:833-855 | the text that `%q` makes of any string is read back as that string, and what follows is not touched; it fails exactly if the line counter overflows |
| Quoting.QuotedApart | lua/lstrlib.c:833-855 | different strings have different quoted forms, and none is the beginning of another |
| Quoting.OnlyPlainText | lua/lstrlib.c:833-855 | the quoted form holds no control characters but escaped line breaks |
| Spellings.LiteralRead | lua/llex.c:346-401 | a literal of any pieces, characters, `\a` to `\v`, `\x`, decimal escapes, line breaks and `\z`, is read as the values of its pieces in order, and the line number goes up by the lines in it |
| Spellings.BadPieces | lua/llex.c:346-401 | the errors for unfinished literals, unknown escapes and missing hexadecimal digits |
| Spellings.TooLarge | lua/llex.c:332-343 | a decimal escape beyond 255 is an error |
| StringReader.Buffer.AddQuoted | lua/lstrlib.c:833-855 | the loop appends the quoted form to the buffer |
| StringReader.LexState.ReadString | lua/llex.c:346-401 | the loop over the input, with its escapes and errors, computes the literal and the rest of the input |
| StringReader.QuoteAndRead | lua/llex.c:346-401 | writing to a buffer and reading it back |
| Sorter.Sort.SortTable | lua/ltablib.c:249-257 | for every comparison function no element is lost and the recursion is logarithmic; for every strict weak order there is no error and the table is sorted |
| Sorter.Sort.AuxSort | lua/ltablib.c:186-247 | the same for a range, in place |
| Sorter.Sort.Partition | lua/ltablib.c:210-235 | the scans and swaps divide the range at the pivot, or stop with the error of an invalid order |

## Left out

- Bytecode.RunIsExecution: the fragment has moves, constants, booleans, nil ranges, upvalue reads, arithmetic, comparisons, tests and forward jumps; tables, concatenation, upvalue stores, backward jumps, calls and varargs have no instruction in it, and metamethods and coercions of strings raise an error.
- ValueLaws.NumberOrder: numbers are reals, infinities and NaN; rounding, overflow and the sign of zero are not modelled.
- ValueLaws.Exponents: roots are not computed: the power of a positive base with a fractional exponent has NaN in its place.
- ValueLaws.ArithDefined: strings that look like numbers are not converted; metamethods are not called.
- StringCompare.LStrCmp: the C library compares characters by their codes, as in the C locale.
- PartialCode.PatchListRun: jumps of expressions lead forward, so the targets of patched lists do; the backward targets of loops are not part of this model.
- CodeGen: limits on registers, constants and jump offsets, line information, and constants beyond the operand of one instruction.
- Statements.BlockCorrect: declarations of one local and assignments of one local; the other statements are not compiled to instructions.
- Statements.FunctionCorrect: the same statements.
- FuncStates.CompileBody: the same statements.
- Correctness.CompileOk: operands are constants, locals, upvalues and operators; concatenation, indexing, calls, constructors and function bodies are not compiled.
- FuncStates.FuncState.CompileExp: the same operands.
- Correctness.StoreCorrect: stores to locals only; stores to upvalues and to tables are not compiled.
- ScopedRuns.ProgramRuns: values are whole numbers and functions, and a loop goes on while its condition is not zero, which stands for nil here; functions have one parameter and give no result, names that are not declared make a program fail instead of becoming globals, there are no labels, `repeat` or numeric loops, and function values are not compared; nesting of calls and rounds of loops is bounded by the same number on both sides, for every number.
- CollectorRuns.RunSafe: the two changes of metatables or modes under "Findings" are excluded, as the code is not safe for them; stacks are not reallocated to smaller ones.
- CollectorRuns.CycleCollectsGarbage: the cycle is not interrupted by the program.
- Finalizers, the generational mode, emergency collections, and when and how far the collector runs; a full collection that abandons a cycle.
- The buckets of the string table and its resizing: strings are one list.
- LuaTables.LuaTable.Next: a key that has been marked dead is found by its address, which in this model is the key; that a new object takes the address is not modelled.
- TableTraversal.ExactlyOnce: a key that the collector marks as dead during a traversal keeps its address, and the search for the position compares addresses, so in this model its entry keeps the key; that a new object takes the address is not modelled.
- `luaH_getn`, the sizes at which tables overflow, and hash functions: any hash function is allowed.
- Matching.MatchMeans: the limit on nested calls of the matcher, and character classes other than those of the C locale.
- PatternMeaning.SearchText: a `]` that comes first in a set, `^`, `-` and other signs that stand for themselves without `%`, and a `$` before the end are not among the texts of parts.
- Searching.StrFind: positions start at 0 and are not negative; pushing the captures, `gmatch` and `gsub` are not modelled.
- CondVar: failing system calls, and the native condition variables of newer systems; the waits in this module have no timeout.
- TimedWaits.TimedRunOk: how long a timeout is: any wait for a token may end at any time.
- Chunks: sizes of types are those of one machine; allocation does not fail; malformed prototypes that the loader accepts are returned as they are.
- Precedence.PrintParse: operands other than names, numerals, parentheses and operators are not distinguished; the limit on nesting is left out.
- Quoting.QuoteRead: the texts of error messages.
- Sorter.Sort.SortTable: a comparison function that changes the table or raises an error; positions start at 0.
- The stream modules of the program, its event loop and its sockets.
