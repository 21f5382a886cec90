# A verified model of the SysY compiler

The compiler turns SysY, a subset of C, into Koopa IR and then into RV32IM assembly. This project models the
three stateful parts of it — lowering (`src/ir.c`), code generation (`src/codegen.c` with `src/yield.h`) and
the two-pass symbol table (`src/symbols.c`, `src/hashtable.c`, driven by `src/semantic.c` and `src/ir.c`) —
together with constant folding and the bump allocator, and proves that they keep the meaning of programs.
Verify it with `dafny verify dfyconfig.toml`.

## How it is built

The languages and their meanings are independent of the compiler:

- `NamesMeaning`: the tree as parsed, run on a stack of named bindings; a name stands for its innermost binding
  (section 6.2.1 of ISO C11). There are no numbers for local variables in it.
- `Source`: the syntax tree with names resolved, evaluated big-step; fuel bounds loop iterations, and calls
  go to an arbitrary oracle. `||`, `&&`, `while`, `break` and `continue` follow sections 6.5.13, 6.5.14,
  6.8.5.1, 6.8.6.2 and 6.8.6.3 of ISO C11. Reading a local that has no value is an error.
- `Koopa`: basic blocks run one instruction at a time.
- `Riscv`: printed lines with labels, registers and memory. Division and remainder are those of section 7.2
  of the RISC-V Unprivileged ISA; arguments are where section 2.1 of the RISC-V ELF psABI puts them.
- `Programs`: whole programs, by the depth of the calls still allowed; the run-time library is any function
  of the history of calls to it, so equal results mean equal calls in equal order.

Each stateful file of the compiler appears twice. A function on its state says what a step does (`Lowering`,
`Codegen`, `Symbols`); a class holds the same state in fields and does the step in place, in the order of the
source, with its loops (`IrBuilder`, `Generator` with `Yield`, `SymbolTable` with `Passes`, `Heap`). Every
method ensures that the new state, or the lines printed, are what the function gives. The theorems are about
the functions.

- Lowering: `LoweringShape` (what a step can change), `LoweringMeaning` (the simulation), `LoweringTheorem`,
  `LoweringCfg` (the shape of the graph). `LoweringLocal` has the source rules for local code; `LoweringOwn` proves
  of every step that operands stay in their block exactly under the one, `LoweringSlots` that slots used are
  allocated exactly under the other, and `LoweringExact` puts them together.
- Code generation: `CodegenFrame` (the frame), `CodegenValues` and `CodegenInsts` (operands, operators, loads
  and stores), `CodegenCalls` (save, pass, restore), `CodegenLayout` and `CodegenEntry` (labels, counts, the
  prologue and the parameters), `CodegenRun` and `CodegenTheorem` (blocks, functions, programs: what returns),
  `CodegenForever` (what does not), `CodegenOffsets` (the range of immediates), `CodegenCounts` (what the counts are).
- `EndToEnd` puts the two together, in both directions: the compiled program stops exactly when the source does.
  `UnsafePrograms` and `UnsafeRuns` are two programs outside its conditions that compile wrong.
- Symbol table: `SymbolsBuild` (the first pass against lexical scoping), `SymbolsAccept` (exactly which programs it
  accepts; `NamesAccept` says the same of parsed programs), `SymbolsReplay` (the second pass against the first),
  `SymbolsExact` (exactly which programs the second pass gets right).
- `Names` is the tree as parsed. Its declarations are put in place in two ways: by lexical scoping, and by the answers
  of the second pass, one after the other. `NamesKinds` is what the first pass writes into the table for each
  declaration, constants folded. `NamesRun`, `NamesExec` and `NamesPrograms` prove that the tree with declarations
  in place does what `NamesMeaning` says of the tree with names. `NamesAgree` proves that the two ways are the same, and
  follows a parsed program through symbol table, lowering and code generation to the machine. `Sample` does so for
  one program, down to its listing and the number it returns.
- `Folding`, `Heap`, `LoopPaths` (where `break` may stand); `Words` and `Lists` hold arithmetic and regroupings shared
  by all.

## Conditions the code needs

The compiler is proved right only under conditions that it does not check. Each is a predicate here, and where the
code meets its promise exactly under the condition, that is proved.

- *Local* (`LoweringLocal.ItemsLogicFirst`, `LoweringLocal.ItemsKept`): the generator finds a value only in the block
  that defines it; elsewhere it prints the instruction again, which is not modelled. For every function, dead code
  included, operands stay in their block if and only if no `&&` or `||` that lowering comes to stands in an operand or
  argument evaluated after a non-constant sibling (`LoweringExact.OwnExactly`; `return a + (a && b);` breaks it). And
  every slot used has an `alloc` if and only if no variable or temporary is used whose `alloc` was dropped in a block
  already closed by a `return` (`LoweringExact.HeldExactly`). `{ return; } int a; while (a) ;` breaks that;
  `{ return; } a = 1;` does not, as the store is dropped too. Functions without dead code always meet it
  (`LoweringExact.TidyIsKept`).
- *Frame-safe* (`CodegenFrame.FrameSafe`): exactly then does each spilled value have a slot of its own.
  `UnsafeRuns.SpoiltBySpill` is a program that meets all else and returns another value than its source.
- *Call-safe* (`EndToEnd.CallSafe`): the caller saves `a(i - 5)` for index i but keeps the value in
  `a(i - 5 + arg_count)`. `CodegenCalls.SurvivesExactly` says which values come back from a call, and
  `CallKeepsAllExactly` that all do if and only if the function passes no arguments or they fit `t0` to `t4`.
  `EndToEnd.CallSafeExactly` says the same of whole blocks. `UnsafeRuns.LostAtCall` is a program that meets all else
  and returns 0 in place of its argument.
- *Short frame* (`CodegenOffsets.ShortFrame`): below 2048 bytes every offset fits its instruction; above, the
  prologue's own does not. The meaning of the lines does not depend on it.
- *Faithful* (`SymbolsReplay.FaithfulGlobals`): the second pass skips what follows a `return`. It completes, with every
  level deleted in the end, if and only if nothing skipped opens a scope (`SymbolsExact.ReplayExactly`;
  `SkippedScopeFails` is a program that does not).
- *Quiet* (`SymbolsReplay.Quiet`): in the second pass all globals are in the table and newest ones come first, so a
  global declared later hides a local or parameter of the same name. `LookupAgreesExactly` says that this is the
  only way a lookup can differ, and for faithful programs all lookups agree if and only if the program is quiet
  (`LaterGlobalFails` is one that is not).
- *Well-named* (`NamesAgree.WellNamed`): names are used as what they are declared to be, which the two passes check;
  constants fold right; and no initialiser names a variable that its own list declares later. In the second pass such
  a name is already visible, without a place yet, where in C it still means what it meant outside.
- Folding is on `uint32_t`. `Folding.OpFoldsExactly` gives for each operator the operands on which that is
  harmless: all for `+ - * == !=`, those of equal sign for comparisons. With such operands a constant expression folds
  and to its run-time value (`FoldIsRunTime`). A call folds to 1 (`CallsFold`).

The first pass looks up the names of statements and of constant initialisers, not those of variable initialisers:
`SymbolsAccept.UndeclaredInitPasses` is a program it accepts in which the second pass looks up a name in vain. Two
declaration statements of one block may declare the same name.

## Model

| member | source | states |
|---|---|---|
| LoweringTheorem.LoweringPreservesMeaning | src/ir.c:212-664 | for every function body with `break` and `continue` inside loops, and any meaning of calls: the body ends with a result for some fuel if and only if the blocks built for it reach that result, so each runs forever exactly when the other does; the result includes globals, library calls and return value |
| LoweringTheorem.SimFunc | src/ir.c:480-664 | a run that is still going after some fuel is matched by a run of the blocks that has lasted at least as many steps |
| LoweringMeaning.SimExp | src/ir.c:221-471 | wherever the cursor stands, the code of an expression takes the run to the cursor's new place with the value in the operand returned and the store the expression leaves |
| LoweringMeaning.SimLogic | src/ir.c:316-409 | the logical operators evaluate the right side only if the left one does not decide, and the loaded slot holds 0 or 1 |
| LoweringMeaning.SimArgs | src/ir.c:820-827 | arguments are evaluated in source order and earlier operands keep their values |
| LoweringMeaning.SimStmt | src/ir.c:480-616 | a statement's code ends where the statement does: at the cursor, at the target of `break` or `continue`, or with the value of a `return` |
| LoweringMeaning.SimIf | src/ir.c:515-554 | both branches of `if`, with or without `else`, and whether or not they return |
| LoweringMeaning.SimLoop | src/ir.c:555-590 | any number of iterations, with `break` and `continue` meaning the innermost loop |
| LoweringMeaning.SimItems | src/ir.c:810-818 | the items skipped after a `return` are never reached |
| LoweringShape.StmtGrows | src/ir.c:176-192 | lowering only adds instructions, only to the cursor's block and to new ones, and closes each block it leaves; the loop targets are restored and `m_returned` is left set by `return` alone |
| LoweringCfg.CfgWellFormed | src/ir.c:176-192 | for any function: every block is listed exactly once, entry first; jumps go to other blocks of the function; terminators are last; every block the cursor left is terminated, and in a void function all are |
| LoweringExact.LocalExactly | src/ir.c:176-471 | for every function, dead code included: each operand is defined earlier in its own block, after its last void call, and every slot used is allocated, if and only if the logical operators lowering comes to follow no non-constant sibling and nothing is used that was dropped |
| LoweringExact.OwnExactly | src/ir.c:306-471 | each operand is defined in its own block if and only if no logical operator lowering comes to follows a non-constant sibling |
| LoweringExact.HeldExactly | src/ir.c:176-192 | which variables get an `alloc` in code with returns inside blocks, and exactly when all that are used do |
| LoweringExact.LoweredIsLocal | src/ir.c:306-471 | under the two source conditions the code is local |
| LoweringExact.TidyIsKept | src/ir.c:810-818 | where nothing follows a nested block that returns, names in scope are enough for every slot used to be allocated |
| LoweringOwn.ExpFollows | src/ir.c:306-471 | wherever the cursor stands, in a closed block too: an expression's operand is a value of the block the cursor ends on, and earlier values stay usable if the expression has no logical operator |
| LoweringOwn.ExpOwn | src/ir.c:306-471 | an expression lowered into an open or a closed block leaves all blocks with operands of their own if and only if they were so and no logical operator in it follows a non-constant sibling |
| LoweringOwn.ArgsOwn | src/ir.c:820-827 | at the end of an argument list, if the cursor's block takes instructions, all operands are still usable if and only if no logical operator follows a non-constant argument |
| LoweringOwn.StmtOwn | src/ir.c:480-616 | the same of every statement, with its blocks and jumps |
| LoweringSlots.ExpSlots | src/ir.c:316-409 | an expression uses only allocated slots if and only if its variables are allocated or, in a closed block, it makes no temporary |
| LoweringSlots.StmtSlots | src/ir.c:480-616 | a statement allocates the variables declared where the block is open, no others, and uses only allocated slots exactly under the source rule |
| LoweringSlots.StmtOpens | src/ir.c:176-192 | the cursor's block is closed after a statement exactly when the source rule says so |
| LoweringExact.LogicSecondFails | src/ir.c:306-471 | `return a + (a && b);` is lowered to a sum in one block of a value loaded in another |
| LoweringExact.DeadAllocFails | src/ir.c:176-192 | `{ return; } int a; while (a) ;` is lowered to a load of a without an `alloc` of a |
| LoweringExact.DeadStoreIsLocal | src/ir.c:176-192 | `{ return; } a = 1;` is lowered to local code |
| Source.OnlyLoopsBreak | src/semantic.c:187-240 | a statement whose `break` and `continue` are inside loops, which `Passes.Nesting.Stmt` shows the check to accept and no other, never ends by either |
| Programs.LowerProgramPreservesCalls | src/ir.c:618-684 | lowering a program function by function keeps the answer of every call to any depth |
| IrBuilder.IrBuilder.Exp | src/ir.c:221-471 | the in-place walk over an expression is the lowering function, and leaves the calls being built as they were |
| IrBuilder.IrBuilder.RParams | src/ir.c:820-827 | each argument, in order, is attached to the current call, whatever calls the arguments contain |
| IrBuilder.IrBuilder.LogicExp | src/ir.c:316-409 | the blocks, slot and jumps of the logical operators |
| IrBuilder.IrBuilder.IfStmt | src/ir.c:515-554 | the three blocks of an `if` |
| IrBuilder.IrBuilder.WhileStmt | src/ir.c:555-590 | the three blocks of a loop, with `m_curr_cond` and `m_curr_end` saved and restored |
| IrBuilder.IrBuilder.BlockItemList | src/ir.c:810-818 | the loop stops at the first `return` and resets `m_returned` |
| IrBuilder.IrBuilder.TryAppend | src/ir.c:176-192 | instructions after a terminator are dropped |
| IrBuilder.IrBuilder.FuncDef | src/ir.c:626-664 | from the entry block and its parameters to the `return` a void function gets |
| CodegenFrame.FrameLayout | src/codegen.c:321-339 | outgoing arguments, saved registers, locals and the return address are disjoint and inside the frame; the frame is the least multiple of 16 that holds a word for each value, each local, each argument after the eighth, and four more |
| CodegenCounts.MaxOverIsLargest | src/codegen.c:301-317 | the count of a function is that of one of its blocks, and no block has more |
| CodegenCounts.CountVarsExactly | src/codegen.c:237-266 | every alloc is counted once: as a local, or, for the parameters after the eighth, as one the caller has placed |
| CodegenCounts.FnOfIs | src/codegen.c:301-340 | a function reserves registers and frame for its largest block and its variables, and for nothing else |
| CodegenFrame.SpillsSoundExactly | src/codegen.c:69-82 | every value that spills has a word inside the frame off every other area if and only if the function passes no arguments or its values fit the registers, and different values have different words |
| CodegenFrame.RegsApart | src/codegen.c:84-119 | different indices are in different registers, all of them t0..t4 or a(arg_count)..a7 |
| CodegenValues.FetchWorks | src/codegen.c:121-210 | the register named for an operand holds its value, and only a register that no live value owns has changed |
| CodegenValues.LocateWorks | src/codegen.c:180-206 | the place named for an address operand is the slot's address |
| CodegenValues.BinaryWorks | src/codegen.c:418-461 | each operator's lines, the pairs with `seqz` and `snez` among them, compute the operator and disturb no earlier value |
| CodegenInsts.BinarySim | src/codegen.c:212-228 | a binary instruction, its operands fetched through t5 and t6 past the registers, is simulated |
| CodegenInsts.LoadSim | src/codegen.c:349-354 | a load is simulated |
| CodegenInsts.StoreSim | src/codegen.c:390-400 | a store changes its variable's word and nothing else the machine has to keep |
| CodegenCalls.SurvivesExactly | src/codegen.c:525-581 | a value in a register is restored after an int call exactly when its index is below 5 or its register happens to have been saved |
| CodegenCalls.CallKeepsAllExactly | src/codegen.c:525-581 | in a frame-safe function an int call keeps all earlier values of its block if and only if the function passes no arguments anywhere or the values are at most five |
| CodegenCalls.ArgsRun | src/codegen.c:533-554 | arguments of any number are in a0..a7 and at the bottom of the frame, and no live value is lost while they are passed |
| CodegenCalls.BeforeCall | src/codegen.c:524-556 | on the call every register saved is in its slot and every argument in its place |
| CodegenCalls.AfterIntCall | src/codegen.c:558-581 | for a callee that keeps only sp and the caller's frame: after the result is moved and the registers restored, all surviving values are in their homes and the result is in the home of the next index |
| CodegenCalls.AfterVoidCall | src/codegen.c:558-560 | after a void call only values in memory are left |
| CodegenCalls.VoidCallEnds | src/codegen.c:558-560 | no register is restored after a void call |
| CodegenLayout.CountVarsOk | src/codegen.c:237-266 | every alloc gets a local of its own |
| CodegenLayout.ParamsCounted | src/codegen.c:250-263 | the allocs of parameters in registers get the first locals, those of stacked parameters none |
| CodegenEntry.ParamSlots | src/codegen.c:372-388 | the word `sw a_i` writes is the one registered for parameter i, and a stacked parameter's slot is the word its caller wrote |
| CodegenEntry.ParamsMatch | src/codegen.c:301-340 | after prologue and parameter stores each parameter's slot holds its argument, for any number of arguments |
| CodegenEntry.EnterRuns | src/codegen.c:301-340 | from the function's label, prologue and parameter stores bring the machine to the IR state after the parameters are bound |
| CodegenEntry.BlockFound | src/codegen.c:671-685 | a block's label is found on that block's lines |
| CodegenRun.StepRuns | src/codegen.c:484-516 | one IR step other than a call: the machine runs the instruction's lines and again holds the IR state |
| CodegenRun.BranchRuns | src/codegen.c:356-370 | `bnez` and `j` go to the label of the block the IR goes to |
| CodegenRun.ReturnRuns | src/codegen.c:402-416 | a0 holds the result, return address and stack pointer are the caller's, and so is its memory |
| CodegenTheorem.LibraryRuns | src/codegen.c:556 | a call of a function that is not defined here goes to the library, with the arguments the IR passes |
| CodegenTheorem.BodyRuns | src/codegen.c:587-707 | an IR run of a function that returns is followed by the machine back to the caller |
| CodegenTheorem.FuncRuns | src/codegen.c:687-707 | a function entered at its label returns with the IR's result, globals and library calls |
| CodegenTheorem.CallRuns | src/codegen.c:519-581 | any call that returns in the IR, to a function or to the library, returns on the machine with the caller's frame untouched |
| CodegenTheorem.CallStep | src/codegen.c:519-581 | the whole sequence of a call, the callee's run included, takes the machine from the IR state before the call to the one after it, with the surviving values and the result in their homes |
| CodegenForever.BodyLasts | src/codegen.c:587-707 | an IR run of a function that never ends, in a loop or in a callee, is never ended by the machine |
| CodegenForever.FuncLasts | src/codegen.c:687-707 | a function whose call hangs keeps the machine running for any number of steps |
| CodegenOffsets.FuncFits | src/codegen.c:69-82 | every offset and sp adjustment a function prints is a signed 12-bit number if its frame with the caller's argument words is below 2048 bytes |
| CodegenOffsets.LongFrameOverflows | src/codegen.c:321-339 | in a function with a frame over 2048 bytes some offset is not |
| CodegenOffsets.PrologueFitsExactly | src/codegen.c:321-339 | prologue and epilogue fit if and only if the frame is below 2048 bytes |
| EndToEnd.LocalIsOk | src/codegen.c:592-601 | in local, call-safe code every operand is still in its home when it is used |
| EndToEnd.CallSafeExactly | src/codegen.c:525-581 | in a frame-safe function a block is call-safe if and only if each of its int calls keeps every value computed before it |
| EndToEnd.LoweredFuncOk | src/ir.c:626-664 | a function that meets the source conditions lowers to one the generator handles, if it is frame-safe and call-safe |
| EndToEnd.CompiledFunctionRuns | src/codegen.c:755-773 | when the source call returns, the compiled program does what the source program does: same library calls in the same order, same globals, same result, caller's stack intact |
| EndToEnd.LoweredProgramOk | src/codegen.c:755-773 | a program that meets the source conditions is lowered to one the generator handles, function by function and call by call |
| EndToEnd.CompiledFunctionLasts | src/codegen.c:755-773 | when the source call never returns, the compiled program goes on forever |
| EndToEnd.CompiledFunctionStopsExactly | src/codegen.c:755-773 | the compiled program stops if and only if the source call returns, for sources that read no variable before it has a value |
| UnsafeRuns.LostAtCall | src/codegen.c:525-581 | `int f(int x) { x; x; x; x; x; return x + g(0); }` meets every condition but call-safety; the source returns its argument, the compiled program 0, if g returns 0 and leaves 0 in the registers it need not keep |
| UnsafeRuns.SpoiltBySpill | src/codegen.c:69-82 | a function of fourteen values that makes a call with an argument meets every condition but frame-safety; the source returns its argument, the compiled program the negated argument |
| Generator.Generator.Operand | src/codegen.c:121-178 | fetching an operand in place: lines, counters and the deferred register |
| Generator.Generator.Oper | src/codegen.c:84-119 | the instruction is printed with its deferred operands in order, and its result spilled if it has no register |
| Generator.Generator.Binary | src/codegen.c:418-461 | the lines of every operator |
| Generator.Generator.Call | src/codegen.c:519-581 | the lines of a call |
| Generator.Generator.Instruction | src/codegen.c:503-516 | one round of the instruction loop, with the entry in the table of results and the step of the counters |
| Generator.Generator.CountVarsOf | src/codegen.c:237-266 | the nested counting loops |
| Generator.Generator.CountMost | src/codegen.c:301-317 | the counts are at least those of every block and are reached by some block, each on its own |
| Generator.Generator.Program | src/codegen.c:687-707 | the lines printed are the program's |
| Yield.YieldQueue.Yield | src/yield.h:27-41 | an operand is deferred behind those before it |
| Yield.YieldQueue.Next | src/yield.h:43-57 | the oldest deferred operand is printed, and the slots are free again after the last |
| SymbolsBuild.GetIsLexical | src/symbols.c:227-247 | for any hash function and any collisions a lookup answers the innermost open declaration |
| SymbolsBuild.SearchIsNewest | src/hashtable.c:108-148 | head insertion makes a search find the newest item that passes its test |
| SymbolsBuild.LeavesBlock | src/symbols.c:293-301 | `leave` pops the declaration levels of the current block and the block's own, and no more |
| SymbolsBuild.BlockBuilt | src/semantic.c:177-185 | a block of any nesting hands back the level and the scopes it was given, and its lookups are lexical |
| SymbolsBuild.BuildIsLexical | src/semantic.c:103-185 | every lookup of the build pass over a whole program answers as lexical scoping does |
| SymbolsAccept.AcceptsExactly | src/semantic.c:103-185 | for any hash function the first pass accepts a program if and only if every name is declared before it is used, no list declares a name twice, and global names differ from each other and from the library's |
| NamesAccept.AcceptsNames | src/semantic.c:103-390 | the same on the parsed tree: which programs are accepted is a rule on names, blocks, declarations and constant initialisers alone |
| SymbolsAccept.FindsExactly | src/semantic.c:367-390 | in an accepted program every lookup of a statement finds a declaration, and all lookups do if and only if the names in variable initialisers are declared |
| SymbolsAccept.UndeclaredFails | src/semantic.c:375-377 | `int main() { return y; }` is refused |
| SymbolsAccept.TwiceFails | src/semantic.c:470-474 | `int main() { int a, a; }` is refused |
| SymbolsAccept.UndeclaredInitPasses | src/semantic.c:464-480 | `int main() { int a = y; }` is accepted, and one of its lookups finds nothing |
| SymbolsReplay.LookupAgreesExactly | src/symbols.c:227-247 | a replayed lookup answers as the build did if and only if no global of that name is declared later |
| SymbolsReplay.EnterSync | src/symbols.c:303-309 | entering comes to the scope that was opened at this point |
| SymbolsReplay.DedentSync | src/symbols.c:311-350 | `dedent` destroys exactly the block's scopes, its assertion holds, and it touches no deleted level |
| SymbolsReplay.DestroyWorks | src/symbols.c:323-344 | each item of a scope is unlinked from its bucket once, and the others stay |
| SymbolsReplay.NoDeletedLevel | src/symbols.c:227-237 | no item a search comes across has a deleted level |
| SymbolsReplay.PartsReplay | src/ir.c:810-818 | the items of a block, up to a `return`, are replayed in step with the build, with the same answers if and only if no later global takes a name looked up |
| SymbolsReplay.FuncReplay | src/ir.c:626-654 | a function's own symbol, its parameters and its body are found again, all lookups answering the same under that condition exactly |
| SymbolsReplay.ReplayIsFaithful | src/ir.c:618-684 | over a whole faithful program: the replay never goes wrong, in the end every bucket is empty and every level deleted, and the lookups answer as in the build pass, which is as lexical scoping says, if and only if the program is quiet |
| SymbolsExact.ReplayExactly | src/ir.c:618-684 | for any program the build pass accepts: the second pass completes if and only if nothing that follows a `return` opens a scope, and completes with the answers of lexical scoping if and only if moreover the program is quiet |
| SymbolsExact.OnlyFaithfulCompletes | src/symbols.c:303-350 | a scope opened but not entered again is left in the table, as each scope entered destroys one |
| SymbolsExact.SkippedScopeFails | src/ir.c:810-818 | after `int f() { return 0; {} }` the second pass of `int g() { int x; return x; }` does not complete |
| SymbolsExact.LaterGlobalFails | src/symbols.c:227-247 | for `int f() { int x; return x; } int x;` the second pass completes with answers that are not those of lexical scoping |
| NamesAgree.ProgramRead | src/ir.c:221-260 | the answers of lexical scoping, taken one after the other in the order of the walk, put every declaration where lexical scoping puts it |
| NamesAgree.ResolvedByReplay | src/ir.c:618-684 | in every well-named program, for any hash function, the tree the second pass puts together means what the tree with names means: every call of it, to any depth |
| NamesAgree.CompiledFromNames | src/codegen.c:755-773 | the lines printed for a parsed program, its names resolved by the second pass over its own symbol table and its constants folded by the first, do what the program with names does, whenever the call returns |
| NamesAgree.CompiledNamesStopExactly | src/codegen.c:755-773 | and they stop if and only if the call of the program with names returns, for programs that never fail |
| NamesRun.ValueRuns | src/ir.c:785-791 | an expression with declarations in place of names has the value it has by innermost bindings: a constant its value, a variable what its cell holds, a call that of the function so named |
| NamesExec.VarsRun | src/ir.c:697-760 | the variables of a list are bound one after the other, each from its declarator on and holding nothing before its initialiser is evaluated |
| NamesExec.StmtRuns | src/ir.c:480-616 | statements, with blocks and loops of any nesting, end alike on named bindings and on numbered variables, also where a loop declares a variable again |
| NamesPrograms.CallsAgree | src/ir.c:618-684 | calls mean the same with names and with declarations in place, to any depth: results, globals, library calls, and whether they return |
| NamesKinds.KindsSay | src/semantic.c:397-480 | what the first pass records is what each declaration says, every constant folded with the constants before it |
| NamesKinds.ResolvedMeansTheSame | src/semantic.c:103-185 | a well-named program and the program resolved with what the first pass records mean the same |
| Sample.Compiles | src/codegen.c:755-773 | `const int n = 10 / 2; int g; int main() { int x = n; g = x + 7; return g; }` is accepted, found again, printed as seventeen given lines, and returns 12 |
| SymbolTable.HashStr | src/hashtable.c:42-53 | the loop computes the hash of a name, which stays below 128, inside the bucket array |
| SymbolTable.HashStepBits | src/hashtable.c:42-53 | one round by binary digits: h is shifted left and the byte added; bit 7 is xored into bit 1 and cleared |
| SymbolTable.SymbolTable.Indent | src/symbols.c:278-291 | a scope is opened in place |
| SymbolTable.SymbolTable.Leave | src/symbols.c:293-301 | the loop up to the end of the block |
| SymbolTable.SymbolTable.Enter | src/symbols.c:303-309 | the next scope of the next level |
| SymbolTable.SymbolTable.Dedent | src/symbols.c:311-350 | the loop over levels and the walks along the buckets |
| SymbolTable.SymbolTable.Get | src/symbols.c:239-247 | the loop over the items of a name |
| SymbolTable.SymbolTable.Add | src/symbols.c:249-265 | an item goes to the front of its bucket and the end of its scope |
| Passes.BuildAll | src/semantic.c:526-533 | the build pass over a block stops with an error if and only if a name is used undeclared or declared twice in a list; otherwise the table is the one the pass gives |
| Passes.BuildProgram | src/semantic.c:103-163 | the pass over a whole program, from the library's names on, accepts exactly the programs that follow the rule on names |
| Passes.ReplayProgram | src/ir.c:618-684 | the second pass over a whole program and the deletion of the table after it |
| Passes.ReplayAll | src/ir.c:810-818 | the replay over a block, stopping after a `return` |
| Passes.Nesting.Stmt | src/semantic.c:187-240 | `break` and `continue` are accepted if and only if each stands under a loop, and `m_while` is restored |
| LoopPaths.NestedExactly | src/semantic.c:187-240 | the check accepts a statement if and only if on the way to each `break` and `continue` in it there is a loop |
| Folding.OpFoldsExactly | src/semantic.c:264-310 | an operator folds to its run-time value if and only if its operands meet a stated condition on signs and divisibility |
| Folding.FoldIsRunTime | src/semantic.c:254-395 | a constant expression whose divisors are not 0 and whose comparisons, divisions and remainders have operands they fold right on is folded, to the value it has at run time |
| Folding.FoldStops | src/semantic.c:254-360 | folding never gives up on a constant expression, and divides by zero if and only if some divisor in it folds to 0, also in a part that need not be evaluated |
| Folding.OnlyConstantsFold | src/semantic.c:381-390 | without calls an expression folds if and only if it reads no variable and no divisor folds to 0 |
| Folding.CallsFold | src/semantic.c:318-331 | a call folds to 1, if its arguments fold |
| Folding.CallsFoldWrong | src/semantic.c:318-331 | a call that returns 0 folds to 1 |
| Folding.SignFreeFolds | src/semantic.c:254-360 | without comparisons of order, divisions and remainders folding always succeeds and is always right |
| Folding.ComparisonsFoldWrong | src/semantic.c:281-284 | `-1 < 0` folds to 0 and runs to 1 |
| Heap.Bump.Malloc | src/bump.c:43-54 | the new block is the highest aligned one below all others, with its size in front, off the pointer word; nothing else changes; it fails exactly when there is no room |
| Heap.Bump.Realloc | src/bump.c:66-75 | the new block starts with as many bytes of the old place as it has itself |
| Heap.RunsExactly | src/bump.c:43-54 | a run of requests succeeds if and only if their sizes, each rounded up to 16 and with 16 bytes for a header, add up to less than the pointer, which is then lowered by exactly that |
| Heap.AppendsTake | src/koopaext.c:24-44 | n appends to a slice of d items take, besides 8 bytes for each item of each buffer, from 16 to 24 bytes a buffer |
| Heap.Slice.Enlarge | src/koopaext.c:24-44 | the buffer for one item more: fresh or moved, with the items there were; it fails exactly when there is no room |
| Heap.Slice.Append | src/koopaext.c:24-44 | contents s become s + [x], and every other slice keeps its contents |
| Heap.Slice.Back | src/koopaext.c:46-52 | the last item, or none |

## Left out

- EndToEnd.CompiledFunctionStopsExactly: says nothing of a source run that reads a local without a value; C gives it no meaning either.
- EndToEnd.LoweredFuncOk: one direction for call-safety, since a value lost at a call may not be used again.
- Codegen.Fetch: an operand not found in its block, whose instruction the generator prints again, is one line `Unmodelled` that traps.
- Generator.Generator.Operand: an operand not found in its block is that one line too; the source prints its instruction again, so code that is not local may still compile right.
- NamesAccept.AcceptsNames: the errors of the first pass about what a name is (assigning to a constant, reading a function, a variable in a constant's initialiser) are conditions of `NamesAgree.WellNamed`, not results of the pass.
- NamesKinds.KindsSay: the contents of the table's items are computed beside the table, in the order of insertion, and not stored in it.
- SymbolsExact.LaterGlobalFails: that a variable has no place in the IR before it is declared (`variable.raw`, checked by an assertion) is not part of the table; where a later global variable hides a name the source stops at that assertion.
- Heap.Bump.Realloc: the bytes copied must lie inside the buffer, which holds for every slice that grew from empty.
- Heap.Bump.Malloc: addresses are offsets and do not wrap around.
- SymbolTable.SymbolTable.Add: level and scope numbers are not bounded to 16 bits.
- Generator.Generator.Call: the printed text, names and mangling are not modelled; lines are data and blocks have numbers.
- Shift expressions: `src/ir.c` has no end to that case and stops the compiler.
- Arrays, pointers, block arguments and the operators `and`, `or`, `xor`, `sll`, `sra`, which lowering never builds.
- A stack that meets the globals, and the 16-byte alignment of sp at calls.
- Tables of results and slots are emptied between functions here; in the source the keys are addresses and never meet again.
- Initial values of globals, the data section, and the prologue of a declaration without a body.
- Functions of `int` type that run off their end: an error in source and IR alike.
- Lookups in constant initialisers are those of the build pass only, as the source does not visit them again.
- `bump_calloc`, `bump_strdup`, `slice_new` with a length, `slice_iter` and the `koopa_raw_*` builders: they would only add easy members.
- `used_by` lists, `src/vector.c`, `src/view.h`, `src/debug.c`, the lexer, the parser and `app/`.
