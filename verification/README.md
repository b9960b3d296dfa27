# Tsuki, in Dafny

Tsuki is a Lua 5.4 implementation in Rust. This project models the pieces of it that change shared state in
place and depend on invariants across many functions, and proves what each piece is for. It is checked with
`dafny verify dfyconfig.toml`.

**The incremental collector** (`GcHeap`, `GcGrow`, `GcPhase`, `GcWorld`, `GcMutator`, `GcCycle`, `GcSafety`,
`GcExamples`, and the class `Gc` of module `Collector`). The heap maps objects to their contents: tables with
array slots, nodes, a metatable and a weak mode, closures, open and closed upvalues, userdata, threads, strings.
The class has the collector's fields: colours with two whites, the gray lists, the list of all objects with the
sweep's place in it, the two lists of strong references, `debt` and `survivors`. The program's side is there too:
allocation, stores with their barriers, stack writes, opening and closing upvalues, references that come and go,
and resurrection of a dead string. `FinishMarking` marks exactly the least set that holds the roots and is closed
under the strong links, an ephemeron entry being a link from its key to its value. `debt` is never below what is
still to be charged, so none of its checked subtractions fails: they are subtractions of naturals in the model.

Every operation keeps one invariant, `Inv`. A run is a sequence of collector steps (`Collect`), which say what
becomes of the contents of the objects, and of program steps (`Program`), which free nothing. `HeldIn` is what
the program has a right to: what is strongly reachable from the roots, with one exemption given below. Over all
runs:

- nothing goes that any link could reach (`RunSafe`);
- what is held before a collector step exists after it, the sweep will leave it, and it has its links, those to
  strings included; only entries that refer to something that is not held may have been removed from it
  (`RunKeeps`, on the condition given below);
- what is held without the help of entries that may be removed stays so held (`StepFirm`, `RunFirm`). Entries may
  be removed: an entry of a weak-value table loses its hold on the key when it loses its value, and `StillHeld`
  says exactly what is still strongly reachable after the end of marking. `KeyLetGo` is such a key;
- completeness (`RunComplete`), and the state of the heap between cycles (`IdleWhite`).

The code does not always meet this. A table that the propagation has put aside because it is weak in both keys and
values stays gray and is never traversed again. If the program then gives it another metatable no barrier runs,
since the table is not black; the metatable can be white and is then freed while the table still points at it.
`GcExamples.LostMetatable` is such a heap, followed to the point where a metatable that is strongly reachable is
dead. `SetMetatable` says when a table becomes one of these (`lost`). What the end of marking does is then stated
in two equivalences, each for every heap:

- no link that the program can follow, weak ones included, leads to an object that will be freed if and only if
  each table in `lost` that links still lead to has a metatable that marking reaches on another way
  (`MetaSound`, `AtomicSound`). On exactly this condition the invariant holds afterwards (`Collector.Gc.Step`), so
  a run goes on for as long as no link dangles. Tables that nothing leads to may keep a dangling metatable for the
  rest of the cycle; they and what leads to them are `stray`, and the invariant asks nothing of their links;
- everything that is held is left by the sweep if and only if each held table in `lost` has a metatable that marking
  reaches on another way (`MetaReached`, `AtomicSafe`). `RunKeeps` has this condition.

If the program makes no such store both conditions hold and all that is strongly reachable is safe in every step of
every run (`UnlessStored`, `RunStrong`). The exemption: when the new metatable changes the strength of a table that
has been put aside, the contents of that table are still treated as weak until the cycle ends. Section 2.5.4 of the
Lua 5.4 Reference Manual lets a change of strength take effect only at the next cycle, so `HeldIn` counts only the
metatable of such a table (`Exempt`). `StrengthDelayed` is a heap where this makes a difference.

**Strong references** (`Intrusive`, `StrongRefs`, `GcRefs`). The two lists on the level of their pointers: together
they hold exactly the objects with a count above zero, each once, with right back pointers, whatever the order of
events; and at the end of marking everything counted has been visited. `GcRefs` joins them to the collector: its
lists are these lists after every step, and what is counted can be used.

**The Lua table** (`TableBits`, `TableHash`, `TableSize`, and the class `Table` of module `LuaTable`). An array
part with a size hint that may be wrong, and a node vector with chains, Brent's variation and a falling free
pointer. The table refines a finite map from normalised keys to values. A rehash picks the best size of the array
part, keeps the map, leaves room for the new key and never nests. `luaH_getn` returns a border. An iteration that
starts from nil and feeds each key back to `next_raw`, with values overwritten and cleared in between, never misses
its key, ends, and returns every entry that is alive until its turn exactly once.

**`table.sort`** (`TableSort`). In place, for any comparator: the result is a rearrangement, and the depth of the
recursion is logarithmic. For a strict weak order it is sorted and no error is raised.

**Line information** (`LineInfo`), **jump lists** (`Jumps`) and **the expression parser** (`Parser`). The
encoder and decoder of lines; lists threaded through jump operands and the final threading of jumps; and
`subexpr`, proved against a declarative description of which syntax the operator priorities admit. The encoder is
right for whatever the code generator does, which is to emit, to fix the last line, and to remove the last
instruction and emit another one right away (`removelastinstruction` has one caller, src/lcode.rs:1419). For any
other order of removals the condition is exact.

**Lists on the stack** (`StackLists`). Open upvalues and to-be-closed variables, with addresses, so that moving
the stack is modelled as the pointer arithmetic it is.

**Short strings** (`Interning`). The string table with its in-place doubling: identity is equality of contents.

**Numbers** (`Numbers`). Exact comparison of integers with floats, floor division, and integer `for` loops. A
float is NaN, an infinity or a real number. A NaN limit is treated like minus infinity, so a loop with a negative
step runs although no index is within its limit.

`Basics` holds what several modules share.

## Model

| member | source | states |
|---|---|---|
| Collector.Gc.Mark | src/gc/mod.rs:242-305 | The object is marked, only objects of any closed set that holds it are, each marked object is charged once, and what becomes black has no white strong children |
| Collector.Gc.MarkOneGray | src/gc/mod.rs:308-329 | One gray object is taken off its list and traversed; the phase invariant holds again, whites only shrink, and the work that is left and unpaid goes down |
| Collector.Gc.MarkTable | src/gc/mod.rs:332-369 | A table is traversed by its weak mode; a strong one ends black, one weak in both ways on the list of all-weak tables, the others black or gray on a list of their mode, and no other list changes |
| Collector.Gc.MarkStrongTable | src/gc/mod.rs:372-408 | All of a strong table is marked and the table ends black, on no list; only keys of empty nodes change in it |
| Collector.Gc.MarkWeakValue | src/gc/mod.rs:411-445 | Keys are marked; the table ends gray, in the atomic step on the list of weak tables unless everything in it is marked, else on the list of tables to look at again |
| Collector.Gc.MarkEphemeron | src/gc/mod.rs:448-511 | Values whose keys are marked are marked; "nothing marked" really means that every entry with a marked key has a marked value; in the atomic step the table ends on the list of ephemerons, on that of all-weak tables, or black with everything in it marked |
| Collector.Gc.MarkThread | src/gc/mod.rs:608-659 | While propagating, nothing but linking the thread, still gray, to the list of threads to look at again; in the atomic step its stack is marked, it is black, and if it has open upvalues it is listed |
| Collector.Gc.RemarkUpvalues | src/gc/mod.rs:731-762 | Afterwards every thread with open upvalues that was marked before is listed, and no unmarked one is; the values of marked open upvalues of the threads that leave the list are marked |
| Collector.Gc.ConvergeEphemerons | src/gc/mod.rs:765-797 | Ends, and at its end every entry of a listed ephemeron table with a marked key has a marked value |
| Collector.Gc.ClearByKeys | src/gc/mod.rs:800-824 | No non-empty entry of a listed table has an unmarked key |
| Collector.Gc.ClearByValues | src/gc/mod.rs:827-867 | No non-empty entry or slot of a listed table has an unmarked value |
| Collector.Gc.FinishMarking | src/gc/mod.rs:662-721 | The marked objects are the least set that holds the roots and is closed under strong links; entries are emptied only for what is not marked; no marked object refers to an unmarked one, metatables of `exempt` tables aside; the two lists of references are one again |
| Collector.Gc.LinkGcList | src/gc/mod.rs:1004-1014 | An object goes gray onto one list and is on no other |
| Collector.Gc.StartCycle | src/gc/mod.rs:153-189 | The invariant of marking holds for exactly what any link reaches from the roots; everything else is doomed |
| Collector.Gc.StepIdle | src/gc/mod.rs:147-195 | A cycle starts exactly when the debt has reached a fifth over the survivors; contents do not change |
| Collector.Gc.Propagate | src/gc/mod.rs:196-203 | One gray object is done, and what is left to do shrinks |
| Collector.Gc.Atomic | src/gc/mod.rs:204-226 | Marks the least closed set, flips the white, inserts the sweep mark; what stays refers only to what stays, metatables of `lost` tables aside; the invariant of the sweep holds exactly if no root is stray |
| Collector.Gc.Sweep | src/gc/mod.rs:877-916 | Only dead objects go, at most two a call and after at most 100 visits; the sweep moves on; live objects keep their contents |
| Collector.Gc.CloseAll | src/thread/mod.rs:693-698 | The open upvalues of a dead thread that survive it are closed with their values, and the invariant holds |
| Collector.Gc.Step | src/gc/mod.rs:146-239 | From state to state as the code goes; what becomes of contents, roots and lists in each state (`Collected`); the invariant holds afterwards if and only if the step was not the atomic one or `MetaSound`; within a phase the work shrinks |
| Collector.Gc.StepAtomic | src/gc/mod.rs:204-226 | The sweep will leave the least set, only entries that refer outside it were removed, and the invariant holds if and only if `MetaSound` |
| Collector.Gc.StepSweep | src/gc/mod.rs:227-236 | A `Collect` step: live objects keep their contents, and it ends in state 8 |
| Collector.Gc.Alloc | src/gc/mod.rs:121-143 | A new object is current-white, first in the list, charged to the debt, usable, and the invariant holds |
| Collector.Gc.Barrier | src/gc/mod.rs:102-111 | While marking, the target is marked; while sweeping, the owner goes back to white; the invariant holds |
| Collector.Gc.BarrierBack | src/gc/mod.rs:114-117 | The owner is gray again and listed for the atomic step; the invariant holds |
| Collector.Gc.StoreBack | src/table/mod.rs:290-316 | A store with a back barrier is a `Program` step: no black object is left with a white child |
| Collector.Gc.StoreForward | src/gc/mod.rs:102-111 | A store with a forward barrier is a `Program` step |
| Collector.Gc.SetMetatable | src/table/mod.rs:79-101 | A `Program` step, and it says exactly when the table becomes one of those whose metatable can be lost |
| Collector.Gc.WriteStack | src/gc/mod.rs:608-659 | Stacks are written without a barrier, and the invariant holds all the same |
| Collector.Gc.NewUpval | src/lfunc.rs:74-101 | A new open upvalue is usable and its thread is listed |
| Collector.Gc.CloseUpval | src/lfunc.rs:216-252 | An upvalue takes its value along without a dangling or unmarked pointer in any state of the cycle |
| Collector.Gc.AddRef | src/gc/ref.rs:22-49 | A `Program` step in any state that puts the object at the head of the list |
| Collector.Gc.DelRef | src/gc/object.rs:27-44 | A `Program` step in any state that takes the object off whichever list it is on |
| Collector.Gc.Resurrect | src/gc/mod.rs:95-99 | A dead string that is found again is usable, and the sweep will not free it |
| Collector.Gc.constructor | src/gc/mod.rs:55-75 | The invariant holds at the start |
| GcGrow.GrowTrans | src/gc/mod.rs:242-305 | Bursts of marking compose: charges add up and nothing marked is lost |
| GcPhase.BurstPhase | src/gc/mod.rs:242-329 | Marking anything within the bounds keeps the tricolour invariant, the lists and the debt |
| GcPhase.WeakerPhase | src/gc/mod.rs:827-873 | Emptying entries keeps the phase invariant |
| GcPhase.ConvergedClosed | src/gc/mod.rs:700-707 | When nothing is gray and the ephemerons have converged, the marked set is closed under strong links |
| GcPhase.ClearedFinal | src/gc/mod.rs:708-720 | After the clearing, no marked object refers to an unmarked one |
| GcWorld.ReachUsable | src/gc/mod.rs:146-239 | In every state, what the roots reach is usable |
| GcWorld.UsableClosed | src/gc/mod.rs:146-239 | In every state the usable objects are closed under all links |
| GcWorld.FreeStep | src/gc/mod.rs:877-916 | Freeing one dead object keeps the invariant, the debt included |
| GcWorld.KeepOne | src/gc/mod.rs:909-912 | So does keeping one |
| GcWorld.SweepEnds | src/gc/mod.rs:229-232 | A finished sweep leaves only current-white objects, and the debt covers them all |
| GcMutator.RewriteInv | src/gc/mod.rs:102-117 | A store keeps the invariant if its owner is not black or its target not white |
| GcMutator.AllocInv | src/gc/mod.rs:121-143 | Allocation keeps the invariant in every state |
| GcMutator.WriteInv | src/gc/mod.rs:608-659 | So does a write to a stack |
| GcMutator.CloseInv | src/lfunc.rs:216-252 | Closing an upvalue between cycles keeps the invariant |
| GcMutator.CloseMarking | src/lfunc.rs:216-252 | So does closing one while marking, if it stays white or is made black with a marked value |
| GcWorld.CloseSweeping | src/lfunc.rs:216-252 | So does closing one while sweeping, and neither the dead nor the usable objects change |
| GcMutator.OpenInv | src/lfunc.rs:74-101 | Opening one keeps the invariant |
| GcMutator.RefsInv | src/gc/ref.rs:22-49 | So does any change of the references among usable objects |
| GcMutator.ResurrectInv | src/gc/mod.rs:95-99 | So does resurrection |
| GcCycle.AtomicDone | src/gc/mod.rs:204-226 | If no links lead from a root to a lost table whose metatable is let go, the sweep starts in its invariant |
| GcCycle.AtomicBroken | src/gc/mod.rs:204-226 | If they do, it does not |
| GcCycle.FinalLive | src/gc/mod.rs:708-720 | What is not stray links only to what is not stray and stays |
| GcCycle.StartDone | src/gc/mod.rs:153-189 | Marking starts in its invariant |
| GcCycle.ReachedClosed | src/gc/mod.rs:167-189 | What the roots reach is the least set closed under links |
| GcCycle.RunSafe | src/gc/mod.rs:146-239 | In any run of collector and program, an object that goes was not reachable by any link when it went |
| GcCycle.RunComplete | src/gc/mod.rs:146-239 | Anything but a string that no link reached when a cycle began is gone when it ends |
| GcCycle.IdleWhite | src/gc/mod.rs:883-912 | At state 8 every object is current-white and the debt is at least their number |
| GcSafety.HeldIsReach | src/gc/mod.rs:146-239 | Without exemptions, being held is being strongly reachable |
| GcSafety.LeastBounds | src/gc/mod.rs:662-721 | The sets that marking may stay within have a least one |
| GcSafety.AliveIsLeast | src/gc/mod.rs:204-226 | What the sweep will leave is that least set, strings aside |
| GcSafety.AtomicSafe | src/gc/mod.rs:204-226 | The sweep will leave everything held if and only if the metatables of held lost tables are marked on another way |
| GcSafety.AtomicSound | src/gc/mod.rs:204-226 | No link, weak ones included, leads to a dead object afterwards if and only if the metatables of lost tables that links lead to are marked on another way |
| GcSafety.SoundRoots | src/gc/mod.rs:204-226 | That is the case exactly if no root is stray |
| GcSafety.UnlessStored | src/gc/mod.rs:204-226 | Without a store to a table that was put aside, all that is strongly reachable is safe and no link dangles |
| GcSafety.HeldUsable | src/gc/mod.rs:146-239 | In every state, what is held can be used |
| GcSafety.StepKeeps | src/gc/mod.rs:146-239 | What is held before a step of the collector is there after it, the sweep will leave it, and it has its links but for entries that refer to what is not held; at the end of marking exactly on the condition of `AtomicSafe` |
| GcSafety.StepLinks | src/gc/mod.rs:146-239 | And its strong links, those to strings included, lead to nothing that the sweep will free |
| GcSafety.RunKeeps | src/gc/mod.rs:146-239 | Both, in every step of every run, and program steps free nothing |
| GcSafety.RunStrong | src/gc/mod.rs:146-239 | In runs without a store to a table that was put aside, so for everything strongly reachable |
| GcSafety.StillHeld | src/gc/mod.rs:708-720 | What is strongly reachable after the end of marking is exactly what was so through entries that refer only to what gets marked |
| GcSafety.StepFirm | src/gc/mod.rs:146-239 | What is held without entries that may be removed stays so held in each step |
| GcSafety.RunFirm | src/gc/mod.rs:146-239 | And through any number of collector steps in a row |
| GcExamples.LostMetatable | src/table/mod.rs:79-101 | The new metatable of a table that was put aside is strongly reachable, and after the end of marking it is dead and still linked; the conditions above fail on this heap |
| GcExamples.StrengthDelayed | src/gc/mod.rs:332-369 | A table that becomes strong after it was put aside loses a slot in this cycle: strongly reachable, but exempt |
| GcExamples.KeyLetGo | src/gc/mod.rs:827-867 | A key that only an entry with a dead weak value held is strongly reachable before the end of marking and not after it |
| GcRefs.HoldJoined | src/gc/ref.rs:22-49 | A new reference is `AddRef` to the collector if it is the first, and nothing otherwise |
| GcRefs.DropJoined | src/gc/object.rs:27-44 | The end of a reference is `DelRef` if it was the last, and nothing otherwise |
| GcRefs.StepJoined | src/gc/mod.rs:176-189 | The collector's lists stay those of the reference counts in each of its steps |
| GcRefs.CountedSafe | src/gc/ref.rs:22-49 | A counted object can be used in every state, before and after a step of the collector |
| Intrusive.InsertOk | src/gc/ref.rs:27-39 | Linking in front of a cell inserts exactly there, with right back pointers |
| Intrusive.RemoveOk | src/gc/object.rs:36-43 | Unlinking through the back pointer takes out exactly that node, wherever it is |
| Intrusive.RemoveOther | src/gc/object.rs:36-43 | And leaves the other lists alone |
| StrongRefs.Refs.NewRef | src/gc/ref.rs:22-49 | The first reference links the object at the head, the others count; the count is limited |
| StrongRefs.Refs.Clone | src/gc/ref.rs:84-98 | Counts one more, up to the limit |
| StrongRefs.Refs.Unref | src/gc/object.rs:27-44 | The last reference takes the object off its list, whichever it is |
| StrongRefs.Refs.BeginCycle | src/gc/mod.rs:176-189 | Visits every counted object and moves the list to `marked_refs` |
| StrongRefs.Refs.Rejoin | src/gc/mod.rs:662-701 | Visits what was counted since, and joins the lists |
| StrongRefs.SpliceOk | src/gc/mod.rs:685-694 | Joining at the last node gives one well-formed list |
| StrongRefs.OneGone | src/gc/object.rs:36-43 | Unlinking keeps both lists disjoint and well formed |
| StrongRefs.ApplyKeeps | src/gc/ref.rs:22-49 | The lists hold exactly the counted objects, each once, after any event |
| StrongRefs.NoneMissed | src/gc/mod.rs:662-701 | Whatever references come and go while marking, each object counted at its end is visited at one of its two ends |
| TableBits.SmearedIs | src/table/legacy.rs:196-209 | The shifts and ors fill every bit below the highest one |
| TableBits.RealSizeIs | src/table/legacy.rs:196-209 | The real size is the power of two above a hint that is not exact |
| TableBits.AndPow2 | src/table/legacy.rs:196-216 | The bit test holds exactly for powers of two |
| TableBits.MaskTest | src/table/legacy.rs:704-716 | The mask test holds exactly for the indices between the hint and the real size |
| TableHash.TakeOverOk | src/table/legacy.rs:649-698 | A new key may take over an empty node inside any chain: all keys stay reachable from their main positions |
| TableHash.InsertAfterOk | src/table/legacy.rs:674-698 | A key that collides with an owner of the position goes to a free node right behind it |
| TableHash.MoveAwayOk | src/table/legacy.rs:659-673 | A stranger is moved to the free node and its chain goes through there |
| TableHash.MoveAwayStored | src/table/legacy.rs:659-698 | Nothing but the new key changes in the map, and one node is used up |
| TableHash.OverwriteOk | src/table/legacy.rs:844-858 | Assigning to a node, nil included, changes one key of the map |
| TableHash.FreshOk | src/table/legacy.rs:402-461 | A new vector is empty, well formed and all free |
| TableSize.ComputeCeilLog2 | src/lobject.rs:188-456 | The base-2 logarithm, rounded up |
| TableSize.CeilLog2Is | src/lobject.rs:188-456 | The smallest exponent whose power is enough |
| TableSize.ComputeSizes | src/table/legacy.rs:307-325 | The largest power of two of which more than half is used, and how many keys it takes |
| TableSize.CountInt | src/table/legacy.rs:328-336 | A key is counted in the slice it lies in, if it can be in an array at all |
| TableSize.NumUseArray | src/table/legacy.rs:339-376 | Counts the array part by slices |
| TableSize.NumUseHash | src/table/legacy.rs:379-399 | Counts the live keys of the hash part |
| TableSize.SumIs | src/table/legacy.rs:307-325 | Sums of slices are the number of keys up to a power of two |
| TableSize.NeedIs | src/table/legacy.rs:578-603 | What is not put in the array is what the hash part must take |
| LuaTable.Table.GetNode | src/table/legacy.rs:225-242 | Finds the node of a key if there is one, and ends |
| LuaTable.Table.GetInt | src/table/legacy.rs:704-723 | The slot of the key, in the part where it belongs; the real size stays what it was |
| LuaTable.Table.Get | src/table/legacy.rs:818-842 | The slot of any key; nil and NaN have none |
| LuaTable.Table.Masked | src/table/legacy.rs:704-716 | The test holds exactly when the index is in the array |
| LuaTable.Table.MovedHint | src/table/legacy.rs:704-716 | Moving the hint does not change the real size |
| LuaTable.Table.GetFreePos | src/table/legacy.rs:605-617 | The highest free node, or none is left |
| LuaTable.Table.Predecessor | src/table/legacy.rs:659-663 | The search for the node in front of the stranger ends there |
| LuaTable.Table.Collide | src/table/legacy.rs:659-698 | Both kinds of collision store the key and keep the chains |
| LuaTable.Table.NewKey | src/table/legacy.rs:619-701 | Sets one key of the map, or reports a nil or NaN key; a rehash happens at most once |
| LuaTable.Table.Set | src/table/legacy.rs:861-869 | Exactly one key of the map changes |
| LuaTable.Table.SetInt | src/table/legacy.rs:871-886 | The same for integers |
| LuaTable.Table.Resize | src/table/legacy.rs:500-565 | The map is kept while the parts change size, given room for all that must move |
| LuaTable.Table.ResizeArray | src/table/legacy.rs:568-576 | Growing the array never lacks room in the hash part: the map is kept |
| LuaTable.Table.Shrink | src/table/legacy.rs:521-538 | What falls off the array goes to the hash part, without a rehash |
| LuaTable.Table.Reinsert | src/table/legacy.rs:464-483 | Every live entry of the old vector is found in the new parts, without a rehash |
| LuaTable.Table.Rehash | src/table/legacy.rs:578-603 | Keeps the map, leaves room for the key that caused it, and gives the array its best size |
| LuaTable.Table.Read | src/table/legacy.rs:818-842 | Returns what the map says |
| LuaTable.Table.Overwrite | src/table/legacy.rs:844-858 | Sets one key of the map and keeps the shape of both parts |
| LuaTable.Table.HashSearch | src/table/legacy.rs:888-918 | A border in the hash part, also for huge sparse tables |
| LuaTable.Table.BinSearch | src/table/legacy.rs:920-933 | A border between a used and an empty slot |
| LuaTable.Table.GetN | src/table/legacy.rs:935-995 | A border (section 3.4.7 of the Lua 5.4 Reference Manual), and the real size stays what it was |
| LuaTable.Table.LowerBorder | src/table/legacy.rs:939-957 | A border below an empty limit; a new hint stands for the same size |
| LuaTable.Table.FindIndex | src/table/legacy.rs:267-295 | The position behind a key, for keys of either part |
| LuaTable.Table.NextRaw | src/table/mod.rs:441-488 | The first entry that is not nil behind the given key, the end, or a missing key |
| LuaTable.CallAt | src/table/mod.rs:441-488 | In an iteration no key is missing, each call returns the first live entry behind the last one, and the end means there is none |
| LuaTable.Rising | src/table/mod.rs:441-488 | Positions rise from call to call, so no key comes twice |
| LuaTable.CallsEnd | src/table/iter.rs:21-36 | An iteration ends: no more calls return an entry than there are positions |
| LuaTable.IteratesAll | src/table/iter.rs:21-36 | A key that has a value until its turn is returned exactly once, with the value it has then, whatever else is overwritten or cleared and also if it is cleared afterwards |
| LuaTable.ReturnsLive | src/table/iter.rs:21-36 | What is returned is in the table at that moment |
| LuaTable.Iter.constructor | src/table/iter.rs:11-19 | Starts from nil, with no call made |
| LuaTable.Iter.Next | src/table/iter.rs:24-36 | Is one more call in such an iteration, also after the end was returned: the key of the last entry is fed back, no key is missing, and there are at most as many entries as positions |
| TableSort.Partition | src/builtin/table/mod.rs:250-300 | Rearranges the range, and for a strict weak order puts the pivot between what is not above and not below it, without an error |
| TableSort.Scan | src/builtin/table/mod.rs:261-295 | Two scans that stay in range or report the inconsistent comparator |
| TableSort.Median | src/builtin/table/mod.rs:176-196 | Orders first, middle and last |
| TableSort.Middle | src/builtin/table/mod.rs:171-196 | Picks the pivot and orders it with first and last |
| TableSort.Divide | src/builtin/table/mod.rs:163-208 | One round: small ranges are sorted, others divided strictly inside |
| TableSort.AuxSort | src/builtin/table/mod.rs:155-227 | For any comparator a rearrangement of the range and nothing else, logarithmic depth; for a strict weak order sorted, without an error |
| TableSort.Sort | src/builtin/table/mod.rs:48-79 | A permutation always; sorted and Done for a strict weak order |
| TableSort.StillSettled | src/builtin/table/mod.rs:208-224 | Sorting one part does not disturb what is settled around it |
| TableSort.OneSide | src/builtin/table/mod.rs:208-224 | After one side is sorted the rest is a smaller problem of the same kind |
| TableSort.PivotPlaced | src/builtin/table/mod.rs:290-295 | The last swap puts the pivot in its final place |
| LineInfo.Writer.Emit | src/lcode.rs:422-480 | One more line is recorded, in a delta or an absolute entry, in every state of the writer; what was right stays right if and only if the entry is absolute or `previousline` was the line before |
| LineInfo.Writer.NextRight | src/lcode.rs:422-431 | The next emit is right for every line if and only if the counter forces an absolute entry or `previousline` is the line before |
| LineInfo.Writer.RemoveLast | src/lcode.rs:482-500 | The last record is undone in every state, and what was right stays right; a relative entry does not change whether `previousline` is the line before, an absolute one forces the next entry to be absolute |
| LineInfo.Writer.FixLine | src/lcode.rs:2184-2191 | The last record is replaced in every state; it is right if and only if the entry was absolute, the next one is still forced to be, `previousline` was right, or the lines are too far apart |
| LineInfo.RemoveThree | src/lcode.rs:482-500 | An input on which the condition of `Emit` fails: three removals, the first of an absolute entry, then an emit |
| LineInfo.EarlyEnough | src/lcode.rs:422-480 | The k-th absolute entry comes no later than instruction 128 (k + 1) |
| LineInfo.GuessOk | src/ldebug.rs:30-48 | The starting guess of the search does not overshoot |
| LineInfo.GetBaseLine | src/ldebug.rs:30-48 | The last absolute entry at or before the instruction, with its line |
| LineInfo.GetFuncLine | src/ldebug.rs:50-66 | Exactly the line recorded for the instruction |
| LineInfo.LineOf | src/ldebug.rs:50-66 | So after any sequence of the writer's operations |
| LineInfo.Writer.EmitKeeps | src/lcode.rs:422-480 | An emit keeps the correspondence of code and lines |
| LineInfo.Writer.RemoveKeeps | src/lcode.rs:482-494 | So does a removal, forced absolute entries included |
| Jumps.Buffer.FixJump | src/lcode.rs:225-255 | The operand of one jump is set, or the target is out of range |
| Jumps.Buffer.Concat | src/lcode.rs:257-280 | The concatenation of two disjoint lists, one instruction changed |
| Jumps.ListJoin | src/lcode.rs:257-280 | Setting the last operand joins the lists |
| Jumps.Buffer.PatchTestReg | src/lcode.rs:339-368 | Only a `TESTSET` in front of the jump changes |
| Jumps.PatchedTestIs | src/lcode.rs:339-368 | Its fields, one by one |
| Jumps.Buffer.PatchListAux | src/lcode.rs:377-395 | Exactly the members of the list get their targets, and it fails exactly if one is out of range |
| Jumps.Buffer.FinalTarget | src/lcode.rs:2240-2260 | A place that following jumps leads to, in at most 100 hops, also in cycles |
| Jumps.Buffer.Finish | src/lcode.rs:2262-2323 | For every instruction, which non-jump is reached from it, or that none is, stays the same; it cannot fail on code no longer than the largest offset |
| Jumps.Threaded | src/lcode.rs:2289-2293 | Threading one jump keeps that, infinite cycles included |
| Jumps.OldToNew | src/lcode.rs:2289-2293 | What was reached still is |
| Jumps.NewToOld | src/lcode.rs:2289-2293 | What is reached now was before |
| Parser.Sound | src/lparser.rs:1911-1963 | What is read is a prefix of the tokens, respects the priorities and goes on as far as it may |
| Parser.Complete | src/lparser.rs:1911-1963 | Every admissible syntax within the nesting limit is read as itself |
| Parser.Unambiguous | src/lparser.rs:1761-1909 | The tokens have one admissible reading |
| Parser.Longest | src/lparser.rs:1911-1963 | No admissible syntax that the tokens start with is longer than what is read |
| Parser.ShowOk | src/lparser.rs:1620-1640 | Printing with the needed parentheses is admissible and means the same tree |
| Parser.RoundTrip | src/lparser.rs:1911-1963 | Printing any tree and parsing it gives the tree back |
| Parser.Fewest | src/lparser.rs:1620-1640 | No admissible syntax of the tree has fewer parentheses |
| Parser.LexState.ParseSubExpr | src/lparser.rs:1911-1963 | The loop and recursion of the source agree with the declarative parser, errors and nesting limit included |
| Parser.LexState.ParseOperand | src/lparser.rs:1931-1940 | Unary operators and simple expressions |
| Parser.LexState.ParseOperator | src/lparser.rs:1941-1958 | One binary operator with its right operand |
| Parser.LexState.ParseSimple | src/lparser.rs:1620-1640 | Names and parentheses |
| StackLists.Thread.constructor | src/thread/mod.rs:59-99 | Both lists start empty |
| StackLists.Thread.FindUpvalue | src/lfunc.rs:103-117 | The open upvalue of the slot, or the new one in its place; the list stays strictly descending |
| StackLists.Thread.NewUpvalue | src/lfunc.rs:74-101 | Linked between the higher and the lower ones |
| StackLists.Thread.ReadUpvalue | src/vm/interp/mod.rs:191-195 | The pointer of an upvalue leads to its variable |
| StackLists.Thread.WriteUpvalue | src/vm/interp/mod.rs:205-209 | A write is seen by this upvalue and no other |
| StackLists.Thread.Unlink | src/lfunc.rs:208-213 | Taken out in place, wherever it is |
| StackLists.Thread.FreeUpvalue | src/gc/mod.rs:927-935 | A freed open upvalue leaves the others as they are |
| StackLists.Thread.CloseUpvalues | src/lfunc.rs:216-252 | Exactly those at or above the level are closed, and every variable keeps its value |
| StackLists.Thread.PushTbc | src/lfunc.rs:172-205 | Nil and false are skipped, others need a close method; the variable is linked over any distance by 16-bit hops |
| StackLists.Thread.PopTbc | src/lfunc.rs:254-267 | Undoes the last push, whatever the distance was |
| StackLists.Thread.Close | src/lfunc.rs:270-286 | Exactly the variables at or above the level are closed, innermost first, up to the first failure, though each call may move the stack |
| StackLists.Thread.CloseInnermost | src/lfunc.rs:278-283 | One round: the innermost variable is taken off and closed, and everything else survives the call |
| StackLists.Thread.RelStack | src/ldo.rs:36-52 | Pointers become offsets |
| StackLists.Thread.CorrectStack | src/ldo.rs:54-70 | Offsets become pointers |
| StackLists.Thread.Reallocate | src/ldo.rs:72-100 | Both lists, the slots and the variables of all upvalues survive the move; new slots are nil |
| StackLists.LastHop | src/lfunc.rs:181-205 | The hops that were laid and the last distance lead back down |
| Interning.StringTable.New | src/string/mod.rs:57-105 | The one short string with these bytes, or a new one |
| Interning.StringTable.Insert | src/string/table.rs:34-60 | Finds a string if it exists; otherwise says where it goes, in a table that may have grown |
| Interning.StringTable.Double | src/string/table.rs:81-129 | In-place doubling keeps the strings and puts each in the bucket of its hash |
| Interning.StringTable.Remove | src/string/table.rs:63-72 | The string goes, and the count with it |
| Interning.StringTable.Find | src/string/table.rs:63-68 | The walk always ends at the string |
| Interning.StringTable.Drop | src/string/mod.rs:181-188 | Short strings leave the table, long ones were never in it |
| Interning.StringTable.Same | src/string/mod.rs:57-105 | A short string equals another exactly if it is the same object |
| Interning.MaskIs | src/string/table.rs:75-79 | The mask takes the low bits of the hash |
| Interning.LowSplit | src/string/table.rs:109-129 | Doubling leaves a string where it is or moves it by the old size |
| Interning.SplitNext | src/string/table.rs:116-118 | A bucket is emptied before its strings are spread |
| Interning.SplitMove | src/string/table.rs:119-127 | No string is lost or met twice while they are |
| Interning.BucketCut | src/string/table.rs:63-72 | Cutting a string out leaves all the others |
| Numbers.Converted | src/vm/mod.rs:72-87 | The conversion gives the integer its mode asks for, exactly if it fits |
| Numbers.MixedLt | src/vm/mod.rs:499-553 | Less-than of an integer and a float, either way round, compares their mathematical values |
| Numbers.MixedLe | src/vm/mod.rs:513-553 | So does less-or-equal |
| Numbers.Exact | src/vm/mod.rs:555-592 | So do `LTnum` and `LEnum` for all numbers, infinities and NaN included |
| Numbers.EqExact | src/vm/mod.rs:777-782 | And equality |
| Numbers.OrderLaws | src/vm/mod.rs:555-592 | `LTnum` is a strict weak order on numbers other than NaN, compatible with equality |
| Numbers.FloorDivision | src/vm/mod.rs:1015-1049 | Quotient and remainder of floor division, the one overflow included; None for a zero divisor |
| Numbers.LimitIs | src/vm/mod.rs:108-152 | For every limit, NaN included: skipped exactly if the first index is out, where NaN counts as minus infinity; otherwise the clipped limit admits the same indices |
| Numbers.ForPrep | src/vm/mod.rs:156-196 | The loop runs exactly for the indices within the limit, NaN counting as minus infinity, and none of them overflows |
| Numbers.Count | src/vm/mod.rs:183-194 | The k-th index exists and is within the limit if and only if k is at most the count; the count fits 64 bits |
| Numbers.CountIs | src/vm/mod.rs:183-194 | Wrapping subtraction and unsigned division, for either sign of the step and the minimum integer, give that count |
| Numbers.SkipsRight | src/vm/mod.rs:108-152 | A loop is skipped exactly if its first index is not within the limit, if and only if the limit is not NaN or the step is positive |
| Numbers.FitsIs | src/vm/mod.rs:499-505 | The unsigned test holds exactly for integers up to 2^53 in size |

## Left out

- The interpreter loop, the JIT, the opcode tables, coroutines' futures, serialisation and the registry.
- Whole-compiler correctness; of the code generator, register allocation, constants and `luaK_nil`.
- Raw allocation, layouts and tag bits. Allocation failure and "table overflow" do not occur; object identities
  are not reused.
- The paused flag, user drop code run by the collector, and `luaD_shrinkstack` during a traversal.
- User values of userdata: `new` alone writes them, always with nil, so marking a userdata reaches its metatable
  only.
- Gray lists are sequences in the model, with each object on one list at most. That the single link field of an
  object suffices is this fact. `remark_upvalues` filters the list of threads and assigns it once.
- Overflow of `survivors * 20`.
- The hash of a key and of a string is arbitrary. In `next_raw`, the match of dead keys after a collection in the
  middle of a walk.
- The array and node vectors of a table are sequences that the methods reassign; sizes beyond 2^31 slots are not
  reached.
- LuaTable.Table.Resize: requires room in the hash part for the entries that must move there. `rehash` and
  `luaH_resizearray` see to it; the other calls (src/lib.rs:426, 438, 479, 494, src/vm/interp/mod.rs:724) are on new
  tables, where nothing moves.
- Metamethods, and errors of the table accesses, in `sort`; its random source is a parameter. A comparator may
  fail at any pair.
- Simple expressions are single names: constants, suffixes, constructors and function bodies are not parsed.
- StackLists.Thread.Close: a `__close` method may fail and may grow and move the stack; other effects on its
  caller's slots are not modelled. Stack overflow is not.
- Interning: the branch of `resize` that shrinks is never called. Overflow of the doubled size is not modelled.
- Rounding of floats: a float is a real number, and only integers up to 2^53 are assumed to convert exactly.
- Numbers.ForPrep: limits given as strings are not converted.
- LuaTable.Iter.Next: no key is added during an iteration, which the language leaves undefined.
