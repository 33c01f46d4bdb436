# Verification of the engine's runtime

The engine is a small server and client around two libraries kept in its tree, Lua and libuv.
This project models the parts of them, and of the engine itself, whose correctness is not
plain from reading one function, and proves what those parts promise. Code that changes
things in place is modelled as methods on classes and arrays; what the methods are measured
against is a function or a predicate on values. Every step of a protocol that takes a mutex is
one method; a run is any sequence of such steps.

## What is modelled

* **Garbage collector** (`LuaHeap`, `LuaMarks`, `LuaLists`, `LuaTricolor`, `LuaGc`, `LuaState`,
  `LuaGen`, `LuaSweep`, `LuaMutator`, `LuaObjects`, `LuaStep`, `LuaCycle`, `LuaYoung`, `LuaModes`,
  `LuaRun`, `LuaUnseen`, `LuaGap`). Objects are tables of the four weak modes, userdata, closures,
  upvalues, threads and strings; marks, ages, gray lists, object lists with the pointers that
  divide them, the phase and the place of the sweep are the fields of `GlobalState`. Both modes are
  there: `Valid` is what holds in every phase of the incremental mode, `GenInv` what holds between
  two young collections, `Ok` either of them. A run mixes any actions of the program (allocation,
  stores with their barrier, writes to a stack, capture and closing of upvalues, reuse of strings,
  finalizers, changes of the roots) with single steps, full and young collections and changes of
  mode. Weak tables may lose entries, and exactly when that may happen is part of the statements.
  `LuaUnseen` is a young collection that does not assume the generational invariant, which
  `LuaGap` needs to show what happens without it.
* **Code generator** (`LuaVm`, `LuaBool`, `LuaBoolJumps`, `LuaBoolOps`, `LuaBoolFinal`,
  `LuaCompare`, `LuaCodegen`, `LuaFinish`, `LuaLines`). Expressions are nestings of `and`,
  `or`, `not` and comparisons over locals and constants. `LuaVm` gives the instructions used
  their meaning, `LuaCodegen` emits them as the compiler does, and the two agree. `LuaFinish`
  is the last pass over the jumps, `LuaLines` the compressed table of lines with its reader.
* **Upvalues and to-be-closed variables** (`LuaFunc`). A sorted list linked through the
  upvalues, and a list of stack levels kept as 16-bit distances in the stack.
* **Text encodings** (`Utf8`, `Punycode`, `Idna`, `Wtf8`, `Inet`, `Inet6`). Host names to
  ASCII with Punycode (sections 6.1 to 6.3 of RFC 3492), WTF-8 to and from UTF-16, and
  addresses to and from text.
* **Heap, timers and queue** (`Heap`, `Timers`, `Queue`). The pointer tree addressed by the bits
  of a position, the timers on top of it with callbacks that may do anything to any timer, and
  the intrusive circular list.
* **Thread pool** (`ThreadPool`). Workers, the quota for slow work, cancellation and
  completion, one critical section a step.
* **Engine** (`Frames`, `LogQueue`). The server's message decoder, and the queue of log lines in
  the client's and in the server's form.

`Util` holds what several of these share.

## Where the code and its description differ

* `heap_remove` looks for the removed node at `min` after the pointer that held it was cleared,
  so that test never succeeds (`ge/libuv/src/heap-inl.h:183-191`); `Heap.Heap.Remove` asserts
  it.
* `inet_ntop6` has a clause for a run of seven zero words that never applies, because word 6 is
  inside such a run (`ge/libuv/src/inet.c:124-126`).
* `uv_utf16_to_wtf8` reports the length needed when the buffer is too small. It is right exactly
  when the first character fits or the buffer is empty; otherwise the capacity is added to it.
* In generational mode young objects are to be white, and old ones black but for some that wait
  to be visited (`ge/lua/src/lgc.h:152-160`). The forward barrier makes the object it marks old,
  but where that object is finished at once (an upvalue, or a userdata without user values) it
  marks the next object too, which keeps its age (`ge/lua/src/lgc.c:246-255`,
  `ge/lua/src/lgc.c:336-374`). From then on a store of that next object into an old one needs no
  barrier, and the old object is in no list. It also makes an open upvalue old whose thread is
  young. `LuaGap.OldToNew` is a store after which this can happen, and after `LuaGap.OldToFreed`,
  two young collections later, a table that the program can reach refers to an object that was
  freed. The invariant is kept by a store exactly when `LuaMutator.Breaks` is false, by the closing
  of one upvalue exactly when `LuaObjects.CloseBreaks` is false, and by luaF_close when that holds
  at every turn (`LuaObjects.CanClose`).
* A line table entry can be read back exactly when `previousline` is the line of the last
  instruction or the entry is an absolute one; the compiler's callers keep it so, because a
  removal is followed by a new entry at once.

## Model

| member | source | states |
|---|---|---|
| LuaGc.GlobalState.PropagateMark | ge/lua/src/lgc.c:727-736 | one gray object is visited: what it refers to is marked, and the object is settled on the list its kind and weak mode call for |
| LuaGc.GlobalState.TraverseEphemeron | ge/lua/src/lgc.c:541-573 | a pass over an ephemeron table in either direction marks the values of marked keys and files the table by what is left |
| LuaGc.GlobalState.ConvergeEphemerons | ge/lua/src/lgc.c:755-774 | the passes end; every entry of an ephemeron table is then settled, and the marked objects are closed under strong references |
| LuaGc.GlobalState.AtomicStep | ge/lua/src/lgc.c:1543-1581 | what is marked for good is closed under strong references and contains the roots; entries leave weak tables only for naming something outside it; unmarked finalizable objects are set aside and resurrected; marked objects refer to marked ones only |
| LuaGc.GlobalState.SeparateToBeFnz | ge/lua/src/lgc.c:1023-1040 | the finalizable objects split, in order, into those that stay and those to be finalized |
| LuaTricolor.TricolorVisit | ge/lua/src/lgc.c:727-736 | a visit in the propagation phase keeps: no black object refers to a white one, and every gray object is on a gray list |
| LuaMutator.StoreForward | ge/lua/src/lgc.c:246-261 | a store with the forward barrier keeps the state valid in every phase of the incremental mode; in generational mode it keeps the invariant exactly when the barrier marks nothing past the object stored |
| LuaMutator.StoreBack | ge/lua/src/lgc.c:268-279 | a store with the backward barrier keeps the state valid in every phase and the generational invariant in minor mode; a black object goes back to the gray-again list, an old one as touched |
| LuaObjects.NewObject | ge/lua/src/lgc.c:297-306 | a new object takes the current white, heads the list and keeps the state valid in both modes, even while its list is swept |
| LuaObjects.FindUpval | ge/lua/src/lfunc.c:65-99 | capturing a stack slot gives the one open upvalue of the slot and keeps the state valid in both modes |
| LuaObjects.CloseUpval | ge/lua/src/lfunc.c:197-210 | closing all upvalues from a level up moves their values and keeps the state valid in every phase; in generational mode when no turn of the loop meets a value for which the barrier marks past it |
| LuaObjects.CloseOne | ge/lua/src/lfunc.c:197-210 | closing one upvalue keeps the state valid exactly when, in generational mode, the barrier for its value marks nothing past it, and then leaves the upvalue and its value as the barrier does |
| LuaObjects.InternFound | ge/lua/src/lstring.c:214-230 | finding a dead string in the string table brings it back to life |
| LuaObjects.CheckFinalizer | ge/lua/src/lgc.c:1068-1090 | an object moves to the list of finalizable ones, past the sweep if need be and with the pointers into the list corrected, and is never lost or freed early |
| LuaSweep.SweepList | ge/lua/src/lgc.c:892-910 | only objects of the other white are freed, the rest become current white, in the order of the list |
| LuaState.ReachableIsLive | ge/lua/src/lgc.c:892-910 | in a valid state everything reachable from the roots is live: it exists and is not of the white being freed |
| LuaStep.SingleStep | ge/lua/src/lgc.c:1617-1686 | a step of the collector, in any phase, keeps the state valid and loses nothing strongly reachable |
| LuaStep.ReachableNotFreed | ge/lua/src/lgc.c:1617-1686 | after a step every strongly reachable object is there with its references, weak tables apart, and nothing reachable dangles |
| LuaCycle.FullInc | ge/lua/src/lgc.c:1770-1778 | a full collection keeps all that is strongly reachable, with its contents but for weak entries that name something else, and frees everything outside any set that the roots and references cannot leave |
| LuaGen.OldToOld | ge/lua/src/lgc.h:125-160 | between young collections an old object in no list refers to old objects only, an old1 or touched2 object to no new one; touched1 objects are in a list; what is marked is what is old |
| LuaYoung.MarkOld | ge/lua/src/lgc.c:1276-1286 | exactly the old1 objects up to the pointer ripen, and the black ones among them are marked again |
| LuaYoung.SweepGen | ge/lua/src/lgc.c:1172-1213 | up to the limit dead objects leave the list and the heap, the others age by one step, new ones are white again, and the first old1 object is found |
| LuaYoung.CorrectGrayLists | ge/lua/src/lgc.c:1227-1268 | the four lists become one, of the touched1 objects, now touched2, and of the threads that are not white |
| LuaYoung.YoungCollection | ge/lua/src/lgc.c:1335-1380 | a young collection keeps the generational invariant; whatever is left is one step older; nothing strongly reachable is lost or emptied, and nothing is left outside any set that old objects, roots and references cannot leave |
| LuaModes.AtomicToGen | ge/lua/src/lgc.c:1136-1158 | entering generational mode keeps what is strongly reachable, makes everything left old and establishes the generational invariant |
| LuaModes.MinorToInc | ge/lua/src/lgc.c:1306-1314 | leaving it goes on with a sweep of the incremental mode from a valid state, losing nothing |
| LuaUnseen.YoungUnseen | ge/lua/src/lgc.c:1335-1380 | without the generational invariant, in a heap with no finalizers, no open upvalues and no weak table but one: a young collection does not look at that table if it is old and in no list, and frees the white objects of the parts it sweeps whether or not the table refers to them |
| LuaGap.OldToNew | ge/lua/src/lgc.c:246-255 | a state with the generational invariant and a store in it; whatever the store leaves, an old table in no list can be given a new object without a barrier |
| LuaGap.OldToFreed | ge/lua/src/lgc.c:1335-1380 | that store, the store into the table, a young collection, one more store and a second young collection: the table is reachable and refers to an object that was freed |
| LuaRun.Run | ge/lua/src/lgc.c:1617-1686 | in every interleaving of actions of the program, steps, full and young collections and changes of mode each state is valid for its mode, no action frees a strongly reachable object, the collector changes no contents but for weak entries that name something else, and nothing reachable is missing |
| LuaVm.ExecIsVm | ge/lua/src/lvm.c:1646-1720 | the meaning given to code with pending jumps agrees with the machine, step by step, once none is pending |
| LuaVm.ExecPatched | ge/lua/src/lcode.c:290-301 | patching a list of jumps retargets all of them and nothing else |
| LuaCodegen.FuncState.Concat | ge/lua/src/lcode.c:182-193 | two lists of jumps become one, threaded through the instructions, and no other instruction changes |
| LuaCodegen.FuncState.PatchListAux | ge/lua/src/lcode.c:290-301 | every jump of the list gets the target its test asks for |
| LuaCodegen.FuncState.Exp2Reg | ge/lua/src/lcode.c:971-993 | the code leaves the value of the expression in the register, whatever jumps were pending |
| LuaCodegen.FuncState.GoIfTrue | ge/lua/src/lcode.c:1178-1199 | the code goes on only if the expression is true and otherwise leaves through the false list |
| LuaCodegen.FuncState.GoIfFalse | ge/lua/src/lcode.c:1205-1226 | the code goes on only if the expression is false and otherwise leaves through the true list |
| LuaCodegen.FuncState.CodeNot | ge/lua/src/lcode.c:1231-1259 | the code of the negated expression; the lists change places and lose their values |
| LuaCodegen.FuncState.CodeOrder | ge/lua/src/lcode.c:1634-1660 | an order comparison is coded by the instruction for its operands, with its jump |
| LuaCodegen.FuncState.CodeEq | ge/lua/src/lcode.c:1666-1690 | an equality is coded by the instruction for its operands, with its jump |
| LuaCodegen.FuncState.Compile | ge/lua/src/lcode.c:1718-1804 | every nesting of and, or, not and comparisons is coded as what it means; it succeeds whenever there is room for a number of instructions, constants and registers read off the expression |
| LuaCodegen.CompiledCorrect | ge/lua/src/lcode.c:971-993 | running finished code on the machine leaves the value the expression denotes in the target register and all lower registers as they were |
| LuaFinish.Finish | ge/lua/src/lcode.c:1911-1970 | the pass over the jumps leaves every point of the code reaching the same next instruction that is not a jump, or none, as before; it succeeds for all code no longer than the largest offset |
| LuaLines.FuncState.Save | ge/lua/src/lcode.c:331-346 | one more line can be read back, and all earlier ones still can |
| LuaLines.FuncState.FixLine | ge/lua/src/lcode.c:1868-1871 | the last line is replaced and all others stay |
| LuaLines.SavedIff | ge/lua/src/lcode.c:331-376 | exactly when a saved line is read back right |
| LuaLines.GetBaseLine | ge/lua/src/ldebug.c:62-77 | the first estimate is never past the entry looked for, and the base found is the last one at or before the instruction |
| LuaLines.GetFuncLine | ge/lua/src/ldebug.c:85-97 | the line that the table denotes for an instruction |
| LuaLines.ChangedLine | ge/lua/src/ldebug.c:881-899 | the short walk answers what comparing two full lookups answers |
| LuaLines.RoundTrip | ge/lua/src/lcode.c:331-376 | after any sequence of emitted lines, corrections and removals, every line is read back as the last one saved |
| LuaFunc.TbcList.New | ge/lua/src/lfunc.c:172-183 | a variable is pushed, over any distance, or refused when its value cannot be closed |
| LuaFunc.TbcList.Pop | ge/lua/src/lfunc.c:216-223 | the last level is removed together with the dummy nodes below it |
| LuaFunc.TbcList.CloseProtected | ge/lua/src/lfunc.c:230-240 | all levels from the given one up are closed, each once, the last one first, even when closing methods end in errors |
| LuaFunc.Thread.Find | ge/lua/src/lfunc.c:65-99 | the upvalue of a slot is shared by all that capture it; the list stays strictly decreasing |
| LuaFunc.Thread.CloseUpvals | ge/lua/src/lfunc.c:186-210 | exactly the upvalues from the level up leave the list, and each keeps its value |
| Utf8.PointsEncoded | ge/libuv/src/idna.c:71-149 | well-formed text is decoded to its characters |
| Punycode.VarintRoundTrip | ge/libuv/src/idna.c:263-288 | an integer written with any bias is read back, whatever follows |
| Punycode.RunMore | ge/libuv/src/idna.c:246-311 | writing one more integer makes the decoder of section 6.2 of RFC 3492 do one more insertion |
| Idna.Insertions | ge/libuv/src/idna.c:221-312 | the digits written make the decoder rebuild the label; no step wraps around, and overflow is reported only when a difference does not fit |
| Idna.ToAsciiLabel | ge/libuv/src/idna.c:152-315 | a label is itself or "xn--" and a text that decodes to its characters; refused exactly when it is not legal text |
| Idna.ToAscii | ge/libuv/src/idna.c:318-367 | a non-negative result means that no byte was dropped and every label is encoded right |
| Wtf8.UnitsPoints | ge/libuv/src/idna.c:412-424 | taking UTF-16 apart into code points loses nothing, unpaired surrogates included |
| Wtf8.Wtf8LengthAsUtf16 | ge/libuv/src/idna.c:370-384 | the length is what the converter writes, or -1 exactly for text that is not legal |
| Wtf8.Utf16LengthAsWtf8 | ge/libuv/src/idna.c:427-457 | the length is what the converter writes, for counted and for terminated text |
| Wtf8.Utf16ToWtf8 | ge/libuv/src/idna.c:460-560 | the text when it fits, otherwise as much of it as fits and the length needed, right exactly when the first character fits |
| Wtf8.FirstTooLong | ge/libuv/src/idna.c:552-557 | an input for which the length reported is wrong |
| Wtf8.RoundTrip | ge/libuv/src/idna.c:370-560 | decoding what is written gives the units back, for every NUL-free text |
| Wtf8.ThereAndBack | ge/libuv/src/idna.c:370-560 | the methods composed give the text back when it has no U+10FFFF |
| Inet.Pton4Iff | ge/libuv/src/inet.c:175-211 | text is accepted as an IPv4 address exactly when it is what printing the result gives |
| Inet.InetPton4 | ge/libuv/src/inet.c:175-211 | the scan with its temporary bytes reads what the specification says |
| Inet6.FindRun | ge/libuv/src/inet.c:83-106 | the run chosen is the first longest one of two zero words or more, or there is none |
| Inet6.RoundTrip | ge/libuv/src/inet.c:62-298 | reading a printed IPv6 address gives it back, whichever zero run was left out |
| Inet6.InetNtop6 | ge/libuv/src/inet.c:62-143 | the text leaves out the first longest zero run, fits the buffer, and reads back as the address |
| Inet6.InetPton6 | ge/libuv/src/inet.c:214-298 | the scan and the shift in place read what the specification says |
| Heap.Heap.Swap | ge/libuv/src/heap-inl.h:72-104 | a child and its parent change places and every pointer of the tree is right again |
| Heap.Heap.Insert | ge/libuv/src/heap-inl.h:106-148 | for any strict weak order the tree stays complete and ordered and holds exactly one node more |
| Heap.Heap.Remove | ge/libuv/src/heap-inl.h:150-237 | for any strict weak order the tree stays complete and ordered and holds exactly the other nodes |
| Heap.Heap.Min | ge/libuv/src/heap-inl.h:67-69 | nothing in the tree is less than its root |
| Timers.Loop.TimerStart | ge/libuv/src/timer.c:67-94 | the timer is due at the clamped time, with a start number above all others, and in no queue |
| Timers.Loop.NextTimeout | ge/libuv/src/timer.c:143-161 | never later than the earliest deadline, and -1 exactly when no timer is active |
| Timers.Loop.Drain | ge/libuv/src/timer.c:164-183 | the queue gets exactly the timers that are due, by deadline and start number |
| Timers.Loop.RunTimers | ge/libuv/src/timer.c:164-194 | for arbitrary callbacks the run ends; each due timer runs once at most, in order, unless an earlier callback touched it; none runs that was stopped, closed or started meanwhile |
| Queue.Remove | ge/libuv/src/queue.h:85-88 | a link is taken out of a ring wherever it is |
| Queue.Split | ge/libuv/src/queue.h:51-60 | a ring is cut in two at a link |
| Queue.Move | ge/libuv/src/queue.h:62-67 | everything goes to another head and the first one is empty |
| Queue.Add | ge/libuv/src/queue.h:44-49 | one ring is appended to another |
| ThreadPool.Pool.Turn | ge/libuv/src/threadpool.c:57-140 | a worker's critical section ends in a wait with nothing to do, an exit, or one request taken from its queue, and keeps the pool valid |
| ThreadPool.Pool.Submit | ge/libuv/src/threadpool.c:143-161 | a request enters exactly one queue; slow work is announced once |
| ThreadPool.Pool.CancelTake | ge/libuv/src/threadpool.c:292-316 | a request is cancelled exactly when it has not started, wherever it is queued |
| ThreadPool.Pool.DrainOne | ge/libuv/src/threadpool.c:319-356 | a completion is reported with the cancelled status exactly when the work function never ran |
| ThreadPool.Pool.NothingForgotten | ge/libuv/src/threadpool.c:57-140 | when all workers sleep no work is queued |
| ThreadPool.Pool.SomebodyComes | ge/libuv/src/threadpool.c:57-140 | work that can run has an awake or signalled worker coming for it |
| ThreadPool.Pool.AllCompleted | ge/libuv/src/threadpool.c:81-130 | with all queues empty and no request in hand every submission was completed |
| ThreadPool.Pool.Run | ge/libuv/src/threadpool.c:57-356 | in every interleaving: the slow counter equals the workers at slow work and stays within its quota, the message is queued exactly once while slow work is pending, no wakeup is lost, every request is in one place and completed once at most |
| Frames.ParseMore | ge/src/server.c:204-294 | a stream may be decoded up to anywhere first and the rest with what was left over |
| Frames.Client.OnRead | ge/src/server.c:204-294 | one read takes the connection from the decoding of what came before to the decoding of all |
| Frames.Receive | ge/src/server.c:204-294 | however a stream is cut into reads, the messages, the bytes kept or the rejection are those of the one-shot decoder |
| Frames.SameStream | ge/src/server.c:204-294 | two ways to cut the same stream deliver the same messages and keep the same bytes |
| LogQueue.Queue.Push | ge/client/client_lua_bindings.c:181-216 | a line is accepted when there is room; otherwise the client's producer waits, or the server's line is dropped |
| LogQueue.Queue.Joined | ge/client/client_lua_bindings.c:218-246 | once the worker has ended, the client's file holds every accepted line in order; the server's holds those taken before it stopped |
| LogQueue.Queue.WrittenFirst | ge/src/logger.c:175-207 | what is in the file is at any time the beginning of what was accepted, and the count is the length of the list |
| LogQueue.Queue.Run | ge/client/client_lua_bindings.c:103-246 | in every interleaving the bound holds, every accepted line is accounted for, and nobody sleeps beside work or room that no one is coming for |

## Left out

- LuaRun.Run: in minor mode it excludes the stores and closings after which the generational
  invariant fails, which are exactly those of `Breaks` and `CloseBreaks`.
- LuaGap.OldToFreed: the table is one with weak values. What marking does is stated for a set that
  the strong references of marked objects do not leave; a strong table that refers to a dead object
  would leave it. An old table in no list is not looked at, weak or not.
- Which sizes make the collector go from minor to major mode and back, and the intermediate mode
  it is then in: a change of mode is an action that may come at any time.
- Allocation failure, the size estimates that pace the collector, and user code run by
  finalizers other than as actions of the program.
- LuaCodegen.FuncState.Compile: floats, calls, upvalues, globals, arithmetic and metamethods of
  comparisons are not modelled; it says nothing where the room that suffices is not there.
- LuaCodegen.CompiledCorrect: the limit on the length of the instruction vector is not modelled.
- LuaFunc.TbcList.Close: closing methods are modelled by what they may leave in the stack and by
  whether they end in an error.
- Timers.Loop.TimerStart: the start counter does not wrap around.
- Inputs of 2 GiB or more to the host name encoder, whose counters are of 32 bits.
- Heap.Heap.Insert: nodes are compared by a key of two numbers under an arbitrary order.
- ThreadPool.Pool.Run: no completion is claimed once the pool was told to exit.
- The converse of UTF-8 decoding: with fewer than three bytes left a long lead byte is read as a
  shorter one.
- Frames.Client.OnRead: callbacks that close the client, and reads that end in an error.
- The engine's sockets, table of clients and scripts, and the warnings of the log queue.
- Zone suffixes of IPv6 addresses, removed before the modelled parser is called.
