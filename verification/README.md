# A verified model of the Insense virtual machine

The repository is a C virtual machine for Insense bytecode. Components are threads that share nothing and
talk over synchronous channels; each interprets its own bytecode file with a data stack, a stack of scopes and
a table of procedures, on top of reference-counted memory. This project models its four hard layers and proves
what they promise, for every input, every interleaving and every reachable state.

**Channels.** `Rendezvous.dfy` is send and receive as a step machine over any fixed, well-formed connection
graph: one program counter for each half-channel, the two nested mutexes of a probe taken one at a time, the
test of the two `ready` flags separate from acting on it, and semaphores whose test is an `if`. The other
`Rendezvous*.dfy` files hold the inductive invariant and the results about all runs: delivery, the
acknowledgement, how often a waiting receiver is passed over. `Linking.dfy` puts the graph into the state and adds
any number of threads that bind and unbind, with conn_op_mutex, the two conns_sem tokens and the two mutexes as
separate waits. What that machine keeps in every run is in `LinkingSafety.dfy`, with exclusion and delivery in
`LinkingResults.dfy`; `LinkingProgress.dfy` proves that it does not deadlock and `LinkingRebind.dfy` what the one
exception, binding a linked pair again, does. `LinkingTokens.dfy` and `LinkingRace.dfy` are about the conns_sem tokens
as locks, `LinkingRendezvous.dfy` about rendezvous lost to a bind, `LinkingRounds.dfy` about what whole calls of bind and
unbind leave of the lists; `LinkingRuns.dfy` builds runs. `Binding.dfy` is bind and unbind on objects, and
`RecursiveMutex.dfy` the recursive mutex, one shared read or write per step.

**Collections and scopes.** `IteratedList.dfy` is the cursor-carrying list on heap nodes, `ListMap.dfy` the map
built on it, and `ScopeStack.dfy` the list of maps; their methods are specified to the entry and the cursor.
`ScopeChains.dfy` says what the operations do to entries and cursors and when this is what they mean on maps;
`Scoping.dfy` is that meaning, and what any well-bracketed sequence of scope operations leaves behind.

**Memory.** `Collector.dfy` is the reference-counting collector over an arbitrary object graph, cyclic or not.
A reference that an assignment is about to overwrite is a hole: still in its field, no longer counted.

**Bytecode.** `Decoding.dfy` reads operands (the two-pass string reader, big-endian numbers), `Bytecode.dfy` has
the instruction layouts and the skipper, `Layouts.dfy` the bytecode table line by line, `Arithmetic.dfy` the integer
operations carried out in binary64 doubles. `Interpreter.dfy` is one turn of the instruction loop over the scope stack
as it is, entries and cursors included; `Machine.dfy` is the same turn over maps, which gives up where a name would be
entered twice at one level.
The interpreter refines it for exactly as long as it goes on. `Structured.dfy` gives structured programs a meaning
and a layout, behaviours that repeat until a STOP included; `Simulation.dfy` proves that the machine does with a layout
what its program means; `Instructions.dfy` says in plain arithmetic what single instructions do with the bytes given;
`Declarations.dfy` and `Programs.dfy` add procedure declarations, whole files, and what a call leaves behind;
`Execution.dfy` states the results for the interpreter, `Redeclaration.dfy` when a name is entered twice, and
`Recursion.dfy` what becomes of recursive calls. `Component.dfy` is the interpreter as an object, with its scope
stack on the heap, whose handlers update its fields and move the file position; `FileRuns.dfy` runs such an object
over a whole file.

## Where the code and its own account differ

The model follows the code. Each difference is stated as a theorem.

- Channels/channel.h:47 says the sender's data cannot change before the receiver has copied it. With two
  senders on one receiver it can: `AckProtectsExactly` gives the exact condition.
- Channels/channel.c:91-94 refuses a second bind of a pair and leaves both channel mutexes locked (`Bind`), for
  ever (`RebindBlocks`), so that whoever waits for one of them stays where it is (`StuckForever`). Every linked pair
  can be brought to this (`RebindHappens`), and nothing else can deadlock (`NoDeadlock`).
- Channels/channel.c:172 and :216 read the length of the connection list once and then ask for that many elements.
  An unbind that has the token of a half in the middle of its scan can take the last one away; the next element is
  then null and the process dies of it (`ListEmptied`). Runs that keep the tokens exclusive never do
  (`OrderlyNeverCrashes`).
- Channels/channel.c:97-107 links two halves without looking whether both are parked and ready already. If they are,
  neither looks for the other any more: `RendezvousCanBeLost` in every graph, and `LostExactly` for when.
- Channels/my_semaphore.c:37-40 tests before sleeping and not after: a thread can take the token that a post has
  promised to a sleeper, and both then have it (`StolenIsShared`; `TokenShared` is such a run). `TokensKeptExactly`
  names all steps that break the exclusion.
- Channels/channel.c:172 keeps the cursor across calls, which looks fair. A sender that finds its partners itself
  passes a ready receiver at most once per connection (`BypassBound`), but sends that other receivers take pass it
  without bound (`Starves`): the wait is bounded in every run exactly for a sender's only partner
  (`BoundedExactly`).
- Channels/channel.c:116-156 is meant to drop every link; it drops those at even positions (`Unbind`,
  `OddsEmpty`).
- ScopeStack/ScopeStack.c:53-84 does not count the top level, so a RETURN from inside nested scopes leaves the
  procedure's frame on the stack (`ReturnRestoresExactly`).
- Collections/ListMap.c:41 tests the value and not the key, so a key declared twice before its first value is
  entered twice, and the value stored next is not the one read next (`RedeclaredKeyIsLost`): DECLARE x, DECLARE x,
  PUSH, STORE x, LOAD x makes the component exit (`RedeclarationExits`). `UnambiguousExactly` is the exact condition
  on a run, `OnceNeverClashes` a condition on the program that rules it out.
- Component.c:1341-1343 would keep an unknown escape as two characters; the second pass leaves a zero byte in
  its place, which ends the string (`UnknownEscapeTruncates`, `EncodeDecode`).
- Component.c:1468-1476 skips JUMP, IF and ELSE as if a string followed, while their handlers read an integer:
  a procedure whose body has a conditional or a loop makes the component exit when it is declared
  (`SkipExitsAtJump`, `DeclareStep`), so that no recursive call of a loaded file ever comes back
  (`RecursionNeverReturns`).
- Component.c:825-836: a false IF with no ELSE needs a byte after it, and one that is not ELSE (`IfFalseLands`).
- Component.c:664: a negative remainder stored as unsigned wraps, so DIV and MOD no longer agree
  (`DivModLaw`).

## Model

| member | source | states |
|---|---|---|
| RendezvousResults.MutualExclusion | Channels/channel.c:178-198 | in every reachable state at most one thread is inside a half's mutex, and a pair found ready is still ready when it is acted on |
| RendezvousResults.ReadyOrWoken | Channels/channel.c:167-203 | a half that is scanning or parked is either still ready or owed exactly one wake-up; outside an operation it is neither |
| RendezvousResults.NoLostRendezvous | Channels/channel.c:163-254 | no reachable state has a connected sender and receiver both parked and both still ready |
| RendezvousResults.ReceivesAreSends | Channels/channel.c:181-190 | every completed receive returned the value of a send on a connected half, and no other receive has that send |
| RendezvousResults.SendsAreReceived | Channels/channel.c:225-251 | every completed send was taken by exactly one receive on a connected half, which returned its value or still holds it |
| RendezvousResults.LinkOrder | Channels/channel.c:163-254 | on one link values arrive in the order they were sent |
| RendezvousSafety.InvStep | Channels/channel.c:163-254 | every step of send and receive keeps the whole invariant: control, exclusion, no missed pair, and the matching of sends with receives |
| RendezvousSafety.FullCycle | Collections/IteratedListGetNextElement.c:16-21 | as many cursor steps as there are connections probe every connection, from any starting cursor |
| RendezvousSafety.NotMissedStep | Channels/channel.c:181-198 | no step makes two connected halves both ready after each has probed the other in vain |
| RendezvousProgress.AcknowledgementsBalance | Channels/channel.c:189-251 | acknowledgements given and still owed by a receiver are exactly the senders waiting on it, and a sender asleep there is alone with a receiver that has yet to acknowledge |
| RendezvousBypass.BoundedBypass | Channels/channel.c:172-194 | along any whole run in which a receiver stays ready, services of others by the sender itself plus the potential it has left never exceed the potential it started with, and every other match of the sender is one another receiver took |
| RendezvousBypass.BypassBound | Channels/channel.c:172-194 | while a receiver stays ready its sender, with n connections, serves others itself at most n times, and completes at most n sends besides those that others took |
| RendezvousBypass.Starves | Channels/channel.c:201-251 | with a second receiver on its sender, for every n there is a run in which the sender completes n sends while the first receiver is parked and ready throughout and its record never changes |
| RendezvousBypass.BoundedExactly | Channels/channel.c:163-254 | the sends completed while a receiver waits are bounded over all runs if and only if it is its sender's only partner |
| RendezvousAck.SoleSenderHeld | Channels/channel.c:186-189 | with at most one sender, a payload not yet copied belongs to a send that has not returned |
| RendezvousRace.TwoSendersUnprotected | Channels/channel.c:186-194 | in any graph with two senders on one receiver there is a run in which a send returns before its data is copied |
| RendezvousRace.AckProtectsExactly | Channels/channel.h:47 | the acknowledgement protects the sender's data in every run if and only if the receiver has at most one sender |
| LinkingSafety.NetInvStep | Channels/channel.c:69-254 | every step of sending, receiving, binding and unbinding keeps the invariant, whatever the schedule and whatever is bound: links symmetric and duplicate-free, cursors inside their lists, one operator inside conn_op_mutex, mutexes exclusive, acknowledgements balanced, a connected half's token there, had or owed, sends and receives matched |
| LinkingResults.MutexHeldOnce | Channels/channel.c:86-224 | in every state of every run at most one thread, be it sender, receiver, binder, unbinder or one that a refused bind sent home, is inside the mutex of a half |
| LinkingResults.NetReceivesAreSends | Channels/channel.c:181-190 | while links come and go, every completed receive returned the value of a send of a sender half, and no other receive has that send |
| LinkingResults.NetSendsAreReceived | Channels/channel.c:225-251 | while links come and go, every completed send was taken by exactly one receive, which returned its value or still holds it |
| LinkingResults.NetLinkOrder | Channels/channel.c:163-254 | between one sender and one receiver values arrive in the order they were sent, whatever is bound and unbound in between |
| LinkingRounds.UnbindRounds | Channels/channel.c:116-152 | in any run, at the head of round i of an unbind of a half its list is what i rounds, each taking position i of what is left, make of the list at entry |
| LinkingRounds.UnbindLeaves | Channels/channel.c:116-156 | in any run a whole unbind leaves a half its links at odd positions, takes it off the lists of exactly those partners that were at even ones, and changes no other list |
| LinkingRounds.BindLeaves | Channels/channel.c:69-114 | in any run a whole bind puts each half at the head of the other's list if they fit and are not linked, changes no list otherwise, and is refused with both mutexes locked exactly if they fit and are linked |
| LinkingRounds.NextKept | Collections/IteratedListGetNextElement.c:16-21 | whatever is bound and unbound, a step leaves the partner a scan comes to next, or goes on to the following one when it fetches that partner or cuts its link |
| LinkingProgress.WaitsClimb | Channels/channel.c:72-189 | in every state of every run whoever is waited for stands strictly higher in the order conn_op_mutex, IN conns_sem, OUT conns_sem, acknowledgement, IN mutex, OUT mutex, so the wait-for relation over senders, receivers, binders and unbinders has no cycle |
| LinkingProgress.MovesOrWaits | Channels/channel.c:69-254 | in every state of every run a thread inside an operation can do more than fall asleep, waits for one other thread, or awaits a partner or a connection |
| LinkingProgress.WaitsEnd | Channels/channel.c:69-254 | in every state of every run a thread that does not await a partner, a connection or its own next call is at most six waits away from a thread that can step, or from one that a refused bind sent home |
| LinkingProgress.NoDeadlock | Channels/channel.c:69-254 | in every run that binds no linked pair again the end of the waits is a thread that can step |
| LinkingRebind.RebindBlocks | Channels/channel.c:91-94 | after a step that binds a linked pair again neither of its two mutexes is free in any state of any continuation |
| LinkingRebind.StuckForever | Channels/channel.c:91-94 | a thread that waits for one that a refused bind sent home is at the same point, still waiting for it, in every state of every continuation |
| LinkingRebind.RebindHappens | Channels/channel.c:91-94 | in any graph, for any linked pair, a run whose last step binds the pair again and leaves a thread waiting for its mutex |
| LinkingTokens.TokensKeptExactly | Channels/my_semaphore.c:35-50 | a step keeps the conns_sem tokens exclusive and there for whoever was woken if and only if it neither takes a token promised to a woken thread nor posts one that is held |
| LinkingTokens.TokenExclusive | Channels/channel.c:124-150 | in every state of a run without such steps a token is with one thread at most, and is free only when nobody has it |
| LinkingTokens.TokenSomewhere | Channels/channel.c:106-149 | in every state of every run the token of a connected half is free, with its owner, or with a thread that binds or unbinds |
| LinkingTokens.OrderlyNeverCrashes | Channels/channel.c:172-176 | a run without such steps never asks an emptied list for its next element |
| LinkingRace.StolenIsShared | Channels/my_semaphore.c:37-40 | whenever a promised token is taken, the woken thread can go on at once, and both then have the token |
| LinkingRace.TokenShared | Channels/my_semaphore.c:37-40 | a run from an initial state after which a receiver and a thread that unbinds have the same token |
| LinkingRace.ListEmptied | Collections/IteratedListGetNextElement.c:11-14 | that run goes on to where the unbind has emptied the receiver's list between the reading of its length and the first probe, and the process dies |
| LinkingRendezvous.LostExactly | Channels/channel.c:86-107 | in a state that tidy steps lead to, a tidy step leaves a linked pair parked and ready, which it was not before, if and only if it is the bind of two halves parked and ready already; tidy steps keep the tokens exclusive and bind no half in the middle of an operation |
| LinkingRendezvous.LostSince | Channels/channel.c:69-254 | a linked pair parked and ready at the end of a run of tidy steps was joined in that condition and has been in it ever since |
| LinkingRendezvous.RendezvousCanBeLost | Channels/channel.c:86-107 | in any graph, for any two unlinked halves of opposite direction that have connections, a run whose last step is such a bind |
| Binding.Bind | Channels/channel.c:69-114 | links exactly compatible pairs not yet linked, at the head of both lists; symmetry, no duplicates and token-iff-connected are kept; mutexes stay locked exactly when the pair was linked already |
| Binding.Unbind | Channels/channel.c:116-156 | of the links of a half exactly those at odd positions remain, on both sides, and the link and token invariant is kept |
| Binding.ThinnedStep | Channels/channel.c:125-152 | round t of unbind removes the element at position 2t of the original list |
| Binding.OddsEmpty | Channels/channel.c:122-152 | unbind is complete if and only if there was at most one link |
| RecursiveMutex.FastPathIsSafe | Channels/my_mutex.c:19-22 | a thread that sees itself recorded, with or without the lock, owns the lock, in every interleaving of any number of threads |
| RecursiveMutex.MutualExclusion | Channels/my_mutex.c:17-37 | no two threads are inside at once |
| RecursiveMutex.CountIsDepth | Channels/my_mutex.c:19-36 | between calls the counter is the holder's nesting depth and the recorded thread is the holder |
| RecursiveMutex.FreeIsClear | Channels/my_mutex.c:34-36 | when nobody owns the lock both fields are clear and nobody is inside |
| RecursiveMutex.OnlyOthersBlock | Channels/my_mutex.c:19-24 | a holder never blocks on itself, and whoever blocks waits for a thread that is between calls or can step |
| RecursiveMutex.RefinesReentrantLock | Channels/my_mutex.c:17-37 | every step of every run is one atomic enter or leave of a reentrant lock, or changes no depth |
| RecursiveMutex.CallCounts | Channels/my_mutex.c:17-37 | in any interleaving a lock call that has returned has taken its caller one level deeper, and an unlock one level back |
| IteratedLists.FullCycle | Collections/IteratedListGetNextElement.c:6-23 | n next calls on a list of n read its rotation from the cursor and restore the cursor |
| IteratedLists.RemoveKeepsCursor | Collections/IteratedListRemove.c:29-42 | removal leaves the cursor on the same element, or on the cyclic successor if its own was removed |
| IteratedLists.IteratedList.Insert | Collections/IteratedListInsert.c:22-50 | a new node at the head, the cursor on its old element; a null element changes nothing |
| IteratedLists.IteratedList.NextElement | Collections/IteratedListGetNextElement.c:6-23 | returns the element under the cursor and moves it on cyclically |
| IteratedLists.IteratedList.Remove | Collections/IteratedListRemove.c:9-51 | exactly the first occurrence goes, with its node, and the cursor is repaired; an absent element changes nothing |
| IteratedLists.IteratedList.Search | Collections/IteratedListSearchList.c:4-15 | the first match in cyclic order from the cursor, or none before the starting payload comes round again; where the cursor ends |
| IteratedLists.IteratedList.Length | Collections/IteratedListGetListLength.c:7-19 | the number of elements |
| IteratedLists.IteratedList.ElementN | Collections/IteratedListGetElementN.c:11-32 | the element at the index, or null past the end |
| IteratedLists.IteratedList.Contains | Collections/IteratedListContains.c:9-27 | true exactly for elements of the list |
| ListMaps.FirstFromUnique | Collections/ListMap.c:59-66 | with unique keys, the entry a cyclic search finds from any cursor is the map's value for the key, and none is found exactly for absent keys |
| ListMaps.AsMapUpdate | Collections/ListMap.c:68-81 | assigning one entry changes the map at that key only and keeps keys unique |
| ListMaps.DeclareUnique | Collections/ListMap.c:40-53 | a new entry keeps keys unique if and only if its key was absent |
| ListMaps.RegisteredUnique | Collections/ListMap.c:40-53 | declaring a key keeps keys unique if and only if the key was absent or had a value, wherever the cursor stands |
| ListMaps.RedeclaredKeyIsLost | Collections/ListMap.c:40-81 | from any list map with unique keys in which a key has no value: declare it, put a value, get it, and null is read, wherever the cursor stood |
| ListMaps.ListMap.Find | Collections/ListMap.c:55-66 | the entry found from the current cursor, and where the cursor then stands |
| ListMaps.ListMap.Get | Collections/ListMap.c:59-66 | with unique keys the map's value, whatever the cursor |
| ListMaps.ListMap.Declare | Collections/ListMap.c:40-53 | the map gains the key without a value unless it has a value; keys stay unique exactly when it was absent or had one |
| ListMaps.ListMap.Put | Collections/ListMap.c:68-81 | true exactly for declared keys, and then only that key's value changes |
| ScopeStacks.ScopeStack.EnterScope | ScopeStack/ScopeStack.c:32-44 | a new empty innermost level |
| ScopeStacks.ScopeStack.ExitScope | ScopeStack/ScopeStack.c:46-51 | the innermost level goes, if there is one |
| ScopeStacks.ScopeStack.LoadName | ScopeStack/ScopeStack.c:98-126 | the value at the innermost level that has one |
| ScopeStacks.ScopeStack.StoreName | ScopeStack/ScopeStack.c:128-157 | the innermost declaring level changes at that name only; a fault exactly when no level declares it |
| ScopeStacks.ScopeStack.DeclareName | ScopeStack/ScopeStack.c:91-96 | the innermost level declares the name; a fault exactly on an empty stack |
| ScopeStacks.ScopeStack.ExitUpTo | ScopeStack/ScopeStack.c:53-84 | clears the levels strictly between the top and the first level with a value for the name |
| Scoping.LoadAfterStore | ScopeStack/ScopeStack.c:98-157 | a stored value is loaded back, other names keep theirs, and only the innermost declaring level changes |
| Scoping.Confined | ScopeStack/ScopeStack.c:32-157 | any program that stores only to names it has declared inside never fails and leaves every outer level as it was |
| Scoping.BlockRestores | ScopeStack/ScopeStack.c:32-51 | a balanced block that stores only to its own names restores the whole scope stack |
| Scoping.ReturnDropsFrame | ScopeStack/ScopeStack.c:69-82 | leaving to a name and once more drops exactly its frame if and only if the frame is the top level |
| ScopeChains.LoadShows | ScopeStack/ScopeStack.c:98-126 | while no level holds a key twice, loading through the cursors reads the innermost value and leaves every level's meaning as it was |
| ScopeChains.StoreShows | ScopeStack/ScopeStack.c:128-157 | storing through the cursors fails and succeeds as on maps and leaves what the maps say |
| ScopeChains.DeclareShows | ScopeStack/ScopeStack.c:91-96 | declaring does what it means on maps unless the name is at the level without a value, and exactly then a level holds a key twice |
| ScopeChains.LeaveToShows | ScopeStack/ScopeStack.c:53-84 | leaving to a name through the cursors drops the levels that it drops on maps |
| Collector.DecRefExact | GC/GC_mem_common.c:134-166 | releasing a held reference never touches a dead object, leaves every count exact, changes nothing but counts downwards, frees what reaches zero, and spares every self-supporting set |
| Collector.SurvivesExactly | GC/GC_mem_common.c:153-163 | an object survives a release if and only if it lies in a set of objects that supports itself without the released reference |
| Collector.ReleaseKeepsReachable | GC/GC_mem_common.c:134-166 | nothing the program can still reach is freed, on any graph |
| Collector.FreesExactlyTheUnreachable | GC/GC_mem_common.c:134-166 | on an acyclic heap a release frees exactly the objects that became unreachable |
| Collector.CycleLeaks | GC/GC_mem_common.c:153 | two objects pointing at each other outlive every handle |
| Collector.IndependentReachable | GC/GC_mem_common.c:64-89 | what is reachable from the handles without the dropped field survives the drop, and on an acyclic heap nothing else does |
| Collector.AssignExact | GC/GC_mem_common.c:64-89 | assigning a field of any reachable container touches no dead object if and only if the new value is the old one, null, or held without the dropped reference; then counts stay exact and only that field changes |
| Collector.AssignVarExact | GC/GC_mem_common.c:64-89 | the same for a variable of the program |
| Collector.AllocExact | GC/GC_mem_common.c:101-126 | a new object starts with one exact reference and disturbs no other count |
| Collector.RunExact | GC/GC_mem_common.c:64-166 | any run of a program that writes fields of what it can reach, with values it reaches without the field it overwrites, and releases what it holds, never touches a freed object, keeps every count exact, and has allocated exactly the objects with a positive count |
| Collector.LiveIffReachable | GC/GC_mem_common.c:134-166 | after any such run that left no cycle, what is allocated is exactly what the program can reach |
| Collector.Memory.Allocate | GC/GC_mem_common.c:101-126 | a new object, zeroed, with count one, behind the others, as AllocExact takes it |
| Collector.Memory.Release | GC/GC_mem_common.c:134-166 | the recursive release in place is the release specified |
| Collector.Memory.ReleaseFields | GC/GC_mem_common.c:155-158 | a container's own routine releases each pointer it holds, in order |
| Collector.Memory.SetField | GC/GC_mem_common.c:64-89 | the assignment in place, in the order drop, count, write |
| Collector.Memory.Dispose | GC/GC_mem_common.c:198-218 | frees exactly when the count is zero |
| Arithmetic.NearestExists | Component.c:576 | every real has a nearest finite binary64 value |
| Arithmetic.RoundedDivision | Component.c:642-648 | truncating the rounded quotient of any 32-bit operands gives the quotient truncated toward zero |
| Arithmetic.ArithmeticIsExact | Component.c:566-649 | for all operands of every integer type, ADD, SUB, MUL and DIV through doubles yield exactly the integer result when it fits the result type, and are undefined exactly when it does not or the divisor is zero |
| Arithmetic.DivModLaw | Component.c:629-671 | DIV and MOD satisfy a = q*b + r with abs(r) < abs(b) if and only if no negative remainder is stored as unsigned |
| Decoding.CountSuffices | Component.c:1335-1383 | for any text the first pass counts at least what the second writes, from any pair of automaton states that can occur |
| Decoding.CountCanFallShort | Component.c:1344-1371 | from the one pair of states that cannot occur, it would not |
| Decoding.DecodeEncode | Component.c:1360-1380 | decoding inverts escaping |
| Decoding.EncodeDecode | Component.c:1360-1380 | escaping gives back the text decoded if and only if it has only known, closed escapes and no bare newline |
| Decoding.EscapesMean | Component.c:1367-1379 | plain characters decode to themselves, backslash n to a newline and two backslashes to one, wherever they stand |
| Decoding.UnknownEscapeTruncates | Component.c:1368-1374 | a zero byte appears in the decoded string if and only if an unknown escape occurs |
| Decoding.StringRoundTrip | Component.c:1325-1384 | an encoded string reads back as itself and the position moves just past its terminator |
| Decoding.BackwardsValue | Component.c:1413-1420 | big-endian input stored from the last byte down is the little-endian form of the same number, for every width |
| Decoding.BigBytesValue | Component.c:1413-1420 | every number below 256 to the n is the value of its n big-endian bytes |
| Decoding.Source.ReadText | Component.c:1325-1384 | the two passes over the file stay inside the buffer and leave the decoded text, terminated, with the position past the NUL |
| Decoding.Source.FirstPass | Component.c:1335-1354 | the count of the first automaton |
| Decoding.Source.SecondPass | Component.c:1360-1381 | the text of the second automaton, in a buffer with room to spare |
| Decoding.Source.ReadNBytes | Component.c:1413-1420 | the bytes reversed, with the little-endian value of the big-endian input, also past the end of the file |
| Layouts.ReadersStop | BytecodeTable.h:33-98 | for every line of the bytecode table, its operands by name and its bytes written out, the handler reads exactly the line, and the skipper does so if and only if it is neither a jump, a conditional, nor a call with arguments |
| Bytecode.SkipAgrees | Component.c:1426-1541 | the skipper passes over an instruction as its handler would if and only if it is neither a jump, a conditional, nor a call with parameters |
| Layouts.SkipperStops | Component.c:1422-1545 | over any lines of the table that it can pass the skipper stops just past the first opcode sought, whatever bytes the operands hold, and goes on after the lines if there is none |
| Bytecode.SkipExitsAtJump | Component.c:1468-1476 | at a JUMP, IF or ELSE before the opcode sought the component exits |
| Machines.HandlersRead | Component.c:464-1083 | the handlers of the instruction loop leave the position where RunOperands says: after the data, names, distance or parameters they use |
| Simulation.IfFalseLands | Component.c:825-836 | a false IF lands where its distance says if and only if that byte exists and is not ELSE |
| Simulation.IfFalseElse | Component.c:829-832 | a false IF with an ELSE lands on the first byte of the else part |
| Simulation.Runs | Component.c:119-221 | from the first byte of any laid-out program, nested to any depth and in any procedure, the machine on maps does what the program means: it gets to the meant position, stack and scopes, returns to the caller, comes to a STOP, exits, or is still going after as many turns as there was fuel |
| Simulation.LoopJump | Component.c:781-801 | the JUMP that ends a loop's body goes to the first byte of its condition |
| Simulation.BoundFrame | Component.c:1072-1079 | names and arguments are both taken last first, so the frame binds each parameter to its own argument, or to null where the stack is too short; a parameter named again after it got null is the one clash |
| Simulation.CallStep | Component.c:1045-1083 | a call enters the body with the frame, the return address and the caller's scopes below |
| Simulation.ReturnStep | Component.c:1146-1172 | a RETURN or block end at its own level goes to the recorded byte with the caller's scopes |
| Simulation.BodyRuns | Component.c:1254-1258 | a body that returns and one that ends at BLOCKEND both come back to the caller |
| Machines.LiteralInverts | Component.c:1386-1420 | every value reads back from its PUSH operand as itself: numbers of every integer type, truth values, texts and the bytes of reals; any boolean byte but 0 is true |
| Machines.KeyIs | Component.c:1325-1384 | the name that a text denotes has exactly its characters up to the first NUL |
| Machines.KeyTellsApart | Collections/ListMap.c:55-57 | two texts denote the same name if and only if they are the same |
| Instructions.ArithmeticLeaves | Component.c:538-649 | from the bytes of two PUSHes and ADD, SUB, MUL or DIV, the loop leaves r exactly when the operation through doubles may yield r, that is exactly when r is the sum, difference, product or truncated quotient, first operand on the left, and the joined type has it; else it is beyond the model |
| Instructions.ModLeaves | Component.c:650-671 | MOD leaves the remainder, of the sign of the first operand, wrapped if negative and unsigned, whenever both operands fit an int and it is defined there |
| Instructions.ComparisonLeaves | Component.c:694-718 | the six comparisons of two numbers of any integer types leave the truth of their relation |
| Instructions.ConnectiveLeaves | Component.c:672-693 | AND and OR leave their truth tables |
| Instructions.MismatchExits | Component.c:566-702 | an operand that is no number, or for AND and OR no truth value, makes the component exit |
| Instructions.StoreApart | Component.c:479-526 | STORE to one name leaves what LOAD of another pushes, and LOAD of the same name pushes what was stored |
| Instructions.TwoVariables | Component.c:464-526 | DECLARE, PUSH, STORE of one name and then of another, and LOAD of the first pushes the first value and leaves nothing else |
| Instructions.JumpGoes | Component.c:769-860 | JUMP and BEHAVIOUR_JUMP count back from one past their operand and ELSE forward from it, for every distance |
| Instructions.StopEnds | Component.c:750-767 | STOP without a name or with the component's own ends the loop at once, everything else as it is |
| Structured.ParameterIsArgument | Component.c:1073-1079 | with distinct names, parameter j of the frame has argument j |
| Structured.PrimEmbeds | Component.c:464-526 | stack instructions do the same whether or not return addresses lie among the scopes |
| Declarations.CodeIsListing | BytecodeTable.h:51-92 | the layout of a structured program is a list of well-formed instructions |
| Declarations.InstrsTypical | Component.c:1468-1476 | the code of a program without behaviours can be skipped throughout if and only if it has no conditional and no loop |
| Declarations.BodySkips | Component.c:1041 | declaring a procedure skips exactly its body and BLOCKEND if the body is straight, and otherwise the component exits |
| Declarations.HeadAt | Component.c:1017-1036 | the position recorded for a procedure is that of its body's first byte |
| Declarations.DeclareStep | Component.c:1009-1043 | one PROC instruction, both outcomes decided by the body |
| Interpreter.ActFollows | Component.c:119-221 | every instruction does to entries and cursors what it means on maps, with the same outcome; where the maps give up, a level comes to hold a key twice |
| Interpreter.UnambiguousExactly | Collections/ListMap.c:41 | in no state of the first n turns does a level hold a key twice if and only if no turn declares a name that is at its level without a value |
| Programs.DeclareAll | Component.c:1009-1043 | after any list of declarations every procedure is where its record says |
| Programs.ExecKeeps | Component.c:1060-1172 | no program declares a name below its own level or changes one it does not store to |
| Execution.StructureIsPreserved | Component.c:781-860 | the interpreter, cursors included, started on a structured program from any state it can show, ends on the byte after it with the stack and scopes it means, stops with those of the STOP it means, exits, gets beyond the model or goes on, as the program means; where it means a clash a level comes to hold a key twice |
| Execution.ProgramRuns | Component.c:115-221 | the same for a file of declarations and a main part, calls included |
| Execution.EndsExactly | Component.c:115-227 | for a file whose main part is its end and never clashes: the loop ends if and only if the main part is done or halts with some fuel, exits if and only if it is wrong, and runs for ever if and only if no fuel finishes it |
| Execution.BehaviourRuns | Component.c:769-801 | a file that is a behaviour whose body always gets through runs for ever, and one whose behaviour comes to a STOP ends there, with the stack of that moment |
| Execution.CallRestoresCaller | Component.c:1060-1172 | a call that is done, of any nesting, returns to the byte after PROCCALL with the caller's levels, names and return address, and every value no procedure stores to |
| Execution.ReturnRestoresExactly | Component.c:1146-1172 | RETURN restores the caller's scopes if and only if the frame is the top level; from deeper the frame stays |
| Redeclaration.RedeclarationExits | Component.c:464-526 | at a level that does not hold the name, with no value for it further out, DECLARE, DECLARE, PUSH, STORE, LOAD of it exits after five turns |
| Redeclaration.OnceNeverClashes | Component.c:464-477 | a program that declares each name at most once at its level, not directly in a loop, and whose procedures do so with distinct parameters, never enters a name twice, with any fuel, nesting and recursion |
| Redeclaration.StaysUnambiguous | Collections/ListMap.c:40-53 | along the whole run of a file of such programs no level ever holds a key twice |
| Redeclaration.FileEndsExactly | Component.c:115-227 | started with nothing, such a file ends, exits or runs for ever exactly as its main part means |
| Recursion.RecursionNeverReturns | Component.c:1009-1083 | a straight procedure that calls itself, directly or through others, never comes back, whatever its arguments and fuel |
| Recursion.RecursiveFileNeverDone | Component.c:1009-1083 | the main part of a file that can be loaded is never done once its way leads to such a procedure |
| Components.Component.ReadName | Component.c:1325-1384 | fails exactly when the specified read does, otherwise gives its text and position |
| Components.Component.ReadValue | Component.c:1386-1411 | the typed operand and the position after it |
| Components.Component.Compute | Component.c:538-727 | the operand checks, result type and result of every binary operation, in the source's order, agree with the interpreter's; real arithmetic and what C leaves undefined are reported as beyond |
| Components.Component.IfClause | Component.c:803-845 | pops the condition and moves the file as the conditional specifies |
| Components.Component.Proc | Component.c:1009-1043 | records the procedure with its names reversed and skips its body |
| Components.Component.ReadParamNames | Component.c:1020-1032 | names inserted one by one at the head, last parameter first |
| Components.Component.BindParams | Component.c:1073-1079 | declares and stores each name from the popped stack in the scope stack on the heap |
| Components.Component.ProcReturn | Component.c:1146-1172 | seeks to the return address and leaves the frame |
| Components.Component.SkipToNext | Component.c:1422-1545 | the loop finds what the skipper specifies, or stops at the end of the file |
| Components.Component.SkipOver | Component.c:1426-1541 | the operand switch of the skipper |
| Components.Component.Execute | Component.c:121-220 | each case of the instruction switch does one turn of the interpreter on the object's file, stack, procedures and heap scope stack |
| Components.Component.Run | Component.c:115-227 | the loop in place reaches exactly the states of the interpreter |
| FileRuns.RunFile | Component.c:82-227 | a component made for a file and run: once given enough turns it is done, and whenever it is done its stack, procedures and the scope stack on the heap are what the main part means, at its end or at its STOP; when the main part is wrong it exits; it is not done before the main part is |

## Left out

- LinkingResults.NetReceivesAreSends: the other half is one of the other direction; that the two are linked when
  they match is stated for a fixed graph (`ReceivesAreSends`).
- LinkingRendezvous.LostExactly: runs in which a token is stolen, or posted while it is held, or in which a bind inserts
  into the list of a half in the middle of an operation, are not tidy; what a scan misses of a list that changes under
  it is not decided.
- Linking: the process dies where the null partner is fetched; a receiver of the source first locks its own mutex.
  A dead process takes no steps.
- Rendezvous and Linking: condition waits wake only on a signal; Channels/my_semaphore.c:21 and :37 do not test again
  after waking. Each half belongs to one thread.
- Rendezvous: `nd_received`, `channel_select`, exception handlers and payload aliasing; a payload is a value.
- Binding: connection lists are values with a cursor here; their heap form is `IteratedList.dfy`. With no
  operation in progress a semaphore wait never sleeps, so `WaitToken` requires the token.
- RecursiveMutex: the unlocked reads are single atomic reads; a thread nests fewer than 2^32 times and unlocks
  only what it has locked.
- IteratedLists: `insertElementAtTail`, `removeAllElements`, rewinding and the `last` pointer.
- ListMaps: the comparator's C strings are sequences of characters.
- Collector: one thread at a time, since the zero test at GC/GC_mem_common.c:153 is outside the lock; counts do
  not wrap; memory is not reused; allocation always succeeds.
- Arithmetic.ArithmeticIsExact: operands of type real are not decided here; a byte is a signed char.
- Machines: REAL arithmetic, NOT (it negates the variable's own object), structs, ANY and project blocks,
  components, channels and constructors are instructions the model does not follow, as are results C leaves
  undefined; a procedure found only in the main component or among the standard functions is likewise beyond it.
- Machines: a scope stack that was never entered, a null pointer in the source, is an empty one; the table of
  procedures is a map.
- Machines: BEHAVIOUR_JUMP jumps; its other branch needs the stop flag to be raised by another thread.
- Declarations.InstrsTypical: a behaviour is not decided; the skipper would read into its distance, but only components
  have behaviours and only procedures are skipped.
- Bytecode.SkipAgrees: struct constructors are not decided, as their two layouts can coincide by accident;
  skipping to PROJECT_EXIT inside a project block is not modelled.
- Components.Component.Run: bounded by a number of instructions, as the loop need not end.
- Components.Component.Compute: works on integers; `ArithmeticIsExact` is about the doubles of the source.
- Redeclaration.OnceNeverClashes: declaring a name again once it has a value is allowed by the source and does not
  clash; this condition on the program excludes it, while the exact one is on its runs (`UnambiguousExactly`).
- Components.Component.ReadName: a string that never ends, which the source reads for ever, is a failed read.
- Decoding: lengths and file positions are unbounded integers.
- Layouts.ReadersStop: for struct constructors only the handler is decided.
- Execution.StructureIsPreserved: after a STOP inside procedures the scopes still hold their return addresses, whose
  values it does not name.
- Structured.Exec: fuel bounds turns of loops and behaviours, and calls; `EndsExactly` says what every fuel, and none,
  amounts to.
- Simulation.Runs: code is shorter than 2^31 - 256 bytes, so that distances fit their operand.
- Logging, files, threads, standard functions and `main` are not part of this model.
