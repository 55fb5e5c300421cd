# A model of libpcap's filter compiler

libpcap 1.1.1 turns a filter expression into a program for the BPF machine in three stages. The code
generator (`gencode.c`) builds a graph of basic blocks, in which a boolean expression becomes two lists
of open branches. The optimizer (`optimize.c`) rewrites this graph: it finds levels, dominators, edge
dominators, predecessors and live registers, numbers values, folds and deletes statements, threads
jumps, pulls tests to the front of a chain, and shares equal blocks. The assembler (also `optimize.c`)
lays the graph out as an array of instructions whose conditional branches have only eight bits. This
project models all of these on the heap objects of the source and proves what each keeps of the
meaning of a filter, on every packet. It also models two smaller algorithms of the library: the
handshake of the zero-copy reader and the sorting of an interface list.

The machine is in `Bpf` (words are integers below 2^32, with wrap-around, division by zero and loads
beyond the captured bytes written out) and the block graph in `Cfg`: a block is an object whose fields
the passes update, and `GraphOf(S)` is the value the blocks of `S` stand for. `Run` gives what a graph
answers on a packet: a returned number, a fault, or `Unfinished` when the block budget is too small. A
fault rejects the packet.

| modules | part of the source |
|---|---|
| `BoolExpr`, `BoolGen`, `FilterGen` | backpatch lists, `gen_and`, `gen_or`, `gen_not`, `finish_parse` |
| `ByteMatch`, `ArithGen` | field and byte-string tests; arithmetic, registers, relations |
| `OptInit`, `Levels`, `Dominators`, `EdgeDoms`, `InEdges`, `DepthFirst`, `Paths` | the analyses over the graph |
| `Atoms`, `AtomsExact`, `Liveness`, `LastDefs`, `DeadStores`, `LiveExact` | what statements read and write, liveness, what is given up when statements are deleted, and the removal of dead stores |
| `ValueTable`, `Symbolic`, `StepForms`, `BlockValues`, `ValueFlow`, `ValuePass` | value numbers: the table, one statement, one block, the graph, the pass |
| `PeepStmts`, `PeepRules`, `Peephole`, `PeepBlock`, `PeepFlow`, `LateX` | peephole rules |
| `OptBlk`, `BlkFlow`, `BlkPass`, `RepeatLoad`, `StaleTable` | `opt_blk` put together, and the first loop of `opt_blks` |
| `Runs`, `JumpThread`, `Redirect`, `LostStore` | runs block by block; `fold_edge` and `opt_j` |
| `PullSpec`, `PullFaults`, `PullUp`, `PullCurrent`, `StaleDoms` | `or_pullup` and `and_pullup` |
| `PassChain` | any sequence of the passes, and `maxval` |
| `InternSpec`, `Intern` | sharing of equal blocks |
| `AsmSpec`, `AsmLayout`, `AsmWalk`, `Assemble`, `LiveStmts`, `BlockSums` | the assembler |
| `ZeroCopy` | the zero-copy buffers of `pcap-bpf.c` |
| `IfSort` | `sort_if_table` of `pcap-sita.c` |

## Model

| member | source | states |
|---|---|---|
| BoolGen.Backpatch | libpcap-1.1.1/gencode.c:514-529 | for a list of open branches threaded through jt or jf as `sense` says, exactly the blocks on the list get the target, each in the field its own sense leaves open, and nothing else changes |
| BoolGen.GenAnd | libpcap-1.1.1/gencode.c:591-600 | the heap afterwards is the fragment in which the true exits of the first operand lead into the second one; both exit lists, read from the heap, are again complete and correctly threaded |
| BoolGen.GenOr | libpcap-1.1.1/gencode.c:603-611 | the same for the false exits of the first operand |
| BoolGen.GenNot | libpcap-1.1.1/gencode.c:614-618 | flipping `sense` exchanges the two exit lists of a fragment |
| BoolExpr.JoinedComputes | libpcap-1.1.1/gencode.c:591-611 | a joined fragment computes the left-to-right short-circuit conjunction or disjunction of what its parts compute, faults included, for every state, packet and large enough budget |
| FilterGen.FinishParse | libpcap-1.1.1/gencode.c:550-588 | the remaining exits become `ret #snaplen` and `ret #0`, and nothing else of the graph changes |
| FilterGen.GenTest | libpcap-1.1.1/gencode.c:721-744 | one block, negated or not, is a fragment that represents its test, with correctly threaded lists |
| FilterGen.FilterCorrect | libpcap-1.1.1/gencode.c:550-588 | closing a fragment that computes an expression gives an acyclic graph that returns snaplen, returns 0 or faults exactly as the expression evaluates |
| FilterGen.CompileFilter | libpcap-1.1.1/gencode.c:514-618 | compiling any boolean expression over primitive tests gives a closed acyclic graph, no deeper than the number of tests, whose answer on every packet and from every state is the expression's value |
| ByteMatch.GenNcmp | libpcap-1.1.1/gencode.c:721-744 | the block generated for a masked comparison of a field represents that comparison |
| ByteMatch.FieldMeaning | libpcap-1.1.1/gencode.c:721-744 | that comparison compares the masked field of the packet, reversed only for jgt and jge, and faults exactly when the field is not captured |
| ByteMatch.GenBcmp | libpcap-1.1.1/gencode.c:676-712 | the chain of tests, built from the end of the string, holds on a packet exactly when the packet carries the string at the offset; it has one test for every four bytes, and then one for two and one for the last |
| ByteMatch.ByteStringFilter | libpcap-1.1.1/gencode.c:676-712 | the whole filter returns snaplen for exactly the packets that carry the byte string, 0 when the bytes differ, and faults exactly when the packet ends before the string does, and passes no more blocks than those tests and a return |
| ArithGen.Registers.AllocReg | libpcap-1.1.1/gencode.c:6990-7005 | the search that goes round from the last register finds a free register whenever there is one, and marks only that one |
| ArithGen.GenArth | libpcap-1.1.1/gencode.c:6944-6967 | the code of a binary operation leaves its value in the result register, keeps every other register in use, faults exactly when the operation has no value (a division by zero, or a shift by 32 or more, which C leaves undefined), and never lacks a register |
| ArithGen.Compile | libpcap-1.1.1/gencode.c:6888-6967 | compiling a whole tree succeeds exactly when its register need fits in what is left of the sixteen; the code then computes the tree, in which a shift by 32 or more has no value, and keeps every register in use |
| ArithGen.GenRelation | libpcap-1.1.1/gencode.c:6842-6885 | the block compares the two values (by subtraction for jeq, and with A and X as they come for jgt and jge), is reversed as asked, and gives both registers back |
| ArithGen.RelationFilter | libpcap-1.1.1/gencode.c:6842-6967 | a whole relational filter compiles exactly when the registers suffice, and then returns snaplen for exactly the packets whose values compare, and faults where a side has no value (a load beyond the packet, a division by zero, or a shift by 32 or more, which C leaves undefined) |
| OptInit.Tables.CountBlocks | libpcap-1.1.1/optimize.c:1924-1931 | counts the reachable blocks that were not marked, each once |
| OptInit.Tables.NumberBlksR | libpcap-1.1.1/optimize.c:1938-1953 | every reachable block gets a number of its own and stands at that place of the blocks array |
| OptInit.Tables.OptInit | libpcap-1.1.1/optimize.c:1992-2070 | the numbering covers exactly the reachable blocks, and maxval is three for every live statement and every block |
| OptInit.LeveledReady | libpcap-1.1.1/optimize.c:1992-2070 | the numbering and the level lists meet what every later pass starts from |
| Levels.Flow.FindLevels | libpcap-1.1.1/optimize.c:264-270 | the level lists hold exactly the reachable blocks, each once, at the length of the longest path to a leaf |
| Dominators.FindDom | libpcap-1.1.1/optimize.c:277-305 | a is in the dominator set of b if and only if every path from the root to b goes through a |
| EdgeDoms.FindEdom | libpcap-1.1.1/optimize.c:323-343 | edge k is in the set of edge e if and only if every path from the root through e takes k; and the sets hold numbers of reachable edges only |
| InEdges.FindInedges | libpcap-1.1.1/optimize.c:1682-1701 | the in_edges lists hold exactly the edges from listed blocks, each once, also when edges have been moved since the level lists were made |
| Atoms.UseDefExact | libpcap-1.1.1/optimize.c:384-453 | what a statement does depends on its atomuse atoms only, and it changes nothing but its atomdef atom |
| AtomsExact.UseIsRead | libpcap-1.1.1/optimize.c:383-420 | an atom is in atomuse if and only if two states that differ in it alone make the statement compute different words, or the branch go different ways (arithmetic and comparisons with some constant; the unconditional jump apart) |
| AtomsExact.DefIsWritten | libpcap-1.1.1/optimize.c:430-453 | an atom is atomdef if and only if some run of the statement changes it |
| Liveness.FindUd | libpcap-1.1.1/optimize.c:529-552 | the pass over the levels leaves, for every reachable block, the solution of the liveness equations |
| LiveExact.LiveExact | libpcap-1.1.1/optimize.c:467-552 | that solution: an atom is in in_use(b) if and only if some path from b reads it before it defines it |
| Liveness.RunAgree | libpcap-1.1.1/optimize.c:467-552 | two states that agree on in_use(b) have the same run from b, faults included |
| DeadStores.OptDeadstores | libpcap-1.1.1/optimize.c:1195-1213 | deletes exactly the dead stores; on every run that does not fault the block keeps its branch decision and every atom but those whose last definition is deleted, none of which is live |
| LiveExact.DeadStoreExact | libpcap-1.1.1/optimize.c:1169-1213 | those are the statements whose value the next statement that touches the atom sets without reading it, or that no later statement and no test touches and that is not live at the exit |
| DeadStores.DeadStoresKeepRun | libpcap-1.1.1/optimize.c:1169-1213 | the pass over all blocks keeps the answer of every run that does not fault |
| ValueTable.Table.F | libpcap-1.1.1/optimize.c:595-625 | the hash chains refine a list of distinct triples: a known triple gets the number it has, a new one the next number, and only constants are entered in vmap |
| ValueTable.NumbersApart | libpcap-1.1.1/optimize.c:595-625 | two triples have the same number if and only if they are equal |
| ValueTable.NumberStable | libpcap-1.1.1/optimize.c:595-625 | a number keeps its triple as the table grows |
| Symbolic.FoldOpExact | libpcap-1.1.1/optimize.c:641-695 | constant folding computes what the machine computes, and its error exit is taken exactly for a division by zero |
| Symbolic.OptStmt | libpcap-1.1.1/optimize.c:981-1166 | the method on the shared table does what the function Step says, which the lemmas below are about |
| StepForms.AluFolds | libpcap-1.1.1/optimize.c:1069-1091 | with alter on, arithmetic on two constants leaves a load of the result, or nothing where A holds it already, and takes the error exit for a zero divisor |
| StepForms.AluTakesConst | libpcap-1.1.1/optimize.c:1087-1099 | with a constant in X only, `op x` becomes `op #k` and is numbered as that |
| StepForms.AluOfZero | libpcap-1.1.1/optimize.c:1101-1121 | with a zero in A only, all but a subtraction of X becomes `txa` or `ld #0`, or is deleted |
| StepForms.AluWithZero | libpcap-1.1.1/optimize.c:1051-1068 | with the constant 0, `add`, `or` and the shifts are deleted, `mul` and `and` become `ld #0` |
| StepForms.LoadsFold | libpcap-1.1.1/optimize.c:994-1163 | a negated constant becomes a load of it, an indexed load with a constant index an absolute one, a load of a scratch word that holds a constant a load of that |
| StepForms.RepeatedDeleted | libpcap-1.1.1/optimize.c:628-638 | with alter on, a load, move or store is deleted if and only if the atom it sets has the number already |
| StepForms.StepNumbered | libpcap-1.1.1/optimize.c:981-1166 | no other atom gets a new number; the number is known if all that is read is, and a constant that is loaded is known as one |
| StepForms.SameAgain | libpcap-1.1.1/optimize.c:595-625 | the same statement gets the same number wherever, later in the pass, the atoms it reads have the same numbers |
| StepForms.ConstsShare | libpcap-1.1.1/optimize.c:595-625 | equal constants get equal numbers, whatever makes them |
| StepForms.MovesCopy | libpcap-1.1.1/optimize.c:1130-1163 | a move, a store and a load of a scratch word copy the number |
| Symbolic.StepSound | libpcap-1.1.1/optimize.c:981-1166 | from every state that agrees with the value numbers, the rewritten statement has the next state of the original, and the new numbers agree with it, unless vstore deletes on account of an unknown number; with alter off nothing is rewritten |
| Symbolic.RewriteExact | libpcap-1.1.1/optimize.c:628-638 | the rewriting is right if and only if vstore does not take its deleting branch on two equal numbers that are not known |
| Symbolic.DeletedDiffers | libpcap-1.1.1/optimize.c:628-638 | whenever it does, some agreeing state shows the difference |
| Symbolic.UnknownComparesEqual | libpcap-1.1.1/optimize.c:1130-1132 | the input: `txa` when A and X are both numbered 0 |
| Symbolic.KnownReadsSuffice | libpcap-1.1.1/optimize.c:628-638 | the condition holds for every statement that reads only known atoms |
| Symbolic.DivisionByZeroFaults | libpcap-1.1.1/optimize.c:661-665 | the compiler's error exit is only taken for a statement that faults from every agreeing state |
| BlockValues.NumberStmts | libpcap-1.1.1/optimize.c:1267-1268 | the loop over the statements, on the shared table, is the function Steps |
| BlockValues.StepsSound | libpcap-1.1.1/optimize.c:1267-1268 | what the loop leaves runs as the block did on every run that does not fault, and the exit table agrees with the state at the end, for alter on and off |
| BlockValues.StepsKeys | libpcap-1.1.1/optimize.c:2057-2067 | at most two numbers are taken for each live statement, and no statement comes back to life |
| BlockValues.StepsKnown | libpcap-1.1.1/optimize.c:1267-1268 | if no statement reads an atom numbered 0, no triple has an unknown operand and nothing is deleted wrongly |
| BlockValues.EndsOpen | libpcap-1.1.1/optimize.c:937-971 | when the loop leaves arithmetic at the end of a block, A is not numbered as a constant, which the rule that decides on a known A relies on |
| ValueFlow.FlowStep | libpcap-1.1.1/optimize.c:1216-1314 | the invariant of the pass (entry tables merged from handled predecessors, exit tables, operand numbers, statements, and how many numbers are taken) survives each block, for alter on and off |
| ValueFlow.TablesHold | libpcap-1.1.1/optimize.c:1228-1260 | the exit table of every reachable block agrees with the state every run leaves it with |
| ValueFlow.PassKeepsRun | libpcap-1.1.1/optimize.c:1267-1268 | the graph with its statements rewritten gives the answer of the original wherever a run that does not fault stands |
| ValueFlow.KnownIsSteady | libpcap-1.1.1/optimize.c:1238-1260 | if no statement read an atom numbered 0, the known numbers are exactly the nonzero ones and nothing was deleted wrongly |
| ValueFlow.DividedFaults | libpcap-1.1.1/optimize.c:661-665 | the error exit of a pass is only taken at a block in which every run faults |
| ValueFlow.PassShrinks | libpcap-1.1.1/optimize.c:2057-2067 | a pass adds neither blocks nor live statements |
| ValuePass.NumberBlocks | libpcap-1.1.1/optimize.c:1228-1268 | the numbering alone, over the level lists, with alter on or off, ends with a table for every reachable block and fewer than maxval numbers, or at a block where fold_op gives up |
| ValuePass.PassSound | libpcap-1.1.1/optimize.c:1228-1268 | after the numbering every exit table is right and the graph on the heap answers as before on every run that does not fault, if vstore deleted nothing on account of an unknown number |
| ValuePass.PassOffSound | libpcap-1.1.1/optimize.c:1228-1268 | with alter off the tables are right without that condition, and no statement changes |
| ValueFlow.EqualNumbersEqualWords | libpcap-1.1.1/optimize.c:1339-1390 | equal known numbers in right tables are equal words, wherever in the graph the two states are left |
| ValuePass.StuckFaults | libpcap-1.1.1/optimize.c:661-665 | the block at which the pass gives up faults on every run that comes to it |
| PassChain.RoomForAll | libpcap-1.1.1/optimize.c:2057-2067 | after any sequence of rounds of opt_blk, moved edges and pull-ups, what can be reached was numbered by opt_init, no block has more live statements than then, and the maxval opt_init allotted is enough for the next pass |
| PassChain.BlksMakes | libpcap-1.1.1/optimize.c:1634-1652 | the first loop of opt_blks is such a round |
| PassChain.MoveMakes | libpcap-1.1.1/optimize.c:1393-1445 | where opt_j leaves an edge is such a move |
| PassChain.PullMakes | libpcap-1.1.1/optimize.c:1449-1631 | the surgery of or_pullup and and_pullup on the chain they find is such a pull-up |
| PassChain.InsBranch | libpcap-1.1.1/optimize.c:1682-1701 | for in_edges that find_inedges has left, also when edges have been moved since |
| Peephole.PeepOne | libpcap-1.1.1/optimize.c:727-846 | one turn of the statement loop, on any block, applies each of the three rules that is for the statement; if the block leaves no use of X behind an indexed load that is folded, it keeps every atom but those it gives up, which are not live at the exit |
| Peephole.LateRead | libpcap-1.1.1/optimize.c:770-776 | the input where one is left: `ld #2; add x; tax; ldb [x + 0]; txa; jeq #2`, with X not live at the exit |
| LateX.LateCopy | libpcap-1.1.1/optimize.c:770-776 | when the first later statement that touches X copies it (`txa`, `stx`), the copy is what it was if and only if the constant folded away is 0, and nothing else but X differs |
| PeepBlock.OptPeep | libpcap-1.1.1/optimize.c:717-972 | on any block, every match of the three statement rules has been rewritten, arithmetic that ends the statements has been merged into a comparison with a constant wherever the source does it, a test of no bits or of all bits has one successor, no branch is left that known values of A and X decide, and it leads nowhere it did not lead; if no use of X is left behind, the block keeps its branch decision and every atom but those whose last definition is deleted, none of which is live, on every run that does not fault (where the all-ones rule applies, on those with a nonzero A) |
| PeepBlock.AllOnesRule | libpcap-1.1.1/optimize.c:918-924 | branching always on `jset #0xffffffff` is right if and only if A is not 0 or both branches agree |
| PeepBlock.AllOnesFails | libpcap-1.1.1/optimize.c:918-924 | the input: `ld [0]; and #0xffffffff; jeq #0` on a packet of four zero bytes |
| PeepFlow.PeepKeepsRun | libpcap-1.1.1/optimize.c:717-972 | under right exit tables, opt_peep on all blocks keeps the answer of every run that does not fault and has a nonzero A where the all-ones rule applies |
| OptBlk.OptBlk | libpcap-1.1.1/optimize.c:1216-1314 | for do_stmts on and off: after the numbering, all statements are dropped exactly where the rule says so, else opt_peep and opt_deadstores leave what they promise; together they keep the branch decision and all atoms of the block but those it gives up, which are named and of which none is live, within its share of maxval |
| BlkPass.OptBlks | libpcap-1.1.1/optimize.c:1634-1652 | the first loop of opt_blks, for do_stmts on and off: opt_blk on every block of the level lists, each entered with what its predecessors have left, ends with every block rewritten as OptBlk says and fewer than maxval numbers, or at a block where fold_op gives up |
| BlkPass.StandingReady | libpcap-1.1.1/optimize.c:1634-1652 | find_levels, find_inedges and find_ud leave what this loop starts from |
| BlkFlow.BlksKeepRun | libpcap-1.1.1/optimize.c:1216-1314 | with do_stmts on, the graph the loop leaves answers as before wherever a run that does not fault stands, if every block keeps what is live at its exit in the graph that is left |
| BlkFlow.NoneMissedKept | libpcap-1.1.1/optimize.c:1216-1314 | that is so if no atom a block gives up is live at its exit in the graph that is left |
| BlkFlow.NoNewUseSuffices | libpcap-1.1.1/optimize.c:1216-1314 | and so in particular where the rewriting makes nothing live at the entry of a block that find_ud found dead there |
| BlkPass.BlksSound | libpcap-1.1.1/optimize.c:1634-1652 | so on the heap: the graph stays acyclic and has no more blocks and statements; and it keeps the verdicts if no atom a block gives up is live at its exit in the graph that is left |
| BlkPass.BlksOffSound | libpcap-1.1.1/optimize.c:1634-1652 | with do_stmts off the verdicts are kept without it |
| RepeatLoad.RepeatLoad | libpcap-1.1.1/optimize.c:1301-1304 | an input on which the condition holds though the rewriting makes A live between two blocks: both compare `ldh [12]`, and the second load is deleted |
| StaleTable.StaleTable | libpcap-1.1.1/optimize.c:1301-1304 | an input on which it fails: in two blocks, dead-store removal in one and value numbering in the next, each right, together lose `ldx 4*([14]&0xf)`, and a packet that was accepted is rejected |
| BlkFlow.LeftShrinks | libpcap-1.1.1/optimize.c:1216-1314 | the loop leaves an acyclic graph and adds neither blocks nor live statements |
| JumpThread.FoldDecides | libpcap-1.1.1/optimize.c:1339-1390 | fold_edge decides exactly when the comparisons are of one kind, A has one number, and the operands do or the edge is the true one of a `jeq #k`; and the child's test then goes that way in every pair of states that agree with the tables and are joined by the edge |
| JumpThread.JeqDecided | libpcap-1.1.1/optimize.c:1364-1388 | for two `jeq #k` of the same A it decides if and only if the way taken fixes the answer of the child |
| JumpThread.FoldSound | libpcap-1.1.1/optimize.c:1339-1390 | on every run that leaves by the edge and later comes to the child, the child is left on the side fold_edge gives |
| JumpThread.TablesKnown | libpcap-1.1.1/optimize.c:1634-1670 | the pass with alter off leaves tables fold_edge may trust, if nothing read an atom numbered 0 |
| Redirect.UseConflict | libpcap-1.1.1/optimize.c:1322-1336 | there is a conflict exactly when some atom live at the exit of the target has another number |
| Redirect.EdomReady | libpcap-1.1.1/optimize.c:323-343 | what find_edom leaves is what opt_j reads: numbers of reachable edges that dominate |
| Redirect.TablesReady | libpcap-1.1.1/optimize.c:1634-1670 | what the numbering pass leaves is what opt_j reads |
| Redirect.OptJ | libpcap-1.1.1/optimize.c:1393-1445 | the edge is moved down a path that every run which leaves by it takes, through blocks without a conflict; past the first one if both its sides are the same, and then on until a return, or until for every edge dominator the test differs in kind, A has another number, the operand has another number and the edge is not the true one of a `jeq #k`, or the way leads to a conflict; nothing else changes |
| Redirect.OptJSound | libpcap-1.1.1/optimize.c:1393-1445 | the graph stays acyclic and every run that does not fault keeps its answer, if the last block itself reads nothing the blocks passed define, its out_use is right, and the compared numbers are known |
| Redirect.OptJUnmixed | libpcap-1.1.1/optimize.c:1393-1445 | the same under a condition on the graph before the call: no reachable block defines what a reachable block reads from outside |
| LostStore.StoreLost | libpcap-1.1.1/optimize.c:1414-1431 | the input on which it does not: the edge is moved past a store that the target loads back |
| Redirect.MovedShrinks | libpcap-1.1.1/optimize.c:1393-1445 | moving an edge adds neither blocks nor statements |
| PullUp.PullUp | libpcap-1.1.1/optimize.c:1449-1631 | whatever the dominator sets and the in_edges say: either the predecessors disagree or no chain of listed tests is to be turned, and nothing changes; or the pointer surgery is done on the chain up to the first test of the known number |
| PullCurrent.PullNow | libpcap-1.1.1/optimize.c:1449-1631 | when the lists are right, the surgery has pulled that test in front of the tests before it in the graph of the reachable blocks, or has not touched it if b is not reachable |
| PullCurrent.PullRuns | libpcap-1.1.1/optimize.c:1449-1631 | so the verdict is that of the graph with the test pulled up, or that from before |
| PullCurrent.PullReady | libpcap-1.1.1/optimize.c:1655-1669 | find_levels, find_dom and find_inedges leave lists that are right as long as no edge has been moved |
| PullCurrent.InsReady | libpcap-1.1.1/optimize.c:1655-1669 | after opt_j has moved edges, the second find_inedges on the old level lists still gives right in_edges |
| StaleDoms.StaleDoms | libpcap-1.1.1/optimize.c:1655-1669 | the input on which the dominator sets are not right any more: opt_j moves an edge, or_pullup then pulls a test up on a chain that is entered in the middle, and a packet that was accepted is rejected |
| PullSpec.PulledSound | libpcap-1.1.1/optimize.c:1518-1538 | for independent tests: the graph stays acyclic, and a run that does not fault keeps its answer if and only if the pulled test does not fault where the run comes to the chain; else it faults now |
| PullFaults.RepeatedLoad | libpcap-1.1.1/optimize.c:1461-1468 | the condition holds when the pulled test is of one loaded field and its A has the number every predecessor was left with |
| PullFaults.PulledFaults | libpcap-1.1.1/optimize.c:1518-1538 | the input on which it does not: a pulled test that also loads a byte the packet does not have |
| InternSpec.SharedRun | libpcap-1.1.1/optimize.c:1850-1891 | leading edges to an equal block keeps every run exactly, faults and budget included |
| Intern.EqSlist | libpcap-1.1.1/optimize.c:1818-1835 | the walk that skips deleted statements on both sides compares the live statements |
| Intern.Interner.InternBlocks | libpcap-1.1.1/optimize.c:1850-1891 | the repeated rounds end; the graph answers as before on every run and stays acyclic; any two reachable blocks differ in the branch, in a successor, or in their live statements |
| AsmWalk.CountStmts | libpcap-1.1.1/optimize.c:1974-1984 | counts the instructions of the blocks not yet marked: live statements, the branch, and the long jumps given so far |
| Assemble.EmitBranch | libpcap-1.1.1/optimize.c:2203-2240 | the conditional and its long jumps are written where the offsets lead, over zeroed room, and nothing else is |
| Assemble.Assembler.ConvertCodeR | libpcap-1.1.1/optimize.c:2091-2242 | lays out what is reachable, last block first; it fails exactly when a branch needs a long jump it does not have, and then that branch gets one |
| AsmLayout.PlaceOrderReach | libpcap-1.1.1/optimize.c:2101-2108 | the recursion places exactly the reachable unmarked blocks, each once |
| AsmLayout.LongStaysNeeded | libpcap-1.1.1/optimize.c:2205-2240 | more long jumps never make one unnecessary, so what a failed attempt decided stays right |
| AsmSpec.CodeSimulatesGraph | libpcap-1.1.1/optimize.c:2091-2242 | running the array from the offset of a block is running the graph from that block |
| Assemble.Assembler.IcodeToFcode | libpcap-1.1.1/optimize.c:2264-2293 | the retries end, at most two per reachable block; the array has exactly the counted length and answers as the graph does on every packet; every offset fits in eight bits, and exactly the branches that skip 256 instructions or more have a long jump |
| ZeroCopy.SafeFromStart | libpcap-1.1.1/pcap-bpf.c:269-297 | on every interleaving of kernel and reader steps: buffers are taken in the order they were handed over, none twice and none lost, and the kernel never fills the buffer the reader holds |
| ZeroCopy.GenerationsTell | libpcap-1.1.1/pcap-bpf.c:273-295 | comparing two 32-bit counters for inequality tells, wrap-around included, whether a hand-off waits on that side |
| ZeroCopy.Capture.KernelRotates | libpcap-1.1.1/pcap-bpf.c:260-297 | the kernel's part as the reader relies on it: the method does the filling step of the protocol on the same two headers |
| ZeroCopy.Capture.NextZbufShm | libpcap-1.1.1/pcap-bpf.c:269-297 | the method does the load steps of the protocol |
| ZeroCopy.Capture.AckZbuf | libpcap-1.1.1/pcap-bpf.c:403-412 | the method does the acknowledging steps of the protocol |
| ZeroCopy.Capture.Acquire | libpcap-1.1.1/pcap-bpf.c:796-814 | returning the old buffer and looking for the next takes exactly the next hand-off, with its length, and takes none only when none waits |
| IfSort.IfSortOrder | libpcap-1.1.1/pcap-sita.c:465-490 | if_sort(a, b) is negative if and only if the text before the first underscore of a precedes that of b alphabetically, or they are the same and the text after it precedes |
| IfSort.IfSortTransitive | libpcap-1.1.1/pcap-sita.c:465-490 | with IfSortEqual: if_sort is a total order on names with an underscore |
| IfSort.SwapRemovesInversion | libpcap-1.1.1/pcap-sita.c:503-519 | an exchange of two neighbours out of order removes exactly one inversion |
| IfSort.IfTable.SortIfTable | libpcap-1.1.1/pcap-sita.c:492-526 | the passes over the linked list end with a stable permutation of the list in which no name stands behind one it comes before in that order |

## Findings

- `vstore` (optimize.c:628-638) deletes a statement when the atom it sets already has the new number.
  The number 0 stands for "unknown", and two unknowns compare equal, so a move between two unknown atoms is
  deleted although it may change the destination. `RewriteExact` gives the exact condition,
  `UnknownComparesEqual` an input, `KnownReadsSuffice` a condition on what is read. No filter the generator
  produces is claimed to reach this.
- `opt_peep` (optimize.c:918-924) takes `jset #0xffffffff` to branch always. It does not branch when A is 0.
  `AllOnesRule` gives the exact condition and `AllOnesFails` an input on which the merged block goes the
  other way.
- `opt_blk` (optimize.c:1301-1304) removes dead stores and leaves the exit table as it was, with the number
  of the deleted store. In the successor, `vstore` may then delete the same store as a repetition, where it is
  live. `StaleTable` is a graph of two blocks, with the tables and the statements the rules leave, that accepts a
  packet before and rejects it after. `BlksSound` gives a condition under which the whole loop keeps the
  answers: no atom a block gives up is live at its exit in the graph that is left. A block gives up what it
  defines and what is deleted without a later definition: final dead stores, A where its last statement is merged
  into the branch, X where an indexed load is folded, and, when all statements are dropped, all but A and X.
  `RepeatLoad` shows the ordinary case, a field that is loaded in two blocks, to meet it; `StaleTable` does not.
  With do_stmts off, when nothing is deleted by number, `BlksOffSound` needs no such condition.
- `or_pullup` and `and_pullup` (optimize.c:1449-1631) put a test where it is run more often. A test that can
  fault then rejects packets that an earlier test had accepted. `PulledSound` gives the exact condition,
  `PulledFaults` an input, and `RepeatedLoad` the usual case in which it holds. Data dependencies
  between the tests of a chain are not checked by the source either (its comment at optimize.c:1506-1508);
  `PulledSound` asks for their absence.
- `opt_blks` (optimize.c:1655-1669) calls `or_pullup` and `and_pullup` after `opt_j` has moved edges, with the
  dominator sets from before; only the in_edges are made anew. A block that is listed as dominated may by then be
  entered from elsewhere, and the pulled test is lost on that way. `StaleDoms` is such a graph, with the move, the
  chain that is found and a packet whose verdict changes. `PullNow` says what the surgery does when the sets are
  right (`Current`), and `PullReady` that they are when no edge has been moved since `find_dom`.
- `opt_peep` (optimize.c:770-776) folds a constant into an indexed load when X is not live at the exit of the
  block, and does not look whether a later statement of the block reads X; its comment trusts the generator for
  that. `LateRead` is an input; `OptPeep` keeps what is live in the absence of such a read. `LateCopy` is exact
  when that read is `txa` or `stx`.
- `opt_j` (optimize.c:1393-1445) compares the numbers of the atoms live at the exit of the target and not
  what the target itself reads, and unknown numbers compare equal here too. `OptJSound` says what has
  to hold for the move to keep the answers, `OptJUnmixed` gives a condition that can be seen on the graph before,
  and `StoreLost` is an input on which it does not keep them.

## Left out

- OptJSound: its condition is sufficient; that a run differs whenever it fails is not claimed, since a block
  may read an atom without its branch depending on it.
- StepSound: the state on which a deletion by an unknown number shows need not be one the filter reaches.
- PassSound: speaks of the numbering and rewriting of statements alone; the loop with opt_peep, opt_deadstores and
  the rule that drops all statements is `OptBlks`.
- OptBlks: with do_stmts off, asks that return blocks hold no statements, as the generator makes them; opt_peep may
  call abort on one that loads a constant.
- BlksSound: its condition is sufficient; that an atom is given up and live need not change the verdict.
- NumberBlocks: the heap as fold_op's error exit leaves it is described only as far as `StuckFaults` needs.
- OptJ: the edge sets and exit tables are those of the graph just numbered; after opt_peep has merged branches, and
  for a second edge moved in the same round, they describe the graph before.
- OptPeep: what is kept asks that no use of X is left behind a folded indexed load, by a condition on the syntax; for
  a use other than a copy, whether the value read matters is not stated.
- PullNow: for a second pull-up in the same round the in_edges and the numbers are those from before the first one.
- PulledSound: independence of the chain's tests is a condition; the exact effect of a dependency is not stated.
- OptBlk: the value tables of the entry are a parameter, merged by `ValuePass.EntryVals` in the pass.
- FoldOpExact: a shift by 32 or more is undefined in C; the machine of the model has no value for it, so that it
  counts as a fault, and what folding one gives is not compared.
- GenBcmp: asks that the string end below 2^32; the source's u_int offset would wrap there.
- IcodeToFcode: array indices and lengths are unbounded here; a program of 2^32 instructions is not considered.
- IfSortTransitive: names without an underscore are left out, as the source passes a null pointer to strcmp
  for them; so are names longer than its line buffer.
- The loop that repeats the optimizer's passes until nothing changes, its `done` flag, and a theorem about
  all passes in sequence.
- `opt_root`, which skips root blocks with equal branches, and `find_closure`, which nothing calls.
- Jumps inside blocks, which the 802.11, Prism and protochain code generates; `PlainGraph` excludes them.
- The tables of link types and protocols, `insert_compute_vloffsets`, `gen_ppi_dlt_check`, and loads relative
  to anything but the packet, the fixed link-layer header and the packet length.
- The protocol checks that `gen_relation` and `gen_load` put before a comparison.
- Level lists are sequences instead of blocks linked through `link`; dominator and liveness sets are sets
  instead of bit vectors and words; the blocks array is filled with the root before it is numbered.
- `or_pullup` and `and_pullup` are one method with the side as a parameter, as they differ in it only.
- The scanner and the parser of the filter language.
- `select`, `ioctl`, timeouts and the mapping of the zero-copy buffers; only the two counters and the length of
  each buffer are modelled.
