# Share arithmetic and distributed point functions: a Dafny model

The repository computes on secret shares. Two parties hold keys of a distributed point function (DPF), which
expand to XOR shares of a vector that is zero everywhere but at a secret point. Three parties (workers P0 and P1,
dealer P2) multiply, compare and sum additive or XOR shares modulo 2^64. Both rest on oblivious transfer (OT) and
on fast forms of linear maps over GF(2). This project models that code and proves, for all inputs and all runs,
that shares, tables and in-place buffers agree with one plain function. The main results end in plain terms:
bits, positions and integers modulo 2^64.

AES, the PRG, the hash functions, the elliptic curve and every random draw are parameters: arbitrary functions,
or, for the curve, any group with the laws that `SimplestOt.Lawful` lists. Nothing is claimed about secrecy.

## How the modules fit together

| modules | what they model |
|---|---|
| `Blocks`, `Words` | 128-bit blocks and 64-bit words as bit sequences, powers of two |
| `DpfTree` | one level of a DPF tree of any arity, and the invariant "exactly one node differs" |
| `DpfMult` | bit-times-block multiplication from OTs, as a class with its OT index |
| `RegularTree`, `RegularRows`, `RegularRound`, `RegularDpf`, `RegularKeys`, `RegularDealer`, `RegularExpand`, `RegularWalk`, `RegularResults` | the regular DPF: levels and joint runs, rows of a batch in three rotating buffers, the interactive round, both parties' rounds, keys, the dealer, expansion from keys, the walk to a single leaf, and the results as a whole |
| `TernaryRound`, `TernaryLevels`, `TernaryDpf`, `TernaryResults` | the ternary DPF: 1-of-3 OT, levels in place, rounds, results |
| `SparseTrie`, `SparseTree`, `SparsePair`, `SparseDpf`, `SparseBatch` | the sparse DPF: splitting sorted ranges, one party's trie, the two-party invariant, one tree's steps, the protocol for a batch |
| `PointDpf`, `PointDpfKeys`, `PointDpfGen`, `PointDpfInterval`, `PointDpfPrefix` | the dealer DPF of `mpc/dpf.hpp`: layout, `eval`, `gen`, the ping-pong layers, `__evalinterval` from 0 |
| `KeyBytes` | serialization of both kinds of keys |
| `Fifo`, `Rounds` | three processes over FIFO channels, confluence of all schedules, the two kinds of rounds |
| `Ring64`, `Mpc`, `MpcDot` | arithmetic modulo 2^64, the online three-party operations |
| `MpcTape`, `MpcSupply` | the recorder and the tapes; products, conjunctions and disjunctions with dealt or recorded material |
| `MpcZero`, `MpcProgram` | the zero test and straight-line programs, online and in replay |
| `SimplestOt`, `OtManager` | random OT over a group, chosen-message OT, the task queues of the two workers |
| `BitFold`, `ModP` | `bitShiftXor` and `modp` |
| `CodeTable`, `CodeEncode` | the byte table of a linear code and the encoders |
| `Blinds` | blinded shares, their refresh and the blinded dot product |

## Where the code differs from what its names or comments say

- `mpc_eqz`, and the `operator==` built on it, return a sharing of "not zero" (mpc/mpcops.hpp:762-764). The model
  follows the code: `MpcZero.EqzRun`.
- The dealer's `keyGen` loops over the values, so without values it deals no tree, whereas the distributed
  `keyGen` deals one per point (libOTe/libOTe/Dpf/RegularDpf.h:697).
- Neither `keyGen` checks that a point lies below the domain. The distributed one sums leaf masks only over the
  domain rounded up to even, the dealer takes the masks at the point itself, so their keys may differ for a point
  beyond: `RegularResults.DisagreeBeyondDomain`. Both expand correctly all the same. With all points allowed,
  `RegularResults.CompareKeyGen` gives the exact condition under which the two pairs of keys are equal.
- Online, `mpc_mul` deals X0, X1 to P0 and Y0, Y1 to P1; on tape, P0 gets X0, Y0. Both give the product:
  `Mpc.MulResultShares` and `MpcSupply.TapeMulResultShares`.
- `mul_ctr` and `and_ctr` are not initialised (mpc/shares.hpp:49-55). The model starts the dealer's and the
  workers' anywhere. Equal ones replay every covered program (`MpcProgram.EveryReplay`); unequal ones fault at the
  first product or conjunction, and only unequal ones do (`MpcProgram.FirstProduct`, `MpcProgram.FirstConjunction`).

## Model

| member | source | states |
|---|---|---|
| `RegularResults.CompareKeyGen` | libOTe/libOTe/Dpf/RegularDpf.h:281-774 | On the same shared points, values and seeds, for all 64-bit points: distributed key generation and the dealer give identical key pairs if and only if values are supplied and every tree has its leaf below the domain rounded up to even, or coinciding leaf masks at it; so they agree whenever all points lie below the rounded domain. The distributed run uses every base OT |
| `RegularResults.DisagreeBeyondDomain` | libOTe/libOTe/Dpf/RegularDpf.h:281-774 | A failing input: domain 5, shared point 7, any value and seeds; both accept it and their keys differ |
| `RegularResults.LeafBits` | libOTe/libOTe/Dpf/RegularDpf.h:393-400 | The leaf of a point is below 2^depth and its bit i is bit i of the point |
| `RegularResults.ExpandInteractively` | libOTe/libOTe/Dpf/RegularDpf.h:281-660 | Interactive expansion, both parties, all trees, all 64-bit points: at every leaf below the domain the outputs XOR to the value at the shared point and to zero elsewhere, the tags XOR to the point indicator (points beyond the domain share zero), and exactly the budgeted OTs are consumed |
| `RegularResults.DistributeAndExpand` | libOTe/libOTe/Dpf/RegularDpf.h:255-262 | Keys from a distributed run, expanded locally, share the same point functions, points beyond the domain included; without values the outputs differ at most at the point |
| `RegularResults.DealAndExpand` | libOTe/libOTe/Dpf/RegularDpf.h:676-787 | Dealt keys, expanded locally, share the point functions at every leaf of every tree |
| `RegularKeys.DistributedKeyGen` | libOTe/libOTe/Dpf/RegularDpf.h:281-621 | Two `implExpand` runs succeed exactly on the accepted sizes; the keys record a complete joint run of every tree along the bits of the shared point, with the leaf correction that mask sums over the rounded domain give; all OTs are used and the budget check is never hit |
| `RegularKeys.KeysWithoutValues` | libOTe/libOTe/Dpf/RegularDpf.h:547-548 | Key generation without values: the same joint runs, no leaf corrections |
| `RegularDealer.DealerKeyGen` | libOTe/libOTe/Dpf/RegularDpf.h:676-774 | The dealer refuses exactly bad domains and mismatched sizes; otherwise its keys record complete joint runs along the plain points |
| `RegularDealer.DealerTree` | libOTe/libOTe/Dpf/RegularDpf.h:697-773 | Following one path, the dealer computes the correction words and leaf correction of the whole-level run, and none of its own checks fails |
| `RegularDealer.CorrectPath` | libOTe/libOTe/Dpf/RegularDpf.h:708-741 | One dealer level: the correction from two path nodes equals the one from whole-level sums, the consistency checks pass, the inactive children coincide |
| `RegularDealer.PathCorrectionIsJoint` | libOTe/libOTe/Dpf/RegularDpf.h:713-724 | Path seeds alone give the correction of the joint level sums |
| `RegularDealer.KeysUnique` | libOTe/libOTe/Dpf/RegularDpf.h:281-774 | Two key pairs recorded for the same paths, values and seeds, with leaf corrections from mask sums over `size` and over `size'` leaves, are equal if and only if no path ends among the additional leaves, or the masks coincide there |
| `RegularExpand.ExpandKey` | libOTe/libOTe/Dpf/RegularDpf.h:777-787 | Expansion from a key: refused exactly on a bad party, domain or empty key; otherwise every leaf and tag comes from the unique run the key determines |
| `RegularExpand.ExpandedTreeShares` | libOTe/libOTe/Dpf/RegularDpf.h:550-660 | Both parties' expansions of a complete tree with its leaf correction share the point function and the indicator |
| `RegularExpand.RunUnique` | libOTe/libOTe/Dpf/RegularDpf.h:367-544 | A root and correction words determine every level of a party |
| `RegularWalk.LevelsByWalk` | libOTe/libOTe/Dpf/RegularDpf.h:486-544 | Every node of the expanded levels is what a walk from the root to that node alone computes from the correction words, AES and the two child formulas |
| `RegularWalk.ExpandByWalk` | libOTe/libOTe/Dpf/RegularDpf.h:777-787 | Expansion from a key, leaf by leaf: every tag is the least significant bit of the walked seed, every output `roundEnc(s, s)` of it, plus under its tag the leaf value when there is one |
| `RegularTree.JointOnePath` | libOTe/libOTe/Dpf/RegularDpf.h:367-544 | At every level of a joint run the two trees agree everywhere except below the node on the point's path, whose tags differ |
| `RegularTree.NextOnePath` | libOTe/libOTe/Dpf/RegularDpf.h:391-544 | Correcting and expanding a level keeps "exactly one node differs", moving it to the active child |
| `RegularTree.JointRunsUnique` | libOTe/libOTe/Dpf/RegularDpf.h:367-544 | Roots and path bits determine all levels and correction words of a joint run |
| `RegularTree.LeavesDifferAtPoint` | libOTe/libOTe/Dpf/RegularDpf.h:554-596 | Corrected leaf seeds agree off the point and have opposite tags at it |
| `RegularTree.MaskSumCollapses` | libOTe/libOTe/Dpf/RegularDpf.h:554-617 | The two parties' leaf mask sums over any range that contains the point differ by the two masks at the point |
| `RegularTree.MaskSumCancels` | libOTe/libOTe/Dpf/RegularDpf.h:554-617 | Over a range without the point the two mask sums are equal |
| `RegularTree.OutputsSharePoint` | libOTe/libOTe/Dpf/RegularDpf.h:598-645 | With the leaf correction, the outputs at every leaf XOR to the value at the point and to zero elsewhere |
| `RegularTree.PathIsValue` | libOTe/libOTe/Dpf/RegularDpf.h:393-400 | Branching on the point's bits from the most significant ends at the leaf that the low bits spell |
| `DpfTree.SumCollapses` | libOTe/libOTe/Dpf/RegularDpf.h:486-544 | The XOR of a whole level over both parties collapses to the children of the active node |
| `DpfTree.CorrectedOnePath` | libOTe/libOTe/Dpf/RegularDpf.h:493-544 | Any correction that cancels the inactive children and splits the active tags leaves seeds that agree off the active child; the arity is arbitrary (2 for regular, 3 for ternary trees) |
| `DpfTree.ExpandedOnePath` | libOTe/libOTe/Dpf/RegularDpf.h:493-544 | The one-node invariant survives expansion with any PRG and any arity |
| `RegularRound.OpeningIsCorrection` | libOTe/libOTe/Dpf/RegularDpf.h:393-431 | The opened products and masked sums give the correction word and tag bit of the joint sums |
| `RegularRound.Round` | libOTe/libOTe/Dpf/RegularDpf.h:391-431 | An interactive round: fails exactly when the OT budget is short, otherwise both parties get the correction of the joint sums for every tree and use one OT per tree |
| `RegularRows.ExpandLevel` | libOTe/libOTe/Dpf/RegularDpf.h:486-544 | In-place expansion of a level over three row buffers: seeds become tags, grandchildren are stored, child sums accumulated |
| `RegularRows.ExpandTrees` | libOTe/libOTe/Dpf/RegularDpf.h:486-544 | The buffers afterwards hold, tree by tree, exactly the next level of the plain list of levels, and `z` its sums |
| `RegularRows.RowsAreNext` | libOTe/libOTe/Dpf/RegularDpf.h:486-544 | The rows written are the reference expansion of every tree |
| `RegularRows.SumsAreDigitSums` | libOTe/libOTe/Dpf/RegularDpf.h:486-544 | The accumulated rows are the whole-level sums of every tree |
| `RegularRows.FixTrees` | libOTe/libOTe/Dpf/RegularDpf.h:554-596 | The last level in place: masks overwrite seeds, tags and mask sums belong to the corrected leaf seeds of every tree |
| `RegularDpf.Capacity` | libOTe/libOTe/Dpf/RegularDpf.h:308-313 | Buffers of 2^depth, half and a quarter rows suffice for every level assigned to them modulo 3 |
| `RegularDpf.Buffers` | libOTe/libOTe/Dpf/RegularDpf.h:308-313 | The three allocated buffers are distinct and wide enough for every level |
| `RegularDpf.Party.constructor` | libOTe/libOTe/Dpf/RegularDpf.h:325-365 | A party starts with the root level of every tree, drawn from its seed, in valid buffers |
| `RegularDpf.ExpandForest` | libOTe/libOTe/Dpf/RegularDpf.h:486-544 | Level by level and tree by tree, the two buffers written hold the next level of the plain forest, and `z` its sums |
| `RegularDpf.Party.Expand` | libOTe/libOTe/Dpf/RegularDpf.h:486-544 | One step over the rotating buffers refines one step of the plain forest of levels; no live row is overwritten |
| `RegularDpf.Party.Fix` | libOTe/libOTe/Dpf/RegularDpf.h:554-596 | The last level turns into leaves of every tree |
| `RegularDpf.CorrectBoth` | libOTe/libOTe/Dpf/RegularDpf.h:391-431 | Both parties learn the joint correction of the level for every tree, along the bits of the XORed points |
| `RegularDpf.Rounds` | libOTe/libOTe/Dpf/RegularDpf.h:367-544 | All rounds complete: every tree is a complete joint run, every OT is used, the budget check never fires |
| `RegularDpf.OpenGamma` | libOTe/libOTe/Dpf/RegularDpf.h:605-617 | Both parties end with the same leaf corrections: mask sums plus shared values |
| `DpfMult.ProductIdentity` | libOTe/libOTe/Dpf/DpfMult.h:89-142 | One correlated OT in each direction turns the two openings into XOR shares of bit times block |
| `DpfMult.ExchangeSharesProducts` | libOTe/libOTe/Dpf/DpfMult.h:89-142 | The exchanged messages leave shares of all products, element by element |
| `DpfMult.Multiplier.Init` | libOTe/libOTe/Dpf/DpfMult.h:35-48 | Refuses a bad party index and then changes nothing; otherwise resets budget and OT index and clears the choice bits and the received and sent OTs |
| `DpfMult.Multiplier.SetBaseOts` | libOTe/libOTe/Dpf/DpfMult.h:146-162 | Installs exactly the budgeted number of OTs or changes nothing |
| `DpfMult.Setup` | libOTe/libOTe/Dpf/DpfMult.h:35-162 | `init` followed by `setBaseOts` with correlated OTs succeeds exactly on the budgeted number, and leaves the two parties correlated at index 0 |
| `DpfMult.Multiplier.Begin` | libOTe/libOTe/Dpf/DpfMult.h:89-121 | Refused exactly on a size mismatch, an exhausted budget or missing OTs; otherwise the message of the OTs at the current index |
| `DpfMult.Multiplier.Finish` | libOTe/libOTe/Dpf/DpfMult.h:123-142 | Writes this party's product shares and advances the OT index by the vector length, also when output and operand alias |
| `DpfMult.MultiplyPair` | libOTe/libOTe/Dpf/DpfMult.h:89-142 | A call of both parties: shares of x*y for every entry, aliasing allowed, OTs used once and in step; when refused nothing changes |
| `PointDpf.DepthPlusLanes` | mpc/dpf.hpp:84-101 | Once the items need more than one node, tree depth plus lane bits is the number of input bits |
| `PointDpfKeys.LeafAncestor` | mpc/dpf.hpp:98-101 | The node reached by the first `depth` input bits is the input divided by leaves per node |
| `PointDpfKeys.Walk` | mpc/dpf.hpp:354-362 | The loop of `eval` ends at the node of the reference tree above the input |
| `PointDpfKeys.Eval` | mpc/dpf.hpp:346-377 | `eval` returns the node group of the finalized leaf, or its lane `x mod 2^k`: 64, 32 or 8 bits, lanes in memory order |
| `PointDpfKeys.LaneOfNode` | mpc/dpf/dpf.h:264-271 | Lane i starts i lane widths into the node |
| `PointDpfGen.OneStep` | mpc/dpf.hpp:236-279 | A dealt correction word makes the lost children equal and keeps the kept children's flags opposite |
| `PointDpfGen.TreesAgree` | mpc/dpf.hpp:193-288 | At every depth the two keys' trees agree off the target's path and have opposite flags on it |
| `PointDpfGen.LaneOfPlaced` | mpc/dpf.hpp:148-181 | A value placed in one lane of a node is read back there, and zero in every other lane |
| `PointDpfGen.FinalShares` | mpc/dpf.hpp:137-187 | Finished nodes XOR to the payload on the path and to zero off it |
| `PointDpfGen.MakeFinalizer` | mpc/dpf.hpp:115-190 | The finalizer is the payload mixed with the stretched target nodes of both parties |
| `PointDpfGen.DealLayers` | mpc/dpf.hpp:222-280 | The loop of `gen` produces one correction word per layer, each made for the node both parties have reached |
| `PointDpfGen.Gen` | mpc/dpf.hpp:193-288 | `gen` is refused exactly when the target is out of range; otherwise it returns a dealt key pair for target and value |
| `PointDpfGen.KeysSharePoint` | mpc/dpf.hpp:193-377 | For every PRG, size, target, value and input, the two evaluations XOR to the value at the target and to zero elsewhere, other lanes of the target's node included |
| `PointDpfGen.PointBits` | mpc/dpf.hpp:193-377 | Bit by bit, leaves that share the point XOR to the value at the target and to zero elsewhere |
| `PointDpfGen.GenThenEval` | mpc/dpf.hpp:193-377 | Dealing then evaluating shares the point function for any random roots, stated for every bit of the two leaves |
| `PointDpfInterval.CountIsCeil` | mpc/dpf.hpp:417-419 | The node count the code computes per layer is the ceiling of the leaf nodes over the subtree width |
| `PointDpfInterval.HalvesSafe` | mpc/dpf.hpp:393-411 | The ping-pong halves overlap but never on a node that is still to be read |
| `PointDpfInterval.ExpandLayer` | mpc/dpf.hpp:407-441 | One in-place layer: the other half holds the children, though both halves share the output array |
| `PointDpfInterval.ExpandLayers` | mpc/dpf.hpp:381-441 | All layers in place: the output ends with the leaf nodes of the reference tree, the flag array with their flags |
| `PointDpfPrefix.Finalize` | mpc/dpf.hpp:311-339 | Finalizing overwrites the array being read, group by group, and still yields the finished nodes of every leaf |
| `PointDpfPrefix.EvalPrefix` | mpc/dpf.hpp:381-447 | `__evalinterval(0, to)` leaves `eval(x)` at every x up to `to`, in the nodes or the lane that belong to x in the output, and the right flag at every node, for any number of items, nodes per leaf or lanes |
| `PointDpfPrefix.PrefixesShare` | mpc/dpf.hpp:381-447 | Two prefix evaluations of dealt keys share the point function |
| `PointDpfPrefix.FlagsSharePoint` | mpc/dpf.hpp:381-447 | Their flags differ exactly at the target's node |
| `KeyBytes.Serialize` | mpc/dpf.hpp:484-518 | Bit by bit: number of items and word count least significant bit first, root, words and finalizer block by block, then the PRG key |
| `KeyBytes.Deserialize` | mpc/dpf.hpp:521-558 | Reading back any serialized key, followed by anything, restores all fields and consumes exactly the bytes written |
| `KeyBytes.FieldsOf` | mpc/dpf.hpp:484-558 | Where each field lies, for every number of correction words |
| `KeyBytes.BitsOfFields` | mpc/dpf.hpp:466-518 | The same for a buffer with anything after the key |
| `KeyBytes.FromBytes` | libOTe/libOTe/Dpf/RegularDpf.h:58-69 | Refused exactly on a wrong size; into a key of the same sizes it undoes `toBytes` |
| `KeyBytes.RegularFields` | libOTe/libOTe/Dpf/RegularDpf.h:44-56 | Where each field lies in a regular key's bytes |
| `KeyBytes.RegularBits` | libOTe/libOTe/Dpf/RegularDpf.h:44-56 | Each block and byte of a regular key at its place in the bytes |
| `TernaryRound.KeyOfDigit` | libOTe/libOTe/Dpf/TernaryDpf.h:453-521 | From two 1-of-2 OTs the receiver holds the key of its own digit |
| `TernaryRound.OneOfThree` | libOTe/libOTe/Dpf/TernaryDpf.h:446-541 | The 1-of-3 OT: receiver's value and sender's mask differ by r exactly in position a + b mod 3 |
| `TernaryRound.Round` | libOTe/libOTe/Dpf/TernaryDpf.h:420-557 | Both parties get the same sigma: the joint sum in each inactive digit, plus a mask of odd lsb at a0 + a1 mod 3 |
| `TernaryRound.Offer` | libOTe/libOTe/Dpf/TernaryDpf.h:453-490 | The sender's mask and its two messages, element by element |
| `TernaryRound.SigmaShare` | libOTe/libOTe/Dpf/TernaryDpf.h:516-541 | A party's share of sigma: pads, mask and level sum |
| `TernaryLevels.ExpandLevel` | libOTe/libOTe/Dpf/TernaryDpf.h:222-290 | In-place expansion over three buffers is the reference expansion of the corrected level, with its three digit sums |
| `TernaryDpf.Log3Ceil` | libOTe/libOTe/Dpf/TernaryDpf.h:55 | The least power of three that covers the domain |
| `TernaryDpf.CheckPoint` | libOTe/libOTe/Dpf/TernaryDpf.h:128-141 | The loop accepts exactly `depth` ternary digits with nothing above |
| `TernaryDpf.PathIsNumber` | libOTe/libOTe/Dpf/TernaryDpf.h:420-557 | Branching on the digit sums from the most significant ends at the leaf whose ternary digits they are |
| `TernaryResults.NumberDigits` | libOTe/libOTe/Triple/Foleage/FoleageUtils.h:81-91 | That leaf is below 3^depth and its digit i is the sum modulo 3 of the digits i of both shares |
| `TernaryDpf.Capacity` | libOTe/libOTe/Dpf/TernaryDpf.h:159-164 | Buffers of 3^depth, a third and a ninth suffice for every level |
| `TernaryDpf.Party.constructor` | libOTe/libOTe/Dpf/TernaryDpf.h:171-192 | A party starts with a random first level and its index as the root's tag |
| `TernaryDpf.Party.Expand` | libOTe/libOTe/Dpf/TernaryDpf.h:206-290 | One step over the rotating buffers refines one step of the plain list of levels |
| `TernaryDpf.OtCount` | libOTe/libOTe/Dpf/TernaryDpf.h:619-622 | All rounds of all trees use exactly `baseOtCount` OTs |
| `TernaryDpf.Budget` | libOTe/libOTe/Dpf/TernaryDpf.h:619-622 | Every OT index a round uses is below `baseOtCount` |
| `TernaryDpf.CorrectBoth` | libOTe/libOTe/Dpf/TernaryDpf.h:206-210 | Round d yields a correction that cancels inactive digits and splits the active one, the sum modulo 3 of digits depth - d of both shares, and advances the OT index by the round |
| `TernaryDpf.Rounds` | libOTe/libOTe/Dpf/TernaryDpf.h:206-290 | All rounds: the leaf seeds differ in one node, the leaf that the digit sums of both shares spell, whose tags differ, and all OTs are used |
| `TernaryDpf.FixLeaves` | libOTe/libOTe/Dpf/TernaryDpf.h:302-344 | Leaves, tags and mask sum of the domain, also when it ends inside a group of three |
| `TernaryDpf.LeafShares` | libOTe/libOTe/Dpf/TernaryDpf.h:349-397 | Corrected outputs share the value at the point and zero elsewhere; tags share the indicator |
| `TernaryResults.Expand` | libOTe/libOTe/Dpf/TernaryDpf.h:79-417 | For every pair of shared points, also beyond the domain: refused exactly on bad digits; otherwise leaves share the point function at the number with digits pt0[i] + pt1[i] mod 3, with the given value (some value when none is given), and exactly `baseOtCount` OTs are used |
| `TernaryResults.ExpandDomain` | libOTe/libOTe/Dpf/TernaryDpf.h:55-417 | The same from a domain: the depth is the least that covers it, and the one-leaf domain is included |
| `TernaryResults.ExpandTrivial` | libOTe/libOTe/Dpf/TernaryDpf.h:98-126 | The one-leaf domain |
| `SparseTrie.Partition` | libOTe/libOTe/Dpf/SparseDpf.h:139-164 | The loop ends, at the highest bit in which the sorted range differs, and splits the range there |
| `SparseTrie.SplitBelow` | libOTe/libOTe/Dpf/SparseDpf.h:139-164 | A range splits below every prefix that its points share |
| `SparseTree.ChildLevels` | libOTe/libOTe/Dpf/SparseDpf.h:454-466 | Both halves split at strictly lower levels |
| `SparseTree.ExpandEntry` | libOTe/libOTe/Dpf/SparseDpf.h:424-467 | Expanding an entry corrects it, adds to its level's sums and files both halves at strictly lower levels |
| `SparsePair.ListedFollows` | libOTe/libOTe/Dpf/SparseDpf.h:361-380 | A listed point takes the side of its own leaf in every range |
| `SparsePair.CorrectLevel` | libOTe/libOTe/Dpf/SparseDpf.h:372-416 | Correcting a level makes the corrections of its entries' children known and keeps the two-party invariant |
| `SparsePair.SkipLevel` | libOTe/libOTe/Dpf/SparseDpf.h:371-395 | A level without entries may be skipped: its sums may become random filler and its correction anything both parties share, since nothing refers to them |
| `SparsePair.ExpandPair` | libOTe/libOTe/Dpf/SparseDpf.h:424-467 | Expanding the same entry in both trees keeps the invariant: twins off the point's path, opposed tags on it, every position owned by exactly one entry |
| `SparsePair.UsedIsSplit` | libOTe/libOTe/Dpf/SparseDpf.h:330-467 | In the end a tree has used a level exactly if two neighbouring points first differ there |
| `SparseDpf.SplitRoot` | libOTe/libOTe/Dpf/SparseDpf.h:330-358 | The root range and its two halves |
| `SparseDpf.RootInv` | libOTe/libOTe/Dpf/SparseDpf.h:330-358 | The invariant holds initially |
| `SparseBatch.CorrectAll` | libOTe/libOTe/Dpf/SparseDpf.h:361-416 | A level of all trees of the batch: if any tree uses it, one multiplication and the reveals give every tree that uses it the correction of its joint sums, at one OT per tree; trees that do not use it carry filler; if none uses it, no OT is used |
| `SparseBatch.Levels` | libOTe/libOTe/Dpf/SparseDpf.h:361-467 | From the top level down, each entry's parent correction is known when it is expanded, in every tree of the batch; one OT per tree is used for each level that some tree uses |
| `SparseDpf.LeavesOk` | libOTe/libOTe/Dpf/SparseDpf.h:470-495 | At the end every listed point is owned by one leaf entry, the same for both parties |
| `SparseDpf.Leaves` | libOTe/libOTe/Dpf/SparseDpf.h:470-495 | The leaf loop puts each leaf at its point's position and sums all of them |
| `SparseDpf.Outputs` | libOTe/libOTe/Dpf/SparseDpf.h:470-512 | After the closing reveal the outputs share the value only at the active position |
| `SparseBatch.Expand` | libOTe/libOTe/Dpf/SparseDpf.h:222-512 | For a batch of strictly increasing lists and any shared active points: in every tree outputs XOR to the value at the active position and to zero at the others, tags to its indicator; the OTs used are exactly the number of trees times the number of levels at which neighbours of some list split |
| `Fifo.Diamond` | mpc/mpcops.hpp:298-312 | Any two enabled sends or receives commute: processes of different parties, the two ends of a channel, or pending steps of one awaited group |
| `Fifo.Confluent` | mpc/mpcops.hpp:203-312 | If one schedule ends, every other schedule can be completed to the same end with the same number of steps |
| `Fifo.AllHealthy` | mpc/mpcops.hpp:203-312 | In every reachable state no party has faulted and none waits unless some step is enabled |
| `Rounds.DealRound` | mpc/mpcops.hpp:200-211 | P2 deals to both workers; each goes on with its own material |
| `Rounds.SwapRound` | mpc/mpcops.hpp:298-312 | Both workers exchange messages concurrently; each goes on with what the other sent |
| `Rounds.AllOnCourse` | mpc/mpcops.hpp:38-765 | One terminating schedule puts all schedules on course to the same final state |
| `Ring64.ProductShares` | mpc/mpcops.hpp:314-320 | With gamma_i = a_i * b_(1-i), the worker formulas add up to the product modulo 2^64 |
| `Ring64.DotShares` | mpc/mpcops.hpp:38-146 | The same for vectors of any length and the dot product |
| `Ring64.DotLoop` | mpc/types.hpp:462-473 | The accumulator loop is the dot product modulo 2^64 |
| `Ring64.DotIsSum` | mpc/types.hpp:462-473 | A dot product of words is the integer inner product modulo 2^64 |
| `Words.AndShares` | mpc/mpcops.hpp:561-564 | The worker formulas XOR to the bitwise conjunction |
| `Mpc.MulRun` | mpc/mpcops.hpp:169-323 | Three parties run an online product to its end, with the dealing order X0, X1 to P0 and Y0, Y1 to P1 |
| `Mpc.MulResultShares` | mpc/mpcops.hpp:203-207 | That dealing order still gives a sharing of the product |
| `Mpc.AndRun` | mpc/mpcops.hpp:429-568 | Three parties run a conjunction to its end |
| `Mpc.AndResultShares` | mpc/mpcops.hpp:429-568 | The results share the conjunction |
| `MpcSupply.OrFromRun` | mpc/mpcops.hpp:325-346 | Three parties run a disjunction to its end through one conjunction, online or from recorded tapes |
| `Mpc.OrResultShares` | mpc/mpcops.hpp:325-346 | The results share the disjunction |
| `MpcSupply.MulFromRun` | mpc/mpcops.hpp:169-323 | A product, online or from recorded tapes, ends in shares of the product; in replay it reads the next entry and leaves P2 out |
| `MpcSupply.AndFromRun` | mpc/mpcops.hpp:429-568 | A conjunction, online or from recorded tapes, ends in shares of the conjunction |
| `MpcSupply.MulReplayed` | mpc/mpcops.hpp:250-323 | A replayed product is the workers' exchange with the recorded material, and advances tape and counter |
| `MpcSupply.AndReplayed` | mpc/mpcops.hpp:500-568 | A replayed conjunction likewise |
| `MpcSupply.TapeMulResultShares` | mpc/mpcops.hpp:221-230 | The tape's dealing order also gives a sharing of the product |
| `MpcDot.DotRun` | mpc/mpcops.hpp:38-146 | Three parties run a dot product, with vectors expanded from dealt seeds |
| `MpcDot.DotResultShares` | mpc/mpcops.hpp:38-146 | The results add up to the dot product of the shared vectors |
| `MpcZero.RowRun` | mpc/mpcops.hpp:689-697 | A row of the reduction tree of any length, odd or even, online or in replay: all three parties take one disjunction per pair, in the same order |
| `MpcZero.ReduceRun` | mpc/mpcops.hpp:684-760 | A level of any size n ends after exactly n - 1 conjunctions at all three parties, in shares of the disjunction of its entries; online P2's dummy loop deals exactly those triples, in replay they come from the tapes |
| `MpcZero.OrIsNonZero` | mpc/mpcops.hpp:716-742 | The opened leaves have a set bit exactly if the secret is not zero |
| `MpcZero.EqzRun` | mpc/mpcops.hpp:641-765 | For all shares and masks the results XOR to 1 if x0 + x1 is not zero modulo 2^64 and to 0 otherwise, after one opening and 63 conjunctions, dealt or replayed |
| `MpcProgram.OpRun` | mpc/mpcops.hpp:575-640 | Every operation on typed memories ends in shares of its plain result, with exactly its uses of recorded material |
| `MpcProgram.ProgramRun` | mpc/mpcops.hpp:38-765 | Some schedule takes every straight-line program to its end, in shares of the plain results |
| `MpcProgram.EverySchedule` | mpc/mpcops.hpp:38-765 | For every program, online or in replay with material that lasts, and every interleaving: each receive gets the message of its own operation, no replayed entry is out of sync, no party blocks for good, every schedule has the same length and ends with empty channels and shares of the plain program |
| `MpcProgram.EveryResult` | mpc/mpcops.hpp:38-765 | Every schedule ends in shares of the inputs followed by one value per operation, each the sum, product or inner product modulo 2^64, the bitwise conjunction, disjunction or XOR, or the nonzero bit of exactly the entries its operation names |
| `MpcProgram.EveryOnlineSchedule` | mpc/mpcops.hpp:38-765 | Online the same, result by result, holds for every program |
| `MpcProgram.EveryReplay` | mpc/mpcops.hpp:38-765 | With worker counters equal to those the recording started from, any program no longer than the recording, zero tests included, under every interleaving, never trips the desync check and ends in shares of the plain program |
| `MpcProgram.FirstProduct` | mpc/mpcops.hpp:260-277 | A worker whose first operation with material is a product faults there if and only if its product counter differs from the recording's start |
| `MpcProgram.FirstConjunction` | mpc/mpcops.hpp:507-523 | The same for a conjunction or disjunction and the other counter |
| `MpcTape.Recorder.constructor` | mpc/shares.hpp:24-57 | Recording may start from any counter values |
| `MpcTape.Recorder.RecordMul` | mpc/mpcops.hpp:213-231 | A recorded product appends index, X_i, Y_i and X_i * Y_(1-i) to worker i's tape and moves the counter by one modulo 2^64; the other tapes stay |
| `MpcTape.Recorder.RecordAnd` | mpc/mpcops.hpp:471-483 | The same for conjunctions, with X_i & Y_(1-i) |
| `MpcTape.OpenTapes` | mpc/shares.hpp:24-57 | A worker that opens the tapes stands at the start of the recording with whatever counters it has |
| `MpcTape.MulMaterial` | mpc/mpcops.hpp:260-277 | The i-th replayed product passes the desync check and finds the i-th recorded material |
| `MpcTape.AndMaterial` | mpc/mpcops.hpp:507-523 | The j-th replayed conjunction likewise |
| `MpcTape.MulStartDecides` | mpc/mpcops.hpp:260-277 | The first product entry is in sync exactly if the worker's counter is the one the recording started from |
| `MpcTape.AndStartDecides` | mpc/mpcops.hpp:507-523 | The first conjunction entry likewise |
| `SimplestOt.PadsAgree` | libOTe/libOTe/Base/SimplestOT.cpp:30-151 | For every group that satisfies the laws used, the receiver's pad is the sender's pad for its choice |
| `OtManager.EqLoop` | mpc/ot_manager.hpp:188-195 | The packing loop sets bit i mod 8 of byte i / 8 exactly where choice and random choice agree |
| `SimplestOt.PackedBit` | mpc/ot_manager.hpp:135-141 | Unpacking a packed bit vector returns every bit |
| `SimplestOt.ChosenMessage` | mpc/ot_manager.hpp:105-214 | Whatever the random choice, unmasking yields the second message for choice 1 and the first for choice 0 |
| `OtManager.OutputsAreSelected` | mpc/ot_manager.hpp:105-214 | Through random OT, bit packing and masking, index by index, the receiver recovers the second message of each pair for choice 1 and the first for choice 0 |
| `OtManager.SeedRun` | libOTe/libOTe/Base/SimplestOT.cpp:56-66 | With uniform OTs the revealed seed passes the commitment check |
| `OtManager.BatchRun` | mpc/ot_manager.hpp:105-214 | A matched send and receive run to their end and deliver the chosen messages |
| `OtManager.BatchLoops` | mpc/ot_manager.hpp:105-214 | The packing, masking and output loops of one batch, run on the pads of both ends, leave the receiver with the second message for choice 1 and the first for choice 0 |
| `OtManager.AgreedRun` | mpc/ot_manager.hpp:105-237 | A send task at either worker and its receive task at the other run to their outcomes |
| `OtManager.TasksRun` | mpc/ot_manager.hpp:225-237 | Both workers run all queued tasks in order, sends and receives mixed at each end, then exit |
| `OtManager.EverySchedule` | mpc/ot_manager.hpp:41-237 | Every interleaving of enqueues and worker steps at both ends, with sends and receives mixed in both queues: each task runs once and in order, bad sizes throw without using the wire, every receive holds, index by index, the second message of its send for choice 1 and the first for choice 0, and both workers exit with an empty wire |
| `BitFold.BitShiftXor` | libOTe/libOTe/Tools/QuasiCyclicCode.h:60-143 | For every shift and length, bit k of the destination gains input bit k + shift, across both shift cases and the tail blocks; refused above 127 |
| `BitFold.Window` | libOTe/libOTe/Tools/QuasiCyclicCode.h:69-120 | Two neighbouring lane shifts make one 128-bit window of the input |
| `ModP.PeriodTerm` | libOTe/libOTe/Tools/QuasiCyclicCode.h:164-177 | Shifting the blocks around a period lines its bits up with the first period |
| `ModP.AddPeriods` | libOTe/libOTe/Tools/QuasiCyclicCode.h:162-178 | After the loop, bit k < p is the XOR of all input bits k + i*p |
| `ModP.ModP` | libOTe/libOTe/Tools/QuasiCyclicCode.h:147-192 | Bit k < p of the result is the XOR of the input bits k + i*p, every bit from p on is zero, whatever the destination held; refused exactly when either side is shorter than p bits |
| `ModP.MonomialReduces` | libOTe/libOTe/Tools/QuasiCyclicCode.h:147-192 | x^n is reduced to x^(n mod p) |
| `ModP.FoldAdds` | libOTe/libOTe/Tools/QuasiCyclicCode.h:147-192 | Reduction is additive: with the previous row, it is reduction modulo x^p - 1 |
| `ModP.ReducedMonomial` | libOTe/libOTe/Tools/QuasiCyclicCode.h:147-192 | What the destination holds for an input with the single bit n: the single bit n mod p |
| `ModP.ReducedSum` | libOTe/libOTe/Tools/QuasiCyclicCode.h:147-192 | What it holds for a sum of inputs is the sum of what it holds for each |
| `CodeTable.AddGeneratorRow` | libOTe/libOTe/Tools/LinearCode.cpp:282-307 | The strided runs add a generator row to exactly the table rows whose byte selects it |
| `CodeTable.BuildChunk` | libOTe/libOTe/Tools/LinearCode.cpp:277-308 | All 256 values of one plaintext byte |
| `CodeTable.GenerateTable` | libOTe/libOTe/Tools/LinearCode.cpp:229-309 | Refused exactly on plaintexts over 64 bytes; otherwise the table holds, for every byte position and value, the XOR of the selected generator rows, zero rows beyond the last |
| `CodeEncode.LookupsAreProduct` | libOTe/libOTe/Tools/LinearCode.cpp:436-707 | Byte lookups give the bit-by-bit product |
| `CodeEncode.LookupsOfInput` | libOTe/libOTe/Tools/LinearCode.cpp:450-453 | Padding bytes and unused high bits do not matter |
| `CodeEncode.EncodeLanes` | libOTe/libOTe/Tools/LinearCode.cpp:463-625 | The cases of 1, 2, 4 and 8 blocks, with 8, 4, 2 or 1 lookups per step and folding |
| `CodeEncode.EncodeWide` | libOTe/libOTe/Tools/LinearCode.cpp:626-706 | The general case |
| `CodeEncode.Encode` | libOTe/libOTe/Tools/LinearCode.cpp:436-707 | For every generator matrix and width, output bit k is the parity, over the set plaintext bits m, of bit k of generator row m, up to the codeword bytes, whatever the uninitialised bytes hold |
| `CodeEncode.EncodeBch511` | libOTe/libOTe/Tools/LinearCode.cpp:709-804 | The special form gives the same codeword |
| `CodeEncode.GenerateThenEncode` | libOTe/libOTe/Tools/LinearCode.cpp:229-707 | Table generation followed by encoding gives the codeword for every matrix the table accepts |
| `CodeEncode.ProductAdds` | libOTe/libOTe/Tools/LinearCode.cpp:436-707 | Encoding is linear over GF(2) |
| `CodeEncode.CodewordOfUnit` | libOTe/libOTe/Tools/LinearCode.cpp:436-707 | A plaintext with the single bit m becomes generator row m, bit for bit |
| `CodeEncode.CodewordsAdd` | libOTe/libOTe/Tools/LinearCode.cpp:436-707 | The output for a sum of plaintexts is the sum of the outputs |
| `CodeEncode.ProductDependsOnBits` | libOTe/libOTe/Tools/LinearCode.cpp:436-707 | Equal plaintext bits give equal codewords |
| `Blinds.RefreshBlinds` | mpc/dpf/dpf.cpp:48-58 | In place: the update goes into the share and out of the blind, the published sum stays |
| `Blinds.RefreshKeeps` | mpc/dpf/dpf.cpp:205-215 | A refresh with an update that is a multiple of a unit vector keeps share + blind = published and the sum of the corrected cancellation terms X0*Y1 + X1*Y0 |
| `Blinds.RefreshesKeep` | mpc/dpf/dpf.cpp:205-215 | So does any number of refreshes; the published vectors never change and the shared vector is the updated one |
| `Blinds.OpenedEntry` | mpc/dpf/dpf.cpp:205-215 | Each entry of the updated vector is the entry plus all updates at that position, modulo 2^64 |
| `Blinds.RefreshBoth` | mpc/dpf/dpf.cpp:205-215 | Both parties' in-place refreshes and corrections are the refresh step on shares |
| `Blinds.RefreshRun` | mpc/dpf/dpf.cpp:205-215 | Any number of in-place refreshes are that many steps |
| `Blinds.BlindedDot` | mpc/dpf/dpf.cpp:186-197 | The blinded dot product returns the inner product modulo 2^64 |
| `Blinds.BlindedDotAfter` | mpc/dpf/dpf.cpp:232-245 | After any refreshes it returns the inner product with the updated vector |
| `Blinds.DotAfterRefreshes` | mpc/dpf/dpf.cpp:186-245 | In place, refreshes followed by both blinded dot products, with the accumulator loop, give the inner product with the updated vector |

## Left out

Bounds of the model, by member:

- RegularDpf.Rounds: the SIMD chunks of eight trees and the order of the k and j loops are collapsed into one pass over a row, and the parties' code between two awaits runs in lockstep.
- TernaryResults.Expand: one tree of the batch (the k loops are elementwise), values in GF(2) vectors, where the output rule needs characteristic two, and depth at most 32, the digits a point holds; the OT index is passed along instead of being a field.
- SparseBatch.Expand: no dense levels and at least two listed points per tree; the per-level vectors are values, since the source keeps them local; the reveals of level sums and leaves whose results are never read, and the debug assertion that no leaf is zero, are omitted. An active point may be any point that the trie routes to the leaf, which includes every listed point.
- SparseTree.ExpandEntry: the corrected seed, which the source writes back and never reads again, is not stored.
- PointDpfGen.Gen: 16-byte leaves and packed leaves of 1, 4 or 8 bytes; for larger leaves the source divides by `16 / sizeof(leaf_t)`, which is zero.
- PointDpf.DepthPlusLanes: depths use the exact integer logarithm, not floating point.
- PointDpfPrefix.EvalPrefix: intervals that start at 0; the source's layer counts do not cover unaligned intervals.
- KeyBytes.Deserialize: only buffers that begin with a serialized key; raw reads past a short buffer are undefined in the source.
- MpcDot.DotRun: `fill_vector_with_prg` is an arbitrary stream of words per seed; vectors of mixed element types are left out.
- MpcProgram.EverySchedule: message tags are an instrumentation that turns a misdelivered message into a fault.
- MpcProgram.EveryReplay: a dot product has no tape in the source and stays online, with P2 dealing only that. The dealer's tape of raw random draws and the workers of a recording run are left out.
- MpcProgram.FirstConjunction: the fault of a program whose first conjunction lies inside a zero test, after that test's opening, is not stated.
- OtManager.EverySchedule: the i-th tasks of the two ends belong together, one of them sends and the other receives, with the same size or both refused; the two counters bound the worker loop for termination only, and any value above the number of tasks will do. Points travel as values, and socket errors on close or flush are left out.
- CodeTable.GenerateTable: the table is nested sequences, one chunk per byte position; 32-bit overflow for very large tables is not modelled.
- ModP.ModP: a positive p.
- BitFold.BitShiftXor: a non-empty input; the alignment check on addresses is left out.

Not modelled:

- Sockets, coroutines, threads and file streams: only FIFO channels with atomic steps, queues and tapes.
- AES, hash functions, curve arithmetic and random sources: arbitrary functions.
- Secrecy of any protocol.
- Dense levels of `SparseDpf`: they reuse the regular DPF and do not add a single-point bin to gamma.
- `QuasiCyclicCode::dualEncode`, which rests on FFT and transpose code.
- MasnyRindal, Kyber and McRosRoy base OTs and `NcoOtExt`: variants of the same identity over foreign primitives.
- `send_batch` and `recv_batch` of the OT manager, `share_secret_*` and the 128-bit arithmetic of `mpc/types.hpp`, the counter structure of `mpc/prg.h`: easy members.
- `LinearCode` file formats, the locoram and doram headers, older copies of the same code, frontends, benchmarks.
