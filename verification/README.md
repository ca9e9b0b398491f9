# Proofs about bcnode

bcnode is a full node for Bitcoin-like coins. This project models the parts of it where correctness is
hardest to see from the code, and proves what those parts are for: over every interleaving, every tree,
every segment of blocks, every run of the relay and every byte string.

Where the source changes things in place, the model does too: classes with fields, arrays, loops with
invariants, each method proved equal to a function on values; the theorems are about those functions.
Concurrent code is a transition system whose steps are the single atomic operations.

- **Block index** (`BlockIndex*`). Any number of threads call `addHeader` and `addBlock` and nothing takes a
  lock. `BlockIndexMachine` gives every atomic access a step of its own; weak compare-and-swap may fail
  spuriously, blocks may be invalidated at any moment. The proof carries tokens: each right (to write a
  header, to attach data, to deliver a parent's phase, to publish, to spread) is free, held by one call, or
  spent. `Frames`, `Lists` and `Spread` hold the parts of the invariant, `Steps` and `Runs` its preservation;
  `Progress` bounds the steps of a run and shows that calls return; `Invalid` and `Work` are about the marks
  that other parts of the node set.
- **Segment linking** (`Segment*`). A run of blocks is linked before the database state it needs exists:
  inputs are answered from the same block, from an earlier block of the run, or put off to a wave of database
  lookups; pairs created and spent inside the run never reach the database. The reference is `SeqBlocks`:
  connect the blocks one at a time to a plain map of coins. `SegmentLinker` runs the linking on the probe tables.
  `SegmentRules` says in places and heights alone what the reference accepts.
- **Chain switch** (`ChainTree`, `ChainSwitch`). Walking two branches to where they meet, taking one off and
  putting the other on, and what the on-chain flags, the forward links and the height index describe after.
- **Probe tables** (`ProbeTable`). The linker's open-addressing tables, under arbitrary hash collisions, as
  maps. A slot holds a reference; the key is read where it lives, in a list that grows.
- **Transaction relay** (`TxRelay*`). Announcers, in-flight counters, marks with stale entries, delayed asks,
  time-outs. `TxRelayMeaning` says what each call does, in numbers.
- **Byte gate and event scope** (`ByteGate`, `EventScope`). Two small atomic protocols: optimistic byte
  admission, and deletion by the last one to leave.
- **Protobuf readers** (`Pb*`). The one-pass ordered reader against the searching one, and both against an
  encoder of their own (`PbEncode`).
- **Wire format** (`Wire*`). Bitcoin and Litecoin transactions and blocks, with the byte layout of a block. An
  extension (Litecoin's MWEB parts) is any canonical codec; Bitcoin is the case of no extension.
- **Linked outputs and script records** (`VarInt`, `LinkedOutputs`, `ScriptRecord`, `ScriptForms`). The stored form
  of spent outputs, the address taken from an output against the one taken from its record, and which script has
  which address.
- **RLP, Base58, Bech32** (`Rlp`, `Radix`, `Base58`, `BitGroups`, `Bech32`, `Bech32Field`, `Segwit`,
  `SegwitForms`). Round trips, and the written forms themselves, with those of the wire format in `WrittenForms`.
- **Shared** (`Wrappers`, `Sequences`, `ByteData`). An option, facts about sequences, bytes and powers.

Three properties one might expect are false of the code; each has an exact condition here.

- After a switch that only rolls back, or one whose first new block fails, the best block still names a block
  that came off the chain (`ChainSwitch.BestAfterCut`, `ChainSwitch.BestStaysTip`); a second call from there
  leaves no single path (`ChainSwitch.StaleBestBreaksTheChain`).
- A transaction reads back as itself exactly under three conditions (`WireBlock.TxReadsBackExactlyWhen`). Its
  fields have their widths and its counts their limits. It has at most one extension object, a HogEx has none
  and has an output, and without the extension it has neither. And if nothing asks for the marker, it has an
  input or no output: otherwise a reader takes the empty input list for the marker. `WireBlock.NoInputsIsLost`
  and `WireBlock.EmptyHogExIsLost` are transactions that are written and lost.
- An address is not always read back (`Segwit.SegwitReadsAs`, for a reader that expects any prefix). A version 0
  program that is neither 20 nor 32 bytes long, and anything past 90 characters, is written as an address that
  no reader accepts (`Segwit.TwoBytesAreRefused` for one). Under a prefix with a capital the reader that is given
  that prefix refuses too. A reader given it in lower case accepts only if the text is not of mixed case and the
  checksum is the same for both cases; with the capitals within six neighbouring characters it never is
  (`Segwit.CapitalsAreCaught`).

## Model

| member | source | states |
|---|---|---|
| `BlockIndexTheorems.AlwaysSafe` | src/common/blockDataBase.cpp:1004-1151 | In every state of every interleaving, invalidation included: each child has been handed each parent phase at most once; a ready header stands on headers that were all brought, down to genesis, with its depth as height and the sum of proofs as work, and its parent is ready; ready data means attached data, a complete header and a parent with ready data |
| `BlockIndexTheorems.HeadersComplete` | src/common/blockDataBase.cpp:1024-1113 | Once all calls have returned, a header is ready exactly when calls brought every header from it to genesis, in whatever order and by whatever threads: no event is lost |
| `BlockIndexTheorems.DataComplete` | src/common/blockDataBase.cpp:1024-1151 | Once all calls have returned, a block brought with its data and valid, like every block down to genesis, has its data ready, whatever was invalidated elsewhere; with nothing invalid that is exactly when data is ready |
| `BlockIndexTheorems.DataReadyReaches` | src/common/blockDataBase.cpp:1024-1074 | At any moment, even amid invalidations, ready data stands on blocks all brought with their data |
| `BlockIndexInvalid.InvalidIsStopped` | src/common/blockDataBase.cpp:1051-1054 | From a state where a block is invalid and not ready and no call has looked past the mark, or where that is so of its parent: in every continuation of the run neither the block nor any block standing on it has its data ready, and no call publishes or names one of them |
| `BlockIndexInvalid.StoppedStays` | src/common/blockDataBase.cpp:1051-1054 | Such a state stays one of its kind, whatever calls are added and however the threads interleave |
| `BlockIndexWork.WorkIsRecorded` | src/common/blockDataBase.cpp:1091-1113 | Once all calls have returned, the work check is on record exactly for headers that some call brought checked, duplicates included |
| `BlockIndexTheorems.ReadyIsNotified` | src/common/blockDataBase.cpp:1024-1074 | Once all calls have returned, every block ready in both phases is outweighed by a ready block that some call named to `notifyReady` |
| `BlockIndexTheorems.PublisherIsUnique` | src/common/blockDataBase.cpp:1024-1074 | A call about to publish a Ready bit never finds it set, so no bit is published twice |
| `BlockIndexTheorems.ComputesOnce` | src/common/blockDataBase.cpp:1024-1074 | Height and work are computed only for a header not yet ready, under a parent that is: readers of a ready header never race with the writer |
| `BlockIndexTheorems.PublishedIsFrozen` | src/common/blockDataBase.cpp:1024-1088 | No step of any thread takes back a Ready bit or changes the height or work of a ready header |
| `BlockIndexTheorems.NeverStuck` | src/common/blockDataBase.cpp:1024-1088 | Wherever a call goes by a block's parent link, the link is there and names the parent in the header |
| `BlockIndexTheorems.RunInv` | src/common/blockDataBase.cpp:1004-1151 | The token invariant holds in every state of every run, with delivery counts and callers as the run made them |
| `BlockIndexProgress.StepsAreBounded` | src/common/blockDataBase.cpp:1024-1151 | In every run of n calls at most 34 n (n + 1) steps count: all but those of calls that have returned and exchanges that give up although the word has not changed |
| `BlockIndexProgress.RestIsReached` | src/common/blockDataBase.cpp:1024-1151 | From every state of every run, running the calls that are there brings all of them to return, within the same bound: no call waits for another |
| `BlockIndexProgress.RetryHasCause` | src/common/blockDataBase.cpp:1076-1088 | Right after its own step a call in the exchange loop holds the parent's word as it is: an exchange fails only after a step of another call, or on its own |
| `SegmentVerdict.SegmentVerdictIsPlain` | src/common/blockDataBase.cpp:117-157 | For every segment with distinct txids, none live before: a prefix connects one block at a time to a plain coin map, maturity included, exactly when linking and the residual wave cut no block of it |
| `SegmentVerdict.LinkedIsSpent` | src/common/blockDataBase.cpp:511-732 | Up to the cut, a slot linked inside the segment holds exactly the coin, record and coin word, that the sequential connect spends there |
| `SegmentVerdict.AnswerIsSpent` | src/common/blockDataBase.cpp:117-157 | Up to the cut, what the wave finds in the state before the segment is the coin the sequential connect spends there, although blocks in between have run by then |
| `SegmentRules.PlainObeys` | src/common/blockDataBase.cpp:29-47 | In places and heights alone: the sequential connect gets through n blocks exactly when every input of theirs takes an output not taken before, of the base or made earlier in its block or in an earlier block, that is old enough (minted: the chain's maturity; past the first of a HogEx: six); the coins left are exactly those not taken |
| `SegmentRules.SegmentObeys` | src/common/blockDataBase.cpp:511-732 | Linking and the wave cut the segment exactly at the first block with an input that breaks these rules |
| `SegmentRules.SlotHoldsTaken` | src/common/blockDataBase.cpp:117-157 | Up to the cut the slot of each input holds the coin of the output it takes, record, height and flags |
| `SegmentRules.WordSaysAll` | src/db/utxodb.h:24-54 | Height, minted, pegged-out and restored marks come back from the coin word; linked outputs keep all but the last |
| `SegmentBatch.BatchIsPlain` | src/db/utxodb.cpp:196-263 | One batch that removes only residual inputs and adds only outputs not spent inside leaves the same coin map as connecting the blocks one by one |
| `SegmentReorg.SlotIsSpent` | src/common/blockDataBase.cpp:117-157 | Up to the cut no input is left without a coin: every slot, however it was answered, holds the coin the sequential connect spends |
| `SegmentUndo.UndoIsInverse` | src/db/utxodb.cpp:265-330 | Disconnecting a block from the linked outputs restores the coin map it was connected to, restored marks aside |
| `SegmentUndo.RestoredIsLinked` | src/common/blockDataBase.cpp:41-47 | The mark of a coin put back does not reach linked outputs: the same block links to the same bytes after any reorganisation |
| `SegmentUndo.PutBackIsMarked` | src/db/utxodb.cpp:265-330 | Every coin a disconnect puts back carries the restored mark, and every other coin left is as it was |
| `SegmentUndo.DisconnectBlock` | src/db/utxodb.cpp:265-330 | The forward walk that puts back and erases gives the ledger these statements are about |
| `SegmentReorg.BatchThenUndo` | src/db/utxodb.cpp:196-330 | A segment applied as one batch and then disconnected block by block to any height leaves the coins that connecting up to that height leaves |
| `SegmentReorg.SameFuture` | src/common/blockDataBase.cpp:29-47 | Ledgers that differ in restored marks only accept the same blocks and spend the same coins from there on |
| `SegmentTopology.LocalTxIs` | src/BTC/validation.h:32-80 | The array filled in one pass names for each input the last transaction before it in the block with the id it spends from, and none exactly when there is none |
| `SegmentTopology.TopologyIs` | src/BTC/validation.h:32-80 | A bit is set exactly when a later input of the block spends that output, and the block is faulty exactly when an input spends an output of an earlier transaction that is not there or is spent already |
| `SegmentTopology.OrdinalInjective` | src/BTC/validation.h:32-80 | A block-wide output ordinal names one output, so a mark bit never stands for two |
| `SegmentPasses.FillLocalSpendTopology` | src/BTC/validation.h:32-80 | The pass over the array of indices and the 64-bit words gives the topology the theorems speak of, each output at bit ordinal mod 64 of word ordinal / 64, and never leaves its arrays |
| `SegmentLinker.Segment.ResolveInputs` | src/common/blockDataBase.cpp:511-732 | The linking pass, run on its two probe tables under any hash functions, leaves the marks, residual list, linked slots and verdicts of the linking function |
| `SegmentLinker.SpendInsert` | src/common/blockDataBase.cpp:565-591 | The input joins the list and its outpoint the table, keys read back through that list; if the outpoint is there already the list is as before and the table names the same outpoints |
| `SegmentLinker.Segment.TwinIsSpent` | src/common/blockDataBase.cpp:698-720 | A second transaction of an id may take over the slot only when every output of the first is spent inside the segment |
| `SegmentLinker.Segment.ResolveResidual` | src/common/blockDataBase.cpp:117-157 | After the wave each slot put off holds the base coin if there is one and it is mature, and is empty otherwise, whatever it held before; no other slot has changed; a block is completable exactly when linking had cut none of it and none of its slots is empty |
| `SegmentPasses.ConnectBatch` | src/db/utxodb.cpp:196-263 | The connect walk over a batch, pairs skipped by their marks, gives the batched ledger |
| `SegmentPasses.ConnectSegment` | src/common/blockDataBase.cpp:933-983 | End to end: the answer is the first block the sequential connect rejects, which is the first with an input that breaks the rules of places and heights; the ledger is the sequential one when there is none and untouched when there is |
| `ChainTree.RebaseChain` | src/common/blockDataBase.cpp:159-211 | For any two blocks of a tree: the child of the lowest common ancestor towards the new best, none exactly when the new best is an ancestor of the old; and the old branch above the ancestor, tip first |
| `ChainTree.LcaIsLowest` | src/common/blockDataBase.cpp:159-211 | Where the two walks meet is an ancestor of both blocks, and every common ancestor is an ancestor of it |
| `ChainTree.PathPrefix` | src/common/blockDataBase.cpp:159-211 | Two blocks on one branch have one path, the lower's being the front of the upper's |
| `ChainSwitch.SwitchToKeeps` | src/common/blockDataBase.cpp:398-455 | From a best block that is the tip, and whichever block of the new branch fails: the flags, links and height index describe exactly one path, ending at the last block that connected; the best block is that one exactly when some block connected or nothing came off |
| `ChainSwitch.ConnectSegmentKeeps` | src/common/blockDataBase.cpp:933-983 | The same for a segment, unless the switch to the block under it fails: the path ends at its last block, or at the block under it when it is cut, and the answer is whether every block was completable |
| `ChainSwitch.BestAfterCut` | src/common/blockDataBase.cpp:285-303 | After a cut segment the best block is the tip exactly when reaching the block under the segment was not a mere roll-back |
| `ChainSwitch.BestStaysTip` | src/common/blockDataBase.cpp:933-983 | The next call again starts from a best block that is the tip exactly when the segment connected or needed no roll-back |
| `ChainSwitch.StaleBestBreaksTheChain` | src/common/blockDataBase.cpp:285-303 | The failing case: a cut roll-back followed by a connect leaves flags that describe no path |
| `ChainSwitch.TipIsUnique` | src/common/blockDataBase.cpp:214-221 | Flags, links and height index describe at most one path |
| `ChainSwitch.BlockInMemoryIndex.Switch` | src/common/blockDataBase.cpp:398-455 | The pointer walk over the mutable index does what the switch on values does, and answers whether the whole new branch connected |
| `ChainSwitch.BlockInMemoryIndex.ConnectRun` | src/common/blockDataBase.cpp:933-983 | The same for a segment, the abort of a switch that fails on the way included |
| `ProbeTable.TableSize` | src/common/blockDataBase.cpp:487-494 | A power of two from 1024 up, at least twice what is expected, and less than four times it when past 1024: the load never passes one half |
| `ProbeTable.EmptySlot` | src/common/blockDataBase.cpp:538-591 | A table within its load has an empty slot, under any hash function, so every probe ends |
| `ProbeTable.MissIsAbsent` | src/common/blockDataBase.cpp:538-591 | A probe that comes to an empty slot has shown the key is nowhere in the table |
| `ProbeTable.Table.Find` | src/common/blockDataBase.cpp:538-591 | Finding agrees with the map, keys that collide or wrap around the end included |
| `ProbeTable.Table.Insert` | src/common/blockDataBase.cpp:538-591 | Inserting extends the map, or names the slot of the key that is there and changes nothing |
| `ProbeTable.Table.Rewrite` | src/common/blockDataBase.cpp:698-720 | A slot turned in place to a newer transaction of the same id changes that entry of the map and no other |
| `ProbeTable.Rekeyed` | src/common/blockDataBase.cpp:557-591 | A table stays the same map when the list its keys are read from grows, or shrinks again, behind its references |
| `TxRelayRuns.RunKeeps` | src/BTC/txRelay.cpp:447-636 | The relay's invariant holds after every step of every run with a monotone clock |
| `TxRelayRuns.PeerGoneKeeps` | src/BTC/txRelay.cpp:587-610 | A peer that left is in no request and has no state, in whatever order its requests are dropped |
| `TxRelayTheorems.CountersAreCounts` | src/BTC/txRelay.cpp:471-568 | Each peer's counters are the numbers of requests listing it and asking it, and the first never passes 5000 |
| `TxRelayTheorems.AnnouncersAreReal` | src/BTC/txRelay.cpp:471-568 | Announcers of a request are distinct, at least one, have state, and whoever is asked is one of them |
| `TxRelayTheorems.OneLiveMark` | src/BTC/txRelay.cpp:493-543 | A request has exactly one live mark, among the deadlines if somebody is asked and among the delayed asks otherwise |
| `TxRelayInvariant.PushedOk` | src/BTC/txRelay.cpp:531-542 | Right after `mark` a deque is in order, has lost no live mark, and is at most 2 * requests + 1024 long |
| `TxRelayInvariant.LiveOnlyShort` | src/BTC/txRelay.cpp:531-542 | There are no more live marks in a deque than requests, so compacting makes room |
| `TxRelayTheorems.RankFalls` | src/BTC/txRelay.cpp:507-636 | No step but a new announcement raises a request's rank (2k asked, 2k + 1 delayed, for k announcers), and firing its live mark lowers it |
| `TxRelayTheorems.FiringsAreBounded` | src/BTC/txRelay.cpp:507-636 | Without new announcements a request's live marks fire at most as often as its rank, and after that many it is gone |
| `TxRelayTheorems.MarkDeadlineIs` | src/BTC/txRelay.cpp:199-209 | The two fronts alone give the earliest time of all marks in both deques |
| `TxRelayTheorems.WakeSettles` | src/BTC/txRelay.cpp:181-209 | For every clock that never goes back, read again at each part and each mark of a wake: the wake ends, keeps the invariant, and leaves nothing that was due when it began, so the next deadline is none or later than its first reading |
| `TxRelayMeaning.IgnoredAnnouncement` | src/BTC/txRelay.cpp:471-491 | A known transaction, a peer that is gone, one already listed and one with 5000 listings change no request, no mark and no other peer |
| `TxRelayMeaning.NewAnnouncement` | src/BTC/txRelay.cpp:471-491 | Otherwise the peer is listed last; if nobody is asked and it has fewer than 100 in flight it is asked, the id last in its batch and due in 60 seconds; if it has more and is the first, the request waits 2 seconds; else what was pending stays |
| `TxRelayMeaning.AsksTheFirstFree` | src/BTC/txRelay.cpp:507-521 | The first listed peer with fewer than 100 in flight is asked |
| `TxRelayMeaning.AsksLater` | src/BTC/txRelay.cpp:507-529 | With all of them overloaded the request is put off, or the first is asked if it has waited |
| `TxRelayMeaning.DropsNothing` | src/BTC/txRelay.cpp:544-569 | A peer that is not listed changes nothing by dropping out |
| `TxRelayMeaning.DropsTheRequest` | src/BTC/txRelay.cpp:544-569 | The only one listed drops out: the request is gone, that peer's counts are lower, nothing else differs |
| `TxRelayMeaning.DropsTheListing` | src/BTC/txRelay.cpp:544-569 | One not asked drops out: it leaves the list, the others keep their order, nothing else differs |
| `TxRelayMeaning.DropsTheAsked` | src/BTC/txRelay.cpp:544-569 | The one asked drops out: the first of the rest that can take more is asked, or the request is put off |
| `TxRelayMeaning.ForgetsTheRequest` | src/BTC/txRelay.cpp:571-585 | The request goes, and exactly the peers it listed have one listing less, the one asked also one in flight less |
| `TxRelayMeaning.LeavesEverywhere` | src/BTC/txRelay.cpp:587-610 | The peer is taken off every request that listed it and no other request changes; its orphans go, no others |
| `TxRelayMeaning.ExpiresTheDue` | src/BTC/txRelay.cpp:433-445 | Exactly the orphans whose time has come go |
| `TxRelay.CTxRelay.StateOf` | src/BTC/txRelay.cpp:457-469 | A peer has state from its first announcement on, unless it is already gone |
| `TxRelay.CTxRelay.OnAnnounce` | src/BTC/txRelay.cpp:471-491 | The containers after `announce` are those of the announce step, in each of its branches |
| `TxRelay.CTxRelay.OnDrop` | src/BTC/txRelay.cpp:544-569 | The same for `dropRequest`: one announcer off, another asked or the request gone |
| `TxRelay.CTxRelay.OnKnown` | src/BTC/txRelay.cpp:571-585 | The same for `forget`: the request gone and every counter that held it lowered |
| `TxRelay.CTxRelay.OnTimeouts` | src/BTC/txRelay.cpp:612-623 | The loop over the deadlines fires exactly the live marks due at its first reading, in turn, each at a reading of its own, and keeps the invariant |
| `TxRelay.CTxRelay.OnDelayed` | src/BTC/txRelay.cpp:625-636 | The same for the delayed asks |
| `TxRelay.CTxRelay.OnPeerGone` | src/BTC/txRelay.cpp:587-610 | Exactly the requests that list the peer are collected, once each, and dropped one by one at readings of their own; its orphans and its state go |
| `TxRelay.CTxRelay.Deadline` | src/BTC/txRelay.cpp:199-209 | The result is no later than any mark or orphan expiry, is one of them, and is zero exactly when there is none |
| `ByteGate.AdmittedFits` | src/BTC/txRelay.cpp:161-171 | In every interleaving of optimistic adds and roll-backs, bytes admitted and not released stay within 8 MiB for a peer and 64 MiB in all |
| `ByteGate.CountersReturn` | src/BTC/txRelay.cpp:326-332 | With every message dropped or released all counters are zero |
| `ByteGate.CountersStayUp` | src/BTC/txRelay.cpp:161-171 | No counter ever goes below zero, so the unsigned subtractions do not wrap |
| `ByteGate.RefusedOnlyWhenFull` | src/BTC/txRelay.cpp:161-171 | In every interleaving a message passes the first test exactly when it fits 8 MiB with what its peer holds at that moment, and the second exactly when it fits 64 MiB with what all hold |
| `ByteGate.AloneGetsIn` | src/BTC/txRelay.cpp:161-171 | After any run, with nothing else counted, a message of up to 8 MiB is admitted |
| `EventScope.DeletedAtMostOnce` | src/BTC/network.h:174-200 | In every interleaving each timer event is deleted at most once |
| `EventScope.NeverWhileInside` | src/BTC/network.h:174-200 | No step deletes an event while a thread that was let in is still inside |
| `EventScope.DeletedWhenAllOut` | src/BTC/network.h:174-200 | With the request made and every thread out, both events have been deleted exactly once |
| `EventScope.RequestStands` | src/BTC/network.h:174-200 | A request stays made, and nobody is let in after it |
| `EventScope.OpenUntilAsked` | src/BTC/network.h:174-200 | In every state before a request nothing is deleted and whoever comes is let in |
| `EventScope.AskingIsRecorded` | src/BTC/network.h:174-200 | Asking sets the request and goes on to leave |
| `EventScope.GetsOut` | src/BTC/network.h:174-200 | A thread inside gets out by at most five steps of its own, in whatever state the others leave the word |
| `PbEquivalence.OrderedIsSearching` | src/TRX/pb.h:323-587 | For every shape with ascending numbers and every byte string: the one-pass reader accepts exactly when the searching reader does and every message walked has its fields in order, and then both build the same object |
| `PbEquivalence.CursorSearches` | src/TRX/pb.h:458-587 | On fields in order the cursor finds for each line what a search of the whole message finds |
| `PbEquivalence.CursorStops` | src/TRX/pb.h:524-560 | The cursor fails on a message that is broken or out of order anywhere, even behind the last line asked for |
| `PbEncode.OrderedReadsBack` | src/TRX/pb.h:323-587 | The one-pass reader reads back every object that fits its shape from an encoding given by tags, minimal varints of n mod 2^64, counted bytes and nested messages |
| `PbEncode.SearchingReadsBack` | src/TRX/pb.h:323-450 | So does the searching reader |
| `PbEncode.OrderedWritesBack` | src/TRX/pb.h:323-587 | Bytes the one-pass reader accepts are the encoding of the object it builds, which fits the shape: absent members, defaults and repeated ones leave no second form |
| `PbWire.VarintIsMinimal` | src/TRX/pb.h:41-66 | A varint is read exactly from the minimal form of a number below 2^64 |
| `PbEncode.FieldReadsBack` | src/TRX/pb.h:76-122 | A field with a number below 2^29 and a varint or counted bytes is read from its tag and body |
| `PbEncode.FieldWritesBack` | src/TRX/pb.h:76-122 | A varint or counted field that is read lay in that one form |
| `PbEncode.FixedReadsBack` | src/TRX/pb.h:76-122 | So are fields of eight and of four bytes |
| `PbEncode.FixedWritesBack` | src/TRX/pb.h:76-122 | And there is no other wire type |
| `PbCursor.ReadVarint` | src/TRX/pb.h:41-66 | The shifting loop reads what the definition reads and stays inside the data |
| `PbCursor.MessageCursor.Next` | src/TRX/pb.h:76-122 | Each call yields the next field of the message and moves on, or stops for good with the broken mark set exactly when the bytes are broken |
| `PbCursor.FindOne` | src/TRX/pb.h:419-450 | A search accepts exactly when the message is sound and the field is there at most once, or once if it must |
| `PbCursor.OrderedCursor.Step` | src/TRX/pb.h:531-542 | Moving on fails exactly when a field is out of order or the bytes break |
| `PbCursor.OrderedCursor.Seek` | src/TRX/pb.h:553-572 | Asking for a number hits exactly when the field under the cursor has it, and fails exactly when that field was passed over |
| `PbCursor.OrderedCursor.CountRun` | src/TRX/pb.h:574-583 | Counting ahead on a copy gives the length of the run and moves nothing |
| `WireFormat.SizeWritesBack` | src/BTC/serialize.h:72-97 | A compact size that reads was written in its one shortest form |
| `WireFormat.SizeReadsBack` | src/BTC/serialize.h:53-97 | Every size up to the limit reads back |
| `WrittenForms.SizeForms` | src/BTC/serialize.h:53-70 | A compact size byte by byte, in its four forms |
| `WrittenForms.SizeLimit` | src/BTC/serialize.h:72-97 | A size written in any form reads back up to 32 MiB and is refused above |
| `WireTx.TxWritesBack` | src/BTC/proto.h:197-243 | Bytes accepted as a transaction are exactly the bytes it is written as: marker, flag, witness and extension leave no second form |
| `WireBlock.TxReadsBackExactlyWhen` | src/LTC/proto.h:70-150 | For every transaction: it reads back as itself exactly when its fields fit their encoding, its extension is one that can follow it, and its first bytes are not taken for the marker |
| `WireBlock.NoInputsIsLost` | src/BTC/proto.h:197-243 | One output and no inputs: the transaction fits its encoding, is written, and does not read back |
| `WireBlock.EmptyHogExIsLost` | src/LTC/proto.h:70-150 | A HogEx with an input and no outputs is written and refused |
| `WireBlock.TxSize` | src/BTC/serialize.h:328-357 | The counting pass counts what the writing pass writes |
| `WireBlock.BlockWritesBack` | src/LTC/proto.h:153-174 | Every byte string accepted as a block re-serializes to itself, extension included |
| `WireBlock.BlockReadsBack` | src/BTC/proto.h:245-262 | A block reads back as itself exactly when all its transactions do and its own extension is one that can follow them |
| `WrittenForms.PlainForm` | src/BTC/proto.h:197-243 | An input and an output without witness, byte by byte: no marker |
| `WrittenForms.WitnessForm` | src/BTC/proto.h:197-243 | With a witness: marker and flag in front of the lists, the witness between them and the lock time |
| `WrittenForms.ExtensionForm` | src/LTC/proto.h:70-150 | With Litecoin's extension: flag eight, the object or the empty list behind the lists |
| `WrittenForms.BlockForm` | src/BTC/proto.h:245-262 | The header, the count, the transaction |
| `WireBlock.FillTxLayout` | src/BTC/proto.h:768-782 | The running offset gives each transaction's place and size, in 32 bits |
| `WireBlock.SpanIsTransaction` | src/BTC/proto.h:768-782 | In a stored block under 4 GiB each span is exactly the bytes of its transaction |
| `WireBlock.LayoutMatchesItsBlock` | src/common/blockLayout.h:20-38 | The layout of a block with transactions matches a stored size exactly when it is the block's size |
| `VarInt.IntReadsBack` | src/BTC/serialize.h:114-160 | Every value of the type reads back from its base-128 form, whatever follows |
| `VarInt.IntWritesBack` | src/BTC/serialize.h:131-160 | A base-128 integer that reads has only that form: no second encoding, and no value past the type |
| `WrittenForms.IntForms` | src/BTC/serialize.h:114-129 | The base-128 form byte by byte, up to three groups |
| `VarInt.BuffersFit` | src/BTC/serialize.h:114-129 | Ten bytes for 64 bits and five for 32 are enough for any value |
| `VarInt.FillGroups` | src/BTC/serialize.h:114-129 | The groups go into the buffer last one first and never past its end |
| `VarInt.WriteVarInt` | src/BTC/serialize.h:114-129 | Filling and writing out backwards appends the base-128 form |
| `VarInt.ReadVarInt` | src/BTC/serialize.h:133-160 | The reading loop accepts what the definition accepts, out of bytes and out of range refused |
| `VarInt.SizeOfInt` | src/BTC/serialize.h:101-112 | The counted size is the written one |
| `LinkedOutputs.OutputReadsBack` | src/BTC/proto.h:303-346 | Any record of nine bytes or more comes back byte for byte, zero tails and odd lengths included, exactly when its length fits a compact size |
| `LinkedOutputs.OutputWritesBack` | src/BTC/proto.h:318-346 | Stored bytes that read are written again as they lay exactly when their tail had no zero at the end |
| `LinkedOutputs.StoredSize` | src/BTC/proto.h:303-315 | The backward scan keeps the record without its zero tail, and never cuts into the amount |
| `WrittenForms.OutputForm` | src/BTC/proto.h:303-315 | A stored record byte by byte: full length, flags, amount, what is left without the zeros |
| `WrittenForms.WordsForm` | src/BTC/proto.h:416-445 | Coin words are stored as the highest and the distances below it |
| `LinkedOutputs.LinkedReadsBack` | src/BTC/proto.h:416-445 | All linked outputs and coin words of a block come back exactly when every count, record and word fits its encoding |
| `ScriptRecord.SizeRecovered` | src/BTC/script.cpp:11-44 | The length of a bare multisig script is recovered from its bytes whatever follows them |
| `ScriptRecord.SameAddress` | src/BTC/script.cpp:100-195 | For every output script the address taken from the output is the address taken from its record, or neither has one, and every read of the record stays inside it |
| `ScriptRecord.SameAddressStored` | src/BTC/script.cpp:297-369 | The record of a script is stored and read back exactly when the script is of a kind with a short record or fits a compact size with the amount; and then it gives the same address |
| `ScriptForms.FormHasAddress` | src/BTC/script.cpp:100-195 | The eight forms of output script in literal bytes around any hash, key or list of key pushes: each has its own kind of address with its data padded to 32 bytes, a bare multisig the hash of the whole script |
| `ScriptForms.NoFormNoAddress` | src/BTC/script.cpp:100-195 | A script has no address exactly when it is of none of these forms |
| `ScriptForms.FormHasRecord` | src/BTC/script.cpp:297-369 | Each form has its own kind and stored data, byte by byte |
| `ScriptForms.NoFormRecord` | src/BTC/script.cpp:297-369 | A script of no form is stored whole, or as an empty data carrier when it starts with OP_RETURN |
| `ScriptRecord.IsBareMultisig` | src/BTC/script.cpp:11-34 | The walk accepts exactly scripts whose key pushes fill the space between the two counts and number the second |
| `ScriptRecord.BareMultisigSize` | src/BTC/script.cpp:38-44 | The unbounded walk stops inside the bytes when some byte there is no key push, and gives the end it stops at |
| `Rlp.DecodeWritesBack` | src/ETH/rlp.h:33-97 | A value that decodes was encoded in its one form: no long form for a short payload, no zero in front of a length, no header for a small byte |
| `Rlp.DecodeReadsBack` | src/ETH/rlp.h:33-97 | Every value below 2^64 bytes decodes from its encoding |
| `Rlp.ScalarIsMinimal` | src/ETH/rlp.h:135-145 | A payload is a 64-bit scalar exactly when it is the minimal big-endian form of it |
| `Rlp.TreeWritesBack` | src/ETH/rlp.h:33-131 | A buffer that decodes as a tree re-encodes to the same bytes |
| `Rlp.TreeReadsBack` | src/ETH/rlp.h:471-551 | A tree written decodes back to itself |
| `WrittenForms.StringForms` | src/ETH/rlp.h:471-551 | A string under 64 KiB byte by byte: itself, short header, or the length in one or two bytes |
| `WrittenForms.ListForms` | src/ETH/rlp.h:514-528 | The same for lists |
| `Rlp.LengthBytes` | src/ETH/rlp.h:530-537 | The counting loop gives the length of the minimal big-endian form |
| `Rlp.ListHead` | src/ETH/rlp.h:514-528 | For every payload under 2^64 bytes the head built by shifts in nine bytes is the list header, and never overruns |
| `Rlp.Writer.PutHeader` | src/ETH/rlp.h:539-548 | The same header written byte by byte behind the buffer, for strings and lists |
| `Rlp.Writer.EndList` | src/ETH/rlp.h:514-528 | Closing a list leaves in place of what was written since the marker the canonical encoding of a list with that payload, the one form that decodes to it |
| `Rlp.Writer.WriteTree` | src/ETH/rlp.h:471-551 | Any nesting of begun and ended lists leaves the encoding of the tree at the end of the buffer |
| `Rlp.Writer.U64` | src/ETH/rlp.h:487-495 | A scalar is written in its minimal form |
| `Base58.DecodeOfEncode` | src/common/base58.cpp:63-101 | Any bytes, leading zeros included, decode from their text |
| `Base58.EncodeOfDecode` | src/common/base58.cpp:13-61 | A word without white space that decodes is the text of what it decodes to |
| `WrittenForms.TextForms` | src/common/base58.cpp:63-101 | The text of bytes: a `1` for each zero in front, then characters of the alphabet for digits that sum, each times its power of 58, to the bytes each times its power of 256 |
| `WrittenForms.WordForms` | src/common/base58.cpp:13-61 | Blanks around a word do not count, and anything else behind it is refused |
| `Base58.EncodeBufferFits` | src/common/base58.cpp:63-101 | A buffer of size * 138 / 100 + 1 digits always holds the number, so the carry assertion never fails |
| `Base58.DecodeBufferFits` | src/common/base58.cpp:13-61 | A buffer of size * 733 / 1000 + 1 bytes always holds the number |
| `Base58.EncodeBase58` | src/common/base58.cpp:63-101 | Multiplying and carrying in place gives the text |
| `Base58.DecodeBase58` | src/common/base58.cpp:13-61 | Multiplying and carrying in place gives the bytes, white space around the word skipped and anything else refused |
| `Base58.TakeWord` | src/common/base58.cpp:30-52 | Character by character: each one is refused or converted into the buffer before the next is looked at, and the carry assertion holds at every one of them |
| `Radix.MultiplyAdd` | src/common/base58.cpp:36-51 | One digit taken in: the buffer's value times the base plus the digit, the digits that count kept track of, and no carry left |
| `Radix.DigitsFit` | src/common/base58.cpp:63-101 | One comparison of powers bounds every length |
| `BitGroups.RegroupingLosesNothing` | src/common/bech32.cpp:49-71 | Bytes regrouped into five bits with padding and back without are the same bytes |
| `BitGroups.RegroupingIsExact` | src/common/bech32.cpp:49-71 | Symbols regrouped into bytes without padding are the symbols of those bytes: the refusals leave no second form |
| `BitGroups.ConvertBits` | src/common/bech32.cpp:49-71 | The masked accumulator regroups bits for any two widths, refusals included |
| `Bech32.Polymod` | src/common/bech32.cpp:26-38 | The loop over symbols and generator bits computes the checksum state |
| `Bech32.FoldSplits` | src/common/bech32.cpp:26-38 | The checksum is linear over GF(2) in its state and its symbols |
| `Bech32Field.StepDivides` | src/common/bech32.cpp:26-38 | One turn of the loop is one step of dividing by x^6 + 29x^5 + 22x^4 + 20x^3 + 21x^2 + 29x + 18 over the field of 32 elements |
| `Bech32Field.EndsAs` | src/common/bech32.cpp:26-38 | The checksum word is one of the two constants exactly when the division of the symbols behind a one leaves the remainder of that constant |
| `Bech32.ChecksumIsExact` | src/common/bech32.cpp:73-88 | Six symbols complete any data to the constant exactly when they are the six that are written |
| `Bech32.BurstIsCaught` | src/common/bech32.cpp:26-38 | Two texts of one length that differ only inside six neighbouring symbols never share a checksum, wherever the six lie and however long the texts are |
| `Segwit.DecodeOfEncode` | src/common/bech32.cpp:73-133 | Text reads back as written exactly when its prefix is printable, not empty and without capitals, and all of it fits 90 characters |
| `Segwit.EncodeOfDecode` | src/common/bech32.cpp:92-133 | A text that reads is, in lower case, the one text written for what was read |
| `SegwitForms.TextReads` | src/common/bech32.cpp:92-133 | A text with letters behind its last one is read exactly when it has at most 90 characters, all from `!` to `~` and of one case, a prefix, six symbols at least and one of two remainders; then as the prefix in lower case, the symbols less six, and the variant of that remainder |
| `SegwitForms.ReadsLetters` | src/common/bech32.cpp:92-133 | Nothing else is read |
| `SegwitForms.AddressForm` | src/common/bech32.cpp:139-149 | Character by character: prefix, `1`, the version, the program's number in base 32 padded by less than five bits, and six symbols that leave the first remainder for version 0 and the second for any other |
| `Segwit.SegwitReadsAs` | src/common/bech32.cpp:139-170 | What a reader that expects any prefix h makes of an address: its version and program exactly when both are legal, the address fits, case does not show in it, and h is the prefix in lower case; otherwise nothing |
| `Segwit.SegwitReadsBack` | src/common/bech32.cpp:139-170 | An address reads back as its version and program exactly when both are legal, the prefix can be read back and the address fits |
| `Segwit.CapitalsAreCaught` | src/common/bech32.cpp:92-170 | Under a prefix whose capitals lie within six neighbouring characters no reader accepts the address, whatever prefix it expects |
| `Segwit.TwoBytesAreRefused` | src/common/bech32.cpp:139-170 | A version 0 program of two bytes is written, and no reader accepts it |
| `Segwit.SegwitWritesBack` | src/common/bech32.cpp:151-170 | Every address accepted for a prefix is, in lower case, the one address of its version and program |
| `Segwit.DecodeText` | src/common/bech32.cpp:92-133 | The loops over characters accept what the definition accepts |
| `Segwit.EncodeText` | src/common/bech32.cpp:73-88 | The loops over symbols write what the definition writes |

## Left out

- Memory orders weaker than sequential consistency: every atomic access is one step of one total order.
- Block index: heights and works are unbounded numbers; finding or creating the stub of a parent is part of the step that sets the parent link; loading a stored index is not modelled.
- Segments: txids are distinct and none is live before the segment; repeated ids (BIP30), `resolveBlockInputs` and blocks connected one at a time outside a segment are not modelled. The marks made by linking are sets of ordinals, not words.
- The database is a map of coins; its caches, batches on disk and storage errors are not modelled. Work checks and scripts are an accept-or-reject parameter.
- SegmentUndo.UndoIsInverse: coins are compared without the restored mark, because a coin put back by a disconnect carries it by design.
- ChainSwitch: what connecting a block does beyond flags, links, height index and best block is a parameter that accepts or rejects.
- TxRelay: the mempool's and the filters' answers, and whether a peer is gone, are parameters; sending is not modelled; orphans appear by their expiry times only.
- TxRelay.CTxRelay.OnPeerGone: the order in which a peer's requests are collected is left open.
- Wire format: the form without witness, under which transaction ids are taken, is not modelled; MWEB contents are an opaque canonical codec; the measuring and arena passes of the reader are the plain read pass here.
- Protobuf: the survey mode that tolerates unknown fields is off; field numbers of a shape are below 64.
- ScriptRecord: the bit that marks a local transaction is not set by parsing and not modelled.
- Rlp: sizes are those of the source, below 2^64.
- Bech32: checksum words are sequences of thirty bits; prefix characters outside ASCII, which the source expands through a signed character, are rejected by every reader and expand arithmetically here.
- Base58: texts hold no zero character.
- Hash functions, proof of work, the memory pool, block download, networking, storage files, the HTTP interface and user interface are not part of this model.
