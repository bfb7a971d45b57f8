# A model of the DQM server in Dafny

This project models the self-contained state machines of the C++ data-quality
(DQM) server, the code under `src/cpp/DQM`, and proves what they are for. Two are
the core: the Patricia tree that interns strings (`StringAtom.h`) and the network
protocol between producers, collectors and viewers (`DQMNet.cc`, `DQMNet.h`).
Around them are the page cache, natural string order, the codec of quality
reports, the line buffer, the directory walker, the wildcard matcher, the strip
chart and the merge of histogram copies per luminosity section.

`dafny verify dfyconfig.toml` checks everything.

## How it is built

Code that works step by step in the source is a class or a method with loops
here, and its contract equates the new state with a function of the old one. The
theorems are lemmas about these functions.

| files | what they hold |
|---|---|
| `StringBits`, `PatriciaTrie`, `StringAtom` | bits of zero-padded strings; the trie as a tree; the array of nodes with up-links, the class `StringAtomTree` and the plain table of strings it refines |
| `Wire`, `Messages`, `WireFormat` | little-endian words, the flag word, the messages and their encodings; which bytes are which message |
| `NetState`, `NetSteps` | peers, wait list, caches, and every handler and event as a function on them |
| `NetInvariants`, `NetFraming`, `NetWaits`, `NetSync`, `NetRelay`, `NetFlush` | theorems about these functions, over single steps, whole runs and several nodes |
| `NetEffects`, `NetExact`, `NetCaches`, `NetInput`, `NetLoop` | the complete effect of each message, read, write, local change and turn of the main loop |
| `NetMeet` | two nodes that connect |
| `NetAlike`, `NetClock` | how far the clock shows in what messages do |
| `NetDuring`, `NetLimit` | runs: a list that comes in by pieces, and a request that is lost |
| `DQMNet` | the class `DQMNet`, whose methods are proved to do what the functions say |
| `Quality`, `PageCache`, `NatSort`, `LineBuffer`, `WalkDirs`, `FastMatch`, `StripChart`, `LumiMerge` | the smaller machines, one file each |

## Main results

**String interning.** The tree of nodes represents a well-formed trie, insertion
keeps it so, and `insert` and `search` do on it what they would do on a plain
table of strings. Keys are arbitrary byte strings, which shows where the code
falls short of a table:

- The root only follows `kids[0]`. A key whose first byte is 0x80 or more is
  stored but never found again, and is stored once more by each insertion.
- `insert` hangs, that is, the guard of its loop over bits holds at every bit,
  exactly if the string is new, its first bit is 0 and a stored key, or the
  root's empty one, equals it up to trailing NULs. The comment in `insert` says
  so for one of the two directions. The comments in `VisDQMTools.h` say that
  binary data are fine; what is true is that whatever a tree holds can be
  written and read back.
- The empty string is the root's own key: inserting and searching it give index
  0. Its `maxbit` wraps around, so the walk stays within its terminating NUL
  exactly while no stored key begins with a NUL byte; with the key of a NUL and
  a 1, it reads a byte beyond.

**The protocol.** In every state that any sequence of connections, reads, partial
writes, timeouts, flushes and local changes can reach: each peer's wait counter
is exact and at most 128, no wait names a lost peer, bytes written and bytes
pending are the bytes queued, and every `GET_OBJECT` accepted was answered once,
with the object of its own name, or is still waiting. The bytes of the answer
carry that name too, except that a name with its last slash at the front loses
that slash. These runs have a clock that is read anew at every message.

However the input is cut into reads, the state reached is the same under one
clock, including where the wait limit or a corrupt message stops the loop.
Whatever two clocks say at each message, the messages dispatched, the bytes left
over, the waits, the names and data in the caches, the answers and all flags are
the same too. What is queued can differ, since `markObjectsDead` forgets requests
after five minutes: a summary then leads to a request or not, and a list carries
data or not. It is the same after each message, and stays so whatever comes next,
iff the clocks agree on the five-minute test for each object at each full
`LIST_BEGIN` and on whether the time of a request counts as one
(`NetClock.SameOutputIff`).

`updateMask` closes a peer iff nothing is to be read, queued or awaited. A
complete message is left in the input by the wait limit alone, and then until the
next read; `NetLimit.RequestLost` is a run in which a request is lost by that: a
client asks 129 times, closes its end, and is given up after 128 answers.

The bytes of a full object list leave the receiver with exactly the advertised
names, and until they have all come nothing held before is lost, however they are
cut into reads and whatever other peers and the main loop do in between. A
request for data that a node lacks travels to the owner and the owner's data come
back to all who wait. Lists of what is new, which `run` never asks for, would tell
the first subscriber only.

For every step the complete effect is proved with all fields and constants
written out: for a message what is stored, what is queued to whom and which flags
and counters change, for a turn of the main loop which waits end, with which
replies, who gets the list and who is given up. A node that connects upstream
greets the other with eight plus eight bytes, is sent the whole list at once and
is told of changes from then on (`NetMeet.Meets`): the loss of a peer with objects
or a local change reaches every subscriber as a whole list at the next turn that
is late enough (`NetLoop.LossIsTold`, `NetLoop.LocalChangeIsTold`).

**The others.** `shrink` evicts the one shortest prefix of pages in age order;
`natcmp` is the lexicographic order of token lists and hence a strict weak order,
in which decimal numbers after equal beginnings compare by value;
the line buffer loses and repeats nothing; the walker's steps are the pre-order
listing, and its `operator==`, which only looks at the top of the stack, holds
between exactly equal positions; fast wildcard paths mean what the pattern
means; the strip chart's first bin is the exact mean; and merging luminosity
sections conserves every bin: the global copy for a section holds what was filled
into it and what the merges for that section took from the local ones.

Where the code does not do what it seems to be for, the exact condition is
proved: `Quality.RoundTripIff` (packed quality reports survive only up to the
first, since packing ends a record with two NULs and unpacking skips one),
`LineBuffers.SplitIff` (`parse` reads one byte past its input),
`StripCharts.MeanIff` (a chart of one bin shows no mean) and
`LumiMerges.MergeConservesIff` (a merge for stream 0 and module 0 takes global
copies for local ones and loses them).

## Model

| member | source | states |
|---|---|---|
| StringBits.BitsIsBit | src/cpp/DQM/StringAtom.h:54-60 | A single bit read with the limit `maxbit` of a string, or with the 0 that the root's empty string has, is the bit of the string padded with NULs for ever, and never reads past the terminating NUL |
| StringBits.SameBitsIffSameStrip | src/cpp/DQM/StringAtom.h:106-113 | The bits of two padded strings differ nowhere iff the strings are equal up to trailing NULs, which is when the search for a differing bit does not end |
| PatriciaTrie.FindStored | src/cpp/DQM/StringAtom.h:95-103 | In a well-formed trie the walk that follows a key's own bits ends at that key |
| PatriciaTrie.FindFollows | src/cpp/DQM/StringAtom.h:147-152 | The key a walk ends at shares with the string sought the bit that led there |
| PatriciaTrie.SplicePoint | src/cpp/DQM/StringAtom.h:115-122 | Where the second walk stops no node tests the first differing bit itself, and every key below differs from the new one first at that bit |
| PatriciaTrie.SpliceLeaves | src/cpp/DQM/StringAtom.h:126-135 | Insertion adds the new key to the keys of the trie and loses none |
| PatriciaTrie.SpliceWellFormed | src/cpp/DQM/StringAtom.h:115-135 | Insertion keeps the trie well-formed: bits strictly increase downwards and each key stays where its bits lead |
| AtomTables.SearchAfterRun | src/cpp/DQM/StringAtom.h:87-158 | After any sequence of insertions into the plain table, also ones at which the code would hang, a string is found iff it was inserted or is empty and its first byte is below 0x80, and then at the index that its first insertion returned; the empty one at 0 |
| StringAtoms.MakeAtoms | src/cpp/DQM/StringAtom.h:196-198 | Any sequence of insertions that each end makes the table and the indexes that the run of the plain table does |
| AtomTables.RootFound | src/cpp/DQM/StringAtom.h:142-158 | The empty string is found at the root, whatever is stored |
| AtomTables.InsertFacts | src/cpp/DQM/StringAtom.h:87-138 | Inserting keeps all keys at their indexes and returns an index that holds the string; inserting a findable string again changes nothing |
| AtomTables.SearchFindsStored | src/cpp/DQM/StringAtom.h:142-158 | A stored key is found at its index if its first byte is below 0x80, and is not found otherwise |
| AtomTables.InsertKeepsOthers | src/cpp/DQM/StringAtom.h:87-138 | An insertion changes the answer of no search for another string |
| AtomTables.AtomStays | src/cpp/DQM/StringAtom.h:163-165 | The index an insertion returned holds its string after any later ones |
| AtomTables.AtomEquality | src/cpp/DQM/StringAtom.h:222-224 | Any two atoms made in one run, with others in between, have equal indexes iff the strings are equal and findable |
| AtomTables.HighKeysRepeat | src/cpp/DQM/StringAtom.h:91-100 | A key with its first bit set is stored by every insertion and never found |
| AtomTables.HighKeyExample | src/cpp/DQM/StringAtom.h:91-100 | The one-byte key 0x80, inserted twice, is stored twice and not found |
| AtomTables.NulAppendedHangs | src/cpp/DQM/StringAtom.h:106-113 | Inserting a stored, findable key with a NUL appended hangs iff that is not stored itself |
| AtomTables.HangExample | src/cpp/DQM/StringAtom.h:106-113 | After `a`, inserting `a` with a NUL hangs |
| AtomTables.Reinsert | src/cpp/DQM/VisDQMTools.h:46-76 | Inserting written strings in order rebuilds the table from any base index |
| AtomTables.ReadBack | src/cpp/DQM/VisDQMTools.h:42-76 | A table that was written can be read into a tree that holds the strings before `base`: no insertion hangs, every index check succeeds, and the table is the same |
| StringAtoms.SpliceRepresents | src/cpp/DQM/StringAtom.h:115-135 | Appending a node and changing one kid of one old node in the array with up-links is the insertion into the trie |
| StringAtoms.LinkKeepsValid | src/cpp/DQM/StringAtom.h:115-135 | The same for the whole array, including keys that the root cannot reach |
| StringAtoms.WalkWithinIff | src/cpp/DQM/StringAtom.h:145-152 | The walk of the empty string, whose `maxbit` wraps around, reads no more than its NUL iff no key of the tree begins with a NUL |
| StringAtoms.EmptyKeyExample | src/cpp/DQM/StringAtom.h:145-152 | With the key of a NUL and a 1 stored, that walk tests bit 15, beyond the string |
| StringAtoms.LoopsIff | src/cpp/DQM/StringAtom.h:111-113 | The guard of the loop over bits holds at every bit, without reading beyond either string, iff the padded strings have the same bits |
| StringAtoms.StringAtomTree.constructor | src/cpp/DQM/StringAtom.h:65-69 | A new tree has only the root |
| StringAtoms.StringAtomTree.Clear | src/cpp/DQM/StringAtom.h:73-83 | Clearing leaves the empty table, whatever was stored |
| StringAtoms.StringAtomTree.FindIsSearch | src/cpp/DQM/StringAtom.h:142-158 | The walk over a valid tree decides exactly what a search of the plain table decides |
| StringAtoms.StringAtomTree.HangsIff | src/cpp/DQM/StringAtom.h:106-113 | For a new string the guard of the loop over bits, for the key the walk ends at, holds at every bit iff a stored key with first bit 0, or the root's empty key, equals it up to trailing NULs |
| StringAtoms.StringAtomTree.Walk | src/cpp/DQM/StringAtom.h:91-100 | The walk along up-links ends, at the node the trie search finds |
| StringAtoms.StringAtomTree.Search | src/cpp/DQM/StringAtom.h:142-158 | `search` returns the table's answer |
| StringAtoms.StringAtomTree.FindFirstDifference | src/cpp/DQM/StringAtom.h:111-113 | The loop over bits ends at the first bit in which the strings differ |
| StringAtoms.StringAtomTree.FindSplicePoint | src/cpp/DQM/StringAtom.h:115-122 | The second walk ends at the parent and the subtree where the new node belongs |
| StringAtoms.StringAtomTree.Link | src/cpp/DQM/StringAtom.h:124-137 | Pushing the node and relinking its parent in place appends the key and keeps the tree valid |
| StringAtoms.StringAtomTree.Insert | src/cpp/DQM/StringAtom.h:87-138 | `insert` makes the table and returns the index that the plain table insertion does |
| StringAtoms.StringAtomTree.Key | src/cpp/DQM/StringAtom.h:163-165 | The key at an index is the table's |
| StringAtoms.ValidSeparated | src/cpp/DQM/StringAtom.h:87-138 | No two keys of a tree, of which the later one is findable, differ in trailing NULs only |
| StringAtoms.WriteAndRead | src/cpp/DQM/VisDQMTools.h:42-76 | Whatever a tree holds from `base` on, writing it and reading it into a tree that holds the rest succeeds and gives the same table |
| StringAtoms.WriteStrings | src/cpp/DQM/VisDQMTools.h:65-76 | The records written are the keys from `base` on with their indexes |
| StringAtoms.ReadRecord | src/cpp/DQM/VisDQMTools.h:51-59 | Reading a record inserts its string and checks the index returned |
| StringAtoms.ReadStrings | src/cpp/DQM/VisDQMTools.h:42-60 | Reading succeeds iff each record's string gets the index it was written with |
| Wire.GetPut32 | src/cpp/DQM/DQMNet.cc:422-435 | A 32-bit word copied into a message is read back |
| Wire.Put32Bytes | src/cpp/DQM/DQMNet.cc:104-109 | The bytes of a word, the least significant one first |
| Wire.WordAtWords | src/cpp/DQM/DQMNet.cc:570-580 | The i-th word of a header is read at offset 4i, whatever follows |
| Wire.FlagsOfWord | src/cpp/DQM/DQMNet.h:25-78 | The type bits and property bits of the flag word do not interfere |
| WireFormat.FlagBits | src/cpp/DQM/DQMNet.h:25-65 | Which bit of the flag word is which flag, and which types are scalar |
| WireFormat.DecodeIff | src/cpp/DQM/DQMNet.cc:444-685 | Which bytes are taken for which message, by message code, length and words, and which name or mark they carry |
| WireFormat.ObjectParts | src/cpp/DQM/DQMNet.cc:574-600 | Which words and bytes of an OBJECT message are flags, version, tag, name, data and quality data |
| WireFormat.OneEncoding | src/cpp/DQM/DQMNet.cc:97-110 | A frame is taken for a request, or for the news that there is no object, of a name iff it is the one sent for that name |
| WireFormat.OneObject | src/cpp/DQM/DQMNet.cc:407-436 | Two frames that say the same of an object are equal |
| WireFormat.ListCounts | src/cpp/DQM/DQMNet.h:527-564 | A list starts with LIST_BEGIN and the number of objects known and ends with LIST_END and the number of objects in it |
| Messages.SplitJoin | src/cpp/DQM/DQMNet.h:384-443 | Joining a directory and a slash-free name and splitting at the last slash gives both back |
| Messages.AdvertisedNameIff | src/cpp/DQM/DQMNet.h:427-443 | An object filed under a name is advertised under that name iff the name's last slash is not its first character |
| Messages.DecodeEncodeObject | src/cpp/DQM/DQMNet.cc:396-440 | Decoding an encoded object gives name, tag, 64-bit version, data, quality bytes and all flags but DEAD back, and its length word is its length |
| Messages.DecodeEncodeGet | src/cpp/DQM/DQMNet.cc:96-110 | The same for a request |
| Messages.DecodeEncodeNone | src/cpp/DQM/DQMNet.cc:378-391 | The same for the news that there is no object |
| Messages.DecodeEncodeList | src/cpp/DQM/DQMNet.h:541-563 | The same for the frames of a list |
| NetState.ReserveSuffices | src/cpp/DQM/DQMNet.h:532-541 | The bytes of an object list, full or of what is new, never exceed what was reserved for them |
| NetState.WaiterIsCounted | src/cpp/DQM/DQMNet.cc:129-141 | The assertion that a released waiter's counter is positive holds |
| NetInvariants.WriteCarries | src/cpp/DQM/DQMNet.cc:710-741 | Over any sequence of partial writes, bytes written and bytes still queued are all bytes queued, in order |
| NetInvariants.GetKeeps | src/cpp/DQM/DQMNet.cc:474-515 | A request accepted is a debt that the same dispatch pays, by one reply or by one wait |
| NetInvariants.DispatchKeeps | src/cpp/DQM/DQMNet.cc:444-685 | Every message, well-formed or corrupt, keeps the invariant |
| NetInvariants.ReceiveKeeps | src/cpp/DQM/DQMNet.cc:746-836 | So does every read, with all the messages it completes and with the loss of the peer |
| NetInvariants.LosePeerKeeps | src/cpp/DQM/DQMNet.cc:67-93 | Losing a peer takes its waits off the list and keeps the invariant |
| NetInvariants.OverdueKeeps | src/cpp/DQM/DQMNet.cc:1208-1233 | Releasing overdue waiters keeps the invariant |
| NetInvariants.UpdateMaskKeeps | src/cpp/DQM/DQMNet.cc:914-938 | `updateMask` closes a connected peer iff it listens for urgent data only, with nothing queued and nothing awaited, and otherwise leaves the write bit set iff something is queued |
| NetInvariants.StepKeeps | src/cpp/DQM/DQMNet.cc:1119-1237 | Every event keeps the invariant |
| NetInvariants.Reachable | src/cpp/DQM/DQMNet.cc:1119-1237 | The invariant holds after every sequence of events, with a clock that is read at every message |
| NetInvariants.PeerAccounts | src/cpp/DQM/DQMNet.cc:474-515 | In every reachable state wait counters are exact and at most 128, no wait names a lost peer, bytes written and pending are the bytes queued, and the requests accepted are, as multisets of names, those answered and those waiting |
| NetInvariants.ReplyCarriesName | src/cpp/DQM/DQMNet.cc:378-440 | The bytes of a reply decode to the name asked for, unless it is an object whose name has its last slash at the front, which that slash is cut off from |
| NetFraming.ProcessConserves | src/cpp/DQM/DQMNet.cc:775-824 | The messages dispatched followed by the input kept are the input received; if the peer is lost the messages are a prefix of it |
| NetFraming.ProcessFrames | src/cpp/DQM/DQMNet.cc:775-824 | Every message dispatched has the length its first word says, at least 8 and below the limit |
| NetFraming.KeptRest | src/cpp/DQM/DQMNet.cc:775-824 | The input kept is less than a message unless the peer is at the wait limit, so a complete, well-formed message is left only there |
| NetFraming.ProcessSplit | src/cpp/DQM/DQMNet.cc:775-824 | Parsing `a + b` is parsing `a` and then what it left followed by `b`, in the state that `a` led to |
| NetFraming.ReceiveTwice | src/cpp/DQM/DQMNet.cc:746-836 | Two reads one after the other lead where one read of both leads, if the clock says the same at each message |
| NetFraming.ChunksDoNotMatter | src/cpp/DQM/DQMNet.cc:746-836 | However a byte stream is cut into reads, the state after it is the same, if the clock says the same at each message: messages, leftover bytes, point of failure and the stop at the wait limit |
| NetEffects.DispatchEffect | src/cpp/DQM/DQMNet.cc:444-685 | What each message does to the wait list and to every peer's cache, and that it does nothing else to them |
| NetExact.DispatchExactly | src/cpp/DQM/DQMNet.cc:444-685 | All else that each message does: what it queues to which peer, in order, which flags of the node and of peers and which counters change, and that nothing else does |
| NetExact.SubscribesExactly | src/cpp/DQM/DQMNet.cc:449-462 | A message of 8 bytes with code 1 sets the update flag of its sender and does nothing else |
| NetExact.ListsExactly | src/cpp/DQM/DQMNet.cc:464-472 | A message with code 2 queues the list of all objects to its sender and does nothing else |
| NetCaches.ObjectStored | src/cpp/DQM/DQMNet.cc:574-627 | The cache entry after an OBJECT message, field by field, and that no other entry of that peer changes |
| NetCaches.OwnerIff | src/cpp/DQM/DQMNet.h:384-425 | The owner of a name is the peer with the lowest socket that holds it, if any does |
| NetCaches.ListHoldsEachOnce | src/cpp/DQM/DQMNet.h:527-564 | A list holds the objects of peer after peer in the order of their sockets, each at one place |
| NetCaches.NewLocalExactly | src/cpp/DQM/DQMNet.cc:1261-1277 | A local object is stored under its full name, keeps the time of the last request, and nothing else changes |
| NetCaches.OnlyLocalExactly | src/cpp/DQM/DQMNet.cc:1282-1301 | Local objects stay iff their full names are known, and nothing else changes |
| NetInput.ReadExactly | src/cpp/DQM/DQMNet.cc:746-836 | A read handles the complete messages one after the other, then gives the peer up iff it is below the limit of 128 waits and the input cannot go on (a length from 8 MB or below 8, or a malformed message), and otherwise keeps the rest and stops listening to a peer that has closed its end |
| NetInput.WriteExactly | src/cpp/DQM/DQMNet.cc:710-741 | Each write call takes as much of the first bucket as the socket accepts, the next call is for the next bucket if that was all of it, and there is none after a call that took nothing |
| NetLoop.LoopFlags | src/cpp/DQM/DQMNet.cc:1192-1236 | A turn of the main loop gives up exactly the peers that have closed their end and neither have anything to come nor wait; clears the flush flag, and starts 15 seconds, iff a flush is due; wakes the node iff a peer with objects was lost; and ends exactly the waits over 5 seconds old, or over the stale limit for a stale object |
| NetLoop.LoopExactly | src/cpp/DQM/DQMNet.cc:1192-1236 | Each peer that stays gets the whole list once if it wants updates and a flush is due, then one reply per overdue wait, in order, with what there is; its mask and its objects' NEW marks change as said, and nothing else |
| NetLoop.NoOverdueWaits | src/cpp/DQM/DQMNet.cc:1208-1233 | After a turn of the main loop the waits left are exactly those within the limit, which is shorter for stale objects |
| NetLoop.LossExactly | src/cpp/DQM/DQMNet.cc:67-93 | A lost peer takes its objects and waits along, and wakes the node iff it had objects |
| NetLoop.LossIsTold | src/cpp/DQM/DQMNet.cc:1192-1199 | After the loss of a peer with objects and the notification, the next turn of the loop that is late enough queues the list of what is left to every subscriber |
| NetLoop.LocalChangeIsTold | src/cpp/DQM/DQMNet.cc:1241-1244 | So after `sendLocalChanges` |
| NetMeet.HelloBytes | src/cpp/DQM/DQMNet.cc:1172-1178 | The bytes that an upstream node is sent first |
| NetMeet.DialIs | src/cpp/DQM/DQMNet.cc:1156-1179 | What a connection that the node opens starts with |
| NetMeet.AcceptIs | src/cpp/DQM/DQMNet.cc:842-878 | What a connection that the node accepts starts with |
| NetMeet.Introduces | src/cpp/DQM/DQMNet.cc:446-472 | Reading these bytes queues the list of all objects, sets the update flag of the sender, and does nothing else |
| NetMeet.Meets | src/cpp/DQM/DQMNet.cc:446-572 | A node connects to another, which reads the greeting; when the first has read the answer it holds for that peer exactly the names that the other holds, and the other has it as a subscriber; the other files objects under the names it advertises them by, and each of its messages is below the size limit |
| NetAlike.DispatchAlike | src/cpp/DQM/DQMNet.cc:444-685 | Handled at two times, a message takes states that differ in times and output to such states; and states of the same output, in which the same objects count as requested, to such states, if the clocks agree |
| NetClock.AgreeIff | src/cpp/DQM/DQMNet.h:452-466 | The latter iff the clocks agree: at a full LIST_BEGIN on which requests are over five minutes old, at a GET_OBJECT for a known object on whether the time is 0, and always at other messages |
| NetClock.ClockDoesNotMatter | src/cpp/DQM/DQMNet.cc:775-824 | Whatever two clocks say at each message, the loop dispatches the same messages, keeps the same input and fails at the same point, and the states differ only in the times of requests and waits and in the output; if the clocks agree, not in the output either |
| NetClock.ChunksAndClocksDoNotMatter | src/cpp/DQM/DQMNet.cc:746-836 | The same for a byte stream cut into reads anyhow, and one read of it all under another clock |
| NetClock.ExactIff | src/cpp/DQM/DQMNet.cc:603-639 | Two nodes that differ in times only and have had the same output count the same objects as requested iff no single next message leads to different output, provided that names are short enough for a summary |
| NetClock.SameOutputIff | src/cpp/DQM/DQMNet.cc:775-824 | Under two clocks the output is the same after each message of a read, and stays so whatever message comes next, iff the clocks agree at each message, provided that the names held are short enough for a summary |
| NetClock.ClockShows | src/cpp/DQM/DQMNet.h:452-466 | A peer has the data of a histogram, requested once: LIST_BEGIN and a summary of it queue a request up to five minutes after that, and none later |
| NetWaits.SweepWaiting | src/cpp/DQM/DQMNet.cc:144-150 | A pass over the wait list that erases while iterating drops the entries condemned and keeps the others in order |
| NetWaits.SweepReplies | src/cpp/DQM/DQMNet.cc:129-150 | Each peer gets one reply for each of its entries released, in order |
| NetWaits.WaitersReleased | src/cpp/DQM/DQMNet.cc:144-150 | When an object or the news of its absence comes, each peer gets that answer once per wait for the name, and no other wait ends |
| NetSync.ReceivedTells | src/cpp/DQM/DQMNet.cc:603-627 | The cache entry after an OBJECT message tells what the message said and is not dead; after a summary it keeps its old data and is stale if it has any |
| NetSync.ListGoesOn | src/cpp/DQM/DQMNet.cc:517-639 | From any state that the first i messages of a full list can have led to, messages i to k lead to such a state for k: while it comes in nothing held before is gone, and what is not dead is what has been advertised, with what was said last under each name |
| NetSync.SyncedAfter | src/cpp/DQM/DQMNet.cc:517-639 | In particular after LIST_BEGIN and the first k objects |
| NetSync.FullList | src/cpp/DQM/DQMNet.cc:517-639 | Receiving the bytes of a full list from a peer below the wait limit leaves the cache with exactly the names advertised, none dead, each with what was said last, and no other peer's cache changed |
| NetSync.PartialList | src/cpp/DQM/DQMNet.h:452-481 | Wherever the bytes of the list are cut off, every object held before the list is still found |
| NetDuring.StepAside | src/cpp/DQM/DQMNet.cc:1119-1237 | Events other than reads and failures of a peer that is read from leave it connected, its input untouched and its objects as they are but for request times and the marks of what is new, and do not make it wait |
| NetDuring.DuringList | src/cpp/DQM/DQMNet.cc:533-538 | However a full list from a connected peer below the wait limit is cut into reads, and whatever other peers send and the main loop does in between, that peer is kept and every object of it held before is found until the last byte has come, after which the cache tells what the list told |
| NetLimit.LeavesOne | src/cpp/DQM/DQMNet.cc:775-836 | A peer that asks another one's missing data once more than may wait, while nobody waits, and closes its end has its last request left in the input |
| NetLimit.RequestLost | src/cpp/DQM/DQMNet.cc:914-938 | After a run from the start in which the other requests were answered, the main loop gives that peer up with the complete request in its input |
| NetSync.AdvertisedNames | src/cpp/DQM/DQMNet.h:527-564 | A node's list names exactly the objects its peers hold, if no name has its last slash at the front |
| NetSync.TwoNodes | src/cpp/DQM/DQMNet.h:527-564 | After one node has received another's list it holds a name for that peer iff the other holds it for one of its own |
| NetRelay.Asks | src/cpp/DQM/DQMNet.cc:494-501 | A request for data that is missing or stale is passed to the owner and the requester put on the wait list |
| NetRelay.Answers | src/cpp/DQM/DQMNet.cc:494-504 | A request for data at hand is answered at once with the object |
| NetRelay.Delivers | src/cpp/DQM/DQMNet.cc:574-639 | When the data come, each peer gets the updated object once per wait for it and nobody waits for it any more |
| NetRelay.RelayedRequest | src/cpp/DQM/DQMNet.cc:474-639 | Through two nodes: a request travels to the owner, and what the requester finally decodes are the owner's name, version, tag, data, quality bytes and flags |
| NetFlush.FlushNotifies | src/cpp/DQM/DQMNet.h:566-597 | A flush queues the whole list once to each peer that wants updates, to the first of them with the NEW marks and to the others without, queues nothing to any other peer, and leaves no object marked new if there was a subscriber |
| NetFlush.NewsGoToFirst | src/cpp/DQM/DQMNet.h:566-597 | Called for incremental lists, `sendObjectListToPeers` sends the whole list to a subscriber that has had none, and otherwise what is new to the first subscriber and an empty list to each other one |
| NetFlush.ChosenAre | src/cpp/DQM/DQMNet.h:527-564 | An incremental list has exactly the objects marked new, as often as they are known; a full one has all |
| DQMNetImpl.DQMNet.constructor | src/cpp/DQM/DQMNet.cc:1249-1252 | The node starts with its local peer and nothing else |
| DQMNetImpl.DQMNet.LosePeer | src/cpp/DQM/DQMNet.cc:67-93 | The loop over the wait list and the removal of the peer make the specified state |
| DQMNetImpl.DQMNet.FindObject | src/cpp/DQM/DQMNet.h:384-425 | The loop over peers finds the first, in the order of their sockets, that holds the name |
| DQMNetImpl.DQMNet.WaitForData | src/cpp/DQM/DQMNet.cc:114-125 | The owner is asked and the wait recorded and counted |
| DQMNetImpl.DQMNet.ReleaseFromWait | src/cpp/DQM/DQMNet.cc:129-141 | The reply is chained, the counter lowered and the entry erased |
| DQMNetImpl.DQMNet.ReleaseWaiters | src/cpp/DQM/DQMNet.cc:144-150 | The loop that erases while iterating does what the pass over the list specifies |
| DQMNetImpl.DQMNet.MarkObjectsDead | src/cpp/DQM/DQMNet.h:452-466 | Every object of the peer is marked dead and old request times are forgotten |
| DQMNetImpl.DQMNet.PurgeDeadObjects | src/cpp/DQM/DQMNet.h:469-481 | Exactly the dead objects are erased, the others keep their order |
| DQMNetImpl.DQMNet.SendObjectListToPeer | src/cpp/DQM/DQMNet.h:527-564 | The two passes over all peers build the bytes of the list of all objects, or of the new ones among them, and, if asked, leave no object marked new |
| DQMNetImpl.DQMNet.SendObjectListToPeers | src/cpp/DQM/DQMNet.h:566-597 | The loop over subscribers, which get the whole list if so asked or if it is their first, makes the specified state |
| DQMNetImpl.DQMNet.OnGetObject | src/cpp/DQM/DQMNet.cc:474-515 | The handler of GET_OBJECT makes the specified state and reply |
| DQMNetImpl.DQMNet.OnObject | src/cpp/DQM/DQMNet.cc:574-639 | The handler of OBJECT makes the specified state |
| DQMNetImpl.DQMNet.OnNone | src/cpp/DQM/DQMNet.cc:642-676 | The handler of NONE makes the specified state |
| DQMNetImpl.DQMNet.OnMessage | src/cpp/DQM/DQMNet.cc:444-685 | Every message is told apart, checked and handled as the step function says, whose effects are `DispatchEffect` and `DispatchExactly`, and is refused iff it is corrupt |
| DQMNetImpl.DQMNet.ProcessInput | src/cpp/DQM/DQMNet.cc:775-824 | The message loop over the input buffer does what the recursive parse specifies |
| DQMNetImpl.DQMNet.OnPeerRead | src/cpp/DQM/DQMNet.cc:746-836 | A read event makes the specified state |
| DQMNetImpl.DQMNet.OnPeerWrite | src/cpp/DQM/DQMNet.cc:710-741 | A write event with any pattern of partial writes makes the specified state |
| DQMNetImpl.DQMNet.UpdateMask | src/cpp/DQM/DQMNet.cc:914-938 | The mask is updated or the peer closed as specified |
| DQMNetImpl.DQMNet.UpdatePeerMasks | src/cpp/DQM/DQMNet.h:599-605 | The loop over peers that may lose some of them makes the specified state |
| DQMNetImpl.DQMNet.ReleaseOverdue | src/cpp/DQM/DQMNet.cc:1208-1233 | The loop over the wait list makes the specified state |
| DQMNetImpl.DQMNet.RunOnce | src/cpp/DQM/DQMNet.cc:1192-1236 | What the main loop does after each dispatch makes the state of the step `Loop`, which `LoopFlags` and `LoopExactly` describe |
| DQMNetImpl.DQMNet.RemoveLocalExcept | src/cpp/DQM/DQMNet.cc:1282-1301 | The local objects left are those named, in their old order |
| Quality.AtoiReads | src/cpp/DQM/DQMNet.cc:155-200 | A code printed with `%d` is read back by `atoi`, also after white space, before other text and with a plus sign in front |
| Quality.AtoiNone | src/cpp/DQM/DQMNet.cc:202 | Text without a number, or with a sign alone, counts as 0 |
| Quality.ReadsDecimal | src/cpp/DQM/DQMNet.cc:202 | A further digit multiplies the number read by ten and adds its value; a minus sign negates it |
| Quality.FieldsInOrder | src/cpp/DQM/DQMNet.cc:155-236 | Packing writes code, result, test name, algorithm and message in this order, each with a NUL, and a NUL; unpacking reads them in that order |
| Quality.UnpackRecord | src/cpp/DQM/DQMNet.cc:170-236 | Unpacking takes exactly one record, of NUL-free fields, off the stream and adds its severity to the flags |
| Quality.UnpackStream | src/cpp/DQM/DQMNet.cc:170-236 | A stream of NUL-free fields that end with one NUL each gives every report back |
| Quality.ReportIsUnion | src/cpp/DQM/DQMNet.cc:215-236 | Each flag is set iff some report has its severity |
| Quality.UnpackPack | src/cpp/DQM/DQMNet.cc:155-236 | Unpacking what was packed from reports of NUL-free fields gives the first report only |
| Quality.RoundTripIff | src/cpp/DQM/DQMNet.cc:155-236 | A list of reports of NUL-free fields survives the round trip iff it has at most one |
| Quality.PackQualityData | src/cpp/DQM/DQMNet.cc:155-166 | The loop writes the specified bytes |
| Quality.UnpackQualityData | src/cpp/DQM/DQMNet.cc:170-236 | The loop reads the specified reports and flags |
| PageCache.ShrunkEvictsPrefix | src/cpp/DQM/VisDQMCache.cc:69-84 | Every page evicted was put earlier than every page kept, or at the same time and comes before it by file and offset; what is kept fits, and would not with the youngest evicted page |
| PageCache.PrefixUnique | src/cpp/DQM/VisDQMCache.cc:69-84 | There is only one such set of pages, so the order of eviction is determined |
| PageCache.StaysIff | src/cpp/DQM/VisDQMCache.cc:69-84 | A page stays iff it fits together with the pages put later and those of the same time and a greater key, whatever the clock said at each put |
| PageCache.JustPutStays | src/cpp/DQM/VisDQMCache.cc:40-57 | A page with a later time than all others stays iff it fits by itself |
| PageCache.VisDQMCache.Get | src/cpp/DQM/VisDQMCache.cc:17-36 | A page found is handed over and forgotten, with its bytes discounted |
| PageCache.VisDQMCache.Put | src/cpp/DQM/VisDQMCache.cc:40-57 | The page is added and the cache shrunk; the byte count stays the sum of the pages and within the limit; if the clock has moved on, the page just put stays iff it fits |
| PageCache.VisDQMCache.Flush | src/cpp/DQM/VisDQMCache.cc:60-66 | Everything is dropped |
| PageCache.VisDQMCache.Shrink | src/cpp/DQM/VisDQMCache.cc:69-84 | The loop ends within the limit, evicts as specified, and pages evicted have earlier times than those kept, or the same and a smaller file and offset |
| PageCache.VisDQMCache.FindOldest | src/cpp/DQM/VisDQMCache.cc:73-79 | The scan in key order finds the page with the least time, the first of them by file and offset |
| NatSort.NatLessIsLexicographic | src/cpp/DQM/NatSort.h:16-52 | `natcmp` is the lexicographic order of the two token lists, numbers before characters |
| NatSort.StrtollReads | src/cpp/DQM/NatSort.h:32-33 | A number written in decimal, with or without a sign, is read back, saturated at 64 bits, up to where its digits end |
| NatSort.PrefixIgnored | src/cpp/DQM/NatSort.h:16-46 | A common beginning that ends outside a number makes no difference |
| NatSort.NumbersByValue | src/cpp/DQM/NatSort.h:30-40 | After such a beginning two decimal numbers compare by value, and if equal what follows decides; with minus signs the other way round |
| NatSort.TextByCharacter | src/cpp/DQM/NatSort.h:18-52 | After such a beginning other characters, signs without a digit included, compare one by one, numbers come before them, and the end of a string comes first |
| NatSort.LexicographicTotal | src/cpp/DQM/NatSort.h:16-52 | Of two token lists exactly one is smaller unless they are equal |
| NatSort.LexicographicTransitive | src/cpp/DQM/NatSort.h:16-52 | The order of token lists is transitive |
| NatSort.IncomparableIff | src/cpp/DQM/NatSort.h:16-52 | Two strings are incomparable iff they have the same tokens |
| NatSort.StrictWeakOrder | src/cpp/DQM/NatSort.h:16-52 | `natcmp` is irreflexive and transitive, and incomparability is transitive |
| NatSort.NotATotalOrder | src/cpp/DQM/NatSort.h:16-52 | It does not tell a number from the same with a plus sign or a zero in front |
| NatSort.NatCmp | src/cpp/DQM/NatSort.h:16-52 | The loop over two pointers computes that order |
| LineBuffers.SplitIff | src/cpp/DQM/LineBuffer.h:89-116 | Splitting the input of `parse` makes no difference iff the byte read beyond the end of a piece does not close a line too soon |
| LineBuffers.FeedConcat | src/cpp/DQM/LineBuffer.h:89-116 | Feeding `a + b` is feeding `a`, then `b` |
| LineBuffers.LinesQueued | src/cpp/DQM/LineBuffer.h:89-116 | Lines that arrive are queued one by one, complete, and what follows the last newline as a line that may grow |
| LineBuffers.RunConserves | src/cpp/DQM/LineBuffer.h:36-163 | In any run of `parse`, `queue` and `consumed`, all characters and line ends received are those taken followed by those buffered |
| LineBuffers.DrainedIff | src/cpp/DQM/LineBuffer.h:142-163 | A reader that takes portions of any size has received exactly the terminated lines, in order, iff `nextBuffer` has no more |
| LineBuffers.BytesAreItems | src/cpp/DQM/LineBuffer.h:166-175 | `length` exceeds the characters left by those consumed of the first line |
| LineBuffers.LineBuffer.Parse | src/cpp/DQM/LineBuffer.h:89-116 | The loop does to the queue what feeding the characters one by one does, with a newline added if the byte behind the data is one and the data do not end in one |
| LineBuffers.LineBuffer.Enqueue | src/cpp/DQM/LineBuffer.h:75-83 | A line is appended to the open one, which is closed on request |
| LineBuffers.LineBuffer.NextLine | src/cpp/DQM/LineBuffer.h:124-134 | The first line and the position in it are returned iff the line is complete |
| LineBuffers.LineBuffer.NextBuffer | src/cpp/DQM/LineBuffer.h:142-151 | What is left of the first line is returned iff the line is complete, and `consumed` may follow for exactly the amounts up to its length |
| LineBuffers.LineBuffer.Consumed | src/cpp/DQM/LineBuffer.h:158-163 | The position moves on and a line consumed to its end is removed |
| LineBuffers.LineBuffer.Length | src/cpp/DQM/LineBuffer.h:166-175 | The loop adds up the sizes of the lines |
| DirWalks.EnterSub | src/cpp/DQM/WalkDirs.h:66-83 | Entering the next subdirectory takes one visit off those a frame still leads to, and the subdirectory's own visits come before its siblings' |
| DirWalks.TopDetermines | src/cpp/DQM/WalkDirs.h:52-63 | In one tree the directory on top and the position in it determine the whole stack |
| DirWalks.WalkShows | src/cpp/DQM/WalkDirs.h:24-83 | A walk shows a directory iff a path without symbolic links leads to it, shows it once, and shows its subdirectories and files as they are |
| DirWalks.VisitLists | src/cpp/DQM/WalkDirs.h:24-41 | A directory is shown with exactly the names of the entries that are directories and of those that are files, in the order of the directory |
| DirWalks.WalkOrder | src/cpp/DQM/WalkDirs.h:24-83 | The walk is in pre-order: a directory comes before all that lies below it, and all below it before the next directory beside it in the order of the parent |
| DirWalks.WalkDirs.Push | src/cpp/DQM/WalkDirs.h:24-41 | The loop over entries sorts them into subdirectories and files and skips symbolic links |
| DirWalks.WalkDirs.Equals | src/cpp/DQM/WalkDirs.h:52-63 | `operator==` holds iff the two walkers of a tree are in the same state, and with the end iff the walk is over |
| DirWalks.WalkDirs.Next | src/cpp/DQM/WalkDirs.h:68-83 | `operator++` moves to the first of the visits to come, or to the end |
| DirWalks.WalkDirs.Walk | src/cpp/DQM/WalkDirs.h:68-83 | Stepping from the root until the iterator equals the empty one ends and yields exactly the recursive pre-order listing |
| FastMatches.FastIsGlob | src/cpp/DQM/DQMStore.cc:129-262 | Whenever a fast path is chosen it answers, on every input, what a recursive glob matcher answers for the whole pattern |
| FastMatches.FastIff | src/cpp/DQM/DQMStore.cc:145-197 | A fast path is chosen iff the pattern is plain text with one star at an end or a star at each end |
| FastMatches.FastMatch.constructor | src/cpp/DQM/DQMStore.cc:145-197 | The constructor's counting and editing make that choice |
| FastMatches.FastMatch.CompareStringsReverse | src/cpp/DQM/DQMStore.cc:205-224 | The loop from the back decides whether the pattern is a suffix |
| FastMatches.FastMatch.CompareStrings | src/cpp/DQM/DQMStore.cc:226-245 | The loop from the front decides whether the pattern is a prefix |
| FastMatches.FastMatch.Match | src/cpp/DQM/DQMStore.cc:247-263 | `match` answers as the path chosen, or else as the regular expression |
| FastMatches.FastMatch.Matches | src/cpp/DQM/DQMStore.cc:129-263 | A matcher made from a pattern answers what the pattern means, provided that the regular expression does where it is used |
| StripCharts.FilledShows | src/cpp/DQM/MonitorElement.cc:348-408 | After any n values a chart of at least two bins holds the values themselves while they fit, and later the exact mean of the oldest in bin 1 and the latest in order in the others, with nothing in the underflow and the overflow |
| StripCharts.MeanIff | src/cpp/DQM/MonitorElement.cc:362-394 | The first bin holds the mean of the older values, whatever they are, iff the chart has a second bin |
| StripCharts.LabelsNameFills | src/cpp/DQM/MonitorElement.cc:360-414 | The labels of the second and the last bin count to the values these bins hold |
| StripCharts.StripChart.ShiftFillLast | src/cpp/DQM/MonitorElement.cc:348-418 | The loop over bins and the updates of entries and labels make the specified chart |
| LumiMerges.OrderTotal | src/cpp/DQM/DQMNet.h:181-199 | Of two different keys exactly one is before the other, as a set needs |
| LumiMerges.OrderTransitive | src/cpp/DQM/DQMNet.h:181-199 | The order of keys is transitive |
| LumiMerges.BeforeIff | src/cpp/DQM/DQMNet.h:181-199 | The order is by run, lumi, stream and module, then by directory and by name as in a dictionary |
| LumiMerges.VisitConserves | src/cpp/DQM/DQMStore.cc:440-477 | A turn of the scan moves the bins of a local copy to its global one and loses none, if they are not the same element |
| LumiMerges.MergeConservesIff | src/cpp/DQM/DQMStore.cc:414-480 | A merge conserves every bin summed over all copies, whatever has been booked, iff it is not for stream 0 and module 0 |
| LumiMerges.GlobalIsLost | src/cpp/DQM/DQMStore.cc:440-477 | For stream 0 and module 0 a global copy is added to itself and then reset |
| LumiMerges.MergeMovesEachOnce | src/cpp/DQM/DQMStore.cc:424-480 | Although it inserts into the set it scans, a merge for a stream or module, on a store with local copies of lumi 0 only, resets exactly those of its stream and module, adds each once to its global copy or makes it one, and changes nothing else |
| LumiMerges.MergeWritten | src/cpp/DQM/DQMStore.cc:424-480 | With the keys written out: the bins of a local copy of lumi 0 are added to those of the global copy for the lumi asked for, which is made if there is none, and are then zero; copies that are not selected stay as they are |
| LumiMerges.MergeElsewhere | src/cpp/DQM/DQMStore.cc:424-480 | Copies of other streams and modules and global copies of other lumis do not change |
| LumiMerges.RunMovesEachOnce | src/cpp/DQM/DQMStore.cc:424-480 | So after any bookings, fills and merges, since local copies are booked with lumi 0 and no operation makes others |
| LumiMerges.RunHolds | src/cpp/DQM/DQMStore.cc:414-480 | After any run the global copy for a lumi holds exactly what was filled into it and what local copies held at the merges for that lumi, and a local copy what was filled into it since its last merge |
| LumiMerges.RunConserves | src/cpp/DQM/DQMStore.cc:414-480 | After any bookings, fills and merges, the copies of a bin sum up to what was filled into it |
| LumiMerges.DQMStore.LowerBound | src/cpp/DQM/DQMStore.cc:424-426 | The scan starts at the first key not before the prototype |
| LumiMerges.DQMStore.Next | src/cpp/DQM/DQMStore.cc:428-479 | An iterator moves to the next key of the set as it is then |
| LumiMerges.DQMStore.Move | src/cpp/DQM/DQMStore.cc:440-477 | The global copy for the lumi asked for is found and added to, or cloned, and the local one reset |
| LumiMerges.DQMStore.MergeAndReset | src/cpp/DQM/DQMStore.cc:414-480 | The loop makes the state that the scan specifies, and ends |

## Left out

Of the protocol:

- Sockets, selectors, pipes, logging and clocks: a read is an event with the bytes, a write an event with the amounts accepted, and the time is an input, one value per message and one per turn of the main loop; the time of a request and that of its wait, which the source reads one after the other, are one value. A read event takes everything up to the loop's end at once.
- Threads and locks: steps are atomic. In particular `StringAtomTree::insert` searches before it takes its lock.
- The record of automatic connections (`AutoPeer`) and its retry times: opening a connection is an event.
- The order of a hash set of objects is taken to be the order of insertion, and objects are found by name alone, whatever their hash.
- Bytes are little-endian, names and data stay below 4 GB, and the `info` of a wait is empty, as in every call.
- The history fields of a peer (`log`, `written`, `asked`) are not in the source; no handler reads them.

Of the string tree:

- StringAtoms.StringAtomTree.Insert: requires that the call does not hang; exactly when it would is what `HangsIff` states. Like `Walk` and `Search` it requires for the empty string that no key begins with a NUL, beyond which it reads memory that is not part of this model (`WalkWithinIff`).
- Strings of 2^29 bytes and more, for which the 32-bit `maxbit` wraps around.
- The constructor `StringAtom` for tests, which searches instead of inserting.

Of the rest:

- Quality.UnpackQualityData: covers buffers in which every record is complete; on others the source reads beyond the buffer. Codes fit into an `int`. Test results are kept as the text that was printed, without the rounding of printing a float.
- LineBuffers.LineBuffer.Consumed: requires, as the comment in the source demands, no more bytes than `nextBuffer` returned.
- DirWalks.WalkDirs.Walk: the file system does not change during the walk, names are distinct in a directory, and directories can be read.
- FastMatches.FastMatch.Match: the regular expression for the other patterns is an input. That it agrees with the glob on patterns with a fast path needs patterns of the safe characters of `DQMStore.cc` line 56.
- StripCharts.StripChart.ShiftFillLast: real numbers instead of floating point, error 0, and one-dimensional histograms; bin errors, whose formulas the source marks as unchecked, and the branch for other kinds of histogram are not modelled.
- LumiMerges.RunConserves: histograms are arrays of real bins; copies of one element are booked with the same shape, since ROOT refuses to add others; booking an existing element, which resets it, and deleting elements are not modelled. Scalars are not conserved: a merge drops a local scalar that has a global copy.
- `mergeAndResetMEsRunSummaryCache`, which differs in not resetting the local copies.
- Merging histograms with extendable axes, references, quality tests, the directory scans of `DQMStore`, files, rendering, layouts and the web server.
