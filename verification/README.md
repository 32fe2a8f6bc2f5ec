# nanocap: a verified model

nanocap captures the traffic of a Nano node into a database. This project models the parts of its C++ and C code where
a mistake would be hardest to see, and proves what those parts are for:

- **BLAKE2.** The streaming hashes BLAKE2b and BLAKE2s, in place over their buffers, with the reference and the vector
  compression; the tree hashes BLAKE2bp and BLAKE2sp, streaming and one-shot, with the leaves' loops interleaved in any
  order; and BLAKE2Xb and BLAKE2Xs. All are proved equal to specifications that mention no buffer: the padded-block fold
  of section 3.3 of RFC 7693, the striped tree over it, and the concatenation of output nodes. Rounds are generic in the
  word type, so the 64-bit and the 32-bit family share their proofs.
- **The capture pipeline.** A queue between two threads, per-flow state machines over a ring of 4096 bytes that
  overwrites when it is full, the readers of block entries, and the database with its ids, references and counts. Every
  handler is a method on objects that are updated in place. Each is proved to make exactly the step that a replay of the
  schedule on values makes (`Schedule.Do`), and to leave in the tables exactly the rows that a ledger has for what was
  handed over (`Ledger.PostAll`). So the database after any schedule is a function of the schedule, and the properties of
  whole streams, whole runs and of the tables are proved about that function.
- **Concurrency.** The thread pool and `ScopeRunner` as transition systems whose steps are the atomic operations, with
  theorems over every run of any number of threads.
- **Bits and numbers.** `read_bits_int` against a plain bit stream, and account texts against the number they stand for.
- **HTTP text.** Percent coding, query strings, and the client's request printer against the server's request parser.

## How it is put together

| files | what they hold |
|---|---|
| `Bytes`, `Division`, `Bits`, `Text` | bytes and words, arithmetic, bit masks, searching in strings |
| `Rounds`, `Blake2b`, `Blake2s` | the scalar rounds in place, the constants, the rounds by rows and diagonals |
| `TwoLanes`, `FourLanes`, `Simd`, `Blake2bSimd`, `Blake2sSimd` | registers of two and four words, the vector macros, the message loads, the vector compressions |
| `Blake2Spec`, `Blake2Hash`, `HashExamples` | the specification of the sequential hash, the state that computes it, and the examples of RFC 7693 |
| `Blake2TreeSpec`, `Blake2Tree`, `Blake2Xof` | the same for the trees and the extensible output |
| `KStream`, `NanoBlocks`, `Messages`, `MessageFormat` | the byte and bit stream, the readers of blocks and entries, the messages, and their wire format |
| `Streams`, `Flow` | reassembly of entries from chunks, and the state machine of a flow |
| `Ledger`, `Schedule`, `Integrity` | the rows that events stand for, the replay of a schedule, and what the tables hold after it |
| `Wipes`, `Sessions`, `Votes` | wiping the data in the middle of a capture, the runs of the program on one file, and the columns of votes |
| `Database`, `TcpHandler`, `PacketHandler` | the same in place: rows and ids, the handling of one chunk, the queue, all the flows and all the runs |
| `ThreadPool`, `ScopeRunner` | the two concurrency protocols |
| `NanoUtil` | numbers, account texts, block hashes |
| `Percent`, `QueryString`, `HttpMessage` | the HTTP text codecs |

A `Variant` (`V2b`, `V2s`) picks the BLAKE2 family; a `Backend` picks the reference code or the vector code for SSE2,
SSSE3 or SSE4.1. Exceptions and error codes are values of `Option` or `Outcome`. Ghost fields record what an object has
been through: the bytes a hash has absorbed, the rows inserted, the chunks a flow has been given.

## Where the code and its comments disagree

- `src/packet_handler.hpp:71-75` says that the ring need only hold a single entry. It has to hold what is left over and
  the next chunk: `Streams.KeepsAllWhen` and `Streams.ChunksOfWhichLength` give the exact bounds, and
  `Streams.LongChunkLosesRecords` a stream that is cut into chunks one byte too long and loses its first record.
- `src/packet_handler.cpp:752-753` says that a bulk push message holds no data and is followed by entries. Its reader
  always reads an entry and then looks at the one behind it (`Messages.ReadBulkPush`), so a bulk push is recognised exactly
  when one entry takes up the rest of its chunk (`Messages.BulkPushParsesWhen`), never on its own
  (`Messages.BareBulkPushThrows`), and never with entries and the type that ends them (`MessageFormat.BulkPushAsSent`).
- `src/db.cpp:45` says that the hashes of a vote are those of its packet. The statement keeps what earlier votes have
  bound to it (`src/db.cpp:739-795`), so a vote by hash names the block of the last regular vote, and a regular vote has the hashes
  of the last vote by hash, over whatever connections these came (`Votes.RowHolds`, `Votes.VoteIsItsOwnWhen`).
- A query string's round trip does not need names free of `=`, only non-empty names free of `&`
  (`QueryString.ParseCreated`).
- `src/util/ctpl_stl.h:141` says that with `isWait` all functors in the queue are run. In every run in which nobody pushes,
  pops or clears meanwhile, that holds if and only if the pool has a thread or the queue is empty at the call
  (`ThreadPool.StopDeletesNothingWhen`); a pool without threads deletes all that is queued (`ThreadPool.EmptyPoolDeletes`).

## Model

| member | source | states |
|---|---|---|
| `Rounds.MixInPlace` | src/blake2/ref/blake2b-ref.c:153-163 | the G macro on four words of v in place is the mixing function of section 3.1 of RFC 7693, and leaves the other twelve words |
| `Rounds.RoundInPlace` | src/blake2/ref/blake2b-ref.c:165-175 | ROUND in place: four columns and then four diagonals, with the message words that sigma selects |
| `Rounds.RunInPlace` | src/blake2/ref/blake2b-ref.c:200-211 | all the rounds in order of the schedule |
| `Rounds.RoundByRows` | src/blake2/sse/blake2b-round.h:145-155 | mixing columns, rotating the rows, mixing columns and rotating back is the scalar round, for any word operations and message words |
| `Rounds.MixProjects` | src/blake2/sse/blake2b-round.h:45-80 | the mixing function on registers is, lane by lane, the mixing function on words |
| `Blake2bSimd.OrderOfOperands` | src/blake2/sse/blake2b-round.h:45-80 | the macros add and xor their operands in another order than the scalar code, which makes no difference |
| `Blake2b.CompressInPlace` | src/blake2/ref/blake2b-ref.c:177-216 | blake2b_compress on arrays computes the compression function F of section 3.2 of RFC 7693, for every chaining value, block, counter and flags |
| `Blake2s.CompressInPlace` | src/blake2/ref/blake2s-ref.c:172-209 | the same for blake2s_compress |
| `Bytes.LoadStore64` | src/blake2/ref/blake2-impl.h:48-118 | load64 undoes store64 |
| `Bytes.StoreLoad64` | src/blake2/ref/blake2-impl.h:48-118 | store64 undoes load64 |
| `Bytes.LoadStore32` | src/blake2/ref/blake2-impl.h:33-101 | load32 undoes store32 |
| `Bytes.WordAt64` | src/blake2/ref/blake2-impl.h:48-118 | byte i of a stored word holds its bits from 8 i on |
| `TwoLanes.G1` | src/blake2/sse/blake2b-round.h:45-62 | the first half of mixing on the low and high halves of the rows |
| `TwoLanes.G2` | src/blake2/sse/blake2b-round.h:64-81 | the second half of mixing on the low and high halves of the rows |
| `TwoLanes.Diagonalize` | src/blake2/sse/blake2b-round.h:84-124 | both variants of DIAGONALIZE, with their temporaries and reassigned rows, rotate rows 2 to 4 by one, two and three words |
| `TwoLanes.Undiagonalize` | src/blake2/sse/blake2b-round.h:99-136 | both variants of UNDIAGONALIZE rotate them back |
| `TwoLanes.RoundOnRows` | src/blake2/sse/blake2b-round.h:145-155 | the vector ROUND on the row halves is the scalar round on the words they hold |
| `TwoLanes.LoadsSse41FollowSigma` | src/blake2/sse/blake2b-load-sse41.h:18-400 | all 48 shuffled loads bring the message words that sigma selects, in all twelve rounds |
| `TwoLanes.LoadsSse2FollowSigma` | src/blake2/sse/blake2b-load-sse2.h:18-65 | so do the 48 loads written out word by word |
| `TwoLanes.StoreRows` | src/blake2/sse/blake2b.c:210-217 | the rows folded into h and stored are the feed-forward of section 3.2 of RFC 7693 |
| `Blake2bSimd.Roti24Rotates` | src/blake2/sse/blake2b-round.h:28-38 | _mm_roti_epi64 by 24, as a byte shuffle or as two shifts, rotates both words |
| `Blake2bSimd.Roti63Rotates` | src/blake2/sse/blake2b-round.h:28-38 | _mm_roti_epi64 by 63, with the doubling in place of a shift, rotates both words |
| `Blake2bSimd.CompressSimd` | src/blake2/sse/blake2b.c:151-218 | for every chaining value, block, counter and flags the vector blake2b_compress leaves in h what the scalar one does, for SSE2, SSSE3 and SSE4.1 |
| `FourLanes.G1` | src/blake2/sse/blake2s-round.h:42-48 | the first half of mixing on four rows of four words |
| `FourLanes.G2` | src/blake2/sse/blake2s-round.h:50-56 | the second half of mixing on four rows of four words |
| `FourLanes.RoundOnRows` | src/blake2/sse/blake2s-round.h:76-86 | the vector ROUND of BLAKE2s is the scalar round on the words of its rows |
| `FourLanes.LoadsSse41FollowSigma` | src/blake2/sse/blake2s-load-sse41.h:18-226 | all 40 chains of blends, shuffles, unpacks and shifts bring the message words that sigma selects |
| `FourLanes.LoadsSse2FollowSigma` | src/blake2/sse/blake2s-load-sse2.h:18-57 | so do the 40 loads written out word by word |
| `FourLanes.StoreRows` | src/blake2/sse/blake2s.c:205-206 | the rows folded into h and stored are the feed-forward |
| `Blake2sSimd.Roti8Rotates` | src/blake2/sse/blake2s-round.h:28-36 | _mm_roti_epi32 by 8, as a byte shuffle or as two shifts, rotates all four words |
| `Blake2sSimd.CompressSimd` | src/blake2/sse/blake2s.c:153-207 | the vector blake2s_compress leaves in h what the scalar one does |
| `Blake2Spec.TwoWords` | src/blake2/ref/blake2b-ref.c:66-70 | the carry makes the two words one counter: incrementing is exact modulo 2 to the 128 (2 to the 64 for BLAKE2s) |
| `Blake2Spec.OneWord` | src/blake2/sse/blake2s.c:66-72 | so does the vector BLAKE2s, which adds to both words as to one |
| `Blake2Spec.BytewiseIsWordwise` | src/blake2/sse/blake2b.c:77-91 | setting up h byte by byte gives what setting it up word by word does, for every parameter block |
| `Blake2Spec.SequentialStart64` | src/blake2/ref/blake2b-ref.c:98-117 | the parameter block of the sequential hash changes only the first word of the initial value, as section 3.3 of RFC 7693 has it, for every output and key length |
| `Blake2Spec.SequentialStart32` | src/blake2/ref/blake2s-ref.c:93-113 | the same for BLAKE2s |
| `Blake2Hash.Hash.constructor` | src/blake2/ref/blake2b-ref.c:81-94 | init_param: a valid state for its parameters that has absorbed nothing, whichever backend |
| `Blake2Hash.Hash.IncrementCounter` | src/blake2/ref/blake2b-ref.c:66-70 | the counter's two words as one number grow by the increment, modulo their range |
| `Blake2Hash.Hash.Compress` | src/blake2/ref/blake2b-ref.c:177-216 | h becomes F of h, the block, the counter and the flags, by the scalar or the vector code |
| `Blake2Hash.Hash.Update` | src/blake2/ref/blake2b-ref.c:221-246 | update appends to what is absorbed; h stays the fold over all blocks but the last, which waits in the buffer even when it is full, whatever stale bytes follow it |
| `Blake2Hash.Hash.Seal` | src/blake2/ref/blake2b-ref.c:257-265 | the last block, padded with zeros over stale bytes, counted and flagged, finishes the fold over everything absorbed |
| `Blake2Hash.Hash.Final` | src/blake2/ref/blake2b-ref.c:248-270 | final yields the digest of everything absorbed exactly if there is room and it is the first final; otherwise nothing changes |
| `Blake2Hash.Hash.StoreWords` | src/blake2/ref/blake2b-ref.c:264-265 | the loop that writes h out puts word i of h, least significant byte first, in the i-th word's place |
| `Blake2Spec.WordsOfBytes` | src/blake2/ref/blake2b-ref.c:264-265 | reading word i of a digest in full length gives back word i of the chaining value |
| `Blake2Spec.BytesDiffer` | src/blake2/ref/blake2b-ref.c:264-265 | different chaining values have different digests in full length |
| `Blake2Hash.DigestWords` | src/blake2/ref/blake2b-ref.c:248-270 | the words of a hash in full length are those of the chaining value behind the last block |
| `Blake2Spec.SerializedFields` | src/blake2/ref/blake2.h:90-124 | where every field of a parameter block is, number by number, in both families |
| `Blake2Spec.BlocksShow` | src/blake2/ref/blake2b-ref.c:82-97 | parameter blocks that differ give different initial chaining values |
| `Blake2Spec.InitialValues` | src/blake2/ref/blake2b-ref.c:23-29 | the initial values are the fractions of the square roots of the first eight primes, in 64 and in 32 binary places, as section 2.6 of RFC 7693 defines them |
| `Blake2Spec.KeyFillsABlock` | src/blake2/ref/blake2b-ref.c:141-147 | a key, of at most half a block, is followed by zeros up to a whole block |
| `Blake2Spec.FlagsInvert` | src/blake2/ref/blake2b-ref.c:191-198 | the flags of the last block and of the last node invert words 14 and 15 of the working vector |
| `HashExamples.Blake2bOfAbc` | src/blake2/ref/blake2b-ref.c:177-270 | the hash of "abc" in 64 bytes is the one in appendix A of RFC 7693, round by round |
| `HashExamples.Blake2sOfAbc` | src/blake2/ref/blake2s-ref.c:172-262 | the hash of "abc" in 32 bytes is the one in appendix B of RFC 7693, round by round |
| `Blake2Hash.Hash.Init` | src/blake2/ref/blake2b-ref.c:98-117 | refused exactly for output lengths of 0 or above the maximum |
| `Blake2Hash.Hash.InitKey` | src/blake2/ref/blake2b-ref.c:120-151 | refused exactly for bad output or key lengths; otherwise the padded key is absorbed as the first block |
| `Blake2Hash.Streamed` | src/blake2/ref/blake2b-ref.c:221-270 | for every key, message and split of it into updates, the result is the hash of section 3.3 of RFC 7693: a function of the concatenation only, the same for all backends |
| `Blake2Hash.OneShot` | src/blake2/ref/blake2b-ref.c:273-300 | the one-shot functions give that same hash, and refuse exactly the bad lengths |
| `Blake2TreeSpec.StripeAt` | src/blake2/ref/blake2bp-ref.c:155-176 | byte k of the r-th block that leaf i absorbs is byte k of the message's block r * lanes + i |
| `Blake2TreeSpec.LeafBytes` | src/blake2/ref/blake2bp-ref.c:44-61 | the parameter block of leaf i byte by byte: fanout 4 or 8, depth 2, node offset i, node depth 0, and the inner length in its place |
| `Blake2TreeSpec.RootBytes` | src/blake2/ref/blake2bp-ref.c:63-80 | that of the root: node offset 0 and node depth 1 |
| `Blake2TreeSpec.NodesDiffer` | src/blake2/ref/blake2bp-ref.c:44-80 | no two nodes of a tree start from the same chaining value |
| `Blake2TreeSpec.AllAbsorbed` | src/blake2/ref/blake2bp-ref.c:136-214 | the leaves together absorb exactly as many bytes as the message has |
| `Blake2Tree.NewLeaves` | src/blake2/ref/blake2bp-ref.c:102-133 | every leaf starts with its own parameters and the padded key, the last one marked |
| `Blake2Tree.Tree.DealRows` | src/blake2/ref/blake2bp-ref.c:155-176 | whatever turns the threads of the parallel form take, and however far, each leaf ends up having absorbed its blocks of all rows |
| `Blake2Tree.Tree.Update` | src/blake2/ref/blake2bp-ref.c:136-185 | update appends to the message; the leaves have absorbed its whole rows and the buffer holds the rest, always less than a row; it is accepted after final, too, and leaves the tree finished |
| `Blake2Tree.Tree.Final` | src/blake2/ref/blake2bp-ref.c:187-214 | final yields the tree hash of the whole message if there is room and it is the first final, and nothing otherwise |
| `Blake2Tree.Tree.HashAtOnce` | src/blake2/ref/blake2bp-ref.c:251-290 | reading straight from the input, in whatever order the threads of the parallel form take their turns - rows, tails and digests - gives that tree hash |
| `Blake2Tree.Tree.Init` | src/blake2/ref/blake2bp-ref.c:81-100 | refused exactly for bad output lengths |
| `Blake2Tree.Tree.InitKey` | src/blake2/ref/blake2bp-ref.c:102-133 | refused exactly for bad output or key lengths |
| `Blake2Tree.Streamed` | src/blake2/ref/blake2bp-ref.c:81-214 | for every key, message, split into updates and interleaving of the leaves' loops in each update the result is the tree hash of the concatenation |
| `Blake2Tree.OneShot` | src/blake2/ref/blake2bp-ref.c:216-291 | the one-shot functions give the same tree hash as the streaming ones, for every interleaving of the leaves' loops |
| `Blake2Xof.OutputAt` | src/blake2/ref/blake2xb-ref.c:105-127 | byte k of output node i is byte k of the digest that this node makes of the root; only the last node is short, and its digest length is the remainder |
| `Blake2Xof.RootFields` | src/blake2/ref/blake2xb-ref.c:49-60 | the root's parameter block: those of a hash in full length, and the declared output length |
| `Blake2Xof.NodeFields` | src/blake2/ref/blake2xb-ref.c:105-120 | that of output node i: its own length, the inner length as leaf length too, node offset i, and the declared length; no key, fanout or depth |
| `Blake2Xof.OutputNodesDiffer` | src/blake2/ref/blake2xb-ref.c:105-120 | no two output nodes start from the same chaining value |
| `Blake2Xof.Xof.InitKey` | src/blake2/ref/blake2xb-ref.c:26-70 | refused exactly for a zero or too large output length or a too long key |
| `Blake2Xof.Xof.Update` | src/blake2/ref/blake2xb-ref.c:72-74 | appends to the message of the root; it is accepted after final, too |
| `Blake2Xof.Xof.Final` | src/blake2/ref/blake2xb-ref.c:76-134 | writes exactly the n bytes of extended output and nothing behind them, if n is the declared length (or none was declared) and this is the first final; otherwise writes nothing |
| `Blake2Xof.OneShot` | src/blake2/ref/blake2xb-ref.c:136-166 | the one-shot functions write the extended output of the message, or nothing for bad lengths |
| `KStream.Stream.ReadBytes` | src/kaitai/kaitaistream.cpp:344-358 | the next bytes, or an exception with the stream at its end if there are too few |
| `KStream.Stream.ReadU8be` | src/kaitai/kaitaistream.cpp:201-208 | eight bytes, most significant first |
| `KStream.Stream.AlignToByte` | src/kaitai/kaitaistream.cpp:293-296 | drops the bits left of a byte |
| `KStream.TakeOut` | src/kaitai/kaitaistream.cpp:319-329 | masking and shifting take the wanted digits out of the accumulator and keep the others, as far as the word goes |
| `KStream.MaskShifted` | src/kaitai/kaitaistream.cpp:332-338 | what a mask of n ones is after a shift that may leave the word |
| `KStream.Stream.ReadBits` | src/kaitai/kaitaistream.cpp:298-330 | the next n bits of the stream, cut to what the accumulator holds; fails exactly if the stream ends before or more than 64 bits are asked for; never more than 7 bits are kept |
| `KStream.ExactWhen` | src/kaitai/kaitaistream.cpp:298-330 | the result is the value of the next n bits if and only if the bits held fit into the word above the bytes shifted in behind them |
| `KStream.NarrowReadsFit` | src/kaitai/kaitaistream.cpp:298-330 | reads of up to 57 bits always fit |
| `KStream.WideReadLosesBits` | src/kaitai/kaitaistream.cpp:311-317 | a read of 58 bits after one of 7 loses a bit |
| `KStream.ReadFields` | src/kaitai/kaitaistream.cpp:298-330 | any run of reads that fit returns consecutive fields of the bit stream, and fails exactly if the stream is too short |
| `NanoBlocks.ReadSend` | src/nano.cpp:88-94 | reads the fields of a send block from their places |
| `NanoBlocks.ReadReceive` | src/nano.cpp:203-208 | reads the fields of a receive block |
| `NanoBlocks.ReadOpen` | src/nano.cpp:300-306 | reads the fields of an open block |
| `NanoBlocks.ReadChange` | src/nano.cpp:219-224 | reads the fields of a change block |
| `NanoBlocks.ReadState` | src/nano.cpp:552-560 | reads the fields of a state block, whose work is big-endian |
| `NanoBlocks.IgnoreUntilEof` | src/nano.cpp:318-333 | takes everything up to the end |
| `NanoBlocks.ReadBlock` | src/nano.cpp:151-178 | the reader that the type selects, and where it leaves the stream |
| `NanoBlocks.ReadEntry` | src/nano.cpp:522-525 | reads an entry exactly when its bytes are all there, and stops behind it |
| `NanoBlocks.ReadFrontierEntry` | src/nano.cpp:914-917 | reads an account and its frontier |
| `NanoBlocks.ParseEncoded` | src/nano.cpp:453-456 | an entry of each of the five kinds, written field by field, is read back whatever comes behind it |
| `NanoBlocks.ParsedIsEncoded` | src/nano.cpp:453-456 | and every entry that is read is made of exactly the bytes it is written as |
| `NanoBlocks.ParseIsStable` | src/nano.cpp:151-178 | bytes that arrive later do not change an entry of a known type that has been read |
| `NanoBlocks.PrefixFails` | src/nano.cpp:151-178 | no proper prefix of such an entry is read as one |
| `Messages.ParsedMatches` | src/nano.cpp:17-73 | the body of every message read is of the class its type calls for, so the casts in the dispatch are safe |
| `Messages.ReadRecords` | src/nano.cpp:106-121 | the do-while loops over peers, hashes and pairs, on the stream: one record at least, and more until the count meets the limit or the data ends |
| `Messages.ReadBulkPush` | src/nano.cpp:426-437 | the do-while loop over the entries, whose guard looks at the entry under the count already raised: it reads one entry, and is done, or fails on the checked access |
| `Messages.BulkPushParsesWhen` | src/nano.cpp:426-437 | so a bulk push is read if and only if one entry takes up all of its data; more data is an out-of-range error |
| `Messages.BareBulkPushThrows` | src/nano.cpp:426-437 | a bulk push without an entry is never read |
| `MessageFormat.BulkPushAsSent` | src/nano.cpp:426-437 | entries of known types, with or without the type that ends them, are recognised as a bulk push if and only if they are one entry without an end or an end without an entry; two entries, or one and an end, are an out-of-range error |
| `MessageFormat.ParseEncodedMessage` | src/nano.cpp:17-73 | every message of the protocol, of every type, is read as itself from its bytes |
| `MessageFormat.ExtensionBits` | src/nano.cpp:822-884 | of the header's last two bytes, the high one holds a block type in its low digit and a list limit in its high digit, and bits 0 and 1 of the low one are the flags |
| `MessageFormat.PublishOnWire` | src/nano.cpp:538-541 | a header of type 3 with a block type in the low digit of its last byte, and that block, are the publish of that block |
| `MessageFormat.ConfirmReqOnWire` | src/nano.cpp:717-728 | a header of type 4 with block type 1 and pairs of hashes: as many as the high digit says, or all of them |
| `MessageFormat.VoteByHashOnWire` | src/nano.cpp:350-370 | a header of type 5 with block type 1, the common part and hashes, up to the limit in the high digit |
| `MessageFormat.BlockOnWire` | src/nano.cpp:350-370 | with any of the five block types instead, a request or vote for that one block |
| `MessageFormat.BulkPullOnWire` | src/nano.cpp:236-262 | bit 0 decides whether a count is read, which is behind a byte that is skipped |
| `MessageFormat.HandshakeOnWire` | src/nano.cpp:382-398 | bit 0 decides whether there is a query, and bit 1 whether there is a response |
| `MessageFormat.ParsedFits` | src/nano.cpp:17-73 | and nothing else is read: lengths, list limits, block types and flags are always those the header calls for |
| `MessageFormat.RecordsBack` | src/nano.cpp:106-121 | the loops over peers, hashes and pairs read back whole lists up to their limit; an item count of zero is no limit |
| `Streams.KeepsAllWhen` | src/packet_handler.hpp:71-76 | the ring keeps all that is left over and the next chunk if and only if both together are at most 4096 bytes |
| `Streams.DrainJoins` | src/packet_handler.cpp:376-413 | draining the ring in two goes takes what draining it at once does |
| `Streams.RestIsShort` | src/packet_handler.cpp:376-413 | what stays in the ring is less than one entry: at most 63 bytes of a frontier stream, 216 of a stream of blocks |
| `Streams.ShortChunksFit` | src/packet_handler.cpp:374-413 | chunks of at most 4033 bytes (frontier) or 3880 bytes (blocks) never make the ring overwrite |
| `Streams.Segmentation` | src/packet_handler.cpp:327-460 | for any cutting of a stream whose chunks fit the ring, entries, leftover and end are those of reading the whole stream at once, unless an entry of an unknown type begins before its last byte |
| `Streams.SameStreamSameItems` | src/packet_handler.cpp:327-460 | two cuttings of one stream give the same entries |
| `Streams.EndsWithItsChunk` | src/packet_handler.cpp:344-355 | the stream ends with exactly the chunk that completes the sentinel |
| `Streams.FrontierRecords` | src/packet_handler.cpp:333-363 | the entries of a frontier response are its 64-byte records in order, up to the first whose account is all zero |
| `Streams.RecordBytes` | src/nano.cpp:914-917 | a record is an account in its first 32 bytes and a hash in the others |
| `Streams.SentBlocksInAnyCut` | src/packet_handler.cpp:372-460 | whatever blocks of the five kinds a peer sends before the not-a-block byte are taken, all of them and in order, in any cutting into chunks of at most 3880 bytes |
| `Streams.SameInEveryCutWhen` | src/nano.cpp:173-176 | the entries of a stream are the same for every cut into chunks that leave room for an incomplete entry if and only if no entry of an unknown type begins before its last byte |
| `Streams.UnknownTypesDependOnTheCut` | src/nano.cpp:173-176 | two bytes of an unknown type are one entry or two, depending on the cut: the shortest stream for which it matters |
| `Streams.LongChunkLosesRecords` | src/packet_handler.hpp:71-76 | a chunk of 4034 bytes behind 63 left over makes the ring drop a byte, and the first record is lost |
| `Streams.LongChunkLosesBlocks` | src/packet_handler.hpp:71-76 | a chunk of 3881 bytes behind 216 left over loses the type of the block they begin |
| `Streams.ChunksOfWhichLength` | src/packet_handler.hpp:71-76 | all such streams in chunks of at most some length give the entries of the whole stream if and only if that length leaves room for the longest incomplete entry: 4033 bytes for frontiers, 3880 for blocks |
| `Flow.FlowData.Reset` | src/packet_handler.hpp:35-46 | a reset flow has its initial values, an empty ring and the given message type |
| `Flow.MessageByType` | src/packet_handler.cpp:524-613 | by the number in the sixth byte of a message: types 2 to 8 and 10 to 13 are handed over, behind the optional note, and the flow is about that type from then on; any other message leaves the flow as new and hands over nothing |
| `Flow.StreamByType` | src/packet_handler.cpp:327-460 | while its type is 6, 7 or 8 a flow is in the stream of a bulk_pull, a bulk_push or a frontier request |
| `Flow.FlowData.Append` | src/packet_handler.cpp:329 | copying a chunk into the ring leaves the latest 4096 bytes |
| `Flow.FlowData.EraseFront` | src/packet_handler.cpp:362 | erasing n bytes at the front leaves the others |
| `Flow.StreamInAnyCut` | src/packet_handler.cpp:327-460 | over any cutting into chunks that fit, the flow hands over exactly what it would for the whole stream at once, counts every entry, and is reset if and only if the sentinel has arrived |
| `Flow.StepsThenChunks` | src/packet_handler.cpp:308-460 | a flow's history followed by chunks is its state after the history followed by those chunks |
| `Flow.FrontierConversation` | src/packet_handler.cpp:327-371 | once a flow has asked for frontiers, whatever happened before, and the closing record has come, it has recorded the records before it, noted their number and is back in its initial state, in any cutting into chunks of at most 4033 bytes |
| `Flow.BulkConversation` | src/packet_handler.cpp:372-460 | the same for a bulk_pull or bulk_push and whatever blocks of the five kinds the peer sends, in chunks of at most 3880 bytes |
| `Flow.AllItemsRecorded` | src/db.cpp:535-600 | with everything recorded and known types, exactly the entries are handed over, none counted invalid |
| `TcpHandler.HandleFrontier` | src/packet_handler.cpp:327-371 | the frontier branch terminates, makes the flow's step, and leaves in the tables the rows of what it hands over |
| `TcpHandler.HandleBulk` | src/packet_handler.cpp:372-460 | so do the bulk_pull and bulk_push branches |
| `TcpHandler.HandleMessage` | src/packet_handler.cpp:625-779 | the flow is about the message now, and its rows are in the tables |
| `TcpHandler.HandlePayload` | src/packet_handler.cpp:524-611 | a payload that is no message changes nothing; only a runtime error counts as a parse error |
| `TcpHandler.HandleTcp` | src/packet_handler.cpp:308-623 | handle_tcp makes exactly the step of the flow's state machine, whatever its state and the chunk, and the tables hold exactly the rows of everything handed over; a flow in a stream keeps the id of its request |
| `Database.Db.FetchAdd` | src/db.cpp:387 | the id dispensed has never been given to a row of this file |
| `Database.Db.InsertRow` | src/db.hpp:90-121 | an insert never meets its primary key, and the count of its packet type stays the number of packets of that type |
| `Database.Db.PutConnection` | src/db.cpp:382-398 | one row in the connection table |
| `Database.Db.PutBlock` | src/db.cpp:896-988 | the block's row in the table of its kind, or no row and no table name |
| `Database.Db.PutTelemetryReq` | src/db.cpp:400-417 | inserts the message's rows, and no id twice; the counts follow |
| `Database.Db.PutTelemetryAck` | src/db.cpp:419-460 | the same |
| `Database.Db.PutFrontierReq` | src/db.cpp:462-486 | the same, and the flow now names the packet and the request |
| `Database.Db.PutBulkPull` | src/db.cpp:501-533 | the same |
| `Database.Db.PutBulkPullAccount` | src/db.cpp:602-627 | the same |
| `Database.Db.PutBulkPush` | src/db.cpp:677-692 | the same, and the flow now names the packet |
| `Database.Db.PutKeepalive` | src/db.cpp:694-728 | inserts a row for the packet and one for every peer |
| `Database.Db.PutConfirmAck` | src/db.cpp:730-806 | inserts the block if there is one, the vote, and the packet that names the vote; the other columns of the vote are those of `Votes.Statement.Put` |
| `Votes.Statement.Put` | src/db.cpp:739-795 | binds the columns of a vote, branch by branch, and inserts all that is bound, now or by an earlier vote |
| `Votes.PutAll` | src/db.cpp:739-795 | the row of each of any number of votes put through the one statement |
| `Votes.RowHolds` | src/db.cpp:739-795 | account, signature, count and kind are those of the vote's own message; the block it names is that of the last regular vote, and the hashes are those of the last vote by hash |
| `Votes.AckHasItsBlock` | src/db.cpp:740-749 | the block that a regular vote names is the one inserted with it, under its id and in its table |
| `Votes.OwnRowWhen` | src/db.cpp:739-795 | a vote gets the row that its message alone calls for if and only if no vote before it has bound a column that it leaves |
| `Votes.VoteIsItsOwnWhen` | src/db.cpp:739-795 | so in a capture the vote table does not keep flows apart: a vote is its own if and only if every vote before it, of any flow, is of its kind or has neither block nor hashes |
| `Database.Db.PutConfirmReq` | src/db.cpp:808-829 | inserts the block if it is recorded, and the packet |
| `Database.Db.PutPublish` | src/db.cpp:870-894 | the same |
| `Database.Db.PutHandshake` | src/db.cpp:831-868 | inserts the packet, and the query and response that are there |
| `Database.Db.PutFrontierEntry` | src/db.cpp:488-499 | a row that refers to the flow's request |
| `Database.Db.PutEntryRows` | src/db.cpp:535-600 | a block and a row that names it and the flow's request or packet, or neither for a block that has no table |
| `Database.Db.PutBlockEntry` | src/db.cpp:535-600 | the same, with an invalid block counted and the first one noted |
| `Database.Db.Put` | src/packet_handler.cpp:531-610 | the put for each type of message enters its rows, and the flow knows its packet and request |
| `Ledger.MessageRowIds` | src/db.cpp:400-894 | the rows of a message carry distinct ids, all drawn for it |
| `Ledger.OnePacketPerMessage` | src/db.hpp:90-121 | every message is exactly one packet row, of the message's type |
| `Ledger.MessageColumns` | src/db.cpp:400-894 | the rows of every kind of message, column by column from the message, each under its id and in its table; of a keepalive one row for every peer |
| `Ledger.BlockTableByType` | src/db.cpp:896-988 | the table of a block by the number of its type |
| `Ledger.ContentIsNamedWhen` | src/db.cpp:808-894 | the content id of a publish or confirm_req names a row if and only if a block of a known kind was recorded |
| `Ledger.MessageKeepsLinks` | src/db.cpp:400-894 | after a message every row that it inserts names its packet, its packet names the block or vote inserted with it, and a flow that has put a request is linked to it |
| `Ledger.ItemKeepsLinks` | src/db.cpp:535-600 | the rows of an entry refer to the request and the packet of their own flow and to the block just inserted, in its table |
| `Ledger.IdsAreDistinct` | src/db.cpp:387-646 | in every capture no id is given to two rows, and all come from the dispenser |
| `Ledger.OrderlyIsLinked` | src/db.cpp:400-894 | if every entry stored comes on a flow whose last message is the request of its stream, every reference (packet, content, request, block) names a row inserted on the same flow, and that of an entry one inserted earlier, whatever other flows put in between |
| `Ledger.RowsStayApart` | src/db.cpp:400-894 | ids apart, the rows of a flow are those of its own events, in order |
| `Ledger.NothingIsReplaced` | src/db.cpp:400-894 | rows under distinct fresh ids replace neither one another nor what the file held |
| `Ledger.LinkedRowsName` | src/db.cpp:462-600 | linked rows, once stored, name rows that are in the tables |
| `Database.Db.constructor` | src/db.cpp:179-232 | a new run starts above every id used before if the runs before drew no more than 10^9 ids each; the counts are those of the packet table; the tables are those of the file |
| `Database.Db.DestroyCaptureData` | src/db.cpp:256-280 | empties all tables and counts, but no id used before the wipe can come again |
| `Database.Reopen` | src/db.cpp:179-183 | the next process starts with the same rows, nothing handed over, and no id in common with any before it, also after a wipe |
| `PacketHandler.Handler.OnDataReady` | src/packet_handler.cpp:51-94 | a chunk goes to the end of the queue with its own flow, which is created if it is new; empty chunks and those with missing data are dropped; nothing else changes |
| `Schedule.FindMissing` | src/packet_handler.cpp:23-45 | the search for a note of lost packets at the beginning of a chunk |
| `Schedule.MissingIsFound` | src/packet_handler.cpp:23-45 | a note of any number of missing bytes is found, whatever follows it |
| `PacketHandler.Handler.Take` | src/packet_handler.cpp:296-301 | the first packet leaves the queue if the thread is idle and not stopped |
| `PacketHandler.Handler.Finish` | src/packet_handler.cpp:302-303 | its flow makes its step, what it hands over is in the tables, and no other flow changes |
| `PacketHandler.Handler.OnConnectionStart` | src/packet_handler.cpp:96-112 | the start is noted, the flow starts afresh in whatever state it was, and no other flow changes |
| `PacketHandler.Handler.OnConnectionEnd` | src/packet_handler.cpp:114-126 | the end is noted, and every flow goes on as it was |
| `PacketHandler.Handler.Wipe` | src/db.cpp:256-280 | the tables are emptied, and the flows and the dispenser go on as they were |
| `PacketHandler.Handler.TablesAreKept` | src/db.cpp:400-988 | the tables are exactly those that the ledger has for the replayed schedule |
| `PacketHandler.Act` | src/packet_handler.cpp:51-306 | every step of either thread is the replay's step: queue, packet in flight, what each flow has been given, what was handed over, and the count of parse errors |
| `PacketHandler.Run` | src/packet_handler.cpp:51-306 | any schedule is replayed, step by step; no id used is forgotten, and every wipe moves the counter of runs on |
| `PacketHandler.Capture` | src/packet_handler.cpp:51-306 | from the opening of a file: the tables and the ids used are those of the replay, chunks are first in first out, every flow has handed over what its own inputs call for, and if all flows were settled at the last wipe, every row names rows that are there |
| `PacketHandler.Lifetime` | src/db.cpp:179-183 | any number of processes that open the file one after the other, each with its own schedule and wipes, leave in it the rows of `Sessions.FileAfter`, and have used the ids of `Sessions.AllInserted` |
| `Schedule.InOrder` | src/packet_handler.cpp:74-93 | in every schedule the chunks handled, in flight and queued are together what was queued, in that order |
| `Schedule.FlowsStayApart` | src/packet_handler.cpp:289-460 | after every schedule each flow has handed over exactly what its own inputs alone call for, and been given exactly the chunks handled for it |
| `Schedule.ConnectionsAsScheduled` | src/packet_handler.cpp:96-126 | a flow is given the starts and ends of its connection that the schedule has, and no others, in order |
| `Schedule.OwnChunksOnly` | src/packet_handler.cpp:289-460 | from any point of any schedule on, while its connection neither starts nor ends, a flow does with the chunks handled for it what it would do with them alone |
| `Schedule.OwnChunksFromTheStart` | src/packet_handler.cpp:289-460 | so a flow whose connection never starts or ends in the schedule depends on its own chunks only |
| `Integrity.ReferencesHold` | src/db.cpp:400-894 | after any schedule, if all flows were settled at the last wipe, every row names rows that are in the tables: its packet, the content of a packet, the request of an entry and its block |
| `Integrity.EveryRowIsThere` | src/db.cpp:400-894 | every row inserted since the last wipe is in the tables under its key, and so is every row that the file had if there was no wipe |
| `Integrity.RowsOfFlow` | src/packet_handler.cpp:289-460 | ids apart, the rows that a flow has inserted, wiped since or not, are those of its own inputs, whatever the other flows did |
| `Integrity.ConversationIsStored` | src/packet_handler.cpp:327-460 | from a request to its rows: in any schedule of any flows, a flow that is handled the whole stream that answers its request inserts exactly the rows of the entries of the stream, with ascending ids, and a note of how many, and all these rows are in the tables at the end |
| `Integrity.MessageIsStored` | src/packet_handler.cpp:524-613 | from a chunk to its rows: in any schedule, once a chunk is finished that is a message of a recorded type on a flow in no stream, all rows of the message are in the tables, its packet with the number of its type among them |
| `Integrity.IdleSettledWhen` | src/packet_handler.cpp:289-306 | with nothing queued or in flight, all flows are settled if and only if none is in a stream that is being recorded |
| `Wipes.WipeKeeps` | src/db.cpp:256-280 | after a wipe at which all flows are settled, nothing that is put later names a row that is gone |
| `Wipes.WipeBreaks` | src/db.cpp:256-280 | after a wipe at which some flow is not settled, there is a continuation that leaves a row which names a row that is gone |
| `Wipes.WipeIsHarmlessWhen` | src/db.cpp:256-280 | at any point of any schedule a wipe is harmless, whatever is captured afterwards, if and only if all flows are settled: for every stream that is being recorded, the chunks queued end it before an entry that gets rows, or the thread is stopped and its chunk in flight, if any, brings no such entry |
| `Sessions.IdsNeverRepeat` | src/db.cpp:179-183 | in any number of runs of the program on one file, with any schedules and wipes, no two rows ever inserted have the same id if every run before the last keeps to its budget of ids, and each run begins above all the ids before it |
| `Sessions.ApartFromNextWhen` | src/db.cpp:179-183 | a run cannot collide with any run that may follow it if and only if no row of it has got an id of the next budget |
| `Sessions.FileIsInserted` | src/db.cpp:179-183 | every row of the file has been inserted by some run |
| `Sessions.FileGrows` | src/db.cpp:179-183 | a run without a wipe adds its rows to the file, and takes or changes none |
| `Sessions.FileIsNamed` | src/db.cpp:179-183 | if in every run all flows were settled at its last wipe, every row in the file names rows that are in it |
| `ThreadPool.OnePlaceEach` | src/util/ctpl_stl.h:93-234 | in every run of any threads each functor pushed is in exactly one place: queued, in hand, run, taken or deleted; so it is run or deleted at most once |
| `ThreadPool.FirstInFirstOut` | src/util/ctpl_stl.h:45-66 | in every run the queue holds the latest functors in the order pushed, so what leaves it has been in it longest |
| `ThreadPool.TakesAtMostOneMore` | src/util/ctpl_stl.h:209-234 | a worker that has been told to stop takes at most one more functor, in any run from any state, and none if it is running one or has just run one |
| `ThreadPool.RunKeepsTold` | src/util/ctpl_stl.h:104-115 | in every run a worker that has been dismissed or told to stop is awake, or will be woken by the resize or stop that told it |
| `ThreadPool.ResizeResizes` | src/util/ctpl_stl.h:88-120 | in every run a resize is done with starting or dismissing threads exactly when there are as many as asked for |
| `ThreadPool.RunKeepsInvariant` | src/util/ctpl_stl.h:93-234 | the invariant behind the theorems: who holds the mutex, which threads may leave, and that no wake-up is lost |
| `ThreadPool.StopRunsEverything` | src/util/ctpl_stl.h:142-170 | if no push overlaps with stop(true) and the pool has a thread, then when it returns no functor has been deleted, and each is run or in the hand of a thread detached before |
| `ThreadPool.JoinNeverStuck` | src/util/ctpl_stl.h:157-164 | while stop waits for a thread, some thread can go on: joining cannot deadlock |
| `ThreadPool.EmptyPoolDeletes` | src/util/ctpl_stl.h:165-167 | in every run in which stop(true) finds no thread, all workers are gone and nobody else touches the queue, stop deletes exactly what was queued at the call |
| `ThreadPool.StopDeletesNothingWhen` | src/util/ctpl_stl.h:142-170 | so stop(true), left alone, deletes nothing if and only if the pool has a thread or the queue is empty at the call |
| `ThreadPool.EmptyPoolStops` | src/util/ctpl_stl.h:142-170 | and in such a pool it does return: from every state in which it can be called there is a run to its end |
| `ScopeRunner.CountsTheLocks` | src/webserver/utility.hpp:318-360 | in every state that any threads can reach, with spurious failures of the swap, the counter is the number of locks alive, or -1 with none |
| `ScopeRunner.LocksBalance` | src/webserver/utility.hpp:318-347 | in every run the locks alive are those granted and not yet released |
| `ScopeRunner.LockIsGrantedWhen` | src/webserver/utility.hpp:335-346 | in every reachable state an undisturbed continue_lock is granted a lock if and only if no stop has taken effect |
| `ScopeRunner.NothingAfterStop` | src/webserver/utility.hpp:351-359 | once a stop has returned no lock is held, and none is ever granted again |
| `ScopeRunner.StopReturnsWhenFree` | src/webserver/utility.hpp:351-359 | a stop can return whenever no lock is held, whatever calls are under way |
| `NanoUtil.Number` | src/util/nanoutil.cpp:15-26 | bytes shifted in one by one are their big-endian number modulo 2^256, for any number of bytes |
| `NanoUtil.PubToAccount` | src/util/nanoutil.cpp:39-61 | the text is the prefix and the 60 base-32 digits of key * 2^40 + checksum, most significant first |
| `NanoUtil.ValueOfDigits` | src/util/nanoutil.cpp:7-13 | reading base-32 digits undoes writing them |
| `NanoUtil.AccountDecodes` | src/util/nanoutil.cpp:39-61 | the text of every 32-byte key gives back the key and the checksum |
| `NanoUtil.AccountsDiffer` | src/util/nanoutil.cpp:39-61 | different keys have different texts |
| `NanoUtil.LeadingDigit` | src/util/nanoutil.cpp:52-57 | the first digit is 1 or 3 |
| `NanoUtil.HashOf` | src/util/nanoutil.cpp:63-149 | hashing field by field is BLAKE2b in 32 bytes of the block's bytes on the wire in front of signature and work, behind a preamble for state blocks |
| `NanoUtil.HashCovers` | src/util/nanoutil.cpp:63-149 | the fields hashed are, in order, exactly the bytes of the block on the wire in front of signature and work; those of a state block come behind 31 zeros and a 6 |
| `NanoUtil.AlphabetIs` | src/util/nanoutil.cpp:7-13 | the digits of accounts are the decimal digits and small letters in ascending order, without 0, 2, l and v |
| `NanoUtil.LittleEndianIs` | src/util/nanoutil.cpp:39-61 | the bytes of a checksum count 256 times more from one to the next |
| `Percent.Encode` | src/webserver/utility.hpp:59-74 | the encoding that decoding is proved to undo |
| `Percent.Decode` | src/webserver/utility.hpp:77-95 | the decoding, with strtol's white space, signs and prefixes for what follows a percent sign |
| `Percent.DecodeEncoded` | src/webserver/utility.hpp:59-95 | decoding undoes encoding on every byte string |
| `Percent.EncodeCharIs` | src/webserver/utility.hpp:59-74 | a letter, digit or one of `-._~` stands for itself; any other byte is a percent sign and two upper-case hexadecimal digits |
| `Percent.OwnEncodingWhen` | src/webserver/utility.hpp:59-74 | a string is its own encoding if and only if it consists of such characters |
| `Percent.EncodingsDiffer` | src/webserver/utility.hpp:59-74 | different byte strings have different encodings |
| `Percent.EncodedIsPlain` | src/webserver/utility.hpp:66-69 | encoded text has no separator of query strings in it |
| `QueryString.Create` | src/webserver/utility.hpp:102-112 | fields joined by `&`, names and encoded values by `=` |
| `QueryString.Parse` | src/webserver/utility.hpp:115-149 | each piece between `&` split at its last `=`, pieces without a name dropped |
| `QueryString.ParseCreated` | src/webserver/utility.hpp:102-149 | parsing gives back the fields created from if and only if every name is non-empty and free of `&` |
| `HttpMessage.ParseHeaders` | src/webserver/utility.hpp:155-167 | the fields up to the first line without a colon, and the stream behind that line |
| `HttpMessage.Parse` | src/webserver/utility.hpp:230-271 | method, target split at its last question mark, version, fields and the rest of the stream; false for every other first line |
| `HttpMessage.CreateRequestHeader` | src/webserver/client_http.hpp:432-449 | the request line and header the client prints, with and without a proxy, path and port |
| `HttpMessage.WriteRequest` | src/webserver/client_http.hpp:253-263 | the whole request, with a Content-Length unless the caller announces the content |
| `HttpMessage.HeadersBack` | src/webserver/utility.hpp:155-167 | printed fields are read back if and only if no value starts with a space; what follows the empty line is left on the stream |
| `HttpMessage.BareFieldBack` | src/webserver/utility.hpp:162-165 | a header line without a carriage return gives the same field |
| `HttpMessage.SameNameWhen` | src/webserver/utility.hpp:29-34 | field names are the same if and only if they differ in the case of letters only |
| `Text.DecimalBack` | src/webserver/client_http.hpp:253-263 | the digits printed for a port or a length stand for that number, and only zero begins with a zero |
| `HttpMessage.ParsePrinted` | src/webserver/utility.hpp:230-271 | the server reads back method, split target, version 1.1, every field in order and the content, if and only if method and target hold no space or newline, names no colon or newline, values no newline or leading space |
| `HttpMessage.ServerReadsRequest` | src/webserver/client_http.hpp:253-263 | the same for the client's arguments: host, port, proxy, method, path, fields and content |

## Left out

- Blake2Hash.Hash.Final: the reference blake2s_final writes as many bytes as the caller asks for, past its 32-byte buffer if asked for more; that length is excluded (`src/blake2/ref/blake2s-ref.c:260`).
- Blake2Tree.Tree.Final: what a leaf whose final failed leaves in uninitialised memory is arbitrary; the parallel form is any interleaving of whole turns of the leaves' loops.
- KStream.Stream.ReadBits: after byte reads in the middle of a byte the accumulator is no window on the stream any more, and only its size is stated; negative and huge widths, for which the shift in get_mask_ones is undefined, are excluded.
- KStream.Stream.ReadBytes: negative lengths.
- TcpHandler.HandleTcp: the stream that answers a bulk_pull_account (`src/packet_handler.cpp:461-523`) never erases what it has consumed and reads through a pointer into the ring after it; a chunk of it is excluded, and `PacketHandler.Run` breaks off in front of one.
- Wipes.WipeIsHarmlessWhen: what follows the wipe may be any schedule without a second one.
- Streams.Segmentation: streams with an entry of an unknown type before their last byte are excluded, since for them it is false (`Streams.SameInEveryCutWhen`).
- PacketHandler.Handler.OnConnectionStart: the reset of a flow on the capture thread is one atomic step, although the code does not lock the flow.
- PacketHandler.Handler.OnDataReady: chunks with missing data are dropped as in the code, and the theorems are about the chunks that are queued.
- PacketHandler.Act: each step of a thread is atomic; ids dispensed by the two threads at the same time are not interleaved within one put.
- Database.Db.PutConfirmAck: the other columns of a vote are modelled apart from the tables, by `Votes`, since they depend on the votes before it; in the tables and in `Integrity.ReferencesHold` a vote is its id and its packet.
- Database.Db.constructor: that a run draws more than 10^9 ids is not excluded by the code; opening a file again requires that it did not happen, and `Sessions.ApartFromNextWhen` says what happens if it did.
- Messages.ParsedMatches: apart from the loops over lists and entries, message bodies are read by a function on the bytes, not by the reading methods that blocks and entries have.
- ThreadPool.StopRunsEverything: what a functor does, exceptions it throws, and fairness of the scheduler; that a sleeping thread is notified in the end is not stated beyond the absence of a deadlock.
- ScopeRunner.CountsTheLocks: the counter is unbounded, and so are the counts of responses and packets; overflow is not modelled.
- Percent.Encode: characters are bytes, so strings with wider characters are excluded.
- QueryString.ParseCreated: a multimap is the list of its fields; the order in which a hash table iterates is not modelled.
- HttpMessage.Parse: what a failed parse leaves in the out-parameters, and the query string where the target has none, are not stated.
- Null pointers and zero lengths passed with them.
- The XOP loads and rotations, the generators of known answers, and the self tests of BLAKE2: they repeat covered ground or only print.
- Big-endian hosts, for which the stream's fixed-width reads swap the other way.
- SQL text, transactions, the size limit that stops a capture, and columns that name no row and are copied from the message.
- The whole-list readers of frontier and bulk responses (`src/nano.cpp:495-506`, `src/nano.cpp:588-606`, `src/nano.cpp:888-899`), which the capture does not use.
- Packet capture, sockets, timers, TLS and the web front end.
- The response parser, the header attribute parser, and `parse_host_port`: they would only add easier members of the kinds already here.
