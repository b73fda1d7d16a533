# Models of the dex writer, the ADB debugger plugin and the CFG dumper

This project models three parts of the Android runtime sources and proves what they promise.

**The dex writer and its inverse** (`dexlayout/`). `DexWriter::Write` lays an intermediate
representation (IR) out as a dex file: nineteen sections, some of which hold offsets of sections that
are written later, so they are reserved first and filled in a second pass. The model has the stream
with its grow-on-demand storage and its write-once check, every item writer, the two passes, the map
list and the header. The main results: the container ends up holding a file that is a function of the
IR (`DexFileWriter.Write`); every item stands whole, aligned and apart from every other item, encoded
with the final offset of everything it points at (`FileTheorems`); header, data section and map list
mean what the format says they mean, byte by byte (`FileHeader`); and a reader that starts from the
header and the map list and follows every offset finds exactly what the IR says
(`WholeFile.ReadBack`). Beside them: encoded values (round trip, shortest form, and exactly which
values survive), catch-handler lists, debug-info lengths, hidden-API flags, the builder's
offset-to-item maps, the compact writer's deduplication over any run of items and files, and what
exactly dexlayout's own output comparison compares.

**The ADB connection plugin** (`adbconnection/`). The poll loop is a class whose methods are the
source's; each is proved equal to a step function. Over the steps of plugin, agent and peer together,
an invariant is proved for every run: no check of the loop can fail, descriptors and flags agree with
what the agent has seen, data is read at packet boundaries, every packet sent answers the request
just read, and the agent is asked for a handshake exactly when one is due, with one exception that is
characterised exactly. The eventfd write lock is
a second state machine with any number of publishing threads, and `AdbThreads` runs the two together,
each wake-up being the steps its locking consists of. The option strings of the agent are a
class proved against an ordered list of pairs.

**The CFG dumper** (`dexdump/dexdump_cfg.cc`). The loops over a method's instructions, proved to build
the graph of the code: blocks partition the instructions, and the edges are exactly the
fall-throughs, the branch and switch targets and the exception handlers. Handlers are collected per
block first and per instruction only where that is not enough; which of the two an edge comes from is
characterised exactly.

Conventions. A pointer between IR items is an index into the collection, a nullable one an
`Option`. Offsets are unbounded numbers whose low 32 bits are written; the theorems about reading
back ask for a file smaller than 4 GiB. Debug checks of the source are
preconditions or assertions and are discharged. Sockets, threads, the runtime and the clock appear as
parameters: what a read returns, whether a send succeeds, which descriptor is ready. Methods written
against a stream state the image it ends with (the bytes reached so far, everything beyond being
zero).

Where the code and its comments or documentation differ, the model follows the code:

* The comment on the compact writer's deduplication says padding is excluded. The key includes it.
  Offsets are right for alignment 1, which both users pass, and for no other
  (`CompactData.RightIffUnaligned`).
* The dex format asks for offset 0 where a table is empty. An empty table keeps the offset its
  collection had before writing (`FileTables.ZeroTogetherIff`). A class filter that drops every class
  leaves such a table, although a comment says that writing fixes this up
  (`FileTables.FilteredClassesKeepOffset`).
* The output comparison is there to check that two files are the same. It compares the first
  half of each method's instructions, treats a missing superclass as type 0 and a missing source file
  as the empty string, ignores a mismatch of prototype parameters apart from the message, does not
  look at the indices of method types and method handles inside encoded values, and does not look at
  a second class of the same type. `DexVerify.VerifyOutputDexFile` says exactly what is accepted, and
  a lemma for each of these says when two inputs pass for the same.
* The option store promises that the transport is issued before the address. Options that name an
  address themselves can break this (`JdwpOptions.TransportBeforeAddress`). The argument's text says
  what was put into it unless a package name with a comma or space goes into a log file's path
  (`JdwpOptions.TextSaysThePairs`).
* When the plugin sends descriptors again because data arrived, it asks the agent for a handshake,
  also if it has performed one on that connection (`AdbRuns.HandoverInEveryRun`).

Files, from the bottom up: `Bytes`, `Leb128`, `Stream`; `EncodedValues` and the four
`EncodedValue...` files; `DexIr`, `CatchHandlers`, `Items`, `Packing`, `Layout`, `LayoutFacts`,
`FileBody`; the writers `ItemWriters`, `ListWriters`, `HiddenApi`, `SectionWriter`, `FileSections`, `MapList`,
`DexFileWriter`; `FileTheorems`; the reader and the round trip in `Reading`, `FileReader`,
`ItemDecoding`, `FileMeaning`, `FileRoundTrip`, `FileTables`, `WholeFile`, `FileHeader`, `Utf8`,
`FileFields`; the builder's parts
`CatchHandlerLists`, `DebugInfo`, `CollectionMaps`; `CompactData`; `DexVerify`, `DexVerifyMeaning`; `AdbPackets`,
`AdbConnection`, `AdbRuns`, `AdbReplies`, `WriteLock`, `AdbThreads`, `JdwpOptions`; `Cfg`, `CfgEdges`.

## Model

| member | source | states |
|---|---|---|
| Leb128.EncodeUnsignedLeb128 | libartbase/base/leb128.h:246-256 | the encoder loop produces the seven-bit form, low bits first |
| Leb128.EncodeSignedLeb128 | libartbase/base/leb128.h:284-295 | the loop driven by the bits above the sign produces the signed form |
| Leb128.UlebRoundTrip | libartbase/base/leb128.h:33-56 | decoding an encoded `uint32_t`, whatever follows it, gives the value and stops exactly behind it |
| Leb128.SlebRoundTrip | libartbase/base/leb128.h:116-147 | the same for every `int32_t` |
| Leb128.UlebShortest | libartbase/base/leb128.h:201-208 | no byte string that decodes to a value is shorter than the encoder's |
| Streams.VectorSection.Resize | dexlayout/dex_container.h:71-73 | keeps what fits and pads with zeros |
| Streams.Stream.EnsureStorage | dexlayout/dex_writer.h:156-162 | growing by half until the bytes fit loses nothing and adds only zeros |
| Streams.Stream.Seek | dexlayout/dex_writer.h:85-87 | moves; what was reached before stays, new room is zero |
| Streams.Stream.Write | dexlayout/dex_writer.h:91-99 | every byte written over is zero (the debug check, as a precondition); afterwards the image is the old one with the bytes at the position |
| Streams.Stream.Overwrite | dexlayout/dex_writer.h:101-106 | the same without that precondition |
| Streams.Stream.Clear | dexlayout/dex_writer.h:108-112 | zeroes a range without moving |
| Streams.Stream.WriteUleb128 | dexlayout/dex_writer.h:122-128 | appends the unsigned encoding and returns its length |
| Streams.Stream.WriteSleb128 | dexlayout/dex_writer.h:114-120 | appends the signed encoding and returns its length |
| Streams.Stream.AlignTo | dexlayout/dex_writer.h:130-133 | moves to the next multiple; the padding is zero |
| Streams.Stream.Skip | dexlayout/dex_writer.h:135-138 | moves; the skipped bytes are zero |
| Streams.SpliceInside | dexlayout/dex_writer.h:91-112 | a write inside, or beyond, an earlier write to zeroed room is one write of the combined block |
| Streams.ClearAll | dexlayout/dex_writer.h:108-112 | clearing a write, and the padding before it, leaves the image as it was, only longer |
| EncodedValueWriter.EncodeSignedValue | dexlayout/dex_writer.cc:33-48 | stops at, and stores, the shortest two's-complement form (`EncodeLongValue` at lines 59-74 is the same loop on 64 bits) |
| EncodedValueWriter.EncodeUIntValue | dexlayout/dex_writer.cc:50-57 | stores the shortest zero-extended form |
| EncodedValueWriter.EncodeFilledValue | dexlayout/dex_writer.cc:81-108 | floats and doubles: from the top byte down, stores the pattern without its low zero bytes, ending at the buffer's end |
| EncodedValueWriter.WriteEncodedValue | dexlayout/dex_writer.cc:115-187 | writes exactly the encoding of the value, through nested arrays and annotations |
| EncodedValueWriter.WriteEncodedArray | dexlayout/dex_writer.cc:189-194 | the count and the elements |
| EncodedValueWriter.WriteEncodedAnnotation | dexlayout/dex_writer.cc:196-204 | type, count, and each name with its value |
| EncodedValueRoundTrip.ValueRoundTrip | dexlayout/dex_ir_builder.cc:1097-1223 | for every representable value of every type, nested to any depth: the builder's reader, run on what the writer emits followed by anything, returns the value and exactly what follows |
| EncodedValueShortest.ReadShortest | dexlayout/dex_ir_builder.cc:1097-1223 | whatever bytes the reader consumes for a value, the writer's encoding of that value is no longer |
| EncodedValueShortest.RoundTripsIffRepresentable | dexlayout/dex_writer.cc:115-204 | a value survives writing and reading if and only if every type in it is known and every count in it fits 32 bits |
| EncodedValueShortest.UnknownTypeIsLost | dexlayout/dex_writer.cc:177-194 | the concrete loss: an array holding one value of an unknown type is written as two bytes that no longer read as an array |
| EncodedValueFormat.FirstByte | dexlayout/dex_writer.cc:115-187 | the first byte by the format's numbers: the type below, above it the number of further bytes less one, a boolean's value, or 0 |
| EncodedValueFormat.Payload | dexlayout/dex_writer.cc:33-108 | the bytes behind it: two's complement, the index as it is, or the bit pattern without its low zero bytes |
| ItemWriters.WriteEncodedFields | dexlayout/dex_writer.cc:206-214 | index differences and access flags |
| ItemWriters.WriteEncodedMethods | dexlayout/dex_writer.cc:216-228 | index differences, access flags and code offsets |
| ItemWriters.WriteClassData | dexlayout/dex_writer.cc:655-673 | four counts and the four member lists |
| ItemWriters.WriteStringData | dexlayout/dex_writer.cc:246-253 | character count, bytes, and the terminating zero that is skipped rather than written |
| ItemWriters.CountModifiedUtf8Chars | libdexfile/dex/utf.cc:50-79 | the loop by lead bytes computes the count |
| Utf8.CountsUnits | libdexfile/dex/utf.cc:50-79 | on the bytes of any sequence of code points, zero in two bytes, the count is the number of their UTF-16 units |
| ItemWriters.WriteHandlers | dexlayout/dex_writer.cc:549-566 | each handler is written at its own list offset, in any order, and the stream ends behind the furthest one |
| ItemWriters.WriteTryItems | dexlayout/dex_writer.cc:538-547 | try items hold the list offset of their handler; a reserving pass writes unspecified bytes of the same length |
| ItemWriters.WritePostInstructionData | dexlayout/dex_writer.cc:533-567 | padding, try items and handler list; a reserving pass differs only in contents |
| ItemWriters.WriteCodeAt | dexlayout/dex_writer.cc:577-594 | the bytes of a code item from its aligned start, of the same length in both passes |
| ListWriters.RowBuffer | dexlayout/dex_writer.cc:298-350 | the buffer filled for a row of an id table is the row; an index in two halves is the index |
| ListWriters.WriteTypeList | dexlayout/dex_writer.cc:279-296 | the count and, one write each, the types |
| ListWriters.WriteAnnotationSet | dexlayout/dex_writer.cc:379-396 | the count and, one write each, the annotations' offsets |
| ListWriters.WriteAnnotationSetRefs | dexlayout/dex_writer.cc:398-415 | the count and, one write each, the sets' offsets, 0 for null |
| ListWriters.WriteMembers | dexlayout/dex_writer.cc:433-456 | the annotated members of one sort, two words a write, nothing for a null list |
| ListWriters.WriteDirectory | dexlayout/dex_writer.cc:417-461 | four words and the three lists of members |
| SectionWriter.WriteItem | dexlayout/dex_writer.cc:230-461 | every kind of item but code is written as its encoding with the offsets it holds |
| SectionWriter.ChecksPass | dexlayout/dex_ir.h:320-324 | the check in `GetOffset` that an offset is assigned cannot fail once the kinds an item points at have been placed |
| SectionWriter.DexWriter.ProcessOffset | dexlayout/dex_writer.cc:985-992 | the item's offset is the stream position |
| SectionWriter.DexWriter.WriteCodeItem | dexlayout/dex_writer.cc:569-598 | writing records the offset and the bytes; reserving records the same offset and leaves the stream as if the bytes had been skipped |
| SectionWriter.DexWriter.PlaceItem | dexlayout/dex_writer.cc:255-461 | align, record the offset, and write or skip |
| SectionWriter.DexWriter.WriteSection | dexlayout/dex_writer.cc:230-461 | a whole section is its items packed in order; item offsets are their positions; the collection's offset is its start, or stays when nothing was written |
| Packing.PackItem | dexlayout/dex_writer.cc:265-277 | each item of a packed section stands whole at its position |
| Packing.PackOrdered | dexlayout/dex_writer.cc:265-277 | items of a section keep their order and do not overlap |
| Packing.PackPadding | dexlayout/dex_writer.h:130-133 | every byte of a section outside its items is zero |
| LayoutFacts.ReservedShape | dexlayout/dex_writer.cc:844-880 | the size of an item that is reserved first never depends on an offset, so the second pass fits the room |
| LayoutFacts.NeedsComeFirst | dexlayout/dex_writer.cc:882-890 | a section written in one pass points only at sections that lie before it |
| LayoutFacts.ListAtItsTurn | dexlayout/dex_writer.cc:844-912 | at its turn a section already has its final shape, and its final bytes unless it is reserved |
| LayoutFacts.OffsetIsPosition | dexlayout/dex_writer.cc:985-992 | the final offset of an item is its position in the file and never the unassigned value 0 |
| FileBody.BodyFill | dexlayout/dex_writer.cc:892-908 | filling a reserved section in place changes that section and nothing else |
| FileBody.BodyPending | dexlayout/dex_writer.cc:844-873 | what has only been reserved is still zero, so the write-once check holds in the second pass |
| FileSections.AppendSection | dexlayout/dex_writer.cc:882-890 | a section whose offsets are known extends the file by exactly its final bytes |
| FileSections.ReserveSection | dexlayout/dex_writer.cc:848-860 | reserving extends the file by the section's final size and assigns its items their final offsets |
| FileSections.FillSection | dexlayout/dex_writer.cc:877-881 | returning to a reserved section fills it with its final bytes, assigns nothing new, and leaves the stream where it was |
| HiddenApi.ItemSize | dexlayout/dex_ir.h:1307-1317 | the encoded length, or 0 when every flag is 0 |
| HiddenApi.FillHeader | dexlayout/dex_writer.cc:473-484 | total size, and per class the offset of its stream or 0 |
| HiddenApi.WriteHiddenapiClassData | dexlayout/dex_writer.cc:463-515 | writes table and streams; the source's two layout checks are proved as assertions |
| HiddenApi.StreamEnds | dexlayout/dex_writer.cc:486-510 | the offsets announced in the table are where the streams end up |
| HiddenApi.HiddenapiRoundTrip | dexlayout/dex_ir_builder.cc:634-670 | the builder reads back each class's flags; all-zero flags come back as no flags, and every member has the flag it had |
| FileSections.WriteHiddenapi | dexlayout/dex_writer.cc:463-515 | the section closes the layout and its recorded offset is the aligned one |
| MapList.MapItemQueue.AddIfNotEmpty | dexlayout/dex_writer.cc:979-983 | adds exactly the entries with a non-zero size |
| MapList.MapItemQueue.Pop | dexlayout/dex_writer.h:56-60 | removes one entry of least offset |
| MapList.WriteMapItems | dexlayout/dex_writer.cc:708-722 | the entries come out sorted by offset, each once |
| MapList.SortedUnique | dexlayout/dex_writer.h:45-48 | entries with different offsets have one sorted order only |
| DexFileWriter.GenerateAndWriteMapItems | dexlayout/dex_writer.cc:724-789 | the list is a permutation of header, non-empty sections and map list |
| DexFileWriter.WriteSections | dexlayout/dex_writer.cc:844-908 | after both passes every section holds its final bytes and every offset its final value |
| DexFileWriter.WriteTail | dexlayout/dex_writer.cc:910-942 | map list, padding, data size and link data behind the sections |
| DexFileWriter.WriteHeader | dexlayout/dex_writer.cc:791-833 | the header, from the given sizes and offsets, over the start of the file; `FileHeader` says of each field what it means in the bytes |
| DexFileWriter.Write | dexlayout/dex_writer.cc:839-958 | the container ends up holding exactly the file: a function of the IR, trimmed to its size |
| FileTheorems.SectionInFile | dexlayout/dex_writer.cc:839-958 | every section stands at its start in the finished file |
| FileTheorems.ItemInFile | dexlayout/dex_writer.cc:839-958 | every item stands whole and aligned at its position, encoded with the final offset of everything it points at |
| FileTheorems.NoOverlap | dexlayout/dex_writer.cc:839-958 | any two items of the file, of whatever kinds, are disjoint and in layout order |
| FileTheorems.MapListInOrder | dexlayout/dex_writer.cc:708-789 | the map list is header, non-empty sections in layout order and itself, at strictly increasing offsets |
| FileTheorems.MapListInFile | dexlayout/dex_writer.cc:910-917 | it stands where the header says |
| FileTheorems.EntryLeadsToItems | dexlayout/dex_writer.cc:994-1001 | an entry's offset, rounded up to the section's alignment, is its first item |
| FileTheorems.HeaderWordInFile | dexlayout/dex_writer.cc:791-833 | each of the twenty header fields reads back, cut to 32 bits |
| FileHeader.HeaderOfFile | dexlayout/dex_writer.cc:791-833 | magic, checksum and signature are the IR's; the size field is the file's length; header size, byte order and link size; the link data stands at its offset and ends the file, or the old offset stays |
| FileHeader.DataSectionOfFile | dexlayout/dex_writer.cc:910-942 | the data section's offset and size: behind the header, multiples of 8, and with the link data up to the end of the file |
| FileHeader.RowsInFront | dexlayout/dex_writer.cc:845-868 | every row of every table lies between the header and the data section |
| FileHeader.DataInside | dexlayout/dex_writer.cc:862-917 | every other item lies in the data section, in front of the map list |
| FileHeader.MapListInside | dexlayout/dex_writer.cc:910-932 | the map list is aligned, has as many entries as it says, and ends the data section but for fewer than 8 bytes of padding |
| FileHeader.MapListOfFile | dexlayout/dex_writer.cc:708-789 | the entries by their bytes: the header's first, the list's own last, between them sections with items, their number, and an offset that leads to the first one |
| FileHeader.MapListIncreases | dexlayout/dex_writer.cc:708-722 | the offsets in the list increase strictly |
| FileHeader.SectionsAdjoin | dexlayout/dex_writer.cc:845-890 | each section begins where the one in front of it ends; the code items begin on the next multiple of 8 |
| FileHeader.ItemsAligned | dexlayout/dex_writer.h:178-191 | within a section, items of the five byte-aligned kinds follow each other at once, all others at the next multiple of 4 |
| FileFields.HandleFields | dexlayout/dex_writer.cc:692-706 | type and index of a method handle, each with a zero half behind it |
| FileFields.StringCount | dexlayout/dex_writer.cc:246-253 | where a string's id points stands the number of its UTF-16 units |
| FileFields.HiddenFields | dexlayout/dex_writer.cc:473-484 | the section begins with its own size; a class's offset is 0 if and only if none of its flags is set, and otherwise lies inside |
| FileTables.HeaderOffsetOfTable | dexlayout/dex_writer.cc:791-833 | what the written file's header says of each of the six id tables: with items, their number and the table's start; without, size 0 and the low 32 bits of the offset the collection had before |
| FileTables.ZeroTogetherIff | dexlayout/dex_ir_builder.cc:299-311 | a file below 4 GiB has size 0 and offset 0 together for a table, as the format asks, if and only if the table has items or its old offset was 0 |
| FileTables.FilteredClassesKeepOffset | dexlayout/dex_ir_builder.cc:364-370 | an input whose only class a filter drops: the written header has no classes and the class definitions' old offset, although the comment says writing fixes this up |
| FileTheorems.RoomIffDebugInfo | dexlayout/dex_writer.cc:523-531 | a section with items takes no room only if it is a list of empty debug infos; then, and only then, its offset stays unset |
| ItemDecoding.CodeDecode | dexlayout/dex_ir_builder.cc:820-925 | header, instructions and every try with its catch clauses are read back from a code item |
| FileRoundTrip.Pointed | dexlayout/dex_ir.h:321-326 | following the offset written for an item leads to that item |
| FileRoundTrip.EmptyIsReadable | dexlayout/dex_writer.cc:839-958 | the file of an IR without items: 144 bytes and the link data |
| FileTables.RowInFile | dexlayout/dex_writer.cc:230-245 | row `i` of an id table lies at the table's offset plus `i` times its row size |
| WholeFile.MapEntryOf | dexlayout/dex_writer.cc:708-789 | looking a section up in the written map list finds its count and offset if and only if it has items |
| WholeFile.ReadBack | dexlayout/dex_writer.cc:839-958 | the round trip of the whole file: a reader that starts from the header and the map list and follows every offset finds exactly what the IR says |
| WholeFile.WriteAndRead | dexlayout/dex_writer.cc:839-958 | the writer followed by the reader returns the IR's contents |
| CatchHandlerLists.ReadEntry | dexlayout/dex_ir_builder.cc:871-898 | one handler entry is read exactly, catch-all included |
| CatchHandlerLists.CollectFromTries | dexlayout/dex_ir_builder.cc:828-857 | try items that name the same list offset share one handler, and each points at the handler of its offset |
| CatchHandlerLists.CollectRest | dexlayout/dex_ir_builder.cc:858-901 | the walk over the list adds every entry no try names, in at most as many steps as there are entries |
| CatchHandlerLists.BuildHandlers | dexlayout/dex_ir_builder.cc:826-901 | the collected handlers are the list's entries, each once |
| CatchHandlerLists.WriterReproducesList | dexlayout/dex_writer.cc:549-566 | whatever order they were collected in, writing them at their offsets reproduces the list byte for byte |
| DebugInfo.GetDebugInfoStreamSize | dexlayout/dex_ir_builder.cc:46-92 | on any well-formed debug info followed by anything it stops and returns the item's length; zeros inside operands do not end it |
| DebugInfo.ItemSkipped | dexlayout/dex_ir_builder.cc:46-92 | the same for the reader's function, by the structure of the item |
| DebugInfo.SkipOperands | dexlayout/dex_ir_builder.cc:57-90 | the switch over the opcodes skips exactly the operands the grammar gives the opcode |
| CollectionMaps.Collection.CreateAndAddItem | dexlayout/dex_ir_builder.cc:94-138 | the new item goes to the end of the vector and into the map |
| CollectionMaps.Collection.GetOrCreate | dexlayout/dex_ir_builder.cc:579-597 | the readers of items that can be shared: an offset seen before gives the item read then, a new one a new item |
| CollectionMaps.ReadStrings | dexlayout/dex_ir_builder.cc:424-435 | the string reader, which never looks up, gets through with one item a string if and only if the offsets are distinct; otherwise it aborts |
| CollectionMaps.Collection.SortByMapOrder | dexlayout/dex_ir.h:263-282 | moving the owning pointers out and back loses none, duplicates none and leaves them in increasing order of their offsets |
| CollectionMaps.Build | dexlayout/dex_ir_builder.cc:994-1006 | over any sequence of reads of items that can be shared, followed by the sort: equal offsets, and only they, share an item, an item has its offset if offsets are assigned at once, and the vector is in increasing order of the offsets |
| CompactData.Deduper.Dedupe | dexlayout/compact_dex_writer.cc:219-229 | returns the offset of an earlier range with the same bytes, or enters the range |
| CompactData.DataSection.WriteItem | dexlayout/compact_dex_writer.cc:106-136 | an item is written and kept, or written, found to be a duplicate, cleared and rewound |
| CompactData.DataSection.StartNextFile | dexlayout/compact_dex_writer.cc:376-398 | a further dex file of the container goes on behind the first; offset 0 stays unused |
| CompactData.AddIsRight | dexlayout/compact_dex_writer.cc:118-136 | one unaligned item: its offset is not the sentinel 0 and addresses its bytes, and nothing written before changes |
| CompactData.DataSection.WriteOther | dexlayout/compact_dex_writer.cc:142-202 | an item without a deduper, such as a code item: aligned, written, not entered in the map |
| CompactData.OtherGoesBehind | dexlayout/compact_dex_writer.cc:142-202 | it goes to the first multiple of its alignment behind everything written, with zeros in front; nothing written before changes |
| CompactData.ItemGoesBehind | dexlayout/compact_dex_writer.cc:118-136 | a deduplicated item takes no room and shares an offset of the map, or goes where any other would |
| CompactData.RunIsAligned | dexlayout/compact_dex_writer.cc:106-202 | over any run, whatever the alignments, every offset handed out is a multiple of its item's alignment |
| CompactData.KnownOnce | dexlayout/compact_dex_writer.cc:219-229 | deduplicated items that stand at their offsets share one if and only if they have the same content, empty ones aside |
| CompactData.RunIsRight | dexlayout/compact_dex_writer.cc:204-229 | over any run of items and files whose deduplicated items are unaligned: every offset handed out keeps addressing bytes equal to the item |
| CompactData.WriteAll | dexlayout/compact_dex_writer.cc:106-136 | a container filled by any run from the empty one is what the run says, every offset is aligned, and if the deduplicated items are unaligned every item stands at its offset and one content has one offset |
| CompactData.PaddingConfusesItems | dexlayout/compact_dex_writer.cc:118-125 | for every alignment above 1, a run of three items after which one of them does not stand at its offset: the key includes padding |
| CompactData.RightIffUnaligned | dexlayout/compact_dex_writer.cc:106-136 | every run with a given alignment gives right offsets if and only if the alignment is 1, which is what both users pass |
| DexVerify.VerifyEncodedValue | dexlayout/dex_verify.cc:562-712 | accepts if and only if the values have the same projection |
| DexVerify.VerifyEncodedAnnotation | dexlayout/dex_verify.cc:514-545 | the same for annotations |
| DexVerify.VerifyAnnotationSet | dexlayout/dex_verify.cc:471-496 | the same for annotation sets, null included |
| DexVerify.VerifyAnnotationSetRefList | dexlayout/dex_verify.cc:450-469 | the same for set reference lists |
| DexVerify.VerifyAnnotationsDirectory | dexlayout/dex_verify.cc:296-325 | the same for annotation directories |
| DexVerify.VerifyMemberAnnotations | dexlayout/dex_verify.cc:327-448 | the same for field, method and parameter annotations |
| DexVerify.VerifyTries | dexlayout/dex_verify.cc:930-975 | accepts exactly equal try lists, null included |
| DexVerify.VerifyHandlers | dexlayout/dex_verify.cc:977-1046 | accepts exactly equal handler lists, null included |
| DexVerify.VerifyCode | dexlayout/dex_verify.cc:842-928 | accepts if and only if registers, debug info, tries, handlers, length and the compared half of the instructions agree |
| DexVerify.VerifyClassData | dexlayout/dex_verify.cc:744-840 | accepts if and only if the members and their code have the same projection |
| DexVerify.VerifyClassDef | dexlayout/dex_verify.cc:224-277 | accepts if and only if the classes have the same projection |
| DexVerify.VerifyClassDefs | dexlayout/dex_verify.cc:190-222 | accepts if and only if there are as many classes and the first class of each type agree as far as both sides go |
| DexVerify.KeptIs | dexlayout/dex_verify.cc:194-201 | what the sets ordered by type keep: the first class of each type |
| DexVerify.UniqueClasses | dexlayout/dex_verify.cc:188-222 | with one class of each type on both sides, exactly the same classes, in any order, are accepted |
| DexVerify.SecondOfTypePasses | dexlayout/dex_verify.cc:212-222 | with two classes of one type a different set of classes is accepted |
| DexVerify.VerifyOutputDexFile | dexlayout/dex_verify.cc:33-49 | accepts exactly equal projections of ids and of the first class of each type; the projections are given by `DexVerifyMeaning` |
| DexVerifyMeaning.VerifyOutput | dexlayout/dex_verify.cc:33-49 | the whole comparison, of IRs with one class of each type: accepts if and only if the id tables are the same and the classes, with everything they point at, are the same in any order |
| DexVerifyMeaning.ClassAcceptedIff | dexlayout/dex_verify.cc:224-277 | two class definitions pass for the same if and only if type, flags, superclass, interfaces, source text, annotations, members and static values are, each followed through its pointers, null and empty told apart where the source does |
| DexVerifyMeaning.DirectoryIff | dexlayout/dex_verify.cc:296-448 | the same for annotation directories, down to the single values |
| DexVerifyMeaning.DataIff | dexlayout/dex_verify.cc:744-840 | the same for class data: fields, methods and their code |
| DexVerifyMeaning.CodeIff | dexlayout/dex_verify.cc:842-1046 | the same for code: sizes, debug info, tries, clauses, and as many bytes of instructions as there are units |
| DexVerifyMeaning.ValueIff | dexlayout/dex_verify.cc:562-712 | the same for encoded values, but for the indices of method types and method handles |
| DexVerify.OrderDoesNotMatter | dexlayout/dex_verify.cc:188-222 | the projection forgets the order of the classes |
| DexVerify.CodeAcceptedIff | dexlayout/dex_verify.cc:881-892 | codes with equally many instruction units n, otherwise equal, are accepted if and only if the first n bytes agree: half the units, and a low byte if n is odd |
| DexVerify.SecondHalfNotCompared | dexlayout/dex_verify.cc:888-892 | for every code of two or more units, changing the last unit goes unnoticed |
| DexVerify.SuperclassAcceptedIff | dexlayout/dex_verify.cc:224-277 | two superclasses pass for the same if and only if they are, or one is missing and the other is type 0 |
| DexVerify.SourceAcceptedIff | dexlayout/dex_verify.cc:224-277 | two source files pass for the same if and only if they are, or one is missing and the other is empty |
| DexVerify.ProtosAcceptedIff | dexlayout/dex_verify.cc:99-122 | replacing the prototypes goes unnoticed if and only if shorties and return types stay: parameters are not compared |
| DexVerify.IndexAcceptedIff | dexlayout/dex_verify.cc:562-712 | two indices in encoded values pass for the same if and only if they are, or they are of method types or method handles |
| AdbPackets.DdmPacketRoundTrip | adbconnection/adbconnection.cc:353-438 | a packet the plugin sends is one whole packet of its declared length, and id, command, type and data are read back from it |
| AdbConnection.AdbConnectionState.CloseFds | adbconnection/adbconnection.cc:315-331 | socket gone, handshake forgotten, DDM notified if it had been |
| AdbConnection.AdbConnectionState.SendAgentFds | adbconnection/adbconnection.cc:440-484 | one set of descriptors out, flagged as outstanding only if the send succeeds |
| AdbConnection.AdbConnectionState.PerformHandshake | adbconnection/adbconnection.cc:779-818 | the handshake is read and answered, or the connection closed |
| AdbConnection.AdbConnectionState.AttachJdwpAgent | adbconnection/adbconnection.cc:820-838 | loads the agent |
| AdbConnection.AdbConnectionState.HandleDataWithoutAgent | adbconnection/adbconnection.cc:679-777 | handshake, DDM packet, or attaching the agent, with every failing or short peek, ioctl, receive and send, as one step; `AdbReplies` says what the step means in the bytes |
| AdbConnection.AdbConnectionState.HandleMessage | adbconnection/adbconnection.cc:576-609 | what each message of the agent does to the flags and the socket |
| AdbConnection.AdbConnectionState.AcceptConnection | adbconnection/adbconnection.cc:610-642 | a new connection is taken, refused, or handed to the listening agent |
| AdbConnection.AdbConnectionState.HandleWakeup | adbconnection/adbconnection.cc:541-668 | one turn of the poll loop is one step of the model |
| AdbRuns.LoadedForGood | adbconnection/adbconnection.cc:820-838 | over every run, whatever the agent says: once loaded it stays loaded, and before that it neither listens nor holds descriptors |
| AdbRuns.InvAlways | adbconnection/adbconnection.cc:541-668 | the invariant tying the plugin's flags to the agent's phase, the messages in flight and the descriptors on their way holds in every reachable state |
| AdbRuns.FlagsInEveryRun | adbconnection/adbconnection.cc:541-668 | descriptors sent or held mean an open socket, no socket means no handshake, at most one set is outstanding |
| AdbRuns.ChecksInEveryRun | adbconnection/adbconnection.cc:541-668 | none of the loop's checks can fail and descriptors are only sent when none are outstanding |
| AdbRuns.ReadInEveryRun | adbconnection/adbconnection.cc:679-777 | until the agent is loaded, what was read is nothing, or the handshake and whole packets |
| AdbRuns.HandshakeOfThisConnection | adbconnection/adbconnection.cc:595-606 | a handshake-complete message is always about the current connection |
| AdbRuns.AttachedAtBoundary | adbconnection/adbconnection.cc:679-742 | whenever the agent is attached the handshake is done and the next unread byte begins a packet |
| AdbRuns.HandoverInEveryRun | adbconnection/adbconnection.cc:588-660 | descriptors carry the right message (handshake wanted or not) if and only if they are not sent because of data on a connection already shaken hands with; that needs an earlier failed send |
| AdbRuns.HandshakeAskedTwice | adbconnection/adbconnection.cc:651-660 | a run in which that happens: one failed `sendmsg`, and the agent is asked for a second handshake |
| AdbReplies.ReplyInEveryRun | adbconnection/adbconnection.cc:679-777 | a wake-up that sends a packet has read exactly one request of its declared length, with a chunk, on the connection the packet goes to; the packet is one whole packet with the request's id, the reply flag, no error, and the type and data of the reply |
| AdbReplies.RequestInEveryRun | adbconnection/adbconnection.cc:679-777 | a whole request at the front of the connection, read without an error, is read alone; the reply goes out if and only if the request has a chunk and there is a reply that fits |
| AdbReplies.PluginAnswers | adbconnection/adbconnection.cc:716-777 | the same for one step, with everything the step leaves as it was |
| AdbReplies.HandshakeIs | adbconnection/adbconnection.cc:779-818 | the connection stays if and only if its first fourteen bytes say JDWP-Handshake and no call fails; then these bytes go back |
| AdbReplies.LoadedInEveryRun | adbconnection/adbconnection.cc:700-742 | the agent is loaded if and only if the data is not a request for command 1 of set 199, or not all of it is there, and attaching succeeds |
| AdbReplies.ClosesIff | adbconnection/adbconnection.cc:541-838 | a wake-up closes the connection if and only if it hung up, the agent closes it, or its data does: a failed handshake, an end, an error |
| AdbReplies.ControlInEveryRun | adbconnection/adbconnection.cc:541-642 | the control socket is there if and only if it was opened and has neither hung up nor been refused since |
| AdbReplies.NotifiedInEveryRun | adbconnection/adbconnection.cc:315-331 | listeners count as told that DDM is active if and only if a chunk was handled and no connection was closed before the agent was loaded since |
| WriteLock.CounterPlusHolders | adbconnection/adbconnection.cc:137-150 | in every interleaving of the eventfd lock the counter and its holders add up to one |
| WriteLock.PacketsGoToCheckedConnection | adbconnection/adbconnection.cc:353-370 | a packet is written to the very connection that was checked and that counts as shaken hands with, however other threads interleave |
| WriteLock.ReplyNeverInterleaved | adbconnection/adbconnection.cc:779-818 | no packet is under way while the handshake reply is written without the lock |
| AdbThreads.LinkedAlways | adbconnection/adbconnection.cc:541-668 | poll loop, agent, peer and publishers in one machine: each wake-up is the steps its locking consists of, other threads act in between, and both invariants and the correspondence of the two hold in every run |
| AdbThreads.NeverStuck | adbconnection/adbconnection.cc:315-331 | whatever the poll thread has to do next it can do unless it waits for the lock; in particular a reported handshake is of the connection it has |
| AdbThreads.MachinesAgree | adbconnection/adbconnection.cc:541-668 | between wake-ups the lock's machine and the protocol's agree on socket, handshake flag and agent |
| AdbThreads.HandshakeHappened | adbconnection/adbconnection.cc:779-818 | a connection counts as shaken hands with only after the plugin replied to it or the agent reported it |
| AdbThreads.PacketAfterHandshake | adbconnection/adbconnection.cc:353-370 | in every interleaving a published packet goes to the connection that was checked, and an earlier move of the protocol completed that connection's handshake |
| JdwpOptions.JdwpArgs.constructor | adbconnection/jdwpargs.cc:26-52 | the object holds exactly the well-formed tokens of the option string |
| JdwpOptions.TrimConcat | adbconnection/jdwpargs.cc:34-35 | trimming looks at each character by itself |
| JdwpOptions.TrimOne | adbconnection/jdwpargs.cc:34-35 | and drops exactly the six characters that are space in the C locale |
| JdwpOptions.TokenIff | adbconnection/jdwpargs.cc:37-50 | a token is a pair if and only if, without spaces, it is a key, the first `=`, and a value that is not empty and does not end with `=` |
| JdwpOptions.ParseSplit | adbconnection/jdwpargs.cc:26-52 | the text is split at its commas |
| JdwpOptions.JdwpArgs.PutPair | adbconnection/jdwpargs.cc:54-60 | a new key goes to the end, an old one keeps its place |
| JdwpOptions.JdwpArgs.JoinAll | adbconnection/jdwpargs.cc:62-74 | prints the pairs in order |
| JdwpOptions.PutEffect | adbconnection/jdwpargs.cc:54-60 | after a put: key has the value, every other key keeps place and value, keys stay distinct |
| JdwpOptions.ParseJoinParse | adbconnection/jdwpargs.cc:26-74 | for every option string, printing what was parsed and parsing it again changes nothing |
| JdwpOptions.FixLogfileOf | adbconnection/adbconnection.cc:863-887 | a relative log file is moved to the package's directory |
| JdwpOptions.MakeAgentArg | adbconnection/adbconnection.cc:892-921 | the argument is the agent's name and the printed pairs: the options with the forced pairs and the fixed log file put on top |
| JdwpOptions.ArgumentIsServer | adbconnection/adbconnection.cc:897-905 | in the pairs of the argument, whatever the options say, the agent is a server and does not suspend |
| JdwpOptions.ArgumentSays | adbconnection/adbconnection.cc:892-921 | every key of the argument: the five forced ones with their values, the log file moved if it is relative and there is a package name, all others as in the options |
| JdwpOptions.TextSaysThePairs | adbconnection/adbconnection.cc:892-921 | splitting the argument's text gives the pairs it was put together from if and only if the address is a proper value and a package name that is used has no comma or space |
| JdwpOptions.TextIsServer | adbconnection/adbconnection.cc:899-905 | then the text itself makes the agent a server that does not suspend |
| JdwpOptions.PackageNameOverrides | adbconnection/adbconnection.cc:863-887 | without that condition: options with a relative log file and a package name with a comma, for which the text says otherwise |
| JdwpOptions.TransportBeforeAddress | adbconnection/jdwpargs.h:25-30 | the transport precedes the address, as the class promises, if and only if the options name no address or name the transport before it |
| JdwpOptions.AddressNamedFirst | adbconnection/adbconnection.cc:913-914 | the options `address=1` break that order, whatever the other inputs |
| Cfg.CollectTargets | dexdump/dexdump_cfg.cc:42-70 | exactly the targets of branches and switches |
| Cfg.NumberBlocks | dexdump/dexdump_cfg.cc:72-144 | every instruction gets its block's id, every block start and nothing else a node id |
| Cfg.BlockStep | dexdump/dexdump_cfg.cc:79-98 | ids are dense and follow the code |
| Cfg.SameIdIffSameStart | dexdump/dexdump_cfg.cc:79-98 | two instructions share a block if and only if no block starts between them |
| CfgEdges.FirstPass | dexdump/dexdump_cfg.cc:152-288 | exactly the regular and taken edges, the block-level exception edges to the handlers left in common at each block's end, and the blocks marked for the second pass |
| CfgEdges.SecondPass | dexdump/dexdump_cfg.cc:290-331 | adds, for the marked blocks, exactly the edges from each instruction to each of its handlers, none twice |
| CfgEdges.DumpMethodCFG | dexdump/dexdump_cfg.cc:36-345 | the three passes give exactly the numbering and the edges that the next lemmas describe, regular and exception edges without repetition |
| CfgEdges.BlockLevelEdges | dexdump/dexdump_cfg.cc:196-288 | a block has an edge to a handler if and only if the handler covers its last instruction and handlers were lost an even number of times in a row before |
| CfgEdges.PortEdges | dexdump/dexdump_cfg.cc:290-331 | an instruction has an edge to a handler if and only if the handler covers it and some instruction of its block lost a handler |
| CfgEdges.UniformBlock | dexdump/dexdump_cfg.cc:196-288 | a block whose instructions have the same handlers has edges to them from the block and none from an instruction |
| CfgEdges.EveryHandlerHasAnEdge | dexdump/dexdump_cfg.cc:152-331 | across the common-set shortcut and the second pass, every handler of every instruction has an edge from its block or from the instruction |
| CfgEdges.EveryEdgeIsAHandler | dexdump/dexdump_cfg.cc:152-331 | and no other exception edge exists |
| CfgEdges.RegularEdges | dexdump/dexdump_cfg.cc:166-195 | a fall-through edge exists if and only if the next instruction starts a block and this one goes on |
| CfgEdges.TargetsBeginBlocks | dexdump/dexdump_cfg.cc:203-251 | every target at an instruction begins a block and has a taken edge |
| CfgEdges.TakenAreTargets | dexdump/dexdump_cfg.cc:203-251 | and nothing else is taken |

## Left out

- DexFileWriter.Write: models `compute_offsets_` set, as dexlayout uses it to lay files out; with it cleared the writer only seeks to the offsets it was given. Magic, checksum and signature are 32 opaque bytes; recomputing the checksum is not modelled.
- WholeFile.ReadBack: for files below 4 GiB, string data without NUL bytes (they are C strings), encoded values that survive (`EncodedValueShortest.RoundTripsIffRepresentable`), debug infos and handler lists that are well formed, and source-file indices other than the reserved 0xFFFFFFFF. Hidden-API flags that are all zero come back as absent.
- CatchHandlerLists.BuildHandlers: for handler lists whose entries are contiguous, which is what the format prescribes, and try items that point at entries; hidden-API flags and handlers are values here, not shared pointers.
- CompactData.WriteAll: hash values are not modelled, the map compares contents.
- CollectionMaps.Collection.CreateAndAddItem: what is read from an offset is not modelled, only identity and order; the code-item map, keyed by a pair of offsets, is the same class with its second key part.
- AdbConnection.AdbConnectionState.HandleMessage: the agent's messages are an enumeration, not text compared with `memcmp`.
- AdbConnection.AdbConnectionState.HandleDataWithoutAgent: the reply to a chunk is an input; a reply of 4 GiB or more, whose length field would wrap, is not sent.
- AdbRuns.InvAlways: the agent is one that follows the protocol of `dt_fd_forward` (start listening, take descriptors, report the handshake, end, close); it may retry a failed handshake while listening. `AdbRuns.LoadedForGood` needs no such assumption.
- WriteLock.PacketsGoToCheckedConnection: reads and writes of the eventfd are atomic steps and succeed. Which connections count as shaken hands with is an input here; `AdbThreads.HandshakeHappened` says where they come from.
- AdbThreads.LinkedAlways: the protocol's state moves at the start of a wake-up and the lock's steps follow, so the agent may act on descriptors before the plugin's own steps are over.
- CfgEdges.DumpMethodCFG: the graph, not its DOT text, labels and escaping; instructions are records with the properties the loops ask for.
- Conversion between header versions, compact dex headers and pre-headers, the compact debug-info offset table and `CompactDexFile::CodeItem::Create`.
- The class filter and method reordering of `dexlayout.cc`, profile-driven layout, `dex_visualize.cc`, `dexdiag`, id fix-ups found in bytecode.
- Text output of dexdump and dexlayout, dex2oat, command-line parsing and the rest of the runtime.
- Setting up the control socket, starting and stopping threads, JNI and runtime callbacks of the plugin.
