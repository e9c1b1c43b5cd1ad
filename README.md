# osu! database reader: a verified model of `Reader.js`

This project models the binary decoder of osu-db-parser. The decoder reads
`osu!.db` and `collection.db` following a layout: an ordered list of named
nodes, each naming a type.

- **The interpreter** (`Reader.Read`) dispatches on the lower-cased type name.
  - The twelve primitive types each do one fixed-width read. `string` does a length-prefixed read.
  - `int32array` reads an int16 count and then that many int32 values.
  - `collections` reads as many collection records as the `collectionscount` field says.
  - `beatmaps` reads as many beatmap records as `beatmaps_count` says. A record's byte layout depends on `osuver`, at the thresholds 20140609 (float stats and star ratings) and 20191107 (no entry-size prefix).
- **The assembler** (`Reader.UnmarshalPacket`) walks the list of layout items in order. It stores each decoded value under the item's name. An item with a `uses` list receives a context holding the named earlier fields.

The model has six modules.

- `Values` (values.dfy): bytes, the scalar kinds and their widths, decoded values and the `Result` type.
- `Cursor` (osu_buffer.dfy): the byte cursor.
  - `OsuBuffer` is a class with an immutable `data` and a `pos` that only moves forward.
  - `ScalarAt` and `StringAt` are the reference functions its reads are proved against.
- `Layout` (layout.dfy): layout nodes, the closed set of node types, case-insensitive dispatch, `uses` lists, and reading counts and versions out of a context.
- `Decoding` (decoding.dfy): the reference decoder.
  - Each node and each stage of a beatmap record is a function of the buffer and a start position.
  - Each gives the decoded value and the position after it, or the error that ends the decode.
- `Reader` (reader.dfy): the decoder as the source writes it.
  - Methods move the cursor step by step, with loops that push into lists and write into maps.
  - Each method is proved to agree with its `Decoding` function: the same value, the same final position, the same failure.
- `Properties` (properties.dfy): what the decoder promises, proved about the `Decoding` functions.
  - Exact byte counts as functions of the counts read and of `osuver`.
  - The keys of every record, and list lengths equal to the counts read.
  - The value every field of a beatmap record holds: the read at its own position, which no later stage overwrites.
  - Last-writer-wins in the star-rating tables.
  - The version gates.
  - Case-insensitive dispatch and the `uses` sub-contexts.
  - The assembler's strict list order.

A strict decoder would reject a layout it cannot read completely. The code is more lenient in four places, and the model follows the code in each:

- An unrecognised type does not fail. It reads nothing and returns the context it was given. A strict decoder would report the unknown type.
- A missing `collectionscount` or `beatmaps_count` does not fail either. `i < undefined` is false, so the loop runs zero times. A strict decoder would report the missing count.
- A missing `osuver` makes `osuver < 20191107`, `osuver < 20140609` and `osuver >= 20140609` all false. The record is then read with no entry size, float stats, no star ratings and no int16 padding. A strict decoder would report the missing version.
- A name in a `uses` list that no earlier item decoded is copied into the context as `undefined` (src/Reader.js:234). A strict decoder would report the missing field.

## Model

| member | source | states |
|---|---|---|
| Cursor.StringAt | src/Reader.js:43 | a string read yields text, takes at least one byte, and never ends past the buffer |
| Cursor.ScalarAt | src/Reader.js:18-56 | a primitive read succeeds exactly when the kind's width fits, then takes exactly that many bytes and yields them unmodified; otherwise it fails with `OutOfBounds` |
| Layout.TypeOf | src/Reader.js:17-84 | the lower-cased type name picks the node: a primitive only by its own name, and `string`, `int32array`, `collections`, `beatmaps` exactly by theirs |
| Layout.Dispatch | src/Reader.js:17-84 | on a lower-case name: a primitive is chosen only by its own name, and each of the four structured types exactly by its name |
| Layout.Pick | src/Reader.js:231-235 | the copied context has exactly the listed names, each with its value in the fields so far or `undefined` |
| Layout.UsesContext | src/Reader.js:230-238 | an item without `uses` gets an empty context; every name in a context carries its earlier value or `undefined` |
| Layout.Numeric | src/Reader.js:85-86 | a missing or undefined field reads as no number; an integer scalar reads as its value; anything else fails with `NotAnInteger` for that field, and only then |
| Layout.Iterations | src/Reader.js:66-68 | `for (i = 0; i < bound; i++)` runs no times exactly when the bound is missing or not positive, and otherwise `bound` times |
| Layout.Before | src/Reader.js:89 | `osuver < threshold` can hold only when `osuver` is present |
| Layout.AtLeast | src/Reader.js:129 | `osuver >= threshold` holds exactly when `osuver` is present and `osuver < threshold` does not hold |
| Cursor.OsuBuffer.constructor | src/Reader.js:223-226 | a cursor over the given bytes starts at position 0 |
| Cursor.OsuBuffer.ReadScalar | src/Reader.js:18-56 | one read of exactly the kind's width, giving its bytes unmodified; past the end it is an OutOfBounds failure that leaves the cursor where it was |
| Cursor.OsuBuffer.ReadOsuString | src/Reader.js:43 | agrees with `StringAt` and strictly advances the cursor; a failure leaves it where it was |
| Layout.Lower | src/Reader.js:17 | lower-casing keeps the length and maps each character through ASCII lower-casing |
| Layout.Split | src/Reader.js:231 | splitting always yields at least one piece (an empty list yields one empty name) |
| Decoding.FieldsAt | src/Reader.js:92-107 | a field table read in order never moves back and never passes the end; `FieldsValue` states what each name holds |
| Decoding.Repeat | src/Reader.js:60-62 | a counted run that succeeds has exactly as many elements as the count, and stays within the buffer |
| Decoding.ElemAt | src/Reader.js:61 | every element of a run takes at least one byte and stays within the buffer |
| Decoding.CollectionAt | src/Reader.js:69-80 | a collection record takes at least one byte and stays within the buffer |
| Decoding.CollectionsAt | src/Reader.js:65-83 | the `collections` node never moves back and never passes the end |
| Decoding.StarEntryAt | src/Reader.js:136-140 | one star-rating entry takes at least one byte and stays within the buffer |
| Decoding.StarEntriesAt | src/Reader.js:135-141 | a run of entries never moves back and stays within the buffer |
| Decoding.StarGroupAt | src/Reader.js:133-142 | one mode's ratings take at least one byte and stay within the buffer |
| Decoding.StarRatingsAt | src/Reader.js:130-151 | the four groups take at least one byte and stay within the buffer |
| Decoding.TimingPointsAt | src/Reader.js:161-169 | the timing points take at least one byte and stay within the buffer |
| Decoding.TimingPointAt | src/Reader.js:164-168 | one timing point succeeds exactly when 17 bytes remain, and then takes exactly 17 |
| Decoding.ClosingAt | src/Reader.js:199-204 | the closing fields take at least one byte and stay within the buffer |
| Decoding.BeatmapHeadAt | src/Reader.js:89-107 | the entry size and the header take at least one byte and stay within the buffer |
| Decoding.BeatmapStatsAt | src/Reader.js:109-127 | the stats and the slider velocity take at least one byte and stay within the buffer |
| Decoding.BeatmapMiddleAt | src/Reader.js:129-169 | the star ratings, the times and the timing points take at least one byte and stay within the buffer |
| Decoding.BeatmapEndAt | src/Reader.js:171-204 | the tail and the closing fields take at least one byte and stay within the buffer |
| Decoding.BeatmapAt | src/Reader.js:89-206 | a beatmap record takes at least one byte and stays within the buffer |
| Decoding.BeatmapsAt | src/Reader.js:84-208 | the `beatmaps` node never moves back and never passes the end |
| Decoding.Int32ArrayAt | src/Reader.js:57-64 | an `int32array` takes at least its prefix and stays within the buffer |
| Decoding.ReadAt | src/Reader.js:16-211 | the interpreter never moves the cursor back and never past the end |
| Decoding.AssembleAt | src/Reader.js:227-241 | an assembled record has exactly one key per item name |
| Decoding.UnmarshalAt | src/Reader.js:219-245 | the decode fails only when there is input and a layout; with a single node it succeeds exactly when that node's read does, with a list exactly when the assembly does |
| Decoding.FieldsStop | src/Reader.js:92-107 | once a prefix of a field table fails, the whole table fails with that error |
| Decoding.RepeatStop | src/Reader.js:60-62 | once a prefix of a counted run fails, the whole run fails with that error |
| Decoding.StarEntriesStop | src/Reader.js:135-141 | once a prefix of the star-rating entries fails, the whole group fails with that error |
| Decoding.AssembleStop | src/Reader.js:228-241 | once an item fails, the whole assembly fails with that error |
| Decoding.RepeatStep | src/Reader.js:60-62 | one more element read where a successful run ended extends the run by that element |
| Decoding.AssembleStep | src/Reader.js:236-240 | item `i`, decoded in the context of the fields stored so far, extends the record by its value under its name |
| Reader.ReadField | src/Reader.js:93-106 | one field of a table read through the cursor agrees with `FieldAt` |
| Reader.ReadFields | src/Reader.js:92-107 | the loop over a field table agrees with `FieldsAt` (value, end position, first failure) |
| Reader.ReadElem | src/Reader.js:61 | one element read through the cursor agrees with `ElemAt` |
| Reader.ReadRun | src/Reader.js:60-62 | the counting loop that pushes `n` elements agrees with `Repeat`: the same list in read order, the same end, the first failure |
| Reader.ReadInt32Array | src/Reader.js:57-64 | agrees with `Int32ArrayAt` |
| Reader.ReadCollection | src/Reader.js:69-80 | the name, the count and then the hash loop agree with `CollectionAt` |
| Reader.ReadCollections | src/Reader.js:65-83 | agrees with `CollectionsAt` |
| Reader.ReadStarEntry | src/Reader.js:136-140 | the four reads (byte, int32 mode, byte, double) agree with the 14-byte entry of `StarEntryAt`, failure included |
| Reader.ReadStarEntries | src/Reader.js:135-141 | the loop writing `diffs[mode] = diff` agrees with `StarEntriesAt` |
| Reader.ReadStarGroup | src/Reader.js:133-142 | agrees with `StarGroupAt` |
| Reader.ReadStarRatings | src/Reader.js:130-151 | the four-group loop and the four keys agree with `StarRatingsAt` |
| Reader.ReadTimingPoint | src/Reader.js:164-168 | agrees with `TimingPointAt` |
| Reader.ReadTimingPoints | src/Reader.js:161-169 | agrees with `TimingPointsAt` |
| Reader.ReadBeatmapHead | src/Reader.js:89-107 | agrees with `BeatmapHeadAt` |
| Reader.ReadBeatmapStats | src/Reader.js:109-127 | agrees with `BeatmapStatsAt` |
| Reader.ReadBeatmapMiddle | src/Reader.js:129-169 | agrees with `BeatmapMiddleAt` |
| Reader.ReadBeatmapEnd | src/Reader.js:171-204 | agrees with `BeatmapEndAt` |
| Reader.ReadBeatmap | src/Reader.js:89-206 | the record grown stage by stage agrees with `BeatmapAt` |
| Reader.ReadBeatmaps | src/Reader.js:84-208 | agrees with `BeatmapsAt` |
| Reader.Read | src/Reader.js:16-211 | the interpreter agrees with `ReadAt`, and a successful read never moves the cursor back |
| Reader.CopyFields | src/Reader.js:231-235 | the loop copying `dater[datak] = data[datak]` builds exactly the listed names with their values, as `Pick` |
| Reader.ReadItem | src/Reader.js:230-239 | an item is decoded in its `uses` context, or in an empty one without `uses` |
| Reader.Assemble | src/Reader.js:228-241 | the reduce over the items agrees with `AssembleAt` |
| Reader.UnmarshalPacket | src/Reader.js:219-245 | agrees with `UnmarshalAt`: `null` without input, the assembled record for a list, the node's value for a single node, `undefined` otherwise |
| Properties.ScalarNode | src/Reader.js:18-56 | a primitive node succeeds exactly when its width fits, and then gives its bytes unmodified and advances by exactly the width |
| Properties.StringNode | src/Reader.js:42-44 | a string node takes at least one byte and fails at the end of the buffer |
| Properties.OtherNode | src/Reader.js:209-210 | a node of an unrecognised type reads nothing and returns its input context unchanged |
| Properties.FieldsKeys | src/Reader.js:92-107 | a field table that succeeds has exactly one key per field name |
| Properties.FieldsWidth | src/Reader.js:109-125 | a non-empty table of fixed-width fields succeeds exactly when its total width fits, and then takes exactly that |
| Properties.FieldsValue | src/Reader.js:92-107 | unless a later field has the same name, field `i` holds the value its own read gives where the fields before it end |
| Properties.UniformValue | src/Reader.js:112-123 | in a table of one fixed-width kind, field `i` (not overwritten later) holds the `i`-th run of that width |
| Properties.HeaderDistinct | src/Reader.js:92-107 | the fourteen header names are pairwise distinct |
| Properties.TailDistinct | src/Reader.js:171-197 | the twenty-four tail names are pairwise distinct |
| Properties.HeaderValues | src/Reader.js:92-107 | each header field holds what its own read gives where the earlier header fields end |
| Properties.TailValues | src/Reader.js:171-197 | each tail field holds what its own read gives where the earlier tail fields end |
| Properties.TimeValues | src/Reader.js:154-159 | drain time, total time and preview offset are the three consecutive int32 reads |
| Properties.StatFieldValues | src/Reader.js:109-125 | the four stats are consecutive runs of the stat width, read as that kind, and end four widths on |
| Properties.StatsValues | src/Reader.js:109-127 | each stat holds its own bytes as a byte before 20140609 and as a float from it on (or with no version), and the slider velocity holds the eight bytes after them |
| Properties.StatsGate | src/Reader.js:109-127 | the stats take 4 bytes (bytes) before 20140609 and 16 (floats) from it on or with no version, then the 8-byte slider velocity; keys are the four stats plus `slider_velocity`; success exactly when these bytes fit |
| Properties.Int32Run | src/Reader.js:60-62 | `n` int32 reads take exactly `4n` bytes and give the consecutive four-byte slices in order |
| Properties.Int32ArrayLayout | src/Reader.js:57-64 | an `int32array` with an int16 count `len` has `max(len, 0)` items and takes `2 + 4 max(len, 0)` bytes; it fails exactly when those do not fit |
| Properties.TimingPointRun | src/Reader.js:163-169 | `n` timing points take exactly `17n` bytes, each two doubles and a boolean in order |
| Properties.TimingPointsLayout | src/Reader.js:161-169 | the timing points take `4 + 17n` bytes for an int32 count `n` |
| Properties.StarEntriesWidth | src/Reader.js:135-141 | `n` star-rating entries take exactly `14n` bytes |
| Properties.LastEntryIsLast | src/Reader.js:140 | `LastEntry` picks the last entry with the mode id: it has the id and no later entry does |
| Properties.StarEntriesLastWins | src/Reader.js:135-141 | the table maps exactly the mode ids read, each to the rating of its last entry: a later entry overwrites an earlier one |
| Properties.StarGroupLayout | src/Reader.js:133-142 | one mode's group takes `4 + 14n` bytes for an int32 count `n` and gives the table of its entries |
| Properties.StarRatingsKeys | src/Reader.js:145-151 | the star ratings have exactly the four star-rating keys, each a table by mode |
| Properties.HeadGate | src/Reader.js:89-107 | a four-byte entry size is skipped exactly when `osuver < 20191107`; the header then has exactly the header keys |
| Properties.ClosingGate | src/Reader.js:199-204 | an int16 is skipped exactly when `osuver < 20140609`; then `last_modification_time_2` is the next int32 and `mania_scroll_speed` the next byte (7 or 5 bytes) |
| Properties.MiddleKeys | src/Reader.js:129-169 | stages 5-7 give the star keys only from 20140609 on, then the three time keys; the timing points add no key |
| Properties.EndKeys | src/Reader.js:171-204 | stages 8-10 give the tail keys and the two closing keys |
| Properties.BeatmapRecordKeys | src/Reader.js:89-206 | a beatmap record has exactly the keys of the layout of its version |
| Properties.StagesApart | src/Reader.js:89-206 | the keys of the header, the stats, stages 5 to 7 and stages 8 to 10 are pairwise disjoint, so no spread `{...beatmap, …}` overwrites a key of an earlier stage |
| Properties.MiddleFieldValue | src/Reader.js:129-160 | in stages 5 to 7 a star-rating key holds its group and a time key its time |
| Properties.EndFieldValue | src/Reader.js:171-204 | in stages 8 to 10 a tail key holds its tail value and a closing key its closing value |
| Properties.BeatmapFieldValue | src/Reader.js:89-206 | every key of a stage is in the returned record with that stage's value |
| Properties.BeatmapHeaderValue | src/Reader.js:89-107 | header field `i` of the record holds its own read, after the entry size (before 20191107) and the earlier header fields |
| Properties.BeatmapStatValue | src/Reader.js:109-125 | stat `i` of the record holds its own read, as a byte or a float by version, after the header and the earlier stats |
| Properties.BeatmapVelocityValue | src/Reader.js:127 | the record's `slider_velocity` is the double read where the stats end |
| Properties.BeatmapTimeValue | src/Reader.js:154-159 | drain time, total time and preview offset of the record hold their own int32 reads, after the star ratings (from 20140609 on) or the stats |
| Properties.BeatmapTailValue | src/Reader.js:171-197 | tail field `i` of the record holds its own read, after the timing points and the earlier tail fields |
| Properties.StarKeysGate | src/Reader.js:129-152 | the star-rating keys are in a record exactly when `osuver >= 20140609`; never with a missing version |
| Properties.RepeatWellFormed | src/Reader.js:57-208 | every element of a successful run has its kind's shape |
| Properties.ElemWellFormed | src/Reader.js:57-208 | every element that succeeds has its kind's shape |
| Properties.StarGroupWellFormed | src/Reader.js:133-142 | a star-rating group is a table of doubles |
| Properties.CollectionWellFormed | src/Reader.js:69-80 | a collection has a name, an int32 count and exactly `max(count, 0)` hashes, all strings |
| Properties.StarEntriesRatings | src/Reader.js:139-140 | every rating in a star-rating table is a double |
| Properties.RepeatPrefix | src/Reader.js:60-62 | runs are in read order: the first `k` elements of a run of `n` are the run of `k` |
| Properties.RepeatLast | src/Reader.js:60-62 | the last element of a run is read where the run one shorter ended |
| Properties.RunElement | src/Reader.js:60-62 | element `i` of a run is the element read where the first `i` elements ended, and it ends where the first `i + 1` end |
| Properties.StarRatingsOrder | src/Reader.js:130-151 | the group stored under the `i`-th of standard, taiko, ctb, mania is the group read where the first `i` groups ended |
| Properties.CollectionsShape | src/Reader.js:65-83 | `collections` gives exactly `collectionscount` collection records (none if missing or not positive); a count that is not an integer is an error |
| Properties.BeatmapsShape | src/Reader.js:84-208 | `beatmaps` gives exactly `beatmaps_count` records, each with the keys of the `osuver` layout; a missing count gives none |
| Properties.LowerIdempotent | src/Reader.js:17 | lower-casing twice is lower-casing once |
| Properties.TypeOfIgnoresCase | src/Reader.js:17 | the dispatch ignores the case of a type name |
| Properties.PrimName | src/Reader.js:17-56 | a type name selects a primitive read exactly when, lower-cased, it is that primitive's name |
| Properties.SplitJoin | src/Reader.js:231 | joining the pieces of a `uses` list with commas gives the list back, and no piece contains a comma |
| Properties.UsesContextExact | src/Reader.js:230-236 | a `uses` context holds exactly the comma-separated names, each with its earlier value (`undefined` if none); without `uses` the context is empty |
| Properties.AssembleOrder | src/Reader.js:228-241 | items are decoded strictly in list order: each starts where the earlier ones ended, sees their fields, and is stored under its name before the next starts |
| Properties.UnmarshalShape | src/Reader.js:219-245 | no input gives `null`; no layout gives `undefined`; a list layout gives an object keyed by exactly the item names |

## Left out

- osu-buffer internals. osu-buffer is a separate library, so its byte encodings are assumptions: integers little-endian two's complement, and a string is a 0x0b presence byte, a ULEB128 length, then the bytes (any other presence byte reads as the empty string). The integer encoding matters wherever the model reads a count, a mode id or a version as a number: `Int32ArrayLayout`, `TimingPointsLayout`, `StarGroupLayout`, `StarEntriesLastWins`, `CollectionWellFormed`, `CollectionsShape`, `BeatmapsShape` and every version gate depend on it, through `IntValue` and `Numeric`. The string encoding matters only in that a string takes at least one byte.
- Text decoding: strings stay raw bytes, with no UTF-8 decoding.
- Float and double semantics: stats, BPM, offsets and ratings are opaque byte patterns, with no arithmetic on them.
- int64/uint64 values: these are unsigned and two's-complement integers, not JavaScript numbers or BigInts.
- The cursor position after a failure is left unspecified. The decode ends there, and nothing reads past the failing read.
- Reader.ReadStarEntry: the second marker byte is read without `await` in the source. The model assumes the read happens and advances the cursor like the others.
- Converting a Node `Buffer` into an osu-buffer (src/Reader.js:224-226) is library plumbing. The model takes the bytes directly.
- A pre-built cursor passed as `raw` would be used from its current position. The model always starts at position 0.
- Falsy `raw` values: only a missing input is modelled (`None`). The other falsy JavaScript values are not distinguished.
- `async`/`await` and the promise-threaded `reduce`: these are modelled as one synchronous pass, since nothing runs concurrently.
- The order of the keys of a decoded object: records are maps, so key order is not modelled.
- Object literals: the literals of the header (src/Reader.js:92-107) and tail (src/Reader.js:171-197) are field tables read by a loop in the same order. This gives the same reads and keys.
- JavaScript coercion: a context value that is neither an integer scalar nor missing is a `NotAnInteger` failure, whatever it is. The source would not fail. It would coerce a string, a boolean or an object before comparing, and it would compare a float or double directly (`i < 2.5` runs three times). Neither behaviour is modelled.
- Prototype lookups: names such as `__proto__` in a `uses` list, or as an item name, are not modelled. They would reach JavaScript's prototype chain.
- Unicode: `toLowerCase` is modelled for ASCII letters only.
- A node without a `type` throws a TypeError in the source. Every node here has a type name.
- The concrete layouts of the two database files are not part of this model. Layouts are a parameter.
