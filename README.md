# miniredis stream and string commands in Dafny

This project models two command layers of miniredis, an in-memory Redis server
for Go tests:

- **Stream commands** (`cmd_stream.go`): XADD, XLEN, XRANGE/XREVRANGE,
  XGROUP CREATE, XINFO STREAM, XREADGROUP, XACK, XDEL, XREAD and XPENDING,
  together with the helpers they use. The helpers are `xreadgroup`, `xread`,
  `writeXread`, `writeXpendingSummary`, `writeXpending` and `parseBlock`.
- **String commands** (`cmd_string.go`): the `Get`/`Set` helpers and SET,
  SETEX, SETNX, MSET, GET and MGET.

Each handler takes the argument list that follows the command name. It returns
the reply it would write (`Replies.Reply`) and updates the database in place.
There are two database classes:

- `StreamDb.Db` holds the type tag of each key, the stream values and the
  per-key version counter.
- `StringCommands.RedisDb` holds the type tags, the string values and the
  expire numbers.

The stream internals that the handlers call are pure functions over values:

- `Streams.Add`, `Trim`, `Delete`, `CreateGroup` and `ReadGroup` cover the
  stream value.
- `ConsumerGroups.Ack` and `PendingCount` cover consumer groups.
- `StreamIds.ParseStreamId`, `RangeBound` and `Cmp` cover stream IDs.

They are given bodies that follow the documented design of stream IDs,
consumer groups and pending entries.

Loops in the source are methods with loop invariants. Each one is proved equal
to a specification function (`Walk`, `After`, `XreadFrom`, `XreadgroupFrom`,
`XreadOpts`, `SetFlags`, `Matching`, `Tagged`/`Assigned`/`Cleared`), and lemmas
state what those functions mean:

- the range walk returns exactly the entries between the bounds, in order or
  in reverse order;
- XREAD returns exactly the entries after each ID;
- XACK and XDEL remove exactly the IDs they name;
- group reads keep the consumer-group invariant;
- the XPENDING summary does not depend on the order in which the consumer map
  is iterated;
- in MSET the last value for a key wins.

Blocking reads are modelled by their first evaluation: `ReadOutcome.Now(reply)`
or `ReadOutcome.Wait(timeout)`.

## Model

| member | source | states |
|---|---|---|
| Text.AtoiOfItoa | cmd_stream.go:864 | The `strconv.Itoa` text of any int64 parses back to that integer under `strconv.Atoi`. |
| StreamIds.CmpIsTotalOrder | cmd_stream.go:230-245 | `streamCmp` returns -1/0/1. It is 0 exactly for equal IDs, it is antisymmetric, and Less/LessEq are transitive. |
| StreamIds.ParseFormatRoundTrip | cmd_stream.go:645 | Parsing the textual form of any 64-bit ID gives that ID back. |
| StreamIds.FormatIdInjective | cmd_stream.go:253-256 | Distinct valid IDs have distinct replies. |
| StreamIds.SpecialBoundsAreExtreme | cmd_stream.go:186-195 | "-" resolves to the smallest ID and "+" to the largest, and every valid ID lies between them. |
| StreamIds.BareMillisSelectsWholeMillisecond | cmd_stream.go:186-195 | A bare `<millis>` used as both range bounds selects exactly the IDs with that millisecond part, in either direction. |
| StreamLog.RangeScan | cmd_stream.go:214-251 | The XRANGE loop returns the capped walk over the log, which is reversed for XREVRANGE. |
| StreamLog.Scan | cmd_stream.go:219-250 | The walk loop returns the first `count` entries walked, or all of them when count is 0 or less. |
| StreamLog.RangeScanMeaning | cmd_stream.go:214-251 | Every returned entry is in the log and between the bounds. On an ascending log XRANGE returns the first `count` of start<=ID<=end in order, and XREVRANGE returns the first `count` of end<=ID<=start in descending order. |
| StreamLog.FullRangeScans | cmd_stream.go:214-251 | `- +` returns the whole log in order, and the reverse scan returns exactly its reverse. |
| StreamLog.AfterExactly | cmd_stream.go:716-719 | The XREAD filter keeps exactly the entries strictly after the ID, and keeps them ascending. |
| StreamLog.AfterIsSuffix | cmd_stream.go:714-721 | On an ascending log, the entries after an ID form a suffix of the log. |
| StreamLog.ReadAfter | cmd_stream.go:707-721 | The per-stream XREAD loop returns the first `count` entries after the ID. |
| ConsumerGroups.NewGroup | cmd_stream.go:301 | A new group is valid and has nothing pending. |
| ConsumerGroups.ReadNewDelivers | cmd_stream.go:525 | A ">" read delivers the first `count` entries after the cursor (all of them when count is 0 or less), in log order. It moves the cursor to the last one delivered, or leaves it when nothing is delivered, and appends one pending row with count 1 per entry, or none under NOACK. |
| ConsumerGroups.ReadNewKeepsValid | cmd_stream.go:525 | A ">" read keeps the group invariant: pending rows sorted, none beyond the cursor, each owned by a known consumer. |
| ConsumerGroups.AckRemovesExactly | cmd_stream.go:557 | `ack` removes exactly the named pending rows and returns how many went. It keeps the invariant, and acknowledging the same IDs again removes nothing. |
| ConsumerGroups.PendingDetailMeaning | cmd_stream.go:868-921 | Each detail row is a pending row that passes the consumer and range filters, with idle time now - lastDelivery. There are at most `count` rows. |
| ConsumerGroups.WritePending | cmd_stream.go:868-921 | The detail loop returns a null array for an empty list or a negative count. Otherwise it returns the first `count` matching rows in pending order. |
| ConsumerGroups.SummaryBounds | cmd_stream.go:845-847 | The first and last pending IDs reported are the smallest and largest pending IDs. |
| ConsumerGroups.PendingSummaryUnique | cmd_stream.go:829-866 | A group has exactly one summary reply, so the map iteration order cannot show through. |
| ConsumerGroups.WritePendingSummary | cmd_stream.go:829-866 | An empty group gives (0, nil, nil, null array). Otherwise the summary gives the count, first and last ID, and the busy consumers sorted by name with their counts. |
| ConsumerGroups.BusyCounts | cmd_stream.go:848-854 | Collects exactly the consumers with pending rows, each with its `pendingCount`. |
| ConsumerGroups.SortedNames | cmd_stream.go:856-860 | The collected names, strictly sorted and with the same members. |
| Streams.NextIdIncreases | cmd_stream.go:97 | A generated "*" ID is after the previous ID and never behind the clock. |
| Streams.AddExplicit | cmd_stream.go:97-101 | An explicit ID is accepted exactly when it is after the last issued ID. The entry is then appended with its values in argument order. |
| Streams.AddWildcard | cmd_stream.go:97-101 | "*" never fails, and appends the entry with the next ID. |
| Streams.WildcardAppendsIncrease | cmd_stream.go:97 | Two "*" appends issue strictly increasing IDs whatever the clock says. |
| Streams.AddKeepsValid | cmd_stream.go:97-106 | A successful add keeps the log strictly ascending and within the last issued ID. |
| Streams.TrimKeepsNewest | cmd_stream.go:107-109 | MAXLEN keeps exactly the newest min(maxLen, length) entries and leaves the last ID and groups unchanged. |
| Streams.TrimKeepsValid | cmd_stream.go:107-109 | Trimming keeps the stream invariant. |
| Streams.DeleteExactly | cmd_stream.go:588 | `delete` removes exactly the named entries and counts them. The last ID and the pending rows stay. |
| Streams.DeleteRejectsBadId | cmd_stream.go:588-591 | One unparsable ID rejects the whole XDEL. |
| Streams.CreateGroupMeaning | cmd_stream.go:301-305 | A used name is BUSYGROUP. A new group starts empty and leaves the log and other groups alone, and "$" puts its cursor at or past every entry. |
| Streams.ReplayIsReadOnly | cmd_stream.go:522-525 | A read with a concrete ID changes neither cursor nor pending rows. It returns exactly the logged entries behind the consumer's own pending rows after the ID. |
| Streams.ReadGroupKeepsValid | cmd_stream.go:525 | Any group read keeps the group invariant. |
| StreamDb.Db.StreamAt | cmd_stream.go:87-95 | WrongType exactly for a key of another type, None exactly for a missing key, else the stored stream. |
| StreamDb.Db.GroupAt | cmd_stream.go:547-555 | The stream errors, else the group exactly when the key and the group exist. |
| StreamDb.Db.BumpVersion | cmd_stream.go:110 | Increments one key's version and leaves every other version and all data alone. |
| StreamCommands.XaddMaxLen | cmd_stream.go:49-66 | A non-integer MAXLEN is an invalid-integer error and a negative one is the MAXLEN error. "~" changes nothing, and the parsed MAXLEN is kept. |
| StreamCommands.XaddFields | cmd_stream.go:67-84 | An odd field/value list is XADD's arity error. Otherwise the values are kept exactly, in order. |
| StreamCommands.ParseXaddArgs | cmd_stream.go:48-84 | The argument loop computes the XADD argument parse. |
| StreamCommands.Xadd | cmd_stream.go:32-114 | Arity, argument and type errors change nothing. Otherwise the key becomes a stream, and a successful add stores the (trimmed) stream, bumps the version once and replies with the new ID. |
| StreamCommands.StoreEntry | cmd_stream.go:86-112 | The database step of XADD satisfies `AddedAs`. |
| StreamCommands.Xlen | cmd_stream.go:117-147 | The number of entries, 0 for a missing key, and for another type the error followed by 0. |
| StreamCommands.XrangeArity | cmd_stream.go:152-183 | The arity and COUNT-keyword rules of XRANGE/XREVRANGE. |
| StreamCommands.Xrange | cmd_stream.go:150-264 | Argument errors are passed on, a missing key gives an empty array and another type gives WrongType. On a stream the reply is the ordered, capped selection between the bounds. |
| StreamCommands.FullRangeIsWholeStream | cmd_stream.go:214-251 | A full range returns the whole stream, and its reverse returns exactly the reverse. |
| StreamCommands.Xgroup | cmd_stream.go:267-276 | Anything but CREATE with 4 or 5 arguments is refused with the joined arguments and changes nothing. CREATE gives WrongType, or the missing-key error without MKSTREAM, with nothing changed. Otherwise the key becomes a stream (empty under MKSTREAM) and either gains the new group with OK or keeps its groups and replies createGroup's error. |
| StreamCommands.XgroupCreate | cmd_stream.go:279-308 | WrongType and missing key without MKSTREAM change nothing. Otherwise the key becomes a stream, which stays created when createGroup fails. |
| StreamCommands.Xinfo | cmd_stream.go:311-329 | STREAM answers the length. CONSUMERS/GROUPS/HELP are unsupported and anything else is a syntax error. |
| StreamCommands.XinfoStream | cmd_stream.go:333-357 | The stream's length, or KeyNotFound or WrongType. |
| StreamCommands.Xack | cmd_stream.go:536-564 | A missing key or group gives 0. Otherwise the named pending rows are removed and counted, and the key version is unchanged. |
| StreamCommands.Xdel | cmd_stream.go:567-596 | A missing key gives 0. Otherwise the named entries are removed and counted, and the version is bumped even when nothing matched. |
| StreamCommands.XpendingShapes | cmd_stream.go:764-799 | No extra arguments asks for the summary, one or two are a syntax error, and a detail request has 3 or 4 arguments. |
| StreamCommands.Xpending | cmd_stream.go:755-827 | Arity, argument, type and missing-group errors. Otherwise the unique summary or the detail report. |
| StreamReads.ParseBlock | cmd_stream.go:924-938 | Sets the block flag as soon as the argument exists. The timeout is written only when it is a non-negative integer, and a negative or non-integer timeout is an error. |
| StreamReads.XreadBlocksCount | cmd_stream.go:736-750 | With streams named once, the number of blocks written is the number of named streams with a result. |
| StreamReads.XreadWireAgrees | cmd_stream.go:729-752 | With streams named once, the announced header equals the blocks written and the wire reply is `XreadReply`. |
| StreamReads.XreadHeaderMismatch | cmd_stream.go:729-752 | A stream named twice: header 1, two blocks. |
| StreamReads.WriteXread | cmd_stream.go:729-752 | Writes `XreadReply`: a null array, or one block per argument position with a result. |
| StreamReads.IdsOf | cmd_stream.go:644-650 | One parsed ID per token, the IDs the XREAD scan compares against. |
| StreamReads.XreadFromPicks | cmd_stream.go:707-724 | A named stream is in the result exactly when it has entries to return, with those entries. Earlier results are kept. |
| StreamReads.XreadPicks | cmd_stream.go:692-727 | For distinct keys, a stream is present exactly when it exists and has entries after its ID. It then holds the first `count` of them in log order. |
| StreamReads.Xread | cmd_stream.go:692-727 | The loop computes `XreadFrom`. |
| StreamReads.XreadOpts | cmd_stream.go:615-657 | A successful parse pairs each stream with a parsed ID. |
| StreamReads.XreadStreamsClause | cmd_stream.go:636-652 | STREAMS in any case: odd lists are unbalanced and bad IDs are refused. Otherwise the streams are the first half and the IDs the second. |
| StreamReads.XreadUnknownOption | cmd_stream.go:653-655 | Any other word is refused by name. |
| StreamReads.ParseXreadOpts | cmd_stream.go:615-657 | The option loop computes `XreadOpts`. |
| StreamReads.CmdXread | cmd_stream.go:599-690 | Arity and option errors. A BLOCK read with nothing to return waits. Otherwise the reply is immediate. |
| StreamReads.XreadgroupIncludesReplays | cmd_stream.go:510-531 | Every stream read with a concrete ID is in a successful result, and only named streams are. |
| StreamReads.XreadgroupOneStream | cmd_stream.go:512-528 | For one stream: missing group, unparsable ID, ">" with nothing new left out, any other read included. |
| StreamReads.XreadgroupFromStep | cmd_stream.go:510-531 | The loop's unfolding: an error stops the loop with the reads done so far kept. |
| StreamReads.ReadGroupStep | cmd_stream.go:512-528 | One iteration on the database computes `GroupStep` and stores its streams. |
| StreamReads.Xreadgroup | cmd_stream.go:500-533 | The loop computes `XreadgroupFrom`, and the database ends with its streams. |
| StreamReads.XreadgroupOpts | cmd_stream.go:388-426 | A successful parse pairs streams and IDs. |
| StreamReads.ParseXreadgroupOpts | cmd_stream.go:388-426 | The option loop computes `XreadgroupOpts`. |
| StreamReads.StillBlocks | cmd_stream.go:440-444 | Blocking survives only when every ID is ">". |
| StreamReads.ConcreteIdNeverBlocks | cmd_stream.go:440-444 | Any concrete ID makes XREADGROUP answer at once. |
| StreamReads.CmdXreadgroup | cmd_stream.go:360-498 | Arity, GROUP, option and empty-stream errors change nothing. Otherwise the group reads are done and kept even on a later error, and the reply waits only under BLOCK with all ">" and nothing read. |
| StringCommands.RedisDb.Get | cmd_string.go:16-25 | The string value, or "" for a missing or non-string key. |
| StringCommands.RedisDb.Set | cmd_string.go:27-43 | Tags the key "string" and stores the value. The expire is untouched. |
| StringCommands.RedisDb.CmdSet | cmd_string.go:47-113 | Usage and flag errors change nothing, and so do NX on an existing key and XX on a missing one (Nil). Otherwise the key holds the string, the old expire goes and a non-zero EX/PX is recorded. |
| StringCommands.RedisDb.Replace | cmd_string.go:104-111 | The success path of SET. |
| StringCommands.RedisDb.PutString | cmd_string.go:104-107 | Deleting, then setting, leaves the key a string with no expire and changes nothing else. |
| StringCommands.RedisDb.CmdSetex | cmd_string.go:115-138 | Usage and expire-value errors change nothing. Otherwise the key is set with its expire. |
| StringCommands.RedisDb.CmdSetnx | cmd_string.go:140-160 | An existing key of any type gives 0 and no change. Otherwise the key is set and the reply is 1. |
| StringCommands.RedisDb.CmdMset | cmd_string.go:162-183 | An odd count changes nothing. Otherwise the pairs apply left to right (`Tagged`/`Assigned`/`Cleared`). |
| StringCommands.RedisDb.CmdGet | cmd_string.go:185-207 | Usage, wrong-type, Nil for a missing key, else the value. |
| StringCommands.RedisDb.Lookup | cmd_string.go:220-232 | Nil exactly for a missing or non-string key, else the value. |
| StringCommands.RedisDb.CmdMget | cmd_string.go:209-234 | One element per argument, in order, each the key's lookup. |
| StringCommands.RedisDb.GetAgreesWithMget | cmd_string.go:185-234 | For a string or missing key, GET's reply is MGET's element. |
| StringCommands.ParseSetFlags | cmd_string.go:58-85 | The flag loop computes `SetFlags`. |
| StringCommands.SetFlagsKeep | cmd_string.go:58-85 | Later flags never clear NX or XX. |
| StringCommands.NxXxAlwaysRefused | cmd_string.go:58-102 | NX and XX together refuse SET for an existing and for a missing key alike. |
| StringCommands.ExSameAsPx | cmd_string.go:68-80 | EX and PX record their number alike. |
| StringCommands.LastValue | cmd_string.go:171-180 | A key has a last value exactly when MSET names it. |
| StringCommands.MsetLastWins | cmd_string.go:171-180 | A named key holds its last pair's value, and other keys keep theirs. |
| StringCommands.MsetTagsAndClears | cmd_string.go:171-180 | A named key is tagged "string" with no expire, and other keys keep their tag and expire. |

## Left out

- Blocking: the wait loops of XREADGROUP and XREAD (`cmd_stream.go:468-497`,
  `673-689`) are out of scope. They wait on the key versions with a timeout,
  under the server's lock and condition variable. The model returns
  `Wait(timeout)` where the handler would block and stops there.
- Transactions (`withTx`), authentication and pub/sub checks, `setDirty`,
  command registration and locking are plumbing around the handlers and are
  not modelled.
- The RESP wire encoding is modelled by the `Reply` datatype. Error texts that
  are named constants outside these files are tags in `Replies.Failure`. The
  only exception is `writeXread`'s header, which the Finding below needs.
- The stream value and group internals (`add`, `trim`, `delete`,
  `createGroup`, `readGroup`, `ack`, `pendingCount`, `parseStreamID`,
  `formatStreamRangeBound`, `streamCmp`, `reversedStreamEntries`, `db.stream`,
  `db.streamGroup`, `newStream`, `db.del`) are not part of these files. They
  are given bodies from the documented design.
- `Streams.ReadGroup`: a replay with a concrete ID ignores COUNT and does not
  update delivery counts or times.
- `Text.Atoi` and `Text.ParseUint` reject values outside the int64 and
  uint64 ranges, as `strconv` does. Both the range error and the syntax error
  map to one failure, so the reply cannot tell them apart. ToUpper and
  ToLower map ASCII letters only; Unicode case mapping is not modelled.
- `Streams.NextId` and `Streams.Add`: a "*" ID whose sequence part would pass
  2^64-1 is not refused, because IDs are unbounded naturals. A "*" add never
  fails for overflow. That is why `StreamCommands.FullRangeIsWholeStream`
  needs every entry ID to fit in 64 bits.
- Time is an `int` of milliseconds passed in as `now`. BLOCK's
  `time.Duration` is kept as that number of milliseconds.
- Consumers of a group are a set of names. Their per-consumer records and
  last-seen times are not modelled.
- The Go handlers share `*streamKey` and `*streamGroup` pointers. The model
  stores values and writes the updated stream back into the map, so aliasing
  between keys is not captured.
- `StringCommands.RedisDb.Lookup` leaves out MGET's second Nil case, a key
  tagged "string" without a value. That state violates the database invariant
  `Valid`.
- `StringCommands.RedisDb.Del` only clears the string map and expire. The
  other type maps that `db.del` also clears are not part of this model.
- Expire numbers are recorded as given, seconds or milliseconds alike. TTL
  countdown is not modelled.

## Findings

| source | as written | input that shows it | evidently intended | confidence | as-written member | corrected member |
|---|---|---|---|---|---|---|
| cmd_stream.go:729-752 | `writeXread` announces `len(res)` array elements (distinct streams with a result), then writes one block per argument position whose stream has a result. | `XREAD STREAMS a a 0 0` on a stream `a` with one entry: header 1, two blocks written. | The header counts the blocks actually written. | not executed | StreamReads.XreadHeaderMismatch | StreamReads.WriteXread |
