/** The two stream read commands, XREAD and XREADGROUP: their option parse,
    BLOCK's argument, the per-stream reads (xread, xreadgroup) and the reply
    assembly (writeXread). A blocking read is modelled by its first, immediate
    evaluation only. */
module StreamReads {
  import opened Replies
  import opened Text
  import opened StreamIds
  import opened StreamLog
  import opened ConsumerGroups
  import opened Streams
  import opened StreamDb

  /** What a read command does on its first evaluation: reply now, or (under
      BLOCK, when there is nothing to return) wait up to `timeoutMs`
      milliseconds, 0 meaning without limit. */
  datatype ReadOutcome = Now(reply: Reply) | Wait(timeoutMs: int)

  /** ---------------------------------------------------------- parseBlock */

  /** The timeout BLOCK's argument gives, or the error it is refused with. */
  function BlockTimeout(cmd: string, args: seq<string>): Result<int, Failure>
  {
    if |args| < 2 then Err(WrongNumber(cmd))
    else
      match Atoi(args[1])
      case None => Err(InvalidInt)
      case Some(ms) => if ms < 0 then Err(Msg("ERR timeout is negative")) else Ok(ms)
  }

  /** parseBlock (cmd_stream.go:924-938), with the two pointer parameters as
      in/out values: the block flag is set as soon as there is an argument,
      before the number is checked; the timeout is written only on success. */
  method ParseBlock(cmd: string, args: seq<string>, block: bool, timeout: int)
    returns (block': bool, timeout': int, err: Option<Failure>)
    ensures |args| < 2 ==> block' == block && timeout' == timeout && err == Some(WrongNumber(cmd))
    ensures |args| >= 2 ==> block'
    ensures |args| >= 2 && Atoi(args[1]).None? ==> err == Some(InvalidInt) && timeout' == timeout
    ensures |args| >= 2 && Atoi(args[1]).Some? && Atoi(args[1]).value < 0 ==>
              err == Some(Msg("ERR timeout is negative")) && timeout' == timeout
    ensures |args| >= 2 && Atoi(args[1]).Some? && Atoi(args[1]).value >= 0 ==>
              err == None && timeout' == Atoi(args[1]).value
    ensures err.None? <==> BlockTimeout(cmd, args).Ok?
    ensures err.Some? ==> err.value == BlockTimeout(cmd, args).error
    ensures err.None? ==> timeout' == BlockTimeout(cmd, args).value
  {
    block', timeout' := block, timeout;
    if |args| < 2 {
      return block', timeout', Some(WrongNumber(cmd));
    }
    block' := true;
    var ms := Atoi(args[1]);
    if ms.None? {
      return block', timeout', Some(InvalidInt);
    }
    if ms.value < 0 {
      return block', timeout', Some(Msg("ERR timeout is negative"));
    }
    timeout' := ms.value;
    err := None;
  }

  /** --------------------------------------------------- reply assembly */

  /** One stream's block of a read reply: its name and its entries. */
  function StreamBlock(stream: string, entries: seq<Entry>): Reply
  {
    Array([Bulk(stream), Array(EntryReplies(entries))])
  }

  /** The blocks writeXread writes: one per argument position whose stream
      has a result, in argument order. */
  function XreadBlocks(streams: seq<string>, res: map<string, seq<Entry>>): seq<Reply>
  {
    if streams == [] then []
    else if streams[0] in res then [StreamBlock(streams[0], res[streams[0]])] + XreadBlocks(streams[1..], res)
    else XreadBlocks(streams[1..], res)
  }

  /** writeXread as written (cmd_stream.go:729-752), on the wire: the array
      header it announces (-1 for the null array) and the blocks it then
      writes. The header counts the streams in the result map, the blocks
      are written per argument position. */
  function XreadWireAsWritten(streams: seq<string>, res: map<string, seq<Entry>>): (int, seq<Reply>)
  {
    if |res| == 0 then (-1, []) else (|res|, XreadBlocks(streams, res))
  }

  /** The read reply: a null array when no stream has a result, else one
      block per argument position whose stream has a result, the header
      counting exactly those blocks. */
  function XreadReply(streams: seq<string>, res: map<string, seq<Entry>>): Reply
  {
    if |res| == 0 then NullArray else Array(XreadBlocks(streams, res))
  }

  lemma {:induction false} XreadBlocksCount(streams: seq<string>, res: map<string, seq<Entry>>)
    requires Distinct(streams)
    ensures |XreadBlocks(streams, res)| == |set k | k in res && k in streams|
  {
    if streams != [] {
      var x, rest := streams[0], streams[1..];
      assert Distinct(rest);
      XreadBlocksCount(rest, res);
      var all := set k | k in res && k in streams;
      var tail := set k | k in res && k in rest;
      assert x !in rest by {
        assert forall j :: 0 <= j < |rest| ==> rest[j] == streams[j + 1] != x;
      }
      assert forall k :: k in streams <==> k == x || k in rest;
      if x in res {
        assert all == {x} + tail;
      } else {
        assert all == tail;
      }
    }
  }

  /** When every stream is named once and only named streams have results,
      the header writeXread announces matches the blocks it writes, so the
      read reply is exactly what the handler puts on the wire. */
  lemma XreadWireAgrees(streams: seq<string>, res: map<string, seq<Entry>>)
    requires Distinct(streams) && forall k :: k in res ==> k in streams
    ensures var (header, blocks) := XreadWireAsWritten(streams, res);
            && header == (if |res| == 0 then -1 else |blocks|)
            && XreadReply(streams, res) == (if |res| == 0 then NullArray else Array(blocks))
  {
    XreadBlocksCount(streams, res);
    assert (set k | k in res && k in streams) == res.Keys;
  }

  /** A stream named twice: one result, a header of 1, and two blocks. */
  lemma XreadHeaderMismatch(e: Entry)
    ensures var res := map["a" := [e]];
            XreadWireAsWritten(["a", "a"], res) == (1, [StreamBlock("a", [e]), StreamBlock("a", [e])])
  {
    var res := map["a" := [e]];
    assert |res| == 1 by {
      assert res.Keys == {"a"};
    }
    assert ["a", "a"][1..] == ["a"] && ["a"][1..] == [];
    assert XreadBlocks(["a"], res) == [StreamBlock("a", [e])];
    assert XreadBlocks(["a", "a"], res) == [StreamBlock("a", [e])] + XreadBlocks(["a"], res);
    var b := StreamBlock("a", [e]);
    assert [b] + [b] == [b, b];
  }

  /** writeXread with the header counting the blocks written
      (cmd_stream.go:729-752). */
  method WriteXread(streams: seq<string>, res: map<string, seq<Entry>>) returns (r: Reply)
    ensures r == XreadReply(streams, res)
  {
    if |res| == 0 {
      return NullArray;
    }
    var blocks: seq<Reply> := [];
    var i := 0;
    while i < |streams|
      invariant 0 <= i <= |streams|
      invariant XreadBlocks(streams, res) == blocks + XreadBlocks(streams[i..], res)
    {
      assert streams[i..][1..] == streams[i + 1..];
      var stream := streams[i];
      if stream in res {
        blocks := blocks + [StreamBlock(stream, res[stream])];
      }
      i := i + 1;
    }
    r := Array(blocks);
  }

  /** ----------------------------------------------------------- xread */

  predicate AllParse(tokens: seq<string>)
  {
    forall i :: 0 <= i < |tokens| ==> ParseStreamId(tokens[i]).Some?
  }

  function IdsOf(tokens: seq<string>): (ids: seq<EntryId>)
    requires AllParse(tokens)
    ensures |ids| == |tokens|
  {
    seq(|tokens|, i requires 0 <= i < |tokens| => ParseStreamId(tokens[i]).value)
  }

  /** What xread reads from one stream: the first `count` entries (all when
      count is 0 or less) after `id`; nothing for a missing stream. */
  function ReadOne(streams: map<string, Stream>, key: string, id: EntryId, count: int): seq<Entry>
  {
    if key in streams then Cap(After(streams[key].entries, id), count) else []
  }

  /** xread's loop from position i on, with the results so far in `acc`:
      a stream with something to return has its entry (re)written, the
      others are left out. */
  function XreadFrom(streams: map<string, Stream>, keys: seq<string>, ids: seq<EntryId>, count: int,
                     acc: map<string, seq<Entry>>): map<string, seq<Entry>>
    requires |keys| == |ids|
  {
    if keys == [] then acc
    else
      var got := ReadOne(streams, keys[0], ids[0], count);
      XreadFrom(streams, keys[1..], ids[1..], count, if got != [] then acc[keys[0] := got] else acc)
  }

  lemma {:induction false} XreadFromPicks(streams: map<string, Stream>, keys: seq<string>, ids: seq<EntryId>, count: int,
                                          acc: map<string, seq<Entry>>)
    requires |keys| == |ids| && Distinct(keys)
    requires forall k :: k in acc ==> k !in keys
    ensures var res := XreadFrom(streams, keys, ids, count, acc);
            && (forall k :: k in res ==> k in acc || k in keys)
            && (forall k :: k in acc ==> k in res && res[k] == acc[k])
            && forall i :: 0 <= i < |keys| ==>
                 (keys[i] in res <==> ReadOne(streams, keys[i], ids[i], count) != [])
                 && (keys[i] in res ==> res[keys[i]] == ReadOne(streams, keys[i], ids[i], count))
  {
    if keys != [] {
      var got := ReadOne(streams, keys[0], ids[0], count);
      var acc' := if got != [] then acc[keys[0] := got] else acc;
      assert forall j :: 0 <= j < |keys[1..]| ==> keys[1..][j] == keys[j + 1] != keys[0];
      XreadFromPicks(streams, keys[1..], ids[1..], count, acc');
      var res := XreadFrom(streams, keys, ids, count, acc);
      forall i | 0 <= i < |keys|
        ensures (keys[i] in res <==> ReadOne(streams, keys[i], ids[i], count) != [])
                && (keys[i] in res ==> res[keys[i]] == ReadOne(streams, keys[i], ids[i], count))
      {
        if i > 0 {
          assert keys[i] == keys[1..][i - 1] && ids[i] == ids[1..][i - 1];
        }
      }
    }
  }

  /** xread's result, for streams named once each: a stream is present
      exactly when it exists and has entries after its ID, and then holds
      the first `count` of them (all when count is 0 or less) in log order;
      nothing else is present. */
  lemma XreadPicks(streams: map<string, Stream>, keys: seq<string>, ids: seq<EntryId>, count: int)
    requires |keys| == |ids| && Distinct(keys)
    ensures var res := XreadFrom(streams, keys, ids, count, map[]);
            && (forall k :: k in res ==> k in keys)
            && forall i :: 0 <= i < |keys| ==>
                 (keys[i] in res <==> keys[i] in streams && After(streams[keys[i]].entries, ids[i]) != [])
                 && (keys[i] in res ==> res[keys[i]] == Cap(After(streams[keys[i]].entries, ids[i]), count))
  {
    XreadFromPicks(streams, keys, ids, count, map[]);
  }

  /** xread (cmd_stream.go:692-727). */
  method Xread(db: Db, keys: seq<string>, ids: seq<EntryId>, count: int) returns (res: map<string, seq<Entry>>)
    requires |keys| == |ids|
    ensures res == XreadFrom(db.streams, keys, ids, count, map[])
  {
    res := map[];
    var i := 0;
    while i < |keys|
      invariant 0 <= i <= |keys|
      invariant XreadFrom(db.streams, keys, ids, count, map[]) == XreadFrom(db.streams, keys[i..], ids[i..], count, res)
    {
      assert keys[i..][1..] == keys[i + 1..] && ids[i..][1..] == ids[i + 1..];
      var stream, id := keys[i], ids[i];
      if stream !in db.streams {
        i := i + 1;
        continue;
      }
      var entries := db.streams[stream].entries;
      if |entries| == 0 {
        i := i + 1;
        continue;
      }
      var returned := ReadAfter(entries, id, count);
      if |returned| > 0 {
        res := res[stream := returned];
      }
      i := i + 1;
    }
  }

  /** ------------------------------------------------------------ XREAD */

  datatype ReadOpts = ReadOpts(count: int, streams: seq<string>, ids: seq<string>, block: bool, timeout: int)

  const NoReadOpts: ReadOpts := ReadOpts(0, [], [], false, 0)

  /** cmdXread's option loop (cmd_stream.go:615-657) from the remaining
      arguments: COUNT n, BLOCK ms, then STREAMS with an even number of
      names-then-IDs that must all parse; anything else is refused. */
  function XreadOpts(args: seq<string>, o: ReadOpts): (r: Result<ReadOpts, Failure>)
    ensures r.Ok? && |o.streams| == |o.ids| && AllParse(o.ids) ==>
              |r.value.streams| == |r.value.ids| && AllParse(r.value.ids)
    decreases |args|
  {
    if args == [] then Ok(o)
    else
      var word := Upper(args[0]);
      if word == "COUNT" then
        if |args| < 2 then Err(WrongNumber("xread"))
        else
          match Atoi(args[1])
          case None => Err(AtoiFailed(args[1]))
          case Some(n) => XreadOpts(args[2..], o.(count := n))
      else if word == "BLOCK" then
        match BlockTimeout("xread", args)
        case Err(f) => Err(f)
        case Ok(ms) => XreadOpts(args[2..], o.(block := true, timeout := ms))
      else if word == "STREAMS" then
        var rest := args[1..];
        if |rest| % 2 != 0 then Err(XreadUnbalanced)
        else if !AllParse(rest[|rest| / 2..]) then Err(InvalidStreamId)
        else Ok(o.(streams := rest[..|rest| / 2], ids := rest[|rest| / 2..]))
      else Err(Msg("ERR incorrect argument " + args[0]))
  }

  /** STREAMS (the keyword in any case): an odd name/ID list is unbalanced,
      an ID that does not parse is refused, and otherwise the first half
      names the streams and the second half gives their IDs. */
  lemma XreadStreamsClause(w: string, rest: seq<string>, o: ReadOpts)
    requires Upper(w) == "STREAMS"
    ensures XreadOpts([w] + rest, o)
            == if |rest| % 2 != 0 then Err(XreadUnbalanced)
               else if !AllParse(rest[|rest| / 2..]) then Err(InvalidStreamId)
               else Ok(o.(streams := rest[..|rest| / 2], ids := rest[|rest| / 2..]))
  {
    assert ([w] + rest)[0] == w && ([w] + rest)[1..] == rest;
  }

  /** Any word other than COUNT, BLOCK and STREAMS (in any case) is refused
      by name. */
  lemma XreadUnknownOption(w: string, rest: seq<string>, o: ReadOpts)
    requires Upper(w) != "COUNT" && Upper(w) != "BLOCK" && Upper(w) != "STREAMS"
    ensures XreadOpts([w] + rest, o) == Err(Msg("ERR incorrect argument " + w))
  {
    assert ([w] + rest)[0] == w;
  }

  /** The option loop of cmdXread (cmd_stream.go:615-657). */
  method ParseXreadOpts(args: seq<string>) returns (res: Result<ReadOpts, Failure>)
    ensures res == XreadOpts(args, NoReadOpts)
  {
    var rest := args;
    var o := NoReadOpts;
    while |rest| > 0
      invariant XreadOpts(args, NoReadOpts) == XreadOpts(rest, o)
      decreases |rest|
    {
      var word := Upper(rest[0]);
      if word == "COUNT" {
        if |rest| < 2 {
          return Err(WrongNumber("xread"));
        }
        var n := Atoi(rest[1]);
        if n.None? {
          return Err(AtoiFailed(rest[1]));
        }
        o := o.(count := n.value);
        rest := rest[2..];
      } else if word == "BLOCK" {
        var block, timeout, err := ParseBlock("xread", rest, o.block, o.timeout);
        if err.Some? {
          return Err(err.value);
        }
        o := o.(block := block, timeout := timeout);
        rest := rest[2..];
      } else if word == "STREAMS" {
        rest := rest[1..];
        if |rest| % 2 != 0 {
          return Err(XreadUnbalanced);
        }
        var names, ids := rest[..|rest| / 2], rest[|rest| / 2..];
        var i := 0;
        while i < |ids|
          invariant 0 <= i <= |ids|
          invariant forall j :: 0 <= j < i ==> ParseStreamId(ids[j]).Some?
        {
          if ParseStreamId(ids[i]).None? {
            return Err(InvalidStreamId);
          }
          i := i + 1;
        }
        return Ok(o.(streams := names, ids := ids));
      } else {
        return Err(Msg("ERR incorrect argument " + rest[0]));
      }
    }
    res := Ok(o);
  }

  /** cmdXread (cmd_stream.go:599-690), first evaluation. Without BLOCK the
      reply is immediate; with BLOCK an empty result waits instead. */
  method CmdXread(db: Db, args: seq<string>) returns (out: ReadOutcome)
    requires db.Valid()
    ensures |args| < 3 ==> out == Now(Error(WrongNumber("xread")))
    ensures |args| >= 3 && XreadOpts(args, NoReadOpts).Err? ==> out == Now(Error(XreadOpts(args, NoReadOpts).error))
    ensures |args| >= 3 && XreadOpts(args, NoReadOpts).Ok? ==>
              var o := XreadOpts(args, NoReadOpts).value;
              var res := XreadFrom(db.streams, o.streams, IdsOf(o.ids), o.count, map[]);
              out == if o.block && |res| == 0 then Wait(o.timeout) else Now(XreadReply(o.streams, res))
  {
    if |args| < 3 {
      return Now(Error(WrongNumber("xread")));
    }
    var parsed := ParseXreadOpts(args);
    if parsed.Err? {
      return Now(Error(parsed.error));
    }
    var o := parsed.value;
    var res := Xread(db, o.streams, IdsOf(o.ids), o.count);
    if o.block && |res| == 0 {
      return Wait(o.timeout);
    }
    var r := WriteXread(o.streams, res);
    out := Now(r);
  }

  /** ------------------------------------------------------- xreadgroup */

  /** One iteration of xreadgroup's loop (cmd_stream.go:512-524): the
      errors of db.streamGroup, a missing group, an ID other than ">" that
      does not parse; else the group read, giving the updated streams and
      the entries read. */
  function GroupStep(keys: map<string, string>, streams: map<string, Stream>, group: string, consumer: string,
                     noAck: bool, key: string, id: string, count: int, now: int)
    : Result<(map<string, Stream>, seq<Entry>), Failure>
  {
    if key in keys && keys[key] != "stream" then Err(WrongType)
    else if key !in streams || group !in streams[key].groups then Err(NoGroupForRead(key, group))
    else if id != ">" && ParseStreamId(id).None? then Err(InvalidEntryId)
    else
      var s := streams[key];
      var (g', entries) := ReadGroup(s.groups[group], s.entries, now, consumer, id, count, noAck);
      Ok((streams[key := s.(groups := s.groups[group := g'])], entries))
  }

  /** xreadgroup's loop (cmd_stream.go:510-531) from the remaining streams,
      on the database's streams so far and with the results so far in `acc`.
      It gives the streams after the loop and the result or the error. The
      group reads of streams before an error stay done; a ">" read with
      nothing new leaves its stream out of the result. */
  function XreadgroupFrom(keys: map<string, string>, streams: map<string, Stream>, group: string, consumer: string,
                          noAck: bool, names: seq<string>, ids: seq<string>, count: int, now: int,
                          acc: map<string, seq<Entry>>): (map<string, Stream>, Result<map<string, seq<Entry>>, Failure>)
    requires |names| == |ids|
    decreases |names|
  {
    if names == [] then (streams, Ok(acc))
    else
      match GroupStep(keys, streams, group, consumer, noAck, names[0], ids[0], count, now)
      case Err(f) => (streams, Err(f))
      case Ok((streams', entries)) =>
        XreadgroupFrom(keys, streams', group, consumer, noAck, names[1..], ids[1..], count, now,
                       if ids[0] == ">" && entries == [] then acc else acc[names[0] := entries])
  }

  /** A stream read with a concrete ID is always in a successful result, even
      with nothing to replay; every stream in the result was named. */
  lemma {:induction false} XreadgroupIncludesReplays(keys: map<string, string>, streams: map<string, Stream>, group: string,
                                                    consumer: string, noAck: bool, names: seq<string>, ids: seq<string>,
                                                    count: int, now: int, acc: map<string, seq<Entry>>)
    requires |names| == |ids|
    requires XreadgroupFrom(keys, streams, group, consumer, noAck, names, ids, count, now, acc).1.Ok?
    ensures var res := XreadgroupFrom(keys, streams, group, consumer, noAck, names, ids, count, now, acc).1.value;
            && (forall k :: k in res ==> k in acc || k in names)
            && (forall k :: k in acc ==> k in res)
            && forall i :: 0 <= i < |names| && ids[i] != ">" ==> names[i] in res
    decreases |names|
  {
    if names != [] {
      var (streams', entries) := GroupStep(keys, streams, group, consumer, noAck, names[0], ids[0], count, now).value;
      var acc' := if ids[0] == ">" && entries == [] then acc else acc[names[0] := entries];
      XreadgroupIncludesReplays(keys, streams', group, consumer, noAck, names[1..], ids[1..], count, now, acc');
      forall i | 0 < i < |names| ensures names[i] == names[1..][i - 1] && ids[i] == ids[1..][i - 1] {
      }
    }
  }

  /** One stream read by XREADGROUP: a missing group is errXreadgroup, an
      unparsable ID is refused, ">" with nothing new leaves the stream out of
      the result, and any other read is in it. */
  lemma XreadgroupOneStream(keys: map<string, string>, streams: map<string, Stream>, group: string, consumer: string,
                            noAck: bool, key: string, id: string, count: int, now: int)
    requires key in streams ==> key in keys && keys[key] == "stream"
    ensures key !in streams || group !in streams[key].groups ==>
              (key !in keys || keys[key] == "stream" ==>
                 XreadgroupFrom(keys, streams, group, consumer, noAck, [key], [id], count, now, map[]).1
                   == Err(NoGroupForRead(key, group)))
    ensures key in streams && group in streams[key].groups && id != ">" && ParseStreamId(id).None? ==>
              XreadgroupFrom(keys, streams, group, consumer, noAck, [key], [id], count, now, map[]).1 == Err(InvalidEntryId)
    ensures key in streams && group in streams[key].groups && (id == ">" || ParseStreamId(id).Some?) ==>
              var g := streams[key].groups[group];
              var (_, entries) := ReadGroup(g, streams[key].entries, now, consumer, id, count, noAck);
              XreadgroupFrom(keys, streams, group, consumer, noAck, [key], [id], count, now, map[]).1
                == Ok(if id == ">" && entries == [] then map[] else map[key := entries])
  {
    assert [key][1..] == [] && [id][1..] == [];
  }

  /** One iteration of xreadgroup's loop on the database
      (cmd_stream.go:512-524). */
  method ReadGroupStep(db: Db, group: string, consumer: string, noAck: bool, key: string, id: string,
                       count: int, now: int) returns (res: Result<seq<Entry>, Failure>)
    requires db.Valid()
    modifies db
    ensures db.Valid() && db.keys == old(db.keys) && db.keyVersion == old(db.keyVersion)
    ensures var step := GroupStep(old(db.keys), old(db.streams), group, consumer, noAck, key, id, count, now);
            && (res.Err? <==> step.Err?)
            && (res.Err? ==> res.error == step.error && db.streams == old(db.streams))
            && (res.Ok? ==> res.value == step.value.1 && db.streams == step.value.0)
  {
    var found := db.GroupAt(key, group);
    if found.Err? {
      return Err(found.error);
    }
    if found.value.None? {
      return Err(NoGroupForRead(key, group));
    }
    if id != ">" && ParseStreamId(id).None? {
      return Err(InvalidEntryId);
    }
    var s := db.streams[key];
    var (g', entries) := ReadGroup(found.value.value, s.entries, now, consumer, id, count, noAck);
    ReadGroupKeepsValid(found.value.value, s.entries, now, consumer, id, count, noAck);
    db.StoreStream(key, s.(groups := s.groups[group := g']));
    res := Ok(entries);
  }

  lemma XreadgroupFromStep(keys: map<string, string>, streams: map<string, Stream>, group: string, consumer: string,
                           noAck: bool, names: seq<string>, ids: seq<string>, count: int, now: int,
                           acc: map<string, seq<Entry>>)
    requires |names| == |ids| && names != []
    ensures XreadgroupFrom(keys, streams, group, consumer, noAck, names, ids, count, now, acc)
            == match GroupStep(keys, streams, group, consumer, noAck, names[0], ids[0], count, now)
               case Err(f) => (streams, Err(f))
               case Ok((streams', entries)) =>
                 XreadgroupFrom(keys, streams', group, consumer, noAck, names[1..], ids[1..], count, now,
                                if ids[0] == ">" && entries == [] then acc else acc[names[0] := entries])
  {
  }

  /** xreadgroup (cmd_stream.go:500-533). */
  method Xreadgroup(db: Db, group: string, consumer: string, noAck: bool, names: seq<string>, ids: seq<string>,
                    count: int, now: int) returns (res: Result<map<string, seq<Entry>>, Failure>)
    requires db.Valid() && |names| == |ids|
    modifies db
    ensures db.Valid() && db.keys == old(db.keys) && db.keyVersion == old(db.keyVersion)
    ensures (db.streams, res) == XreadgroupFrom(old(db.keys), old(db.streams), group, consumer, noAck, names, ids, count, now, map[])
  {
    var acc: map<string, seq<Entry>> := map[];
    var i := 0;
    while i < |names|
      invariant 0 <= i <= |names|
      invariant db.Valid() && db.keys == old(db.keys) && db.keyVersion == old(db.keyVersion)
      invariant XreadgroupFrom(old(db.keys), old(db.streams), group, consumer, noAck, names, ids, count, now, map[])
                == XreadgroupFrom(db.keys, db.streams, group, consumer, noAck, names[i..], ids[i..], count, now, acc)
    {
      var key, id := names[i], ids[i];
      XreadgroupFromStep(db.keys, db.streams, group, consumer, noAck, names[i..], ids[i..], count, now, acc);
      assert names[i..][1..] == names[i + 1..] && ids[i..][1..] == ids[i + 1..];
      assert names[i..][0] == key && ids[i..][0] == id;
      var entries := ReadGroupStep(db, group, consumer, noAck, key, id, count, now);
      if entries.Err? {
        return Err(entries.error);
      }
      if !(id == ">" && |entries.value| == 0) {
        acc := acc[key := entries.value];
      }
      i := i + 1;
    }
    res := Ok(acc);
  }

  /** ------------------------------------------------------- XREADGROUP */

  datatype GroupOpts = GroupOpts(group: string, consumer: string, count: int, noAck: bool,
                                 streams: seq<string>, ids: seq<string>, block: bool, timeout: int)

  /** cmdXreadgroup's option loop (cmd_stream.go:388-426) from the remaining
      arguments: COUNT n, BLOCK ms, NOACK, then STREAMS with an even number
      of names-then-IDs; anything else is refused. */
  function XreadgroupOpts(args: seq<string>, o: GroupOpts): (r: Result<GroupOpts, Failure>)
    ensures r.Ok? && |o.streams| == |o.ids| ==> |r.value.streams| == |r.value.ids|
    decreases |args|
  {
    if args == [] then Ok(o)
    else
      var word := Upper(args[0]);
      if word == "COUNT" then
        if |args| < 2 then Err(WrongNumber("xreadgroup"))
        else
          match Atoi(args[1])
          case None => Err(AtoiFailed(args[1]))
          case Some(n) => XreadgroupOpts(args[2..], o.(count := n))
      else if word == "BLOCK" then
        match BlockTimeout("xreadgroup", args)
        case Err(f) => Err(f)
        case Ok(ms) => XreadgroupOpts(args[2..], o.(block := true, timeout := ms))
      else if word == "NOACK" then XreadgroupOpts(args[1..], o.(noAck := true))
      else if word == "STREAMS" then
        var rest := args[1..];
        if |rest| % 2 != 0 then Err(XreadUnbalanced)
        else Ok(o.(streams := rest[..|rest| / 2], ids := rest[|rest| / 2..]))
      else Err(Msg("ERR incorrect argument " + args[0]))
  }

  /** The option loop of cmdXreadgroup (cmd_stream.go:388-426). */
  method ParseXreadgroupOpts(args: seq<string>, init: GroupOpts) returns (res: Result<GroupOpts, Failure>)
    ensures res == XreadgroupOpts(args, init)
  {
    var rest := args;
    var o := init;
    while |rest| > 0
      invariant XreadgroupOpts(args, init) == XreadgroupOpts(rest, o)
      decreases |rest|
    {
      var word := Upper(rest[0]);
      if word == "COUNT" {
        if |rest| < 2 {
          return Err(WrongNumber("xreadgroup"));
        }
        var n := Atoi(rest[1]);
        if n.None? {
          return Err(AtoiFailed(rest[1]));
        }
        o := o.(count := n.value);
        rest := rest[2..];
      } else if word == "BLOCK" {
        var block, timeout, err := ParseBlock("xreadgroup", rest, o.block, o.timeout);
        if err.Some? {
          return Err(err.value);
        }
        o := o.(block := block, timeout := timeout);
        rest := rest[2..];
      } else if word == "NOACK" {
        rest := rest[1..];
        o := o.(noAck := true);
      } else if word == "STREAMS" {
        rest := rest[1..];
        if |rest| % 2 != 0 {
          return Err(XreadUnbalanced);
        }
        return Ok(o.(streams := rest[..|rest| / 2], ids := rest[|rest| / 2..]));
      } else {
        return Err(Msg("ERR incorrect argument " + rest[0]));
      }
    }
    res := Ok(o);
  }

  /** Whether the read may block: BLOCK was given and every ID is ">". */
  predicate Blocks(o: GroupOpts)
  {
    o.block && forall i :: 0 <= i < |o.ids| ==> o.ids[i] == ">"
  }

  /** The loop of cmdXreadgroup that turns blocking off for any ID other
      than ">" (cmd_stream.go:440-444). */
  method StillBlocks(o: GroupOpts) returns (block: bool)
    ensures block == Blocks(o)
  {
    block := o.block;
    var i := 0;
    while i < |o.ids|
      invariant 0 <= i <= |o.ids|
      invariant block == (o.block && forall j :: 0 <= j < i ==> o.ids[j] == ">")
    {
      if o.ids[i] != ">" {
        block := false;
      }
      i := i + 1;
    }
  }

  /** The options XREADGROUP starts its loop with. */
  function InitialGroupOpts(args: seq<string>): GroupOpts
    requires |args| >= 3
  {
    GroupOpts(args[1], args[2], 0, false, [], [], false, 0)
  }

  /** cmdXreadgroup (cmd_stream.go:360-498), first evaluation. Argument
      errors change nothing; otherwise the group reads are done (and stay
      done even when a later stream fails), and the reply is immediate
      unless BLOCK was given, every ID is ">" and nothing was read. */
  method CmdXreadgroup(db: Db, args: seq<string>, now: int) returns (out: ReadOutcome)
    requires db.Valid()
    modifies db
    ensures db.Valid() && db.keys == old(db.keys) && db.keyVersion == old(db.keyVersion)
    ensures |args| < 6 ==> out == Now(Error(WrongNumber("xreadgroup"))) && unchanged(db)
    ensures |args| >= 6 && Upper(args[0]) != "GROUP" ==> out == Now(Error(SyntaxError)) && unchanged(db)
    ensures |args| >= 6 && Upper(args[0]) == "GROUP" && XreadgroupOpts(args[3..], InitialGroupOpts(args)).Err? ==>
              out == Now(Error(XreadgroupOpts(args[3..], InitialGroupOpts(args)).error)) && unchanged(db)
    ensures |args| >= 6 && Upper(args[0]) == "GROUP" && XreadgroupOpts(args[3..], InitialGroupOpts(args)).Ok? ==>
              var o := XreadgroupOpts(args[3..], InitialGroupOpts(args)).value;
              if o.streams == [] || o.ids == [] then
                out == Now(Error(WrongNumber("xreadgroup"))) && unchanged(db)
              else
                var (streams', res) := XreadgroupFrom(old(db.keys), old(db.streams), o.group, o.consumer, o.noAck,
                                                      o.streams, o.ids, o.count, now, map[]);
                && db.streams == streams'
                && match res
                   case Err(f) => out == Now(Error(f))
                   case Ok(m) => out == if Blocks(o) && |m| == 0 then Wait(o.timeout) else Now(XreadReply(o.streams, m))
  {
    if |args| < 6 {
      return Now(Error(WrongNumber("xreadgroup")));
    }
    if Upper(args[0]) != "GROUP" {
      return Now(Error(SyntaxError));
    }
    var parsed := ParseXreadgroupOpts(args[3..], InitialGroupOpts(args));
    if parsed.Err? {
      return Now(Error(parsed.error));
    }
    var o := parsed.value;
    if |o.streams| == 0 || |o.ids| == 0 {
      return Now(Error(WrongNumber("xreadgroup")));
    }
    var block := StillBlocks(o);
    var res := Xreadgroup(db, o.group, o.consumer, o.noAck, o.streams, o.ids, o.count, now);
    if res.Err? {
      return Now(Error(res.error));
    }
    if block && |res.value| == 0 {
      return Wait(o.timeout);
    }
    var r := WriteXread(o.streams, res.value);
    out := Now(r);
  }

  /** Any ID other than ">" makes XREADGROUP answer at once. */
  lemma ConcreteIdNeverBlocks(o: GroupOpts, i: nat)
    requires i < |o.ids| && o.ids[i] != ">"
    ensures !Blocks(o)
  {
  }
}
