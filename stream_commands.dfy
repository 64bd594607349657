/** The stream command handlers other than the two read commands: XADD, XLEN,
    XRANGE/XREVRANGE, XGROUP CREATE, XINFO STREAM, XACK, XDEL and XPENDING.
    Each takes the argument list after the command name and returns what the
    handler writes. */
module StreamCommands {
  import opened Replies
  import opened Text
  import opened StreamIds
  import opened StreamLog
  import opened ConsumerGroups
  import opened Streams
  import opened StreamDb

  /** ---------------------------------------------------------------- XADD */

  /** What cmdXadd reads from its arguments before touching the database. */
  datatype AddArgs = AddArgs(maxLen: int, idToken: string, values: seq<string>)

  /** The ID token and the field/value list after an optional MAXLEN clause. */
  function AddFields(maxLen: int, args: seq<string>): Result<AddArgs, Failure>
  {
    if |args| < 1 then Err(WrongNumber("xadd"))
    else if |args[1..]| == 0 || |args[1..]| % 2 != 0 then Err(Msg("ERR wrong number of arguments for XADD"))
    else Ok(AddArgs(maxLen, args[0], args[1..]))
  }

  /** cmdXadd's argument parse on the arguments after the key: an optional
      "MAXLEN [~] n" (any case; "~" is skipped and not otherwise interpreted),
      the ID token, then an even, non-empty field/value list. The handler only
      gets here with at least three such arguments. */
  function XaddArgs(args: seq<string>): Result<AddArgs, Failure>
    requires |args| >= 3
  {
    if Lower(args[0]) == "maxlen" then
      var rest := if args[1] == "~" then args[2..] else args[1..];
      match Atoi(rest[0])
      case None => Err(InvalidInt)
      case Some(n) =>
        if n < 0 then Err(Msg("ERR The MAXLEN argument must be >= 0."))
        else AddFields(n, rest[1..])
    else AddFields(-1, args)
  }

  /** A MAXLEN that is not an integer is an invalid-integer error, a negative
      one the MAXLEN error, and a "~" before the number changes nothing. */
  lemma XaddMaxLen(rest: seq<string>)
    requires |rest| >= 2
    ensures rest[0] != "~" && Atoi(rest[0]).None? ==> XaddArgs(["MAXLEN"] + rest) == Err(InvalidInt)
    ensures rest[0] != "~" && Atoi(rest[0]).Some? && Atoi(rest[0]).value < 0 ==>
              XaddArgs(["maxlen"] + rest) == Err(Msg("ERR The MAXLEN argument must be >= 0."))
    ensures rest[0] != "~" ==> XaddArgs(["maxlen", "~"] + rest) == XaddArgs(["maxlen"] + rest)
    ensures rest[0] != "~" && Atoi(rest[0]).Some? && XaddArgs(["maxlen"] + rest).Ok? ==>
              XaddArgs(["maxlen"] + rest).value.maxLen == Atoi(rest[0]).value
  {
    assert (["MAXLEN"] + rest)[1..] == rest;
    assert (["maxlen"] + rest)[1..] == rest;
    assert (["maxlen", "~"] + rest)[2..] == rest;
    assert Lower("MAXLEN") == "maxlen" by {
      assert forall i :: 0 <= i < 6 ==> LowerChar("MAXLEN"[i]) == "maxlen"[i];
    }
  }

  /** Without MAXLEN the first argument is the ID; an empty or odd field/value
      list is refused with XADD's own message, and an accepted list is stored
      exactly as given, in argument order. */
  lemma XaddFields(args: seq<string>)
    requires |args| >= 3 && Lower(args[0]) != "maxlen"
    ensures |args[1..]| % 2 != 0 ==> XaddArgs(args) == Err(Msg("ERR wrong number of arguments for XADD"))
    ensures |args[1..]| % 2 == 0 ==> XaddArgs(args) == Ok(AddArgs(-1, args[0], args[1..]))
  {
  }

  /** The argument steps of cmdXadd (cmd_stream.go:48-84), re-slicing the
      arguments after the key and copying the field/value pairs. */
  method ParseXaddArgs(args: seq<string>) returns (res: Result<AddArgs, Failure>)
    requires |args| >= 3
    ensures res == XaddArgs(args)
  {
    var rest := args;
    var maxlen := -1;
    if Lower(rest[0]) == "maxlen" {
      rest := rest[1..];
      if rest[0] == "~" {
        rest := rest[1..];
      }
      assert rest == if args[1] == "~" then args[2..] else args[1..];
      var n := Atoi(rest[0]);
      if n.None? {
        return Err(InvalidInt);
      }
      if n.value < 0 {
        return Err(Msg("ERR The MAXLEN argument must be >= 0."));
      }
      maxlen := n.value;
      rest := rest[1..];
    }
    assert XaddArgs(args) == AddFields(maxlen, rest);
    if |rest| < 1 {
      return Err(WrongNumber("xadd"));
    }
    var entryId := rest[0];
    rest := rest[1..];
    if |rest| == 0 || |rest| % 2 != 0 {
      return Err(Msg("ERR wrong number of arguments for XADD"));
    }
    ghost var fields := rest;
    var values: seq<string> := [];
    while |rest| > 0
      invariant values + rest == fields
      invariant |rest| % 2 == 0
    {
      values := values + [rest[0], rest[1]];
      rest := rest[2..];
    }
    assert values == fields;
    res := Ok(AddArgs(maxlen, entryId, values));
  }

  /** cmdXadd (cmd_stream.go:32-114). */
  method Xadd(db: Db, args: seq<string>, now: int) returns (r: Reply)
    requires db.Valid()
    modifies db
    ensures db.Valid()
    ensures |args| < 4 ==> r == Error(WrongNumber("xadd")) && unchanged(db)
    ensures |args| >= 4 && XaddArgs(args[1..]).Err? ==> r == Error(XaddArgs(args[1..]).error) && unchanged(db)
    ensures |args| >= 4 && XaddArgs(args[1..]).Ok? && old(db.StreamAt(args[0])).Err? ==>
              r == Error(WrongType) && unchanged(db)
    ensures |args| >= 4 && XaddArgs(args[1..]).Ok? && old(db.StreamAt(args[0])).Ok? ==>
              AddedAs(old(db.keys), old(db.streams), old(db.keyVersion), db.keys, db.streams, db.keyVersion,
                      args[0], XaddArgs(args[1..]).value, now, r)
  {
    if |args| < 4 {
      return Error(WrongNumber("xadd"));
    }
    var key := args[0];
    var parsed := ParseXaddArgs(args[1..]);
    if parsed.Err? {
      return Error(parsed.error);
    }
    var found := db.StreamAt(key);
    if found.Err? {
      return Error(found.error);
    }
    r := StoreEntry(db, key, parsed.value, now);
  }

  /** The database after cmdXadd got past its argument checks on a key that
      is free or holds a stream: the key is a stream from then on (even when
      the add fails); a failed add changes nothing else and replies with the
      invalid-ID message; a successful one stores the stream with the new
      entry, trimmed to MAXLEN when one was given, bumps the key version once
      and replies with the new ID. */
  ghost predicate AddedAs(keys: map<string, string>, streams: map<string, Stream>, versions: map<string, int>,
                          keys': map<string, string>, streams': map<string, Stream>, versions': map<string, int>,
                          key: string, a: AddArgs, now: int, r: Reply)
  {
    var s := if key in streams then streams[key] else EmptyStream;
    var version := if key in versions then versions[key] else 0;
    && keys' == keys[key := "stream"]
    && match Add(s, a.idToken, a.values, now)
       case Err(f) =>
         && r == Error(if f == InvalidEntryId then InvalidStreamId else f)
         && streams' == streams[key := s]
         && versions' == versions
       case Ok((s', id)) =>
         && r == Bulk(FormatId(id))
         && streams' == streams[key := if a.maxLen >= 0 then Trim(s', a.maxLen) else s']
         && versions' == versions[key := version + 1]
  }

  /** The database steps of cmdXadd (cmd_stream.go:86-112). */
  method StoreEntry(db: Db, key: string, a: AddArgs, now: int) returns (r: Reply)
    requires db.Valid() && db.StreamAt(key).Ok?
    modifies db
    ensures db.Valid()
    ensures AddedAs(old(db.keys), old(db.streams), old(db.keyVersion), db.keys, db.streams, db.keyVersion, key, a, now, r)
  {
    // db.newStream runs before s.add; the database is written once here,
    // which leaves the same state: a failed add on a free key still leaves
    // the key holding an empty stream.
    var s := if key in db.streams then db.streams[key] else EmptyStream;
    var added := Add(s, a.idToken, a.values, now);
    if added.Err? {
      db.StoreStream(key, s);
      r := Error(if added.error == InvalidEntryId then InvalidStreamId else added.error);
      return;
    }
    var (s1, newId) := added.value;
    AddKeepsValid(s, a.idToken, a.values, now);
    var s' := s1;
    if a.maxLen >= 0 {
      TrimKeepsValid(s1, a.maxLen);
      s' := Trim(s1, a.maxLen);
    }
    db.StoreStream(key, s');
    db.BumpVersion(key);
    r := Bulk(FormatId(newId));
  }

  /** ---------------------------------------------------------------- XLEN */

  /** cmdXlen (cmd_stream.go:117-147). A key of another type writes the
      wrong-type error and then, because the handler does not return there,
      a length of 0 as well. */
  method Xlen(db: Db, args: seq<string>) returns (out: seq<Reply>)
    requires db.Valid()
    ensures |args| != 1 ==> out == [Error(WrongNumber("xlen"))]
    ensures |args| == 1 && args[0] !in db.keys ==> out == [Int(0)]
    ensures |args| == 1 && args[0] in db.keys && db.keys[args[0]] != "stream" ==> out == [Error(WrongType), Int(0)]
    ensures |args| == 1 && args[0] in db.streams ==> out == [Int(|db.streams[args[0]].entries|)]
  {
    if |args| != 1 {
      return [Error(WrongNumber("xlen"))];
    }
    out := [];
    var found := db.StreamAt(args[0]);
    if found.Err? {
      out := out + [Error(found.error)];
    }
    if found.Err? || found.value.None? {
      return out + [Int(0)];
    }
    out := out + [Int(|found.value.value.entries|)];
  }

  /** -------------------------------------------------- XRANGE / XREVRANGE */

  datatype RangeArgs = RangeArgs(key: string, start: EntryId, end: EntryId, count: int)

  function RangeCommand(reverse: bool): string
  {
    if reverse then "xrevrange" else "xrange"
  }

  /** makeCmdXrange's argument checks, in the handler's order: at least 3
      arguments, never exactly 4 nor more than 5, a 4th argument that is
      COUNT in any case, then the two bounds and the count. */
  function XrangeArgs(args: seq<string>, reverse: bool): Result<RangeArgs, Failure>
  {
    if |args| < 3 then Err(WrongNumber(RangeCommand(reverse)))
    else if |args| == 4 || |args| > 5 then Err(SyntaxError)
    else if |args| == 5 && Lower(args[3]) != "count" then Err(SyntaxError)
    else
      var countArg := if |args| == 5 then args[4] else "0";
      match RangeBound(args[1], true, reverse)
      case None => Err(InvalidStreamId)
      case Some(start) =>
        match RangeBound(args[2], false, reverse)
        case None => Err(InvalidStreamId)
        case Some(end) =>
          match Atoi(countArg)
          case None => Err(InvalidInt)
          case Some(count) => Ok(RangeArgs(args[0], start, end, count))
  }

  /** The arity rules of XRANGE and XREVRANGE. */
  lemma XrangeArity(args: seq<string>, reverse: bool)
    ensures |args| < 3 ==> XrangeArgs(args, reverse) == Err(WrongNumber(RangeCommand(reverse)))
    ensures |args| == 4 || |args| > 5 ==> XrangeArgs(args, reverse) == Err(SyntaxError)
    ensures |args| == 5 && Lower(args[3]) != "count" ==> XrangeArgs(args, reverse) == Err(SyntaxError)
    ensures XrangeArgs(args, reverse).Ok? ==> |args| == 3 || (|args| == 5 && Lower(args[3]) == "count")
  {
  }

  /** makeCmdXrange (cmd_stream.go:150-264). On a stream the reply lists the
      entries of the log between the bounds: for XRANGE the first `count`
      with start <= ID <= end in log order, for XREVRANGE the first `count`
      with end <= ID <= start in descending order; a count of 0 or less
      means all of them. */
  method Xrange(db: Db, args: seq<string>, reverse: bool) returns (r: Reply)
    requires db.Valid()
    ensures XrangeArgs(args, reverse).Err? ==> r == Error(XrangeArgs(args, reverse).error)
    ensures XrangeArgs(args, reverse).Ok? ==>
              var a := XrangeArgs(args, reverse).value;
              && (a.key !in db.keys ==> r == Array([]))
              && (a.key in db.keys && db.keys[a.key] != "stream" ==> r == Error(WrongType))
              && (a.key in db.streams ==>
                    var es := db.streams[a.key].entries;
                    exists out ::
                      && r == Array(EntryReplies(out))
                      && (forall e :: e in out ==> e in es && Within(e.id, a.start, a.end, reverse))
                      && (!reverse ==> Ascending(out) && out == Cap(Select(es, a.start, a.end), a.count))
                      && (reverse ==> Descending(out) && out == Cap(Reversed(Select(es, a.end, a.start)), a.count)))
  {
    if |args| < 3 {
      return Error(WrongNumber(RangeCommand(reverse)));
    }
    if |args| == 4 || |args| > 5 {
      return Error(SyntaxError);
    }
    var key, startKey, endKey := args[0], args[1], args[2];
    var countArg := "0";
    if |args| == 5 {
      if Lower(args[3]) != "count" {
        return Error(SyntaxError);
      }
      countArg := args[4];
    }
    var start := RangeBound(startKey, true, reverse);
    if start.None? {
      return Error(InvalidStreamId);
    }
    var end := RangeBound(endKey, false, reverse);
    if end.None? {
      return Error(InvalidStreamId);
    }
    var count := Atoi(countArg);
    if count.None? {
      return Error(InvalidInt);
    }
    if key !in db.keys {
      return Array([]);
    }
    if db.keys[key] != "stream" {
      return Error(WrongType);
    }
    var es := db.streams[key].entries;
    var out := RangeScan(es, start.value, end.value, count.value, reverse);
    RangeScanMeaning(es, start.value, end.value, count.value, reverse);
    r := Array(EntryReplies(out));
  }

  /** A full-range XRANGE returns the whole stream in order, and the matching
      XREVRANGE returns exactly its reverse. */
  lemma FullRangeIsWholeStream(s: Stream, count: int)
    requires ValidStream(s) && count <= 0
    requires forall e :: e in s.entries ==> Valid(e.id)
    ensures Cap(Walk(s.entries, MinId, MaxId, false), count) == s.entries
    ensures Cap(Walk(Reversed(s.entries), MaxId, MinId, true), count) == Reversed(s.entries)
  {
    FullRangeScans(s.entries);
  }

  /** ------------------------------------------------------- XGROUP CREATE */

  /** cmdXgroup (cmd_stream.go:267-276): only CREATE with 4 or 5 arguments is
      supported, and does what XgroupCreate does; anything else is refused
      with the joined argument list. */
  method Xgroup(db: Db, args: seq<string>) returns (r: Reply)
    requires db.Valid()
    modifies db
    ensures db.Valid() && db.keyVersion == old(db.keyVersion)
    ensures !((|args| == 4 || |args| == 5) && Upper(args[0]) == "CREATE") ==>
              r == Error(Msg("ERR 'XGROUP " + JoinSpace(args) + "' not supported")) && unchanged(db)
    ensures (|args| == 4 || |args| == 5) && Upper(args[0]) == "CREATE" ==>
              && (old(db.StreamAt(args[1])).Err? ==> r == Error(WrongType) && unchanged(db))
              && (args[1] !in old(db.keys) && !MakeStream(args) ==> r == Error(XgroupKeyNotFound) && unchanged(db))
              && (old(db.StreamAt(args[1])).Ok? && (args[1] in old(db.keys) || MakeStream(args)) ==>
                    var key := args[1];
                    var s := if key in old(db.streams) then old(db.streams[key]) else EmptyStream;
                    && db.keys == old(db.keys)[key := "stream"]
                    && match CreateGroup(s, args[2], args[3])
                       case Err(f) => r == Error(f) && db.streams == old(db.streams)[key := s]
                       case Ok(s') => r == OK && db.streams == old(db.streams)[key := s'])
  {
    if (|args| == 4 || |args| == 5) && Upper(args[0]) == "CREATE" {
      r := XgroupCreate(db, args);
    } else {
      r := Error(Msg("ERR 'XGROUP " + JoinSpace(args) + "' not supported"));
    }
  }

  /** MKSTREAM (any case) as the fifth argument. */
  predicate MakeStream(args: seq<string>)
  {
    |args| == 5 && Upper(args[4]) == "MKSTREAM"
  }

  /** cmdXgroupCreate (cmd_stream.go:279-308): XGROUP CREATE key group id
      [MKSTREAM]. A missing key is created empty under MKSTREAM, and stays
      created even when createGroup then refuses. */
  method XgroupCreate(db: Db, args: seq<string>) returns (r: Reply)
    requires db.Valid() && (|args| == 4 || |args| == 5)
    modifies db
    ensures db.Valid() && db.keyVersion == old(db.keyVersion)
    ensures old(db.StreamAt(args[1])).Err? ==> r == Error(WrongType) && unchanged(db)
    ensures args[1] !in old(db.keys) && !MakeStream(args) ==> r == Error(XgroupKeyNotFound) && unchanged(db)
    ensures old(db.StreamAt(args[1])).Ok? && (args[1] in old(db.keys) || MakeStream(args)) ==>
              var key := args[1];
              var s := if key in old(db.streams) then old(db.streams[key]) else EmptyStream;
              && db.keys == old(db.keys)[key := "stream"]
              && match CreateGroup(s, args[2], args[3])
                 case Err(f) => r == Error(f) && db.streams == old(db.streams)[key := s]
                 case Ok(s') => r == OK && db.streams == old(db.streams)[key := s']
  {
    var key, group, id := args[1], args[2], args[3];
    var found := db.StreamAt(key);
    if found.Err? {
      return Error(found.error);
    }
    if found.value.None? && !MakeStream(args) {
      return Error(XgroupKeyNotFound);
    }
    // As in XADD, the stream MKSTREAM creates and the group added to it are
    // written in one step; a refused group still leaves the new stream.
    var s := if found.value.None? then EmptyStream else found.value.value;
    var created := CreateGroup(s, group, id);
    if created.Err? {
      db.StoreStream(key, s);
      return Error(created.error);
    }
    CreateGroupMeaning(s, group, id);
    db.StoreStream(key, created.value);
    r := OK;
  }

  /** ---------------------------------------------------------- XINFO */

  /** cmdXinfo (cmd_stream.go:311-329): STREAM is answered; CONSUMERS, GROUPS
      and HELP are refused with the joined argument list; anything else is a
      syntax error pointing at XINFO HELP. */
  method Xinfo(db: Db, args: seq<string>) returns (r: Reply)
    requires db.Valid()
    ensures |args| < 1 ==> r == Error(WrongNumber("xinfo"))
    ensures |args| >= 1 && Upper(args[0]) == "STREAM" ==>
              (|args| < 2 ==> r == Error(WrongNumber("XINFO")))
              && (|args| >= 2 && args[1] !in db.keys ==> r == Error(KeyNotFound))
              && (|args| >= 2 && args[1] in db.keys && db.keys[args[1]] != "stream" ==> r == Error(WrongType))
              && (|args| >= 2 && args[1] in db.streams ==> r == Map([("length", Int(|db.streams[args[1]].entries|))]))
    ensures |args| >= 1 && Upper(args[0]) in {"CONSUMERS", "GROUPS", "HELP"} ==>
              r == Error(Msg("'XINFO " + JoinSpace(args) + "' not supported"))
    ensures |args| >= 1 && Upper(args[0]) !in {"STREAM", "CONSUMERS", "GROUPS", "HELP"} ==>
              r == Error(Msg("ERR syntax error, try 'XINFO HELP'"))
  {
    if |args| < 1 {
      return Error(WrongNumber("xinfo"));
    }
    var sub := Upper(args[0]);
    if sub == "STREAM" {
      r := XinfoStream(db, args[1..]);
    } else if sub == "CONSUMERS" || sub == "GROUPS" || sub == "HELP" {
      r := Error(Msg("'XINFO " + JoinSpace(args) + "' not supported"));
    } else {
      r := Error(Msg("ERR syntax error, try 'XINFO HELP'"));
    }
  }

  /** cmdXinfoStream (cmd_stream.go:333-357): only the stream's length. */
  method XinfoStream(db: Db, args: seq<string>) returns (r: Reply)
    requires db.Valid()
    ensures |args| < 1 ==> r == Error(WrongNumber("XINFO"))
    ensures |args| >= 1 && args[0] !in db.keys ==> r == Error(KeyNotFound)
    ensures |args| >= 1 && args[0] in db.keys && db.keys[args[0]] != "stream" ==> r == Error(WrongType)
    ensures |args| >= 1 && args[0] in db.streams ==> r == Map([("length", Int(|db.streams[args[0]].entries|))])
  {
    if |args| < 1 {
      return Error(WrongNumber("XINFO"));
    }
    var found := db.StreamAt(args[0]);
    if found.Err? {
      return Error(found.error);
    }
    if found.value.None? {
      return Error(KeyNotFound);
    }
    r := Map([("length", Int(|found.value.value.entries|))]);
  }

  /** ---------------------------------------------------------------- XACK */

  /** cmdXack (cmd_stream.go:536-564): XACK key group id... A missing key or
      group acknowledges nothing; otherwise the named pending rows go and
      their number is returned. The key version is not bumped. */
  method Xack(db: Db, args: seq<string>) returns (r: Reply)
    requires db.Valid()
    modifies db
    ensures db.Valid() && db.keys == old(db.keys) && db.keyVersion == old(db.keyVersion)
    ensures |args| < 3 ==> r == Error(WrongNumber("xack")) && unchanged(db)
    ensures |args| >= 3 && old(db.GroupAt(args[0], args[1])).Err? ==> r == Error(WrongType) && unchanged(db)
    ensures |args| >= 3 && old(db.GroupAt(args[0], args[1])) == Ok(None) ==> r == Int(0) && unchanged(db)
    ensures |args| >= 3 && old(db.GroupAt(args[0], args[1])).Ok? && old(db.GroupAt(args[0], args[1])).value.Some? ==>
              var key, group := args[0], args[1];
              var s := old(db.streams[key]);
              match Ack(s.groups[group], args[2..])
              case Err(f) => r == Error(f) && unchanged(db)
              case Ok((g', n)) => r == Int(n) && db.streams == old(db.streams)[key := s.(groups := s.groups[group := g'])]
  {
    if |args| < 3 {
      return Error(WrongNumber("xack"));
    }
    var key, group, ids := args[0], args[1], args[2..];
    var found := db.GroupAt(key, group);
    if found.Err? {
      return Error(found.error);
    }
    if found.value.None? {
      return Int(0);
    }
    var acked := Ack(found.value.value, ids);
    if acked.Err? {
      return Error(acked.error);
    }
    var (g', n) := acked.value;
    var s := db.streams[key];
    AckRemovesExactly(found.value.value, ids);
    db.StoreStream(key, s.(groups := s.groups[group := g']));
    r := Int(n);
  }

  /** ---------------------------------------------------------------- XDEL */

  /** cmdXdel (cmd_stream.go:567-596): XDEL key id... A missing key deletes
      nothing; otherwise the named entries go, their number is returned and
      the key version is bumped, even when nothing matched. */
  method Xdel(db: Db, args: seq<string>) returns (r: Reply)
    requires db.Valid()
    modifies db
    ensures db.Valid() && db.keys == old(db.keys)
    ensures |args| < 2 ==> r == Error(WrongNumber("xdel")) && unchanged(db)
    ensures |args| >= 2 && old(db.StreamAt(args[0])).Err? ==> r == Error(WrongType) && unchanged(db)
    ensures |args| >= 2 && args[0] !in old(db.keys) ==> r == Int(0) && unchanged(db)
    ensures |args| >= 2 && args[0] in old(db.streams) ==>
              var key := args[0];
              match Delete(old(db.streams[key]), args[1..])
              case Err(f) => r == Error(f) && unchanged(db)
              case Ok((s', n)) =>
                && r == Int(n)
                && db.streams == old(db.streams)[key := s']
                && db.keyVersion == old(db.keyVersion)[key := old(db.Version(key)) + 1]
  {
    if |args| < 2 {
      return Error(WrongNumber("xdel"));
    }
    var key, ids := args[0], args[1..];
    var found := db.StreamAt(key);
    if found.Err? {
      return Error(found.error);
    }
    if found.value.None? {
      return Int(0);
    }
    var deleted := Delete(found.value.value, ids);
    if deleted.Err? {
      return Error(deleted.error);
    }
    var (s', n) := deleted.value;
    DeleteExactly(found.value.value, ids);
    db.StoreStream(key, s');
    db.BumpVersion(key);
    r := Int(n);
  }

  /** ------------------------------------------------------------ XPENDING */

  /** The two report shapes: the summary, or the detail rows for a range. */
  datatype PendingArgs = Summary | Detail(start: EntryId, end: EntryId, count: int, consumer: Option<string>)

  /** cmdXpending's parse of the arguments after key and group: IDLE is
      refused; three or more arguments are start, end, count (negative
      allowed) and an optional consumer; anything else left over is a syntax
      error. */
  function XpendingArgs(args: seq<string>): Result<PendingArgs, Failure>
  {
    if |args| > 0 && Upper(args[0]) == "IDLE" then Err(Msg("ERR IDLE is unsupported"))
    else if |args| >= 3 then
      match RangeBound(args[0], true, false)
      case None => Err(InvalidStreamId)
      case Some(start) =>
        match RangeBound(args[1], false, false)
        case None => Err(InvalidStreamId)
        case Some(end) =>
          match Atoi(args[2])
          case None => Err(InvalidInt)
          case Some(count) =>
            if |args| == 3 then Ok(Detail(start, end, count, None))
            else if |args| == 4 then Ok(Detail(start, end, count, Some(args[3])))
            else Err(SyntaxError)
    else if |args| != 0 then Err(SyntaxError)
    else Ok(Summary)
  }

  /** No extra arguments asks for the summary; one or two, or more than
      four, are a syntax error unless the first is IDLE. */
  lemma XpendingShapes(args: seq<string>)
    ensures args == [] ==> XpendingArgs(args) == Ok(Summary)
    ensures (|args| == 1 || |args| == 2) && Upper(args[0]) != "IDLE" ==> XpendingArgs(args) == Err(SyntaxError)
    ensures XpendingArgs(args).Ok? && XpendingArgs(args).value.Detail? ==> |args| == 3 || |args| == 4
    ensures |args| == 4 && XpendingArgs(args).Ok? ==> XpendingArgs(args).value.consumer == Some(args[3])
  {
  }

  /** cmdXpending (cmd_stream.go:755-827). */
  method Xpending(db: Db, args: seq<string>, now: int) returns (r: Reply)
    requires db.Valid()
    ensures |args| < 2 ==> r == Error(WrongNumber("xpending"))
    ensures |args| >= 2 && XpendingArgs(args[2..]).Err? ==> r == Error(XpendingArgs(args[2..]).error)
    ensures |args| >= 2 && XpendingArgs(args[2..]).Ok? ==>
              var key, group := args[0], args[1];
              && (db.GroupAt(key, group).Err? ==> r == Error(WrongType))
              && (db.GroupAt(key, group) == Ok(None) ==> r == Error(NoGroup(key, group)))
              && (db.GroupAt(key, group).Ok? && db.GroupAt(key, group).value.Some? ==>
                    var g := db.GroupAt(key, group).value.value;
                    match XpendingArgs(args[2..]).value
                    case Summary => IsPendingSummary(g, r)
                    case Detail(start, end, count, consumer) => r == PendingDetail(g, now, start, end, count, consumer))
  {
    if |args| < 2 {
      return Error(WrongNumber("xpending"));
    }
    var key, group, rest := args[0], args[1], args[2..];
    if |rest| > 0 && Upper(rest[0]) == "IDLE" {
      return Error(Msg("ERR IDLE is unsupported"));
    }
    var summary := true;
    var start, end := MinId, MinId;
    var count := 0;
    var consumer: Option<string> := None;
    if |rest| >= 3 {
      summary := false;
      var start_ := RangeBound(rest[0], true, false);
      if start_.None? {
        return Error(InvalidStreamId);
      }
      start := start_.value;
      var end_ := RangeBound(rest[1], false, false);
      if end_.None? {
        return Error(InvalidStreamId);
      }
      end := end_.value;
      var n := Atoi(rest[2]);
      if n.None? {
        return Error(InvalidInt);
      }
      count := n.value;
      rest := rest[3..];
      if |rest| == 1 {
        consumer := Some(rest[0]);
        rest := rest[1..];
      }
    }
    if |rest| != 0 {
      return Error(SyntaxError);
    }
    assert XpendingArgs(args[2..]) == Ok(if summary then Summary else Detail(start, end, count, consumer));
    var found := db.GroupAt(key, group);
    if found.Err? {
      return Error(found.error);
    }
    if found.value.None? {
      return Error(NoGroup(key, group));
    }
    if summary {
      r := WritePendingSummary(found.value.value);
      return;
    }
    r := WritePending(now, found.value.value, start, end, count, consumer);
  }
}
