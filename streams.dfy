/** A stream value: its entry log, the highest ID it ever issued, and its
    consumer groups; the internal operations the handlers call on it (add,
    trim, delete, createGroup, readGroup). */
module Streams {
  import opened Replies
  import opened Text
  import opened StreamIds
  import opened StreamLog
  import opened ConsumerGroups

  /** `lastId` is the highest ID ever added: trimming and deleting never lower
      it, so an ID is never issued twice. */
  datatype Stream = Stream(entries: seq<Entry>, lastId: EntryId, groups: map<string, Group>)

  const EmptyStream: Stream := Stream([], MinId, map[])

  /** The stream invariant: the log ascends strictly, no entry lies beyond the
      last issued ID, and every group is well formed. */
  predicate ValidStream(s: Stream)
  {
    && Ascending(s.entries)
    && (forall e :: e in s.entries ==> LessEq(e.id, s.lastId))
    && (forall name :: name in s.groups ==> ValidGroup(s.groups[name]))
  }

  lemma EmptyStreamValid()
    ensures ValidStream(EmptyStream) && EmptyStream.entries == []
  {
  }

  /** The ID "*" generates after `last` at clock `now` (milliseconds): the
      clock's millisecond unless the last ID is already at or past it, then
      sequence 0 on a new millisecond and last sequence + 1 on the same one. */
  function NextId(last: EntryId, now: int): EntryId
  {
    var ms := if now > last.ms then now else last.ms;
    if ms > last.ms then EntryId(ms, 0) else EntryId(ms, last.seqNo + 1)
  }

  /** A generated ID is always after the previous one and never behind the clock. */
  lemma NextIdIncreases(last: EntryId, now: int)
    ensures Less(last, NextId(last, now))
    ensures NextId(last, now).ms >= last.ms && NextId(last, now).ms >= now
    ensures NextId(last, now).ms == last.ms ==> NextId(last, now).seqNo == last.seqNo + 1
  {
  }

  /** s.add: "*" generates the next ID; any other token must parse and lie
      strictly after the last issued ID. Either failure is errInvalidEntryID
      and leaves the stream as it was. */
  function Add(s: Stream, idToken: string, values: seq<string>, now: int): Result<(Stream, EntryId), Failure>
  {
    var candidate := if idToken == "*" then Some(NextId(s.lastId, now)) else ParseStreamId(idToken);
    match candidate
    case None => Err(InvalidEntryId)
    case Some(id) =>
      if !Less(s.lastId, id) then Err(InvalidEntryId)
      else Ok((s.(entries := s.entries + [Entry(id, values)], lastId := id), id))
  }

  /** An explicit ID is accepted exactly when it is after the last issued ID;
      on success the entry, with its values in argument order, is appended at
      the end and nothing else about the stream changes but its last ID. */
  lemma AddExplicit(s: Stream, idToken: string, id: EntryId, values: seq<string>, now: int)
    requires idToken != "*" && ParseStreamId(idToken) == Some(id)
    ensures Add(s, idToken, values, now).Ok? <==> Less(s.lastId, id)
    ensures Add(s, idToken, values, now).Ok? ==>
              Add(s, idToken, values, now).value
                == (Stream(s.entries + [Entry(id, values)], id, s.groups), id)
  {
  }

  /** "*" never fails, and its ID is after every ID issued before. */
  lemma AddWildcard(s: Stream, values: seq<string>, now: int)
    ensures Add(s, "*", values, now).Ok?
    ensures var (s', id) := Add(s, "*", values, now).value;
            && id == NextId(s.lastId, now) && Less(s.lastId, id)
            && s'.entries == s.entries + [Entry(id, values)] && s'.lastId == id && s'.groups == s.groups
  {
    NextIdIncreases(s.lastId, now);
  }

  /** Two wildcard appends in a row issue strictly increasing IDs, whatever the
      clock says. */
  lemma WildcardAppendsIncrease(s: Stream, v1: seq<string>, v2: seq<string>, now1: int, now2: int)
    ensures Add(s, "*", v1, now1).Ok?
    ensures var (s1, id1) := Add(s, "*", v1, now1).value;
            Add(s1, "*", v2, now2).Ok? && Less(id1, Add(s1, "*", v2, now2).value.1)
  {
    AddWildcard(s, v1, now1);
    var (s1, id1) := Add(s, "*", v1, now1).value;
    AddWildcard(s1, v2, now2);
  }

  /** A successful add keeps the stream invariant. */
  lemma AddKeepsValid(s: Stream, idToken: string, values: seq<string>, now: int)
    requires ValidStream(s) && Add(s, idToken, values, now).Ok?
    ensures ValidStream(Add(s, idToken, values, now).value.0)
  {
    var (s', id) := Add(s, idToken, values, now).value;
    assert s'.entries == s.entries + [Entry(id, values)];
    forall i, j | 0 <= i < j < |s'.entries| ensures Less(s'.entries[i].id, s'.entries[j].id) {
      if j == |s.entries| {
        assert s.entries[i] in s.entries;
      }
    }
  }

  /** s.trim: keep only the newest `maxLen` entries. */
  function Trim(s: Stream, maxLen: nat): Stream
  {
    if |s.entries| > maxLen then s.(entries := s.entries[|s.entries| - maxLen..]) else s
  }

  /** Trimming keeps exactly the newest min(maxLen, length) entries, leaves a
      stream already within bound untouched, and never changes the last
      issued ID or the groups. */
  lemma TrimKeepsNewest(s: Stream, maxLen: nat)
    ensures var t := Trim(s, maxLen);
            && |t.entries| == (if |s.entries| < maxLen then |s.entries| else maxLen)
            && t.entries == s.entries[|s.entries| - |t.entries|..]
            && t.lastId == s.lastId && t.groups == s.groups
            && (|s.entries| <= maxLen ==> t == s)
  {
  }

  /** Trimming keeps the stream invariant. */
  lemma TrimKeepsValid(s: Stream, maxLen: nat)
    requires ValidStream(s)
    ensures ValidStream(Trim(s, maxLen))
  {
    var t := Trim(s, maxLen);
    if |s.entries| > maxLen {
      var k := |s.entries| - maxLen;
      assert forall i :: 0 <= i < |t.entries| ==> t.entries[i] == s.entries[k + i];
      forall e | e in t.entries ensures e in s.entries {
        var i :| 0 <= i < |t.entries| && t.entries[i] == e;
        assert s.entries[k + i] == e;
      }
    }
  }

  /** The entries whose ID is not in `ids`. */
  function Without(es: seq<Entry>, ids: set<EntryId>): (kept: seq<Entry>)
    ensures |kept| <= |es|
  {
    if es == [] then []
    else if es[0].id in ids then Without(es[1..], ids)
    else [es[0]] + Without(es[1..], ids)
  }

  /** s.delete: every token must parse (else errInvalidEntryID, nothing
      removed); the matching entries go and their number is returned. */
  function Delete(s: Stream, tokens: seq<string>): Result<(Stream, nat), Failure>
  {
    match IdSet(tokens)
    case None => Err(InvalidEntryId)
    case Some(ids) =>
      var kept := Without(s.entries, ids);
      Ok((s.(entries := kept), |s.entries| - |kept|))
  }

  lemma {:induction false} WithoutMembers(es: seq<Entry>, ids: set<EntryId>)
    ensures forall e :: e in Without(es, ids) <==> e in es && e.id !in ids
  {
    if es != [] {
      WithoutMembers(es[1..], ids);
      assert forall e :: e in es <==> e == es[0] || e in es[1..];
    }
  }

  lemma {:induction false} WithoutAscending(es: seq<Entry>, ids: set<EntryId>)
    requires Ascending(es)
    ensures Ascending(Without(es, ids))
  {
    if es != [] {
      WithoutAscending(es[1..], ids);
      WithoutMembers(es[1..], ids);
      var rest := Without(es[1..], ids);
      forall k | 0 <= k < |rest| ensures Less(es[0].id, rest[k].id) {
        assert rest[k] in es[1..];
        var j :| 0 <= j < |es[1..]| && es[1..][j] == rest[k];
        assert es[j + 1] == rest[k];
      }
    }
  }

  /** XDEL's internal delete removes exactly the entries it names and counts
      them; the last issued ID stays (no ID is reused) and the groups are not
      touched, so pending rows of deleted entries remain. */
  lemma DeleteExactly(s: Stream, tokens: seq<string>)
    requires ValidStream(s) && IdSet(tokens).Some?
    ensures Delete(s, tokens).Ok?
    ensures var (s', n) := Delete(s, tokens).value;
            && (forall e :: e in s'.entries <==> e in s.entries && e.id !in IdSet(tokens).value)
            && n == |s.entries| - |s'.entries|
            && s'.lastId == s.lastId && s'.groups == s.groups
            && ValidStream(s')
  {
    WithoutMembers(s.entries, IdSet(tokens).value);
    WithoutAscending(s.entries, IdSet(tokens).value);
  }

  /** A token list with one unparsable ID deletes nothing. */
  lemma DeleteRejectsBadId(s: Stream, tokens: seq<string>, k: nat)
    requires k < |tokens| && ParseStreamId(tokens[k]).None?
    ensures Delete(s, tokens) == Err(InvalidEntryId)
  {
    IdSetNone(tokens, k);
  }

  lemma {:induction false} IdSetNone(tokens: seq<string>, k: nat)
    requires k < |tokens| && ParseStreamId(tokens[k]).None?
    ensures IdSet(tokens).None?
  {
    if k > 0 {
      IdSetNone(tokens[1..], k - 1);
    }
  }

  /** The ID "$" stands for: the last entry's, or 0-0 on an empty log. */
  function LastEntryId(s: Stream): EntryId
  {
    if s.entries == [] then MinId else s.entries[|s.entries| - 1].id
  }

  /** createGroup: a name already in use is BUSYGROUP; "$" starts the cursor
      at the last entry, any other token must parse as an ID. */
  function CreateGroup(s: Stream, name: string, idToken: string): Result<Stream, Failure>
  {
    if name in s.groups then Err(BusyGroup)
    else
      var start := if idToken == "$" then Some(LastEntryId(s)) else ParseStreamId(idToken);
      match start
      case None => Err(InvalidEntryId)
      case Some(id) => Ok(s.(groups := s.groups[name := NewGroup(id)]))
  }

  /** A new group starts empty at its cursor, leaves the log and the other
      groups alone, and an existing name is refused; "$" on a valid stream
      puts the cursor at or past every entry. */
  lemma CreateGroupMeaning(s: Stream, name: string, idToken: string)
    ensures name in s.groups ==> CreateGroup(s, name, idToken) == Err(BusyGroup)
    ensures CreateGroup(s, name, idToken).Ok? ==>
              var s' := CreateGroup(s, name, idToken).value;
              && s'.entries == s.entries && s'.lastId == s.lastId
              && s'.groups.Keys == s.groups.Keys + {name}
              && s'.groups[name].pending == [] && s'.groups[name].consumers == {}
              && (forall other :: other in s.groups ==> s'.groups[other] == s.groups[other])
              && (ValidStream(s) ==> ValidStream(s'))
    ensures ValidStream(s) && name !in s.groups && idToken == "$" ==>
              CreateGroup(s, name, idToken).Ok?
              && forall e :: e in s.entries ==> LessEq(e.id, CreateGroup(s, name, idToken).value.groups[name].lastId)
  {
    if ValidStream(s) && s.entries != [] {
      forall e | e in s.entries ensures LessEq(e.id, LastEntryId(s)) {
        var i :| 0 <= i < |s.entries| && s.entries[i] == e;
        if i < |s.entries| - 1 {
          assert Less(s.entries[i].id, s.entries[|s.entries| - 1].id);
        }
      }
    }
  }

  /** readGroup on one of the stream's groups: ">" delivers new entries and
      updates the group, any other ID replays the consumer's pending entries.
      The token has already been checked to parse when it is not ">". */
  function ReadGroup(g: Group, entries: seq<Entry>, now: int, consumer: string, idToken: string, count: int, noAck: bool): (Group, seq<Entry>)
  {
    if idToken == ">" then ReadNew(g, entries, now, consumer, count, noAck)
    else
      match ParseStreamId(idToken)
      case None => (g.(consumers := g.consumers + {consumer}), [])
      case Some(after) => Replay(g, entries, consumer, after)
  }

  lemma {:induction false} WithIdsMembers(es: seq<Entry>, ids: set<EntryId>)
    ensures forall e :: e in WithIds(es, ids) <==> e in es && e.id in ids
  {
    if es != [] {
      WithIdsMembers(es[1..], ids);
      assert forall e :: e in es <==> e == es[0] || e in es[1..];
    }
  }

  /** A replay changes neither the cursor nor the pending rows, and returns
      exactly the logged entries behind the consumer's own pending rows after
      the given ID. */
  lemma ReplayIsReadOnly(g: Group, entries: seq<Entry>, now: int, consumer: string, idToken: string, after: EntryId, count: int, noAck: bool)
    requires idToken != ">" && ParseStreamId(idToken) == Some(after)
    ensures var (g', msgs) := ReadGroup(g, entries, now, consumer, idToken, count, noAck);
            && g'.lastId == g.lastId && g'.pending == g.pending
            && g'.consumers == g.consumers + {consumer}
            && forall e :: e in msgs <==>
                 e in entries && exists p :: p in g.pending && p.consumer == consumer && Less(after, p.id) && p.id == e.id
  {
    WithIdsMembers(entries, ReplayIds(g, consumer, after));
  }

  /** Any group read keeps the stream's group invariant on an ascending log. */
  lemma ReadGroupKeepsValid(g: Group, entries: seq<Entry>, now: int, consumer: string, idToken: string, count: int, noAck: bool)
    requires ValidGroup(g) && Ascending(entries)
    ensures ValidGroup(ReadGroup(g, entries, now, consumer, idToken, count, noAck).0)
  {
    if idToken == ">" {
      ReadNewKeepsValid(g, entries, now, consumer, count, noAck);
    }
  }
}
