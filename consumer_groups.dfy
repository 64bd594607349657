/** Consumer groups: a delivery cursor, the pending-entry list (delivered but
    not acknowledged), and the known consumers; group reads, acknowledgement
    and the two XPENDING reports. */
module ConsumerGroups {
  import opened Replies
  import opened Text
  import opened StreamIds
  import opened StreamLog

  /** A delivered, unacknowledged entry: a value record that does not refer to
      the log, so deleting the entry from the log leaves the row in place. */
  datatype PendingEntry = PendingEntry(id: EntryId, consumer: string, lastDelivery: int, deliveryCount: nat)

  datatype Group = Group(lastId: EntryId, pending: seq<PendingEntry>, consumers: set<string>)

  predicate PendingAscending(ps: seq<PendingEntry>)
  {
    forall i, j :: 0 <= i < j < |ps| ==> Less(ps[i].id, ps[j].id)
  }

  /** The group invariant: pending rows are sorted by ID, none lies beyond the
      cursor, each belongs to a known consumer and was delivered at least once. */
  predicate ValidGroup(g: Group)
  {
    && PendingAscending(g.pending)
    && (forall p :: p in g.pending ==> LessEq(p.id, g.lastId) && p.consumer in g.consumers && p.deliveryCount >= 1)
  }

  /** A group as created by XGROUP CREATE: cursor at `lastId`, nothing pending. */
  function NewGroup(lastId: EntryId): (g: Group)
    ensures ValidGroup(g) && g.pending == []
  {
    Group(lastId, [], {})
  }

  /** The rows a delivery of `msgs` to `consumer` at time `now` adds. */
  function PendingRows(msgs: seq<Entry>, consumer: string, now: int): (rows: seq<PendingEntry>)
    ensures |rows| == |msgs|
  {
    seq(|msgs|, i requires 0 <= i < |msgs| => PendingEntry(msgs[i].id, consumer, now, 1))
  }

  /** readGroup with ">": deliver the entries after the cursor (at most `count`
      when count > 0), move the cursor to the last one delivered, and unless
      `noAck` record one pending row per delivered entry. */
  function ReadNew(g: Group, entries: seq<Entry>, now: int, consumer: string, count: int, noAck: bool): (Group, seq<Entry>)
  {
    var msgs := Cap(After(entries, g.lastId), count);
    var g' := g.(lastId := if msgs == [] then g.lastId else msgs[|msgs| - 1].id,
                 pending := if noAck then g.pending else g.pending + PendingRows(msgs, consumer, now),
                 consumers := g.consumers + {consumer});
    (g', msgs)
  }

  /** The IDs of `consumer`'s own pending rows after `after`. */
  function ReplayIds(g: Group, consumer: string, after: EntryId): set<EntryId>
  {
    set p | p in g.pending && p.consumer == consumer && Less(after, p.id) :: p.id
  }

  /** The log entries whose ID is in `ids`, in stored order. */
  function WithIds(es: seq<Entry>, ids: set<EntryId>): seq<Entry>
  {
    if es == [] then []
    else if es[0].id in ids then [es[0]] + WithIds(es[1..], ids)
    else WithIds(es[1..], ids)
  }

  /** readGroup with a concrete ID: replay the consumer's own pending entries
      after that ID that are still in the log; the cursor and the pending rows
      stay as they are. */
  function Replay(g: Group, entries: seq<Entry>, consumer: string, after: EntryId): (Group, seq<Entry>)
  {
    (g.(consumers := g.consumers + {consumer}), WithIds(entries, ReplayIds(g, consumer, after)))
  }

  /** The IDs named by `tokens`, or None when one of them does not parse. */
  function IdSet(tokens: seq<string>): Option<set<EntryId>>
  {
    if tokens == [] then Some({})
    else
      match ParseStreamId(tokens[0])
      case None => None
      case Some(id) =>
        match IdSet(tokens[1..])
        case None => None
        case Some(rest) => Some({id} + rest)
  }

  /** The pending rows whose ID is not in `ids`. */
  function Unacked(ps: seq<PendingEntry>, ids: set<EntryId>): (kept: seq<PendingEntry>)
    ensures |kept| <= |ps|
  {
    if ps == [] then []
    else if ps[0].id in ids then Unacked(ps[1..], ids)
    else [ps[0]] + Unacked(ps[1..], ids)
  }

  /** ack: drop the pending rows with the given IDs, whoever owns them, and
      count them; IDs that are not pending are ignored. */
  function Ack(g: Group, tokens: seq<string>): Result<(Group, nat), Failure>
  {
    match IdSet(tokens)
    case None => Err(InvalidEntryId)
    case Some(ids) =>
      var kept := Unacked(g.pending, ids);
      Ok((g.(pending := kept), |g.pending| - |kept|))
  }

  function CountOwned(ps: seq<PendingEntry>, consumer: string): nat
  {
    if ps == [] then 0
    else (if ps[0].consumer == consumer then 1 else 0) + CountOwned(ps[1..], consumer)
  }

  /** pendingCount: how many pending rows `consumer` owns. */
  function PendingCount(g: Group, consumer: string): nat
  {
    CountOwned(g.pending, consumer)
  }

  /** A ">" read delivers the first `count` entries after the cursor (all of
      them when count is 0 or less), in log order; it moves the cursor to the
      last one delivered, or leaves it when nothing is delivered, records the
      consumer, and adds one row per entry with delivery count 1, or none at
      all under NOACK. */
  lemma ReadNewDelivers(g: Group, entries: seq<Entry>, now: int, consumer: string, count: int, noAck: bool)
    ensures var (g', msgs) := ReadNew(g, entries, now, consumer, count, noAck);
            && msgs == Cap(After(entries, g.lastId), count)
            && (forall e :: e in msgs ==> e in entries && Less(g.lastId, e.id))
            && (count <= 0 ==> forall e :: e in msgs <==> e in entries && Less(g.lastId, e.id))
            && (msgs != [] ==> g'.lastId == msgs[|msgs| - 1].id)
            && (msgs == [] ==> g'.lastId == g.lastId)
            && g'.consumers == g.consumers + {consumer}
            && (noAck ==> g'.pending == g.pending)
            && (!noAck ==>
                  && g'.pending[..|g.pending|] == g.pending
                  && |g'.pending| == |g.pending| + |msgs|
                  && forall i :: 0 <= i < |msgs| ==>
                       g'.pending[|g.pending| + i] == PendingEntry(msgs[i].id, consumer, now, 1))
  {
    var after := After(entries, g.lastId);
    AfterExactly(entries, g.lastId);
    var msgs := Cap(after, count);
    forall e | e in msgs ensures e in after {
      var k :| 0 <= k < |msgs| && msgs[k] == e;
      assert after[k] == e;
    }
  }

  /** The entries a ">" read delivers from an ascending log are ascending and
      all lie after the cursor. */
  lemma DeliveredAfterCursor(g: Group, entries: seq<Entry>, count: int)
    requires Ascending(entries)
    ensures var msgs := Cap(After(entries, g.lastId), count);
            Ascending(msgs) && forall k :: 0 <= k < |msgs| ==> Less(g.lastId, msgs[k].id)
  {
    var after := After(entries, g.lastId);
    AfterExactly(entries, g.lastId);
    var msgs := Cap(after, count);
    forall k | 0 <= k < |msgs| ensures Less(g.lastId, msgs[k].id) {
      assert msgs[k] == after[k];
      assert after[k] in after;
    }
  }

  /** Appending rows for ascending entries that all lie after the cursor, and
      moving the cursor to the last of them, keeps the group invariant. */
  lemma AppendRowsKeepsValid(g: Group, msgs: seq<Entry>, consumer: string, now: int)
    requires ValidGroup(g) && Ascending(msgs) && msgs != []
    requires forall k :: 0 <= k < |msgs| ==> Less(g.lastId, msgs[k].id)
    ensures ValidGroup(g.(lastId := msgs[|msgs| - 1].id,
                          pending := g.pending + PendingRows(msgs, consumer, now),
                          consumers := g.consumers + {consumer}))
  {
    var last := msgs[|msgs| - 1].id;
    var rows := PendingRows(msgs, consumer, now);
    var ps := g.pending + rows;
    assert forall k :: 0 <= k < |msgs| ==> LessEq(msgs[k].id, last);
    forall i, j | 0 <= i < j < |ps| ensures Less(ps[i].id, ps[j].id) {
      if j >= |g.pending| {
        assert ps[j].id == msgs[j - |g.pending|].id;
        if i < |g.pending| {
          assert g.pending[i] in g.pending;
        } else {
          assert ps[i].id == msgs[i - |g.pending|].id;
        }
      }
    }
    forall p | p in ps ensures LessEq(p.id, last) && p.consumer in g.consumers + {consumer} && p.deliveryCount >= 1 {
      if p !in g.pending {
        var k :| 0 <= k < |ps| && ps[k] == p;
        assert p == rows[k - |g.pending|];
      } else {
        assert LessEq(p.id, g.lastId) && Less(g.lastId, last);
      }
    }
  }

  /** A ">" read keeps the group invariant on an ascending log. */
  lemma ReadNewKeepsValid(g: Group, entries: seq<Entry>, now: int, consumer: string, count: int, noAck: bool)
    requires ValidGroup(g) && Ascending(entries)
    ensures ValidGroup(ReadNew(g, entries, now, consumer, count, noAck).0)
  {
    var msgs := Cap(After(entries, g.lastId), count);
    DeliveredAfterCursor(g, entries, count);
    if msgs != [] {
      if noAck {
        var last := msgs[|msgs| - 1].id;
        assert Less(g.lastId, last);
      } else {
        AppendRowsKeepsValid(g, msgs, consumer, now);
      }
    }
  }

  lemma {:induction false} UnackedMembers(ps: seq<PendingEntry>, ids: set<EntryId>)
    ensures forall p :: p in Unacked(ps, ids) <==> p in ps && p.id !in ids
  {
    if ps != [] {
      UnackedMembers(ps[1..], ids);
      assert forall p :: p in ps <==> p == ps[0] || p in ps[1..];
    }
  }

  lemma {:induction false} UnackedAscending(ps: seq<PendingEntry>, ids: set<EntryId>)
    requires PendingAscending(ps)
    ensures PendingAscending(Unacked(ps, ids))
  {
    if ps != [] {
      UnackedAscending(ps[1..], ids);
      UnackedMembers(ps[1..], ids);
      var rest := Unacked(ps[1..], ids);
      forall k | 0 <= k < |rest| ensures Less(ps[0].id, rest[k].id) {
        assert rest[k] in ps[1..];
        var j :| 0 <= j < |ps[1..]| && ps[1..][j] == rest[k];
        assert ps[j + 1] == rest[k];
      }
    }
  }

  lemma {:induction false} UnackedNone(ps: seq<PendingEntry>, ids: set<EntryId>)
    requires forall p :: p in ps ==> p.id !in ids
    ensures Unacked(ps, ids) == ps
  {
    if ps != [] {
      assert ps[0] in ps;
      assert forall p :: p in ps[1..] ==> p in ps;
      UnackedNone(ps[1..], ids);
      assert ps == [ps[0]] + ps[1..];
    }
  }

  /** XACK removes exactly the pending rows whose IDs it names, returns how
      many it removed, keeps the group invariant, and acknowledging the same
      IDs a second time removes nothing. */
  lemma AckRemovesExactly(g: Group, tokens: seq<string>)
    requires ValidGroup(g) && IdSet(tokens).Some?
    ensures var ids := IdSet(tokens).value;
            && Ack(g, tokens).Ok?
            && var (g', n) := Ack(g, tokens).value;
            && (forall p :: p in g'.pending <==> p in g.pending && p.id !in ids)
            && n == |g.pending| - |g'.pending|
            && g'.lastId == g.lastId && g'.consumers == g.consumers
            && ValidGroup(g')
            && Ack(g', tokens) == Ok((g', 0))
  {
    var ids := IdSet(tokens).value;
    var kept := Unacked(g.pending, ids);
    UnackedMembers(g.pending, ids);
    UnackedAscending(g.pending, ids);
    UnackedMembers(kept, ids);
    UnackedNone(kept, ids);
  }

  /** The rows the detail report keeps before its count cap: optional consumer
      filter, then start <= ID <= end. */
  predicate Matches(p: PendingEntry, start: EntryId, end: EntryId, consumer: Option<string>)
  {
    (consumer.None? || p.consumer == consumer.value) && LessEq(start, p.id) && LessEq(p.id, end)
  }

  function Matching(ps: seq<PendingEntry>, start: EntryId, end: EntryId, consumer: Option<string>): seq<PendingEntry>
  {
    if ps == [] then []
    else if Matches(ps[0], start, end, consumer) then [ps[0]] + Matching(ps[1..], start, end, consumer)
    else Matching(ps[1..], start, end, consumer)
  }

  /** One row of the detail report: ID, owner, idle milliseconds, delivery count. */
  function DetailRow(p: PendingEntry, now: int): Reply
  {
    Array([Bulk(FormatId(p.id)), Bulk(p.consumer), Int(now - p.lastDelivery), Int(p.deliveryCount)])
  }

  function DetailRows(ps: seq<PendingEntry>, now: int): (rows: seq<Reply>)
    ensures |rows| == |ps|
  {
    seq(|ps|, i requires 0 <= i < |ps| => DetailRow(ps[i], now))
  }

  /** The first `n` elements (all of them when there are fewer). */
  function Take<T>(s: seq<T>, n: nat): (r: seq<T>)
    ensures |r| == if |s| < n then |s| else n
    ensures r == s[..|r|]
  {
    if n < |s| then s[..n] else s
  }

  /** writeXpending with an explicit range: a null array when nothing is
      pending or the count is negative, else the first `count` matching rows
      in pending order (a count of 0 gives an empty array). */
  function PendingDetail(g: Group, now: int, start: EntryId, end: EntryId, count: int, consumer: Option<string>): Reply
  {
    if g.pending == [] || count < 0 then NullArray
    else Array(DetailRows(Take(Matching(g.pending, start, end, consumer), count), now))
  }

  lemma {:induction false} MatchingExactly(ps: seq<PendingEntry>, start: EntryId, end: EntryId, consumer: Option<string>)
    ensures forall p :: p in Matching(ps, start, end, consumer) <==> p in ps && Matches(p, start, end, consumer)
  {
    if ps != [] {
      MatchingExactly(ps[1..], start, end, consumer);
      assert forall p :: p in ps <==> p == ps[0] || p in ps[1..];
    }
  }

  /** Every detail row is a pending row that passes the filters, reported with
      idle time now - lastDelivery, and there are at most `count` of them. */
  lemma PendingDetailMeaning(g: Group, now: int, start: EntryId, end: EntryId, count: int, consumer: Option<string>)
    requires g.pending != [] && count >= 0
    ensures var r := PendingDetail(g, now, start, end, count, consumer);
            && r.Array? && |r.items| <= count
            && forall k :: 0 <= k < |r.items| ==>
                 exists p :: p in g.pending && Matches(p, start, end, consumer) && r.items[k] == DetailRow(p, now)
  {
    var taken := Take(Matching(g.pending, start, end, consumer), count);
    MatchingExactly(g.pending, start, end, consumer);
    forall k | 0 <= k < |taken|
      ensures taken[k] in g.pending && Matches(taken[k], start, end, consumer)
    {
      assert taken[k] == Matching(g.pending, start, end, consumer)[k];
      assert taken[k] in Matching(g.pending, start, end, consumer);
    }
    var r := PendingDetail(g, now, start, end, count, consumer);
    forall k | 0 <= k < |r.items|
      ensures exists p :: p in g.pending && Matches(p, start, end, consumer) && r.items[k] == DetailRow(p, now)
    {
      assert r.items[k] == DetailRow(taken[k], now);
    }
  }

  lemma MatchingStep(ps: seq<PendingEntry>, i: nat, start: EntryId, end: EntryId, consumer: Option<string>)
    requires i < |ps|
    ensures Matching(ps[i..], start, end, consumer)
            == (if Matches(ps[i], start, end, consumer) then [ps[i]] else []) + Matching(ps[i + 1..], start, end, consumer)
  {
    assert ps[i..][1..] == ps[i + 1..];
  }

  /** The pending-detail loop of writeXpending (cmd_stream.go:877-921). */
  method WritePending(now: int, g: Group, start: EntryId, end: EntryId, count: int, consumer: Option<string>)
    returns (r: Reply)
    ensures r == PendingDetail(g, now, start, end, count, consumer)
  {
    if |g.pending| == 0 || count < 0 {
      return NullArray;
    }
    var res: seq<PendingEntry> := [];
    var i := 0;
    while i < |g.pending|
      invariant 0 <= i <= |g.pending|
      invariant |res| <= count
      invariant Matching(g.pending, start, end, consumer) == res + Matching(g.pending[i..], start, end, consumer)
    {
      if |res| >= count {
        assert Take(Matching(g.pending, start, end, consumer), count) == res;
        return Array(DetailRows(res, now));
      }
      var p := g.pending[i];
      MatchingStep(g.pending, i, start, end, consumer);
      if consumer.Some? && p.consumer != consumer.value {
        i := i + 1;
        continue;
      }
      if Cmp(p.id, start) < 0 {
        i := i + 1;
        continue;
      }
      if Cmp(p.id, end) > 0 {
        i := i + 1;
        continue;
      }
      res := res + [p];
      i := i + 1;
    }
    assert Matching(g.pending[i..], start, end, consumer) == [];
    r := Array(DetailRows(res, now));
  }

  /** A consumer the summary lists: known to the group and owning a pending row. */
  predicate Busy(g: Group, c: string)
  {
    c in g.consumers && PendingCount(g, c) > 0
  }

  /** `names` lists the busy consumers, each once, in sort.Strings order. */
  ghost predicate ListsBusy(g: Group, names: seq<string>)
  {
    StrictlySorted(names) && forall c :: c in names <==> Busy(g, c)
  }

  function ConsumerRows(g: Group, names: seq<string>): seq<Reply>
  {
    seq(|names|, i requires 0 <= i < |names| => Array([Bulk(names[i]), Bulk(IntToDecimal(PendingCount(g, names[i])))]))
  }

  /** The non-empty summary: count, first and last pending ID, and the rows
      for `names`. */
  function SummaryWith(g: Group, names: seq<string>): Reply
    requires g.pending != []
  {
    Array([Int(|g.pending|), Bulk(FormatId(g.pending[0].id)), Bulk(FormatId(g.pending[|g.pending| - 1].id)),
           Array(ConsumerRows(g, names))])
  }

  /** The busy-consumer list of a summary is determined by the group. */
  lemma ListsBusyUnique(g: Group, a: seq<string>, b: seq<string>)
    requires ListsBusy(g, a) && ListsBusy(g, b)
    ensures a == b
  {
    SortedUnique(a, b);
  }

  /** On a valid group the first and last pending IDs the summary reports are
      the smallest and the largest pending IDs. */
  lemma SummaryBounds(g: Group)
    requires ValidGroup(g) && g.pending != []
    ensures forall p :: p in g.pending ==> LessEq(g.pending[0].id, p.id) && LessEq(p.id, g.pending[|g.pending| - 1].id)
  {
    forall p | p in g.pending
      ensures LessEq(g.pending[0].id, p.id) && LessEq(p.id, g.pending[|g.pending| - 1].id)
    {
      var k :| 0 <= k < |g.pending| && g.pending[k] == p;
      if 0 < k {
        assert Less(g.pending[0].id, g.pending[k].id);
      }
      if k < |g.pending| - 1 {
        assert Less(g.pending[k].id, g.pending[|g.pending| - 1].id);
      }
    }
  }

  /** What a summary reply for `g` must be. */
  ghost predicate IsPendingSummary(g: Group, r: Reply)
  {
    if g.pending == [] then r == Array([Int(0), Null, Null, NullArray])
    else exists names :: ListsBusy(g, names) && r == SummaryWith(g, names)
  }

  /** There is exactly one summary reply for a group: the map iteration order
      of the consumers cannot show through. */
  lemma PendingSummaryUnique(g: Group, r1: Reply, r2: Reply)
    requires IsPendingSummary(g, r1) && IsPendingSummary(g, r2)
    ensures r1 == r2
  {
    if g.pending != [] {
      var a :| ListsBusy(g, a) && r1 == SummaryWith(g, a);
      var b :| ListsBusy(g, b) && r2 == SummaryWith(g, b);
      ListsBusyUnique(g, a, b);
    }
  }

  /** writeXpendingSummary (cmd_stream.go:829-866): (0, nil, nil, null array)
      for an empty pending list, otherwise the count, the first and last
      pending IDs and, sorted by name, each consumer with pending rows. */
  method WritePendingSummary(g: Group) returns (r: Reply)
    ensures g.pending == [] ==> r == Array([Int(0), Null, Null, NullArray])
    ensures g.pending != [] ==> exists names :: ListsBusy(g, names) && r == SummaryWith(g, names)
    ensures IsPendingSummary(g, r)
  {
    if |g.pending| == 0 {
      return Array([Int(0), Null, Null, NullArray]);
    }
    var cons := BusyCounts(g);
    var names := SortedNames(cons);
    var rows: seq<Reply> := [];
    var i := 0;
    while i < |names|
      invariant 0 <= i <= |names|
      invariant rows == ConsumerRows(g, names[..i])
    {
      assert names[i] in names;
      rows := rows + [Array([Bulk(names[i]), Bulk(IntToDecimal(cons[names[i]]))])];
      i := i + 1;
    }
    assert names[..i] == names;
    r := Array([Int(|g.pending|), Bulk(FormatId(g.pending[0].id)), Bulk(FormatId(g.pending[|g.pending| - 1].id)), Array(rows)]);
    assert ListsBusy(g, names) && r == SummaryWith(g, names);
  }

  /** The per-consumer counts writeXpendingSummary collects: one entry per
      busy consumer. */
  method BusyCounts(g: Group) returns (cons: map<string, nat>)
    ensures forall c :: c in cons <==> Busy(g, c)
    ensures forall c :: c in cons ==> cons[c] == PendingCount(g, c)
  {
    cons := map[];
    var left := g.consumers;
    while left != {}
      invariant left <= g.consumers
      invariant forall c :: c in cons <==> c in g.consumers - left && PendingCount(g, c) > 0
      invariant forall c :: c in cons ==> cons[c] == PendingCount(g, c)
      decreases |left|
    {
      var c :| c in left;
      var cnt := PendingCount(g, c);
      if cnt > 0 {
        cons := cons[c := cnt];
      }
      left := left - {c};
    }
  }

  /** The keys of `cons`, collected and then put in sort.Strings order. */
  method SortedNames(cons: map<string, nat>) returns (names: seq<string>)
    ensures StrictlySorted(names)
    ensures forall c :: c in names <==> c in cons
  {
    var ids: seq<string> := [];
    var rest := cons.Keys;
    while rest != {}
      invariant rest <= cons.Keys
      invariant Distinct(ids)
      invariant forall c :: c in ids <==> c in cons.Keys - rest
      decreases |rest|
    {
      var c :| c in rest;
      assert forall k :: 0 <= k < |ids| ==> ids[k] in ids && ids[k] != c;
      ids := ids + [c];
      rest := rest - {c};
    }
    names := SortStrings(ids);
    forall c ensures c in names <==> c in cons {
      assert c in names <==> c in multiset(names);
      assert c in ids <==> c in multiset(ids);
    }
  }
}
