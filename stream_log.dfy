/** A stream's ordered log of entries and the scans over it: the range walk
    behind XRANGE/XREVRANGE and the "strictly after an ID" filter behind XREAD. */
module StreamLog {
  import opened StreamIds

  /** A stream entry: its ID and its field/value list in argument order. */
  datatype Entry = Entry(id: EntryId, values: seq<string>)

  predicate Ascending(es: seq<Entry>)
  {
    forall i, j :: 0 <= i < j < |es| ==> Less(es[i].id, es[j].id)
  }

  predicate Descending(es: seq<Entry>)
  {
    forall i, j :: 0 <= i < j < |es| ==> Less(es[j].id, es[i].id)
  }

  /** reversedStreamEntries. */
  function Reversed(es: seq<Entry>): (r: seq<Entry>)
    ensures |r| == |es|
  {
    seq(|es|, k requires 0 <= k < |es| => es[|es| - 1 - k])
  }

  /** The count cap of the scans: a positive count keeps at most that many
      elements from the front; zero or a negative count keeps everything. */
  function Cap<T>(s: seq<T>, count: int): (r: seq<T>)
    ensures |r| <= |s| && r == s[..|r|]
    ensures count > 0 ==> |r| == if |s| < count then |s| else count
    ensures count <= 0 ==> r == s
  {
    if 0 < count < |s| then s[..count] else s
  }

  /** A forward walk ends at the first entry after `end`; a reverse walk at the
      first entry before `end`. */
  predicate Stops(id: EntryId, end: EntryId, reverse: bool)
  {
    if reverse then Cmp(id, end) == -1 else Cmp(id, end) == 1
  }

  /** A forward walk passes over entries before `start`; a reverse walk over
      entries after `start`. */
  predicate Skips(id: EntryId, start: EntryId, reverse: bool)
  {
    if reverse then Cmp(id, start) == 1 else Cmp(id, start) == -1
  }

  /** The inclusive interval a walk selects from. */
  predicate Within(id: EntryId, start: EntryId, end: EntryId, reverse: bool)
  {
    if reverse then LessEq(end, id) && LessEq(id, start) else LessEq(start, id) && LessEq(id, end)
  }

  /** What the XRANGE loop collects before its count cap. */
  function Walk(es: seq<Entry>, start: EntryId, end: EntryId, reverse: bool): seq<Entry>
  {
    if es == [] then []
    else if Stops(es[0].id, end, reverse) then []
    else if Skips(es[0].id, start, reverse) then Walk(es[1..], start, end, reverse)
    else [es[0]] + Walk(es[1..], start, end, reverse)
  }

  /** The entries with lo <= ID <= hi, in stored order. */
  function Select(es: seq<Entry>, lo: EntryId, hi: EntryId): seq<Entry>
  {
    if es == [] then []
    else if LessEq(lo, es[0].id) && LessEq(es[0].id, hi) then [es[0]] + Select(es[1..], lo, hi)
    else Select(es[1..], lo, hi)
  }

  /** xread's filter: the entries whose ID is strictly greater than `id`. */
  function After(es: seq<Entry>, id: EntryId): seq<Entry>
  {
    if es == [] then []
    else if Cmp(es[0].id, id) <= 0 then After(es[1..], id)
    else [es[0]] + After(es[1..], id)
  }

  /** Everything a walk returns comes from the log and lies between its bounds. */
  lemma {:induction false} WalkWithin(es: seq<Entry>, start: EntryId, end: EntryId, reverse: bool)
    ensures forall e :: e in Walk(es, start, end, reverse) ==> e in es && Within(e.id, start, end, reverse)
  {
    if es != [] {
      WalkWithin(es[1..], start, end, reverse);
    }
  }

  lemma AscendingHead(es: seq<Entry>)
    requires Ascending(es) && es != []
    ensures forall e :: e in es[1..] ==> Less(es[0].id, e.id)
  {
    forall e | e in es[1..] ensures Less(es[0].id, e.id) {
      var j :| 0 <= j < |es[1..]| && es[1..][j] == e;
      assert es[j + 1] == e;
    }
  }

  lemma DescendingHead(es: seq<Entry>)
    requires Descending(es) && es != []
    ensures forall e :: e in es[1..] ==> Less(e.id, es[0].id)
  {
    forall e | e in es[1..] ensures Less(e.id, es[0].id) {
      var j :| 0 <= j < |es[1..]| && es[1..][j] == e;
      assert es[j + 1] == e;
    }
  }

  /** A walk over an ascending log is ascending. */
  lemma {:induction false} WalkKeepsAscending(es: seq<Entry>, start: EntryId, end: EntryId, reverse: bool)
    requires Ascending(es)
    ensures Ascending(Walk(es, start, end, reverse))
  {
    if es != [] {
      WalkKeepsAscending(es[1..], start, end, reverse);
      WalkWithin(es[1..], start, end, reverse);
      AscendingHead(es);
    }
  }

  /** A walk over a descending log is descending. */
  lemma {:induction false} WalkKeepsDescending(es: seq<Entry>, start: EntryId, end: EntryId, reverse: bool)
    requires Descending(es)
    ensures Descending(Walk(es, start, end, reverse))
  {
    if es != [] {
      WalkKeepsDescending(es[1..], start, end, reverse);
      WalkWithin(es[1..], start, end, reverse);
      DescendingHead(es);
    }
  }

  /** On an ascending log, the walk's early stop loses nothing: once an entry
      lies beyond `end` every later one does too. */
  lemma {:induction false} SelectPastEnd(es: seq<Entry>, lo: EntryId, hi: EntryId)
    requires Ascending(es) && es != [] && Less(hi, es[0].id)
    ensures Select(es, lo, hi) == []
  {
    if |es| > 1 {
      assert Less(es[0].id, es[1].id);
      SelectPastEnd(es[1..], lo, hi);
    }
  }

  /** A forward walk over an ascending log is exactly the entries between the
      bounds, in stored order. */
  lemma {:induction false} ForwardWalkIsSelect(es: seq<Entry>, start: EntryId, end: EntryId)
    requires Ascending(es)
    ensures Walk(es, start, end, false) == Select(es, start, end)
  {
    if es != [] {
      if Stops(es[0].id, end, false) {
        SelectPastEnd(es, start, end);
      } else {
        ForwardWalkIsSelect(es[1..], start, end);
      }
    }
  }

  lemma {:induction false} SelectPastEndReversed(ds: seq<Entry>, lo: EntryId, hi: EntryId)
    requires Descending(ds) && ds != [] && Less(ds[0].id, lo)
    ensures Select(ds, lo, hi) == []
  {
    if |ds| > 1 {
      assert Less(ds[1].id, ds[0].id);
      SelectPastEndReversed(ds[1..], lo, hi);
    }
  }

  /** A reverse walk over a descending log is exactly the entries between the
      bounds (end <= ID <= start), in the order walked. */
  lemma {:induction false} ReverseWalkIsSelect(ds: seq<Entry>, start: EntryId, end: EntryId)
    requires Descending(ds)
    ensures Walk(ds, start, end, true) == Select(ds, end, start)
  {
    if ds != [] {
      if Stops(ds[0].id, end, true) {
        SelectPastEndReversed(ds, end, start);
      } else {
        ReverseWalkIsSelect(ds[1..], start, end);
      }
    }
  }

  lemma ReversedOfAscending(es: seq<Entry>)
    requires Ascending(es)
    ensures Descending(Reversed(es))
  {
  }

  lemma {:induction false} SelectReversed(es: seq<Entry>, lo: EntryId, hi: EntryId)
    ensures Select(Reversed(es), lo, hi) == Reversed(Select(es, lo, hi))
    decreases |es|
  {
    if es != [] {
      var init, last := es[..|es| - 1], es[|es| - 1];
      assert es == init + [last];
      assert Reversed(es) == [last] + Reversed(init);
      SelectReversed(init, lo, hi);
      SelectAppend(init, [last], lo, hi);
      ReversedAppend(Select(init, lo, hi), Select([last], lo, hi));
    }
  }

  lemma {:induction false} SelectAppend(a: seq<Entry>, b: seq<Entry>, lo: EntryId, hi: EntryId)
    ensures Select(a + b, lo, hi) == Select(a, lo, hi) + Select(b, lo, hi)
  {
    if a != [] {
      assert (a + b)[1..] == a[1..] + b;
      SelectAppend(a[1..], b, lo, hi);
    } else {
      assert a + b == b;
    }
  }

  lemma ReversedAppend(a: seq<Entry>, b: seq<Entry>)
    ensures Reversed(a + b) == Reversed(b) + Reversed(a)
  {
  }

  lemma {:induction false} SelectAll(es: seq<Entry>)
    requires forall e :: e in es ==> Valid(e.id)
    ensures Select(es, MinId, MaxId) == es
  {
    if es != [] {
      SelectAll(es[1..]);
    }
  }

  /** XRANGE key - + returns the whole log in stored order and XREVRANGE key + -
      returns exactly its reverse. */
  lemma FullRangeScans(es: seq<Entry>)
    requires Ascending(es)
    requires forall e :: e in es ==> Valid(e.id)
    ensures Walk(es, MinId, MaxId, false) == es
    ensures Walk(Reversed(es), MaxId, MinId, true) == Reversed(es)
  {
    ForwardWalkIsSelect(es, MinId, MaxId);
    SelectAll(es);
    ReverseWalkIsSelect(Reversed(es), MaxId, MinId);
    SelectReversed(es, MinId, MaxId);
  }

  /** xread's filter keeps exactly the entries after `id`, in stored order. */
  lemma AfterExactly(es: seq<Entry>, id: EntryId)
    ensures forall e :: e in After(es, id) <==> e in es && Less(id, e.id)
    ensures Ascending(es) ==> Ascending(After(es, id))
  {
    AfterMembers(es, id);
    if Ascending(es) {
      AfterAscending(es, id);
    }
  }

  lemma {:induction false} AfterMembers(es: seq<Entry>, id: EntryId)
    ensures forall e :: e in After(es, id) <==> e in es && Less(id, e.id)
  {
    if es != [] {
      AfterMembers(es[1..], id);
      assert forall e :: e in es <==> e == es[0] || e in es[1..];
    }
  }

  lemma {:induction false} AfterAscending(es: seq<Entry>, id: EntryId)
    requires Ascending(es)
    ensures Ascending(After(es, id))
  {
    if es != [] {
      AfterMembers(es[1..], id);
      AfterAscending(es[1..], id);
      var rest := After(es[1..], id);
      forall k | 0 <= k < |rest| ensures Less(es[0].id, rest[k].id) {
        assert rest[k] in es[1..];
        var j :| 0 <= j < |es[1..]| && es[1..][j] == rest[k];
        assert es[j + 1] == rest[k];
      }
    }
  }

  /** On an ascending log the entries after an ID form a suffix of the log. */
  lemma {:induction false} AfterIsSuffix(es: seq<Entry>, id: EntryId)
    requires Ascending(es)
    ensures exists k :: 0 <= k <= |es| && After(es, id) == es[k..]
  {
    if es == [] {
      assert After(es, id) == es[0..];
    } else if Cmp(es[0].id, id) <= 0 {
      AfterIsSuffix(es[1..], id);
      var k :| 0 <= k <= |es[1..]| && After(es[1..], id) == es[1..][k..];
      assert es[1..][k..] == es[k + 1..];
    } else {
      AllAfter(es, id);
      assert After(es, id) == es[0..];
    }
  }

  lemma {:induction false} AllAfter(es: seq<Entry>, id: EntryId)
    requires Ascending(es) && (es != [] ==> Less(id, es[0].id))
    ensures After(es, id) == es
  {
    if es != [] {
      if |es| > 1 {
        assert Less(es[0].id, es[1].id);
      }
      AllAfter(es[1..], id);
    }
  }

  /** A full prefix of `count` elements is what the cap keeps. */
  lemma CapFull<T>(done: seq<T>, rest: seq<T>, count: int)
    requires count > 0 && |done| == count
    ensures Cap(done + rest, count) == done
  {
    assert (done + rest)[..count] == done;
  }

  lemma AppendAssoc<T>(a: seq<T>, b: seq<T>, c: seq<T>)
    ensures a + (b + c) == (a + b) + c
  {
  }

  lemma WalkStep(es: seq<Entry>, i: nat, start: EntryId, end: EntryId, reverse: bool)
    requires i < |es|
    ensures Walk(es[i..], start, end, reverse)
            == if Stops(es[i].id, end, reverse) then []
               else if Skips(es[i].id, start, reverse) then Walk(es[i + 1..], start, end, reverse)
               else [es[i]] + Walk(es[i + 1..], start, end, reverse)
  {
    assert es[i..][1..] == es[i + 1..];
  }

  lemma CapShort<T>(s: seq<T>, count: int)
    requires count > 0 ==> |s| <= count
    ensures Cap(s, count) == s
  {
  }

  /** The XRANGE/XREVRANGE loop (cmd_stream.go:214-251): walk the log (reversed
      for XREVRANGE), stop when `count` entries are collected (count 0 meaning
      all of them), break beyond `end`, skip before `start`. */
  method RangeScan(entries: seq<Entry>, start: EntryId, end: EntryId, count: int, reverse: bool)
    returns (out: seq<Entry>)
    ensures out == Cap(Walk(if reverse then Reversed(entries) else entries, start, end, reverse), count)
  {
    var es := if reverse then Reversed(entries) else entries;
    out := Scan(es, start, end, count, reverse);
  }

  /** The loop of RangeScan over the entries in walk order. */
  method Scan(es: seq<Entry>, start: EntryId, end: EntryId, count: int, reverse: bool)
    returns (out: seq<Entry>)
    ensures out == Cap(Walk(es, start, end, reverse), count)
  {
    var limit := if count == 0 then |es| else count;
    out := [];
    var i := 0;
    while i < |es|
      invariant 0 <= i <= |es|
      invariant |out| <= i
      invariant count > 0 ==> |out| <= count
      invariant Walk(es, start, end, reverse) == out + Walk(es[i..], start, end, reverse)
    {
      if |out| == limit {
        if count > 0 {
          CapFull(out, Walk(es[i..], start, end, reverse), count);
        }
        return;
      }
      var e := es[i];
      WalkStep(es, i, start, end, reverse);
      if Stops(e.id, end, reverse) {
        assert out + [] == out;
        CapShort(out, count);
        return;
      }
      if Skips(e.id, start, reverse) {
        i := i + 1;
        continue;
      }
      AppendAssoc(out, [e], Walk(es[i + 1..], start, end, reverse));
      out := out + [e];
      i := i + 1;
    }
    assert es[i..] == [];
    assert out + [] == out;
    CapShort(out, count);
  }

  /** What RangeScan returns, in terms of the log: entries of the log between
      the bounds; on an ascending log, for XRANGE the first `count` entries with
      start <= ID <= end in stored order, for XREVRANGE the first `count` of
      those with end <= ID <= start in descending order. */
  lemma RangeScanMeaning(entries: seq<Entry>, start: EntryId, end: EntryId, count: int, reverse: bool)
    ensures var out := Cap(Walk(if reverse then Reversed(entries) else entries, start, end, reverse), count);
            && (forall e :: e in out ==> e in entries && Within(e.id, start, end, reverse))
            && (Ascending(entries) && !reverse ==> Ascending(out) && out == Cap(Select(entries, start, end), count))
            && (Ascending(entries) && reverse ==> Descending(out) && out == Cap(Reversed(Select(entries, end, start)), count))
  {
    var es := if reverse then Reversed(entries) else entries;
    RangeScanWithin(es, entries, start, end, count, reverse);
    if Ascending(entries) {
      if reverse {
        RangeScanReverse(entries, start, end, count);
      } else {
        RangeScanForward(entries, start, end, count);
      }
    }
  }

  lemma RangeScanWithin(es: seq<Entry>, entries: seq<Entry>, start: EntryId, end: EntryId, count: int, reverse: bool)
    requires es == if reverse then Reversed(entries) else entries
    ensures forall e :: e in Cap(Walk(es, start, end, reverse), count) ==> e in entries && Within(e.id, start, end, reverse)
  {
    WalkWithin(es, start, end, reverse);
    var w := Walk(es, start, end, reverse);
    assert forall e :: e in Cap(w, count) ==> e in w;
    if reverse {
      assert forall e :: e in es ==> e in entries by {
        forall e | e in es ensures e in entries {
          var k :| 0 <= k < |es| && es[k] == e;
          assert entries[|entries| - 1 - k] == e;
        }
      }
    }
  }

  lemma RangeScanForward(entries: seq<Entry>, start: EntryId, end: EntryId, count: int)
    requires Ascending(entries)
    ensures var out := Cap(Walk(entries, start, end, false), count);
            Ascending(out) && out == Cap(Select(entries, start, end), count)
  {
    ForwardWalkIsSelect(entries, start, end);
    WalkKeepsAscending(entries, start, end, false);
  }

  lemma RangeScanReverse(entries: seq<Entry>, start: EntryId, end: EntryId, count: int)
    requires Ascending(entries)
    ensures var out := Cap(Walk(Reversed(entries), start, end, true), count);
            Descending(out) && out == Cap(Reversed(Select(entries, end, start)), count)
  {
    var es := Reversed(entries);
    ReversedOfAscending(entries);
    ReverseWalkIsSelect(es, start, end);
    SelectReversed(entries, end, start);
    WalkKeepsDescending(es, start, end, true);
  }

  /** xread's per-stream loop (cmd_stream.go:707-721): the first `count`
      entries (all of them when count is 0) whose ID is after `id`. */
  method ReadAfter(entries: seq<Entry>, id: EntryId, count: int) returns (out: seq<Entry>)
    ensures out == Cap(After(entries, id), count)
  {
    var limit := if count == 0 then |entries| else count;
    out := [];
    var i := 0;
    while i < |entries|
      invariant 0 <= i <= |entries|
      invariant |out| <= i
      invariant count > 0 ==> |out| <= count
      invariant After(entries, id) == out + After(entries[i..], id)
    {
      if |out| == limit {
        if count > 0 {
          CapFull(out, After(entries[i..], id), count);
        }
        return;
      }
      var e := entries[i];
      assert entries[i..] == [e] + entries[i + 1..];
      if Cmp(e.id, id) <= 0 {
        i := i + 1;
        continue;
      }
      AppendAssoc(out, [e], After(entries[i + 1..], id));
      out := out + [e];
      i := i + 1;
    }
    assert entries[i..] == [];
    assert out + [] == out;
    CapShort(out, count);
  }
}
