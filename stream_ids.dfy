/** Stream entry IDs: "<millis>-<seq>" pairs, their parse, their textual form,
    the three-way compare every scan uses, and the resolution of range-bound
    tokens ("-", "+", a bare "<millis>"). */
module StreamIds {
  import opened Replies
  import opened Text

  datatype EntryId = EntryId(ms: nat, seqNo: nat)

  /** "0-0", the smallest ID, and the largest ID a 64-bit pair can spell. */
  const MinId: EntryId := EntryId(0, 0)
  const MaxId: EntryId := EntryId(MaxUint64, MaxUint64)

  /** Both halves fit in an unsigned 64-bit integer. */
  predicate Valid(id: EntryId) { id.ms <= MaxUint64 && id.seqNo <= MaxUint64 }

  /** streamCmp: -1, 0 or 1 as a orders before, equal to, or after b,
      comparing the millisecond part first and the sequence part second. */
  function Cmp(a: EntryId, b: EntryId): int
  {
    if a.ms < b.ms then -1
    else if a.ms > b.ms then 1
    else if a.seqNo < b.seqNo then -1
    else if a.seqNo > b.seqNo then 1
    else 0
  }

  predicate Less(a: EntryId, b: EntryId) { Cmp(a, b) == -1 }

  predicate LessEq(a: EntryId, b: EntryId) { Cmp(a, b) <= 0 }

  /** Cmp is the three-way compare of a strict total order on IDs. */
  lemma CmpIsTotalOrder(a: EntryId, b: EntryId, c: EntryId)
    ensures Cmp(a, b) in {-1, 0, 1}
    ensures Cmp(a, b) == 0 <==> a == b
    ensures Cmp(a, b) == -Cmp(b, a)
    ensures Less(a, b) && Less(b, c) ==> Less(a, c)
    ensures LessEq(a, b) && LessEq(b, c) ==> LessEq(a, c)
  {
  }

  /** The position of the first '-' in s, or |s| when there is none. */
  function DashIndex(s: string): (k: nat)
    ensures k <= |s|
    ensures forall i :: 0 <= i < k ==> s[i] != '-'
    ensures k < |s| ==> s[k] == '-'
  {
    if s == [] then 0 else if s[0] == '-' then 0 else 1 + DashIndex(s[1..])
  }

  /** parseStreamID: strings.SplitN(s, "-", 2); both parts unsigned 64-bit
      decimals; a missing sequence part reads as 0. */
  function ParseStreamId(s: string): Option<EntryId>
  {
    var k := DashIndex(s);
    match ParseUint(s[..k])
    case None => None
    case Some(ms) =>
      if k == |s| then Some(EntryId(ms, 0))
      else
        match ParseUint(s[k + 1..])
        case None => None
        case Some(sq) => Some(EntryId(ms, sq))
  }

  /** The "<millis>-<seq>" text an entry ID is stored and replied as. */
  function FormatId(id: EntryId): string
  {
    NatToDecimal(id.ms) + "-" + NatToDecimal(id.seqNo)
  }

  /** Every ID that fits in 64 bits survives a format/parse round trip. */
  lemma ParseFormatRoundTrip(id: EntryId)
    requires Valid(id)
    ensures ParseStreamId(FormatId(id)) == Some(id)
  {
    var a, b := NatToDecimal(id.ms), NatToDecimal(id.seqNo);
    var s := FormatId(id);
    assert forall i :: 0 <= i < |a| ==> s[i] == a[i] && IsDigit(a[i]);
    assert s[|a|] == '-';
    assert DashIndex(s) == |a| by {
      DashIndexAt(s, |a|);
    }
    assert s[..|a|] == a;
    assert s[|a| + 1..] == b;
    ParseUintOfDecimal(id.ms);
    ParseUintOfDecimal(id.seqNo);
  }

  lemma {:induction false} DashIndexAt(s: string, k: nat)
    requires k < |s| && s[k] == '-'
    requires forall i :: 0 <= i < k ==> s[i] != '-'
    ensures DashIndex(s) == k
  {
    if k > 0 {
      DashIndexAt(s[1..], k - 1);
    }
  }

  /** Distinct IDs have distinct textual forms. */
  lemma FormatIdInjective(a: EntryId, b: EntryId)
    requires Valid(a) && Valid(b) && FormatId(a) == FormatId(b)
    ensures a == b
  {
    ParseFormatRoundTrip(a);
    ParseFormatRoundTrip(b);
  }

  /** formatStreamRangeBound: "-" is the smallest ID and "+" the largest; a bare
      "<millis>" takes sequence 0 when it bounds the low end of the scan and the
      largest sequence when it bounds the high end. For XREVRANGE the first
      bound is the high end, so `reverse` swaps the two defaults. */
  function RangeBound(token: string, isStart: bool, reverse: bool): Option<EntryId>
  {
    if token == "-" then Some(MinId)
    else if token == "+" then Some(MaxId)
    else if DashIndex(token) < |token| then ParseStreamId(token)
    else
      match ParseUint(token)
      case None => None
      case Some(ms) => Some(EntryId(ms, if isStart != reverse then 0 else MaxUint64))
  }

  /** "-" and "+" bound every valid ID, in either scan direction. */
  lemma SpecialBoundsAreExtreme(id: EntryId, isStart: bool, reverse: bool)
    requires Valid(id)
    ensures RangeBound("-", isStart, reverse) == Some(MinId) && LessEq(MinId, id)
    ensures RangeBound("+", isStart, reverse) == Some(MaxId) && LessEq(id, MaxId)
  {
  }

  /** A bare "<millis>" used as both bounds of a forward scan (or of a reverse
      scan) selects exactly the valid IDs with that millisecond part. */
  lemma BareMillisSelectsWholeMillisecond(token: string, ms: nat, id: EntryId, reverse: bool)
    requires DashIndex(token) == |token| && token != "-" && token != "+"
    requires ParseUint(token) == Some(ms)
    requires Valid(id)
    ensures var lo := RangeBound(token, !reverse, reverse);
            var hi := RangeBound(token, reverse, reverse);
            lo.Some? && hi.Some? &&
            (LessEq(lo.value, id) && LessEq(id, hi.value) <==> id.ms == ms)
  {
  }
}
