/** The part of a logical database the stream commands touch: the type tag of
    every key, the stream values, and the per-key version counter that wakes
    blocked readers. */
module StreamDb {
  import opened Replies
  import opened StreamIds
  import opened StreamLog
  import opened ConsumerGroups
  import opened Streams

  class Db {
    /** The type tag of every key ("string", "stream", ...). */
    var keys: map<string, string>
    /** streamKeys: the stream value of every key tagged "stream". */
    var streams: map<string, Stream>
    /** keyVersion; a key without an entry reads as 0, as in a Go map. */
    var keyVersion: map<string, int>

    /** Exactly the keys tagged "stream" hold a stream, and every stream is
        well formed. */
    ghost predicate Valid()
      reads this
    {
      && (forall k :: k in streams <==> k in keys && keys[k] == "stream")
      && (forall k :: k in streams ==> ValidStream(streams[k]))
    }

    constructor ()
      ensures Valid() && keys == map[] && streams == map[] && keyVersion == map[]
    {
      keys := map[];
      streams := map[];
      keyVersion := map[];
    }

    function Version(key: string): int
      reads this
    {
      if key in keyVersion then keyVersion[key] else 0
    }

    /** db.stream: WrongType for a key of another type, None for a missing
        key, else the stream. */
    function StreamAt(key: string): (r: Result<Option<Stream>, Failure>)
      reads this
      requires Valid()
      ensures r == Err(WrongType) <==> key in keys && keys[key] != "stream"
      ensures r == Ok(None) <==> key !in keys
      ensures r.Ok? && r.value.Some? ==> key in streams && r.value.value == streams[key]
    {
      if key in keys && keys[key] != "stream" then Err(WrongType)
      else if key in streams then Ok(Some(streams[key]))
      else Ok(None)
    }

    /** db.streamGroup: the errors of db.stream, None when the key or the
        group is missing, else the group. */
    function GroupAt(key: string, group: string): (r: Result<Option<Group>, Failure>)
      reads this
      requires Valid()
      ensures r.Err? <==> StreamAt(key).Err?
      ensures r.Ok? && r.value.Some? <==> key in streams && group in streams[key].groups
      ensures r.Ok? && r.value.Some? ==> r.value.value == streams[key].groups[group]
    {
      match StreamAt(key)
      case Err(f) => Err(f)
      case Ok(None) => Ok(None)
      case Ok(Some(s)) => if group in s.groups then Ok(Some(s.groups[group])) else Ok(None)
    }

    /** Store a stream under a key that is free or already a stream
        (db.newStream followed by in-place updates of the stream). */
    method StoreStream(key: string, s: Stream)
      requires Valid() && (key in keys ==> keys[key] == "stream") && ValidStream(s)
      modifies this
      ensures Valid()
      ensures keys == old(keys)[key := "stream"] && streams == old(streams)[key := s]
      ensures keyVersion == old(keyVersion)
    {
      keys := keys[key := "stream"];
      streams := streams[key := s];
    }

    /** db.keyVersion[key]++. */
    method BumpVersion(key: string)
      modifies this
      ensures keys == old(keys) && streams == old(streams)
      ensures keyVersion == old(keyVersion)[key := old(Version(key)) + 1]
      ensures Version(key) == old(Version(key)) + 1
      ensures forall k :: k != key ==> Version(k) == old(Version(k))
    {
      keyVersion := keyVersion[key := Version(key) + 1];
    }
  }

  /** One stream entry as the handlers write it: its ID, then its flattened
      field/value list. */
  function EntryReply(e: Entry): Reply
  {
    Array([Bulk(FormatId(e.id)), Array(seq(|e.values|, i requires 0 <= i < |e.values| => Bulk(e.values[i])))])
  }

  function EntryReplies(es: seq<Entry>): (r: seq<Reply>)
    ensures |r| == |es|
  {
    seq(|es|, i requires 0 <= i < |es| => EntryReply(es[i]))
  }
}
