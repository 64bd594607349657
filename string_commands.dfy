/** The string commands of the older command layer: the Get/Set helpers and
    the SET, SETEX, SETNX, MSET, GET and MGET handlers, over a database of
    type tags, string values and expire times. */
module StringCommands {
  import opened Replies
  import opened Text

  const UsageError: Reply := Error(Msg("Usage error"))
  const ExpireValueError: Failure := Msg("Expire value error")

  /** The parts of redisDB the string commands touch. */
  class RedisDb {
    /** The type tag of every key ("string", "hash", ...). */
    var keys: map<string, string>
    /** The value of every key tagged "string". */
    var stringKeys: map<string, string>
    /** The expire number recorded per key, as given (seconds or
        milliseconds alike). */
    var expire: map<string, int>

    /** Exactly the keys tagged "string" hold a string value, and only
        existing keys have an expire. */
    ghost predicate Valid()
      reads this
    {
      && (forall k :: k in stringKeys <==> k in keys && keys[k] == "string")
      && (forall k :: k in expire ==> k in keys)
    }

    constructor ()
      ensures Valid() && keys == map[] && stringKeys == map[] && expire == map[]
    {
      keys := map[];
      stringKeys := map[];
      expire := map[];
    }

    /** db.Get (cmd_string.go:20-25): the string value, or "" for a key that
        is missing or of another type, as a Go map lookup gives. */
    function Get(k: string): (v: string)
      reads this
      requires Valid()
      ensures k in keys && keys[k] == "string" ==> v == stringKeys[k]
      ensures (k !in keys || keys[k] != "string") ==> v == ""
    {
      if k in stringKeys then stringKeys[k] else ""
    }

    /** db.Set / db.set (cmd_string.go:27-43): tag the key "string" and
        store the value; the expire is not touched. */
    method Set(k: string, v: string)
      requires Valid()
      modifies this
      ensures Valid() && Get(k) == v
      ensures keys == old(keys)[k := "string"] && stringKeys == old(stringKeys)[k := v]
      ensures expire == old(expire)
    {
      keys := keys[k := "string"];
      stringKeys := stringKeys[k := v];
    }

    /** db.del: remove the key from every type map and from expire. */
    method Del(k: string)
      requires Valid()
      modifies this
      ensures Valid() && k !in keys
      ensures keys == old(keys) - {k} && stringKeys == old(stringKeys) - {k} && expire == old(expire) - {k}
    {
      keys := keys - {k};
      stringKeys := stringKeys - {k};
      expire := expire - {k};
    }

    /** SET (cmd_string.go:47-113). Argument errors change nothing; NX on
        an existing key (of any type) or XX on a missing one replies Nil and
        changes nothing; otherwise the key becomes the string, its old expire
        is dropped and a non-zero EX/PX number is recorded. */
    method CmdSet(args: seq<string>) returns (r: Reply)
      requires Valid()
      modifies this
      ensures Valid()
      ensures |args| < 2 ==> r == UsageError && unchanged(this)
      ensures |args| >= 2 && SetFlags(args[2..], NoFlags).Err? ==>
                r == Error(SetFlags(args[2..], NoFlags).error) && unchanged(this)
      ensures |args| >= 2 && SetFlags(args[2..], NoFlags).Ok? ==>
                var f := SetFlags(args[2..], NoFlags).value;
                var key, value := args[0], args[1];
                if (f.nx && key in old(keys)) || (f.xx && key !in old(keys)) then
                  r == Null && unchanged(this)
                else
                  && r == OK
                  && keys == old(keys)[key := "string"]
                  && stringKeys == old(stringKeys)[key := value]
                  && expire == (if f.expire != 0 then old(expire)[key := f.expire] else old(expire) - {key})
                  && Get(key) == value
    {
      if |args| < 2 {
        return UsageError;
      }
      var key, value := args[0], args[1];
      var flags := ParseSetFlags(args[2..]);
      if flags.Err? {
        return Error(flags.error);
      }
      var f := flags.value;
      if f.nx && key in keys {
        return Null;
      }
      if f.xx && key !in keys {
        return Null;
      }
      Replace(key, value, f.expire);
      r := OK;
    }

    /** The success path of SET (cmd_string.go:104-111): clear the key,
        drop its expire, set the string, and record a non-zero expire. */
    method Replace(key: string, value: string, ex: int)
      requires Valid()
      modifies this
      ensures Valid() && Get(key) == value
      ensures keys == old(keys)[key := "string"] && stringKeys == old(stringKeys)[key := value]
      ensures expire == (if ex != 0 then old(expire)[key := ex] else old(expire) - {key})
    {
      PutString(key, value);
      if ex != 0 {
        SetExpire(key, ex);
      }
    }

    /** db.del(key) followed by storing the string: the key (of whatever
        type) and its expire are dropped, then the key is the string
        (cmd_string.go:104-107, 132-134, 177-179). */
    method PutString(key: string, value: string)
      requires Valid()
      modifies this
      ensures Valid() && Get(key) == value
      ensures keys == old(keys)[key := "string"] && stringKeys == old(stringKeys)[key := value]
      ensures expire == old(expire) - {key}
    {
      Del(key);
      ghost var keys0, values0 := keys, stringKeys;
      Set(key, value);
      assert keys == old(keys)[key := "string"] by {
        assert keys == keys0[key := "string"] && keys0 == old(keys) - {key};
      }
      assert stringKeys == old(stringKeys)[key := value] by {
        assert stringKeys == values0[key := value] && values0 == old(stringKeys) - {key};
      }
    }

    /** db.expire[key] = n for an existing key. */
    method SetExpire(key: string, n: int)
      requires Valid() && key in keys
      modifies this
      ensures Valid() && keys == old(keys) && stringKeys == old(stringKeys)
      ensures expire == old(expire)[key := n]
    {
      expire := expire[key := n];
    }

    /** SETEX (cmd_string.go:115-138): a wrong arity or a ttl that is not
        an integer changes nothing; otherwise the key is cleared, then set
        to the string with its expire. */
    method CmdSetex(args: seq<string>) returns (r: Reply)
      requires Valid()
      modifies this
      ensures Valid()
      ensures |args| != 3 ==> r == UsageError && unchanged(this)
      ensures |args| == 3 && Atoi(args[1]).None? ==> r == Error(ExpireValueError) && unchanged(this)
      ensures |args| == 3 && Atoi(args[1]).Some? ==>
                && r == OK
                && keys == old(keys)[args[0] := "string"]
                && stringKeys == old(stringKeys)[args[0] := args[2]]
                && expire == old(expire)[args[0] := Atoi(args[1]).value]
                && Get(args[0]) == args[2]
    {
      if |args| != 3 {
        return UsageError;
      }
      var key := args[0];
      var ttl := Atoi(args[1]);
      if ttl.None? {
        return Error(ExpireValueError);
      }
      var value := args[2];
      PutString(key, value);
      SetExpire(key, ttl.value);
      r := OK;
    }

    /** SETNX (cmd_string.go:140-160): 0 and no change for an existing key
        of any type, else the key is set and the reply is 1. */
    method CmdSetnx(args: seq<string>) returns (r: Reply)
      requires Valid()
      modifies this
      ensures Valid()
      ensures |args| != 2 ==> r == UsageError && unchanged(this)
      ensures |args| == 2 && args[0] in old(keys) ==> r == Int(0) && unchanged(this)
      ensures |args| == 2 && args[0] !in old(keys) ==>
                && r == Int(1)
                && keys == old(keys)[args[0] := "string"]
                && stringKeys == old(stringKeys)[args[0] := args[1]]
                && expire == old(expire)
                && Get(args[0]) == args[1]
    {
      if |args| != 2 {
        return UsageError;
      }
      var key, value := args[0], args[1];
      if key in keys {
        return Int(0);
      }
      Set(key, value);
      r := Int(1);
    }

    /** MSET (cmd_string.go:162-183): an odd argument count changes
        nothing; otherwise the pairs are applied left to right, each one
        clearing its key (and its expire) and setting the string. */
    method CmdMset(args: seq<string>) returns (r: Reply)
      requires Valid()
      modifies this
      ensures Valid()
      ensures |args| % 2 != 0 ==> r == Error(Msg("wrong number of arguments for 'mset' command")) && unchanged(this)
      ensures |args| % 2 == 0 ==>
                && r == OK
                && keys == Tagged(old(keys), args)
                && stringKeys == Assigned(old(stringKeys), args)
                && expire == Cleared(old(expire), args)
    {
      if |args| % 2 != 0 {
        return Error(Msg("wrong number of arguments for 'mset' command"));
      }
      var rest := args;
      while |rest| > 0
        invariant |rest| % 2 == 0 && Valid()
        invariant Tagged(old(keys), args) == Tagged(keys, rest)
        invariant Assigned(old(stringKeys), args) == Assigned(stringKeys, rest)
        invariant Cleared(old(expire), args) == Cleared(expire, rest)
        decreases |rest|
      {
        var key, value := rest[0], rest[1];
        rest := rest[2..];
        PutString(key, value);
      }
      r := OK;
    }

    /** GET (cmd_string.go:185-207): read-only. */
    method CmdGet(args: seq<string>) returns (r: Reply)
      requires Valid()
      ensures |args| != 1 ==> r == UsageError
      ensures |args| == 1 && args[0] in keys && keys[args[0]] != "string" ==> r == Error(Msg("Wrong type of key"))
      ensures |args| == 1 && args[0] !in keys ==> r == Null
      ensures |args| == 1 && args[0] in keys && keys[args[0]] == "string" ==> r == Bulk(Get(args[0]))
    {
      if |args| != 1 {
        return UsageError;
      }
      var key := args[0];
      if key in keys && keys[key] != "string" {
        return Error(Msg("Wrong type of key"));
      }
      if key !in stringKeys {
        return Null;
      }
      r := Bulk(stringKeys[key]);
    }

    /** One MGET element: the string value, or Nil for a key that is
        missing or of another type. The source's second Nil case, a string
        key without a value, cannot arise in a valid database. */
    function Lookup(k: string): (r: Reply)
      reads this
      requires Valid()
      ensures r == Null <==> k !in keys || keys[k] != "string"
      ensures r != Null ==> r == Bulk(Get(k))
    {
      if k !in keys || keys[k] != "string" then Null
      else Bulk(stringKeys[k])
    }

    /** MGET (cmd_string.go:209-234): read-only; one element per argument,
        in argument order. */
    method CmdMget(args: seq<string>) returns (r: Reply)
      requires Valid()
      ensures |args| < 1 ==> r == UsageError
      ensures |args| >= 1 ==> r.Array? && |r.items| == |args|
      ensures |args| >= 1 ==> forall i :: 0 <= i < |args| ==> r.items[i] == Lookup(args[i])
    {
      if |args| < 1 {
        return UsageError;
      }
      var items: seq<Reply> := [];
      var i := 0;
      while i < |args|
        invariant 0 <= i <= |args| && |items| == i
        invariant forall j :: 0 <= j < i ==> items[j] == Lookup(args[j])
      {
        var k := args[i];
        if k !in keys || keys[k] != "string" {
          items := items + [Null];
        } else {
          items := items + [Bulk(stringKeys[k])];
        }
        i := i + 1;
      }
      r := Array(items);
    }

    /** For keys that exist as strings or do not exist, GET's reply is the
        element MGET gives for that key. */
    lemma GetAgreesWithMget(k: string)
      requires Valid() && (k in keys ==> keys[k] == "string")
      ensures Lookup(k) == (if k in keys then Bulk(Get(k)) else Null)
    {
    }
  }

  /** ------------------------------------------------------- SET flags */

  datatype SetOpts = SetOpts(nx: bool, xx: bool, expire: int)

  const NoFlags: SetOpts := SetOpts(false, false, 0)

  /** SET's flag loop (cmd_string.go:58-85) from the remaining arguments:
      NX, XX, and EX/PX with an integer (the last one given wins). */
  function SetFlags(args: seq<string>, f: SetOpts): Result<SetOpts, Failure>
    decreases |args|
  {
    if args == [] then Ok(f)
    else
      var word := Upper(args[0]);
      if word == "NX" then SetFlags(args[1..], f.(nx := true))
      else if word == "XX" then SetFlags(args[1..], f.(xx := true))
      else if word == "EX" || word == "PX" then
        if |args| < 2 then Err(ExpireValueError)
        else
          match Atoi(args[1])
          case None => Err(ExpireValueError)
          case Some(n) => SetFlags(args[2..], f.(expire := n))
      else Err(Msg("invalid SET flag"))
  }

  /** The flag loop of SET (cmd_string.go:58-85). */
  method ParseSetFlags(args: seq<string>) returns (res: Result<SetOpts, Failure>)
    ensures res == SetFlags(args, NoFlags)
  {
    var rest := args;
    var f := NoFlags;
    while |rest| > 0
      invariant SetFlags(args, NoFlags) == SetFlags(rest, f)
      decreases |rest|
    {
      var word := Upper(rest[0]);
      if word == "NX" {
        f := f.(nx := true);
        rest := rest[1..];
      } else if word == "XX" {
        f := f.(xx := true);
        rest := rest[1..];
      } else if word == "EX" || word == "PX" {
        if |rest| < 2 {
          return Err(ExpireValueError);
        }
        var n := Atoi(rest[1]);
        if n.None? {
          return Err(ExpireValueError);
        }
        f := f.(expire := n.value);
        rest := rest[2..];
      } else {
        return Err(Msg("invalid SET flag"));
      }
    }
    res := Ok(f);
  }

  /** The flags only ever add NX and XX: with both, SET replies Nil whether
      or not the key exists. */
  lemma {:induction false} SetFlagsKeep(args: seq<string>, f: SetOpts)
    ensures SetFlags(args, f).Ok? ==> (f.nx ==> SetFlags(args, f).value.nx) && (f.xx ==> SetFlags(args, f).value.xx)
    decreases |args|
  {
    if args != [] {
      var word := Upper(args[0]);
      if word == "NX" {
        SetFlagsKeep(args[1..], f.(nx := true));
      } else if word == "XX" {
        SetFlagsKeep(args[1..], f.(xx := true));
      } else if (word == "EX" || word == "PX") && |args| >= 2 && Atoi(args[1]).Some? {
        SetFlagsKeep(args[2..], f.(expire := Atoi(args[1]).value));
      }
    }
  }

  /** NX and XX given together (in any case): whatever else the flags
      say, SET is refused both for an existing and for a missing key. */
  lemma NxXxAlwaysRefused(nx: string, xx: string, args: seq<string>, present: bool)
    requires Upper(nx) == "NX" && Upper(xx) == "XX"
    requires SetFlags([nx, xx] + args, NoFlags).Ok?
    ensures var f := SetFlags([nx, xx] + args, NoFlags).value;
            (f.nx && present) || (f.xx && !present)
  {
    var all := [nx, xx] + args;
    assert all[0] == nx && all[1..] == [xx] + args;
    assert ([xx] + args)[0] == xx && ([xx] + args)[1..] == args;
    SetFlagsKeep(args, SetOpts(true, true, 0));
  }

  /** EX and PX store their number alike. */
  lemma ExSameAsPx(ex: string, px: string, n: string, args: seq<string>, f: SetOpts)
    requires Upper(ex) == "EX" && Upper(px) == "PX"
    ensures SetFlags([ex, n] + args, f) == SetFlags([px, n] + args, f)
  {
    assert ([ex, n] + args)[2..] == args && ([px, n] + args)[2..] == args;
    assert ([ex, n] + args)[0] == ex && ([px, n] + args)[0] == px;
    assert ([ex, n] + args)[1] == n && ([px, n] + args)[1] == n;
  }

  /** ---------------------------------------------------- MSET pairs */

  /** The type tags after MSET's pairs are applied left to right. */
  function Tagged(keys: map<string, string>, args: seq<string>): map<string, string>
    requires |args| % 2 == 0
    decreases |args|
  {
    if args == [] then keys else Tagged(keys[args[0] := "string"], args[2..])
  }

  /** The string values after MSET's pairs are applied left to right. */
  function Assigned(values: map<string, string>, args: seq<string>): map<string, string>
    requires |args| % 2 == 0
    decreases |args|
  {
    if args == [] then values else Assigned(values[args[0] := args[1]], args[2..])
  }

  /** The expire map after MSET's pairs clear their keys. */
  function Cleared(expire: map<string, int>, args: seq<string>): map<string, int>
    requires |args| % 2 == 0
    decreases |args|
  {
    if args == [] then expire else Cleared(expire - {args[0]}, args[2..])
  }

  /** Whether `k` is one of the keys (even positions) of MSET's pairs. */
  predicate Names(args: seq<string>, k: string)
    requires |args| % 2 == 0
    decreases |args|
  {
    args != [] && (args[0] == k || Names(args[2..], k))
  }

  /** The value the last pair for `k` gives, if any. */
  function LastValue(args: seq<string>, k: string): (r: Option<string>)
    requires |args| % 2 == 0
    ensures r.Some? <==> Names(args, k)
    decreases |args|
  {
    if args == [] then None
    else
      match LastValue(args[2..], k)
      case Some(v) => Some(v)
      case None => if args[0] == k then Some(args[1]) else None
  }

  /** After MSET, a named key holds the value of its last pair (so the
      last value wins for a repeated key) and every other key keeps its
      value. */
  lemma {:induction false} MsetLastWins(values: map<string, string>, args: seq<string>, k: string)
    requires |args| % 2 == 0
    ensures LastValue(args, k).Some? ==> k in Assigned(values, args) && Assigned(values, args)[k] == LastValue(args, k).value
    ensures LastValue(args, k).None? ==> (k in Assigned(values, args) <==> k in values)
    ensures LastValue(args, k).None? && k in values ==> Assigned(values, args)[k] == values[k]
    decreases |args|
  {
    if args != [] {
      MsetLastWins(values[args[0] := args[1]], args[2..], k);
    }
  }

  /** After MSET, a named key is tagged "string" and has no expire; every
      other key keeps its tag and its expire. */
  lemma {:induction false} MsetTagsAndClears(keys: map<string, string>, expire: map<string, int>, args: seq<string>, k: string)
    requires |args| % 2 == 0
    ensures Names(args, k) ==> k in Tagged(keys, args) && Tagged(keys, args)[k] == "string" && k !in Cleared(expire, args)
    ensures !Names(args, k) ==> (k in Tagged(keys, args) <==> k in keys) && (k in Cleared(expire, args) <==> k in expire)
    ensures !Names(args, k) && k in keys ==> Tagged(keys, args)[k] == keys[k]
    ensures !Names(args, k) && k in expire ==> Cleared(expire, args)[k] == expire[k]
    decreases |args|
  {
    if args != [] {
      MsetTagsAndClears(keys[args[0] := "string"], expire - {args[0]}, args[2..], k);
    }
  }
}
