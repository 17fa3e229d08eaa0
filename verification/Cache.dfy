/** `CacheService`: the Redis client wrapper every other service goes through. */
module Cache {
  import opened Wrappers
  import opened Ttl
  import opened RedisServer
  import Keys

  /** JavaScript truthiness of what `get` returns: only null and the empty string are falsy. */
  predicate Truthy<J>(v: Option<Value<J>>) {
    v.Some? && (v.value.Text? ==> v.value.text != "")
  }

  class CacheService<J(==)> {
    var store: Redis<J>

    constructor ()
      ensures store == map[]
    {
      store := map[];
    }

    /** `set`: a TTL of 0, or none, stores without expiry; Redis refuses a negative one. */
    method Set(key: string, value: Value<J>, ttl: Option<int>, now: Instant) returns (r: Result<(), RedisError>)
      modifies this
      ensures r == if ttl.Some? && ttl.value < 0 then Err(InvalidExpire) else Ok(())
      ensures store == if r.Err? then old(store)
                       else Put(old(store), key, value, if ttl.Some? then ttl.value else 0, now)
    {
      if ttl.Some? && ttl.value != 0 {
        if ttl.value < 0 { return Err(InvalidExpire); }
        store := store[key := Cell(value, Some(now + 1000 * ttl.value))];
      } else {
        store := store[key := Cell(value, None)];
      }
      r := Ok(());
    }

    method Get(key: string, now: Instant) returns (v: Option<Value<J>>)
      ensures v == Ttl.Get(store, key, now)
    {
      v := if key in store && Unexpired(store[key], now) then Some(store[key].value) else None;
    }

    /** `SET ... NX`: only the caller that creates the key is told so. */
    method SetIfAbsent(key: string, value: Value<J>, ttl: nat, now: Instant) returns (first: bool)
      requires ttl > 0
      modifies this
      ensures first <==> !Live(old(store), key, now)
      ensures store == if first then Put(old(store), key, value, ttl, now) else old(store)
    {
      first := !(key in store && Unexpired(store[key], now));
      if first { store := store[key := Cell(value, Some(now + 1000 * ttl))]; }
    }

    method Delete(key: string)
      modifies this
      ensures store == Del(old(store), key)
    {
      store := store - {key};
    }

    method Incr(key: string, now: Instant) returns (r: Result<int, RedisError>)
      modifies this
      ensures IncrCell(old(store), key, now).Err? ==> r == Err(NotAnInteger) && store == old(store)
      ensures IncrCell(old(store), key, now).Ok? ==>
                && store == old(store)[key := IncrCell(old(store), key, now).value]
                && r == Ok(store[key].value.n)
    {
      var c := IncrCell(store, key, now);
      if c.Err? { return Err(c.error); }
      store := store[key := c.value];
      r := Ok(c.value.value.n);
    }

    /** Commands of other clients, served while this one awaits. */
    method Interfere(commands: seq<Command<J>>)
      modifies this
      ensures store == Replay(old(store), Others(commands))
    {
      var i := 0;
      assert Others(commands)[..0] == [];
      while i < |commands|
        invariant 0 <= i <= |commands|
        invariant store == Replay(old(store), Others(commands)[..i])
      {
        store := Obey(store, commands[i]);
        assert Others(commands)[..i + 1][..i] == Others(commands)[..i];
        i := i + 1;
      }
      assert Others(commands)[..|commands|] == Others(commands);
    }

    method ScanOnce(r: Round<J>) returns (reply: Reply)
      modifies this
      ensures reply == r.reply && store == Replay(old(store), ScanSteps(r))
    {
      Interfere(r.before);
      assert ScanSteps(r)[..|r.before|] == Others(r.before);
      reply := r.reply;
    }

    /** `getByPattern`: the batches in order, repeats included. Whatever other clients do, a
        matching key that is there all along is among them. */
    method GetByPattern(pattern: string, rounds: seq<Round<J>>) returns (keys: seq<string>)
      requires FullScan(rounds) && OnlyMatching(rounds, pattern)
      modifies this
      ensures keys == Batches(rounds) && store == Replay(old(store), ScanTrace(rounds))
    {
      keys := [];
      var cursor := "0";
      var i := 0;
      while true
        invariant 0 <= i < |rounds|
        invariant keys == Batches(rounds[..i]) && store == Replay(old(store), ScanTrace(rounds[..i]))
        decreases |rounds| - i
      {
        var reply := ScanOnce(rounds[i]);
        cursor := reply.cursor;
        keys := keys + reply.batch;
        assert rounds[..i + 1][..i] == rounds[..i];
        ReplayJoin(old(store), ScanTrace(rounds[..i]), ScanSteps(rounds[i]));
        i := i + 1;
        if cursor == "0" { break; }
      }
      assert rounds[..i] == rounds;
    }

    method PurgeOnce(r: Round<J>) returns (cursor: string)
      modifies this
      ensures cursor == r.reply.cursor && store == Replay(old(store), PurgeSteps(r))
    {
      var reply := ScanOnce(r);
      cursor := reply.cursor;
      Interfere(r.during);
      ReplayJoin(old(store), ScanSteps(r), Others(r.during));
      if |reply.batch| > 0 { store := store - (set k | k in reply.batch); }
      assert PurgeSteps(r)[..|PurgeSteps(r)| - 1] == ScanSteps(r) + Others(r.during);
    }

    /** `deleteByPattern`, with other clients at work before and after every reply. */
    method DeleteByPattern(pattern: string, rounds: seq<Round<J>>)
      requires FullScan(rounds) && OnlyMatching(rounds, pattern)
      modifies this
      ensures store == Replay(old(store), PurgeTrace(rounds))
    {
      var cursor := "0";
      var i := 0;
      while true
        invariant 0 <= i < |rounds|
        invariant store == Replay(old(store), PurgeTrace(rounds[..i]))
        decreases |rounds| - i
      {
        cursor := PurgeOnce(rounds[i]);
        assert rounds[..i + 1][..i] == rounds[..i];
        ReplayJoin(old(store), PurgeTrace(rounds[..i]), PurgeSteps(rounds[i]));
        i := i + 1;
        if cursor == "0" { break; }
      }
      assert rounds[..i] == rounds;
    }
  }

  /** Whatever the batching and whatever other clients do meanwhile: a matching key that can be
      read afterwards was written by another client after a moment at which it was missing, and a
      key that does not match ends as those clients alone leave it. */
  lemma DeletedByPattern<J>(m: Redis<J>, pattern: string, rounds: seq<Round<J>>, k: string, t: Instant)
    requires FullScan(rounds) && OnlyMatching(rounds, pattern)
    requires ScanCovers(m, pattern, PurgeTrace(rounds)) && OverBy(PurgeTrace(rounds), t)
    ensures var after := Replay(m, PurgeTrace(rounds));
            && (Keys.Glob(pattern, k) && Live(after, k, t) ==> Rewritten(m, PurgeTrace(rounds), k))
            && (!Keys.Glob(pattern, k) ==> SameAt(after, Replay(m, Foreign(PurgeTrace(rounds))), k))
  {
    var steps := PurgeTrace(rounds);
    TracePurges(rounds);
    PurgesOnlyMatching(rounds, pattern);
    if Keys.Glob(pattern, k) {
      if Live(Replay(m, steps), k, t) { SurvivorsAreRewritten(m, pattern, steps, k, t); }
    } else {
      BystandersKeep(m, steps, k);
    }
  }

  /** In particular, a matching key that no other client writes meanwhile is gone for good. */
  lemma UnwrittenIsGone<J>(m: Redis<J>, pattern: string, rounds: seq<Round<J>>, k: string, t: Instant)
    requires FullScan(rounds) && OnlyMatching(rounds, pattern) && Keys.Glob(pattern, k)
    requires ScanCovers(m, pattern, PurgeTrace(rounds)) && OverBy(PurgeTrace(rounds), t)
    requires forall s :: s in PurgeTrace(rounds) && s.Other? ==> s.command.key != k
    ensures !Live(Replay(m, PurgeTrace(rounds)), k, t)
  {
    NotRewritten(m, PurgeTrace(rounds), k);
    DeletedByPattern(m, pattern, rounds, k, t);
  }

  lemma NotRewritten<J>(m: Redis<J>, steps: seq<Step<J>>, k: string)
    requires forall s :: s in steps && s.Other? ==> s.command.key != k
    ensures !Rewritten(m, steps, k)
  {
    forall j: nat
      ensures !LastWrittenAt(steps, j, k)
    {
      if j < |steps| { assert steps[j] in steps; }
    }
  }
}
