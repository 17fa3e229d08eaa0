/** The Redis server the cache talks to: its values, other clients' commands, and what SCAN
    guarantees while those commands keep coming. */
module RedisServer {
  import opened Wrappers
  import opened Ttl
  import Keys

  /** What a key holds: a text, a number written by INCR, or a JSON document. */
  datatype Value<+J> = Text(text: string) | Num(n: int) | Json(doc: J)

  type Redis<J> = Store<string, Value<J>>

  datatype RedisError = InvalidExpire | NotAnInteger

  /** INCR: a missing or expired key counts from 0 and gets no expiry; a live key keeps its own. */
  function IncrCell<J>(m: Redis<J>, key: string, now: Instant): Result<Cell<Value<J>>, RedisError> {
    if !Live(m, key, now) then Ok(Cell(Num(1), None))
    else if m[key].value.Num? then Ok(Cell(Num(m[key].value.n + 1), m[key].expiresAt))
    else Err(NotAnInteger)
  }

  // ---- Other clients ----

  /** What a command does to its key: it counts it up, or it leaves this there. */
  datatype Effect<+J> = Count | Leave(cell: Option<Cell<Value<J>>>)

  datatype Command<+J> = Command(at: Instant, key: string, effect: Effect<J>)

  function Obey<J>(m: Redis<J>, c: Command<J>): Redis<J> {
    match c.effect
    case Count =>
      var r := IncrCell(m, c.key, c.at);
      if r.Ok? then m[c.key := r.value] else m
    case Leave(cell) => if cell.Some? then m[c.key := cell.value] else Del(m, c.key)
  }

  /** A command changes its own key only, to what it leaves there or to the next count. */
  lemma ObeysCommand<J>(m: Redis<J>, c: Command<J>)
    ensures Obey(m, c) - {c.key} == m - {c.key}
    ensures c.effect.Leave? ==>
              (c.key in Obey(m, c) <==> c.effect.cell.Some?)
              && (c.effect.cell.Some? ==> Obey(m, c)[c.key] == c.effect.cell.value)
    ensures c.effect.Count? && c.key !in m ==> c.key in Obey(m, c) && Obey(m, c)[c.key] == Cell(Num(1), None)
  {}

  // ---- Scanning ----

  /** One reply of SCAN: the cursor to continue from, and a batch of matching keys. */
  datatype Reply = Reply(cursor: string, batch: seq<string>)

  /** One turn of a SCAN loop: other clients' commands, the call's reply, more commands, and the
      instant at which the batch is deleted, if it is. */
  datatype Round<+J> = Round(before: seq<Command<J>>, scanAt: Instant, reply: Reply,
                             during: seq<Command<J>>, purgeAt: Instant)

  /** Everything that happens on the server, in order. */
  datatype Step<+J> =
    | Other(command: Command<J>)
    | Scan(scanAt: Instant, reply: Reply)
    | Purge(purgeAt: Instant, keys: seq<string>)
  {
    function At(): Instant {
      match this
      case Other(c) => c.at
      case Scan(at, _) => at
      case Purge(at, _) => at
    }

    predicate Touches(k: string) {
      (Other? && command.key == k) || (Purge? && k in keys)
    }
  }

  function Do<J>(m: Redis<J>, s: Step<J>): Redis<J> {
    match s
    case Other(c) => Obey(m, c)
    case Scan(_, _) => m
    case Purge(_, keys) => m - (set k | k in keys)
  }

  function Replay<J>(m: Redis<J>, steps: seq<Step<J>>): Redis<J> {
    if steps == [] then m else Do(Replay(m, steps[..|steps| - 1]), steps[|steps| - 1])
  }

  function Others<J>(cs: seq<Command<J>>): (steps: seq<Step<J>>)
    ensures |steps| == |cs| && forall i :: 0 <= i < |cs| ==> steps[i] == Other(cs[i])
  {
    seq(|cs|, i requires 0 <= i < |cs| => Other(cs[i]))
  }

  function ScanSteps<J>(r: Round<J>): seq<Step<J>> {
    Others(r.before) + [Scan(r.scanAt, r.reply)]
  }

  function PurgeSteps<J>(r: Round<J>): seq<Step<J>> {
    ScanSteps(r) + Others(r.during) + [Purge(r.purgeAt, r.reply.batch)]
  }

  /** The rounds of `getByPattern`, and those of `deleteByPattern`. */
  function ScanTrace<J>(rounds: seq<Round<J>>): seq<Step<J>> {
    if rounds == [] then [] else ScanTrace(rounds[..|rounds| - 1]) + ScanSteps(rounds[|rounds| - 1])
  }

  function PurgeTrace<J>(rounds: seq<Round<J>>): seq<Step<J>> {
    if rounds == [] then [] else PurgeTrace(rounds[..|rounds| - 1]) + PurgeSteps(rounds[|rounds| - 1])
  }

  /** The keys of all batches in order, repeats included. */
  function Batches<J>(rounds: seq<Round<J>>): seq<string> {
    if rounds == [] then [] else Batches(rounds[..|rounds| - 1]) + rounds[|rounds| - 1].reply.batch
  }

  /** SCAN ends with the first reply whose cursor is "0". */
  ghost predicate FullScan<J>(rounds: seq<Round<J>>) {
    && |rounds| > 0
    && forall i :: 0 <= i < |rounds| ==> (rounds[i].reply.cursor == "0" <==> i == |rounds| - 1)
  }

  /** MATCH filters every batch. */
  ghost predicate OnlyMatching<J>(rounds: seq<Round<J>>, pattern: string) {
    forall i, k :: 0 <= i < |rounds| && k in rounds[i].reply.batch ==> Keys.Glob(pattern, k)
  }

  /** The whole trace is over at t. */
  ghost predicate OverBy<J>(steps: seq<Step<J>>, t: Instant) {
    forall s :: s in steps ==> s.At() <= t
  }

  /** The key is readable until step i is over. */
  predicate LiveBefore<J>(m: Redis<J>, steps: seq<Step<J>>, i: nat, k: string)
    requires i < |steps|
  {
    Live(Replay(m, steps[..i]), k, steps[i].At())
  }

  predicate Named<J>(steps: seq<Step<J>>, k: string) {
    exists i :: 0 <= i < |steps| && steps[i].Scan? && k in steps[i].reply.batch
  }

  /** The guarantee of a full SCAN: a matching key that is there all the time, from the start to
      the end of the iteration, is in some batch. Batches may repeat keys and come in any order. */
  ghost predicate ScanCovers<J>(m: Redis<J>, pattern: string, steps: seq<Step<J>>) {
    forall k :: Keys.Glob(pattern, k) && (forall i :: 0 <= i < |steps| ==> LiveBefore(m, steps, i, k))
      ==> Named(steps, k)
  }

  // ---- How steps act on one key ----

  predicate SameAt<J(==)>(a: Redis<J>, b: Redis<J>, k: string) {
    (k in a <==> k in b) && (k in a ==> a[k] == b[k])
  }

  lemma {:induction false} ReplayJoin<J>(m: Redis<J>, a: seq<Step<J>>, b: seq<Step<J>>)
    ensures Replay(m, a + b) == Replay(Replay(m, a), b)
  {
    if b == [] {
      assert a + b == a;
    } else {
      var n := |b| - 1;
      ReplayJoin(m, a, b[..n]);
      assert (a + b)[..|a| + n] == a + b[..n];
    }
  }

  lemma Untouched<J>(m: Redis<J>, s: Step<J>, k: string)
    requires !s.Touches(k)
    ensures SameAt(Do(m, s), m, k)
  {}

  lemma {:induction false} UntouchedSince<J>(m: Redis<J>, steps: seq<Step<J>>, i: nat, k: string)
    requires i <= |steps| && forall j :: i <= j < |steps| ==> !steps[j].Touches(k)
    ensures SameAt(Replay(m, steps), Replay(m, steps[..i]), k)
  {
    if i == |steps| {
      assert steps[..i] == steps;
    } else {
      var n := |steps| - 1;
      UntouchedSince(m, steps[..n], i, k);
      assert steps[..n][..i] == steps[..i];
      Untouched(Replay(m, steps[..n]), steps[n], k);
    }
  }

  /** Step j is another client's command on k, and nothing touches k after it. */
  predicate LastWrittenAt<J>(steps: seq<Step<J>>, j: nat, k: string) {
    && j < |steps| && steps[j].Other? && steps[j].command.key == k
    && forall l :: j < l < |steps| ==> !steps[l].Touches(k)
  }

  /** The key was not readable up to step i, and a later command of another client put it there. */
  ghost predicate Rewritten<J>(m: Redis<J>, steps: seq<Step<J>>, k: string) {
    exists i, j :: 0 <= i <= j < |steps| && !LiveBefore(m, steps, i, k) && LastWrittenAt(steps, j, k)
  }

  function LastTouch<J>(steps: seq<Step<J>>, i: nat, k: string): (j: Option<nat>)
    requires i <= |steps|
    ensures j.None? ==> forall l :: i <= l < |steps| ==> !steps[l].Touches(k)
    ensures j.Some? ==> i <= j.value < |steps| && steps[j.value].Touches(k)
                        && forall l :: j.value < l < |steps| ==> !steps[l].Touches(k)
    decreases |steps| - i
  {
    if i == |steps| then None
    else
      var later := LastTouch(steps, i + 1, k);
      if later.Some? then later else if steps[i].Touches(k) then Some(i) else None
  }

  lemma PurgedIsGone<J>(m: Redis<J>, steps: seq<Step<J>>, j: nat, k: string)
    requires j < |steps| && steps[j].Purge? && k in steps[j].keys
    requires forall l :: j < l < |steps| ==> !steps[l].Touches(k)
    ensures k !in Replay(m, steps) && k !in Replay(m, steps[..j + 1])
  {
    assert steps[..j + 1][..j] == steps[..j];
    UntouchedSince(m, steps, j + 1, k);
  }

  lemma UnexpiredEarlier<J>(a: Redis<J>, b: Redis<J>, k: string, t: Instant, u: Instant)
    requires SameAt(a, b, k) && Live(a, k, u) && t <= u
    ensures Live(b, k, t)
  {}

  /** A key that was missing once and is there in the end was put there in between. */
  lemma BackAgain<J>(m: Redis<J>, steps: seq<Step<J>>, i: nat, k: string, t: Instant)
    requires i < |steps| && !LiveBefore(m, steps, i, k)
    requires steps[i].At() <= t && Live(Replay(m, steps), k, t)
    ensures Rewritten(m, steps, k)
  {
    var j := LastTouch(steps, i, k);
    if j.None? {
      UntouchedSince(m, steps, i, k);
      UnexpiredEarlier(Replay(m, steps), Replay(m, steps[..i]), k, steps[i].At(), t);
    } else if steps[j.value].Purge? {
      PurgedIsGone(m, steps, j.value, k);
    } else {
      assert LastWrittenAt(steps, j.value, k);
    }
  }

  // ---- A scan that deletes what it finds ----

  /** Every batch is deleted after its reply. */
  predicate Purges<J>(steps: seq<Step<J>>) {
    forall i :: 0 <= i < |steps| && steps[i].Scan? ==> PurgedAfter(steps, i)
  }

  predicate PurgedAfter<J>(steps: seq<Step<J>>, i: nat)
    requires i < |steps| && steps[i].Scan?
  {
    exists j :: i < j < |steps| && steps[j].Purge? && steps[j].keys == steps[i].reply.batch
  }

  lemma PurgesJoin<J>(a: seq<Step<J>>, b: seq<Step<J>>)
    requires Purges(a) && Purges(b)
    ensures Purges(a + b)
  {
    forall i | 0 <= i < |a + b| && (a + b)[i].Scan?
      ensures PurgedAfter(a + b, i)
    {
      if i < |a| {
        assert PurgedAfter(a, i);
        var j :| i < j < |a| && a[j].Purge? && a[j].keys == a[i].reply.batch;
        assert (a + b)[j] == a[j];
      } else {
        assert PurgedAfter(b, i - |a|);
        var j :| i - |a| < j < |b| && b[j].Purge? && b[j].keys == b[i - |a|].reply.batch;
        assert (a + b)[|a| + j] == b[j];
      }
    }
  }

  lemma RoundPurges<J>(r: Round<J>)
    ensures Purges(PurgeSteps(r))
  {
    var steps := PurgeSteps(r);
    var last := |steps| - 1;
    assert steps[last] == Purge(r.purgeAt, r.reply.batch);
    forall i | 0 <= i < |steps| && steps[i].Scan?
      ensures PurgedAfter(steps, i)
    {
      assert i == |r.before| && steps[i].reply == r.reply && i < last;
    }
  }

  lemma {:induction false} TracePurges<J>(rounds: seq<Round<J>>)
    ensures Purges(PurgeTrace(rounds))
  {
    if rounds != [] {
      var n := |rounds| - 1;
      TracePurges(rounds[..n]);
      RoundPurges(rounds[n]);
      PurgesJoin(PurgeTrace(rounds[..n]), PurgeSteps(rounds[n]));
    }
  }

  /** At some moment the key was not readable: before step i, or, if i is the end, in the end. */
  ghost predicate MissingAt<J>(m: Redis<J>, steps: seq<Step<J>>, i: nat, k: string) {
    if i < |steps| then !LiveBefore(m, steps, i, k) else i == |steps| && k !in Replay(m, steps)
  }

  /** No matching key survives the whole scan: at some moment it is gone, deleted by the scan or
      not yet, or no longer, there. */
  lemma MissingOnce<J>(m: Redis<J>, pattern: string, steps: seq<Step<J>>, k: string) returns (i: nat)
    requires Keys.Glob(pattern, k) && ScanCovers(m, pattern, steps) && Purges(steps)
    ensures MissingAt(m, steps, i, k)
  {
    if Named(steps, k) {
      var p :| 0 <= p < |steps| && steps[p].Scan? && k in steps[p].reply.batch;
      assert PurgedAfter(steps, p);
      var q :| p < q < |steps| && steps[q].Purge? && steps[q].keys == steps[p].reply.batch;
      i := q + 1;
      assert steps[..i][..q] == steps[..q] && steps[..|steps|] == steps;
    } else {
      var j :| 0 <= j < |steps| && !LiveBefore(m, steps, j, k);
      i := j;
    }
  }

  /** So a matching key that can be read afterwards was written by another client, after a moment
      at which it was missing. */
  lemma SurvivorsAreRewritten<J>(m: Redis<J>, pattern: string, steps: seq<Step<J>>, k: string, t: Instant)
    requires Keys.Glob(pattern, k) && ScanCovers(m, pattern, steps) && Purges(steps)
    requires OverBy(steps, t) && Live(Replay(m, steps), k, t)
    ensures Rewritten(m, steps, k)
  {
    var i := MissingOnce(m, pattern, steps, k);
    BackAgain(m, steps, i, k, t);
  }

  /** Other clients' steps alone. */
  function Foreign<J>(steps: seq<Step<J>>): seq<Step<J>> {
    if steps == [] then []
    else
      var n := |steps| - 1;
      Foreign(steps[..n]) + if steps[n].Other? then [steps[n]] else []
  }

  lemma SameEffect<J>(a: Redis<J>, b: Redis<J>, s: Step<J>, k: string)
    requires SameAt(a, b, k)
    ensures SameAt(Do(a, s), Do(b, s), k)
  {}

  /** A key that no deletion names ends as the other clients' commands alone would leave it. */
  lemma {:induction false} BystandersKeep<J>(m: Redis<J>, steps: seq<Step<J>>, k: string)
    requires forall i :: 0 <= i < |steps| && steps[i].Purge? ==> k !in steps[i].keys
    ensures SameAt(Replay(m, steps), Replay(m, Foreign(steps)), k)
  {
    if steps != [] {
      var n := |steps| - 1;
      BystandersKeep(m, steps[..n], k);
      var a, b := Replay(m, steps[..n]), Replay(m, Foreign(steps[..n]));
      if steps[n].Other? {
        SameEffect(a, b, steps[n], k);
        assert (Foreign(steps[..n]) + [steps[n]])[..|Foreign(steps[..n])|] == Foreign(steps[..n]);
      } else {
        Untouched(a, steps[n], k);
        assert Foreign(steps) == Foreign(steps[..n]);
      }
    }
  }

  ghost predicate PurgesMatch<J>(steps: seq<Step<J>>, pattern: string) {
    forall i, k :: 0 <= i < |steps| && steps[i].Purge? && k in steps[i].keys ==> Keys.Glob(pattern, k)
  }

  lemma {:induction false} PurgesOnlyMatching<J>(rounds: seq<Round<J>>, pattern: string)
    requires OnlyMatching(rounds, pattern)
    ensures PurgesMatch(PurgeTrace(rounds), pattern)
  {
    if rounds != [] {
      var n := |rounds| - 1;
      PurgesOnlyMatching(rounds[..n], pattern);
      var steps := PurgeSteps(rounds[n]);
      forall i, k | 0 <= i < |steps| && steps[i].Purge? && k in steps[i].keys
        ensures Keys.Glob(pattern, k)
      {
        assert k in rounds[n].reply.batch;
      }
    }
  }

  // ---- Counters that only INCR writes ----

  predicate OnlyCounted<J>(steps: seq<Step<J>>, k: string) {
    forall i :: 0 <= i < |steps| && steps[i].Other? && steps[i].command.key == k ==> steps[i].command.effect.Count?
  }

  /** How many times the key is counted up. */
  function Counts<J>(steps: seq<Step<J>>, k: string): nat {
    if steps == [] then 0
    else
      var n := |steps| - 1;
      Counts(steps[..n], k) + if steps[n].Other? && steps[n].command.key == k then 1 else 0
  }

  predicate HoldsCount<J>(m: Redis<J>, k: string, n: nat) {
    if n == 0 then k !in m else k in m && m[k].value == Num(n) && m[k].expiresAt.None?
  }

  /** A counter that no deletion names any more goes up by exactly the increments. */
  lemma {:induction false} CountsUp<J>(m: Redis<J>, steps: seq<Step<J>>, k: string, n: nat)
    requires HoldsCount(m, k, n) && OnlyCounted(steps, k)
    requires forall i :: 0 <= i < |steps| && steps[i].Purge? ==> k !in steps[i].keys
    ensures HoldsCount(Replay(m, steps), k, n + Counts(steps, k))
  {
    if steps != [] {
      var l := |steps| - 1;
      CountsUp(m, steps[..l], k, n);
      var before := Replay(m, steps[..l]);
      if !steps[l].Touches(k) { Untouched(before, steps[l], k); }
    }
  }

  /** After its last deletion a counter holds exactly the increments made since: none made before
      it is left, and none made after it is lost. */
  lemma CountsSincePurge<J>(m: Redis<J>, steps: seq<Step<J>>, j: nat, k: string)
    requires j < |steps| && steps[j].Purge? && k in steps[j].keys && OnlyCounted(steps, k)
    requires forall l :: j < l < |steps| && steps[l].Purge? ==> k !in steps[l].keys
    ensures HoldsCount(Replay(m, steps), k, Counts(steps[j + 1..], k))
  {
    assert steps == steps[..j + 1] + steps[j + 1..];
    ReplayJoin(m, steps[..j + 1], steps[j + 1..]);
    assert steps[..j + 1][..j] == steps[..j];
    CountsUp(Replay(m, steps[..j + 1]), steps[j + 1..], k, 0);
  }
}
