/** The shared pool of API keys: least-recently-used choice, a minimum interval between two calls on one key, and
    cooldowns after rate-limit errors.  The lock makes each operation one atomic step, sleeping included. */
module KeyPool {
  import opened Common

  /** What the pool's fields hold.  The empty model name means "no model". */
  datatype Pool = Pool(keys: seq<string>, lastUsed: map<string, real>, keyCooldown: map<string, real>,
                       modelCooldown: map<(string, string), real>)
  {
    function LastUsed(key: string): real { if key in lastUsed then lastUsed[key] else 0.0 }

    /** When the key leaves its cooldowns. */
    function CoolUntil(key: string, model: string): real {
      var whole := if key in keyCooldown then keyCooldown[key] else 0.0;
      if model == "" then whole
      else
        var one := if (key, model) in modelCooldown then modelCooldown[(key, model)] else 0.0;
        if whole < one then one else whole
    }
  }

  function Available(p: Pool, keys: seq<string>, now: real, model: string): (active: seq<string>)
    ensures forall k :: k in active <==> k in keys && p.CoolUntil(k, model) <= now
  {
    if keys == [] then []
    else
      assert keys == [keys[0]] + keys[1..];
      (if p.CoolUntil(keys[0], model) <= now then [keys[0]] else []) + Available(p, keys[1..], now, model)
  }

  /** The first of the keys with the smallest score. */
  function FirstMin(keys: seq<string>, score: string -> real): (best: string)
    requires keys != []
    ensures best in keys && forall k :: k in keys ==> score(best) <= score(k)
  {
    if |keys| == 1 then keys[0]
    else
      assert keys == keys[..|keys| - 1] + [keys[|keys| - 1]];
      var best := FirstMin(keys[..|keys| - 1], score);
      if score(keys[|keys| - 1]) < score(best) then keys[|keys| - 1] else best
  }

  /** The least recently used available key, or else the one whose cooldown ends first. */
  function Choose(p: Pool, now: real, model: string): string
    requires p.keys != []
  {
    var active := Available(p, p.keys, now, model);
    if active == [] then FirstMin(p.keys, k => p.CoolUntil(k, model)) else FirstMin(active, k => p.LastUsed(k))
  }

  function AfterGrant(p: Pool, key: string, stamp: real): Pool {
    p.(lastUsed := p.lastUsed[key := stamp])
  }

  function AfterLimit(p: Pool, key: string, model: string, until: real): Pool {
    if model != "" then p.(modelCooldown := p.modelCooldown[(key, model) := until])
    else p.(keyCooldown := p.keyCooldown[key := until])
  }

  // ---- the manager ----

  /** A wall clock that never runs backwards; how far it moves between two readings is arbitrary. */
  class Clock {
    var now: real
    var readings: nat
    const drift: nat -> real

    constructor (start: real, drift: nat -> real)
      requires forall n :: 0.0 <= drift(n)
      ensures now == start && Valid()
    {
      this.now, this.readings, this.drift := start, 0, drift;
    }

    ghost predicate Valid() { forall n :: 0.0 <= drift(n) }

    method Read() returns (t: real)
      requires Valid()
      modifies this
      ensures old(now) <= t == now
    {
      now := now + drift(readings);
      readings := readings + 1;
      t := now;
    }

    method Sleep(duration: real)
      requires Valid() && 0.0 < duration
      modifies this
      ensures old(now) + duration <= now
    {
      now := now + duration + drift(readings);
      readings := readings + 1;
    }
  }

  function Count(stats: map<string, int>, name: string): int { if name in stats then stats[name] else 0 }

  datatype Acquired = NoKeys | Granted(key: string)

  class GeminiKeyManager {
    const keys: seq<string>
    const minInterval: real
    const cooldown: real
    const clock: Clock
    var lastUsed: map<string, real>
    var cooldownUntil: map<(string, string), real>
    var keyCooldownUntil: map<string, real>
    var callStats: map<string, int>
    var modelCallStats: map<string, int>
    var rateLimitedStats: map<string, int>

    function State(): Pool
      reads this
    {
      Pool(keys, lastUsed, keyCooldownUntil, cooldownUntil)
    }

    constructor (keys: seq<string>, minInterval: real, cooldown: real, clock: Clock)
      ensures this.keys == keys && this.clock == clock
      ensures this.minInterval == (if minInterval < 0.0 then 0.0 else minInterval)
      ensures this.cooldown == (if cooldown < 5.0 then 5.0 else cooldown)
      ensures State() == Initial(keys)
    {
      this.keys, this.clock := keys, clock;
      this.minInterval := if minInterval < 0.0 then 0.0 else minInterval;
      this.cooldown := if cooldown < 5.0 then 5.0 else cooldown;
      this.lastUsed := map k | k in keys :: 0.0;
      this.keyCooldownUntil := map k | k in keys :: 0.0;
      this.cooldownUntil := map[];
      this.callStats := map k | k in keys :: 0;
      this.modelCallStats := map[];
      this.rateLimitedStats := map k | k in keys :: 0;
    }

    /** Grants a key, sleeping first when the chosen key is still cooling down or was used too recently. */
    method AcquireKey(model: string) returns (acquired: Acquired, ghost now: real, ghost stamp: real)
      requires clock.Valid()
      modifies this, clock
      ensures old(clock.now) <= now <= stamp <= clock.now
      ensures acquired.NoKeys? <==> keys == []
      ensures acquired.NoKeys? ==> State() == old(State()) && callStats == old(callStats)
      ensures acquired.Granted? ==> IsGrant(old(State()), State(), acquired.key, model, now, stamp, minInterval)
      ensures acquired.Granted? ==> callStats == old(callStats)[acquired.key := Count(old(callStats), acquired.key) + 1]
    {
      hide Choose;
      var start := clock.Read();
      now, stamp := start, start;
      if keys == [] {
        return NoKeys, now, stamp;
      }
      var chosen := ChooseKey(model, start);
      var used := Pace(State().LastUsed(chosen));
      lastUsed := lastUsed[chosen := used];
      callStats := callStats[chosen := Count(callStats, chosen) + 1];
      if model != "" {
        modelCallStats := modelCallStats[model := Count(modelCallStats, model) + 1];
      }
      stamp := used;
      acquired := Granted(chosen);
    }

    /** Least recently used among the available keys; with none available, the first to leave its cooldown, after a
        sleep when that is at most ten seconds away. */
    method ChooseKey(model: string, now: real) returns (chosen: string)
      requires clock.Valid() && keys != []
      modifies clock
      ensures old(clock.now) <= clock.now && chosen == Choose(State(), now, model)
    {
      var p := State();
      var active := Available(p, keys, now, model);
      if active == [] {
        var earliest := FirstMin(keys, k => p.CoolUntil(k, model));
        var wait := p.CoolUntil(earliest, model) - now;
        if 0.0 < wait <= 10.0 {
          clock.Sleep(wait);
        }
        active := [earliest];
      }
      chosen := FirstMin(active, k => p.LastUsed(k));
    }

    /** Waits until the minimum interval since the given stamp has passed, and reads the clock. */
    method Pace(last: real) returns (used: real)
      requires clock.Valid()
      modifies clock
      ensures old(clock.now) <= used == clock.now && last + minInterval <= used
    {
      var t := clock.Read();
      var elapsed := t - last;
      if elapsed < minInterval {
        clock.Sleep(minInterval - elapsed);
      }
      used := clock.Read();
    }

    /** Without a penalty of its own, the key rests for the manager's cooldown. */
    method MarkRateLimited(key: string, model: string, cooldown: Option<real>) returns (ghost now: real)
      requires clock.Valid()
      modifies this, clock
      ensures old(clock.now) <= now == clock.now
      ensures cooldown.Some? ==> State() == AfterLimit(old(State()), key, model, now + cooldown.value)
      ensures cooldown.None? ==>
                State() == AfterLimit(old(State()), key, model, now + this.cooldown)
      ensures rateLimitedStats == old(rateLimitedStats)[key := Count(old(rateLimitedStats), key) + 1]
      ensures callStats == old(callStats) && modelCallStats == old(modelCallStats)
    {
      var penalty := if cooldown.Some? then cooldown.value else this.cooldown;
      var t := clock.Read();
      now := t;
      rateLimitedStats := rateLimitedStats[key := Count(rateLimitedStats, key) + 1];
      if model != "" {
        cooldownUntil := cooldownUntil[(key, model) := t + penalty];
      } else {
        keyCooldownUntil := keyCooldownUntil[key := t + penalty];
      }
    }
  }

  // ---- runs ----

  function Initial(keys: seq<string>): Pool {
    Pool(keys, map k | k in keys :: 0.0, map k | k in keys :: 0.0, map[])
  }

  /** One grant: the choice was made at `now`, and the key stamped at `stamp` after its pacing interval. */
  ghost predicate IsGrant(p: Pool, q: Pool, key: string, model: string, now: real, stamp: real, interval: real) {
    && p.keys != [] && now <= stamp
    && key == Choose(p, now, model)
    && p.LastUsed(key) + interval <= stamp
    && q == AfterGrant(p, key, stamp)
  }

  datatype Event = Grant(key: string, model: string, now: real, stamp: real)
                 | Limit(key: string, model: string, until: real)

  ghost predicate Step(p: Pool, e: Event, q: Pool, interval: real) {
    match e
    case Grant(key, model, now, stamp) => IsGrant(p, q, key, model, now, stamp, interval)
    case Limit(key, model, until) => q == AfterLimit(p, key, model, until)
  }

  /** Any finite history of the pool: grants for any models and rate-limit reports with any penalties. */
  ghost predicate Run(states: seq<Pool>, events: seq<Event>, interval: real) {
    && |states| == |events| + 1
    && forall i :: 0 <= i < |events| ==> Step(states[i], events[i], states[i + 1], interval)
  }

  /** A key's stamp is never older than any of its earlier grants. */
  lemma {:induction false} StampIsKept(states: seq<Pool>, events: seq<Event>, interval: real, i: nat, j: nat,
                                       key: string)
    requires Run(states, events, interval) && 0.0 <= interval
    requires i <= j < |states|
    ensures states[i].LastUsed(key) <= states[j].LastUsed(key)
    decreases j - i
  {
    if i < j {
      assert Step(states[i], events[i], states[i + 1], interval);
      StampIsKept(states, events, interval, i + 1, j, key);
    }
  }

  /** Pacing: two grants of one key are at least the interval apart, whatever happened in between. */
  lemma GrantsAreSpaced(states: seq<Pool>, events: seq<Event>, interval: real, i: nat, j: nat)
    requires Run(states, events, interval) && 0.0 <= interval
    requires i < j < |events| && events[i].Grant? && events[j].Grant? && events[i].key == events[j].key
    ensures events[i].stamp + interval <= events[j].stamp
  {
    assert Step(states[i], events[i], states[i + 1], interval);
    assert Step(states[j], events[j], states[j + 1], interval);
    StampIsKept(states, events, interval, i + 1, j, events[i].key);
  }

  /** The indices of the grants of one key. */
  ghost function GrantsOf(events: seq<Event>, key: string): seq<nat> {
    if events == [] then []
    else
      var n := |events| - 1;
      GrantsOf(events[..n], key) + if events[n].Grant? && events[n].key == key then [n] else []
  }

  lemma {:induction false} GrantIndices(events: seq<Event>, key: string)
    ensures forall x :: 0 <= x < |GrantsOf(events, key)| ==>
                          var g := GrantsOf(events, key)[x];
                          g < |events| && events[g].Grant? && events[g].key == key
    ensures forall x, y :: 0 <= x < y < |GrantsOf(events, key)| ==> GrantsOf(events, key)[x] < GrantsOf(events, key)[y]
    ensures forall i :: 0 <= i < |events| && events[i].Grant? && events[i].key == key ==> i in GrantsOf(events, key)
  {
    if events != [] {
      GrantIndices(events[..|events| - 1], key);
    }
  }

  lemma {:induction false} SpacingAddsUp(states: seq<Pool>, events: seq<Event>, interval: real, key: string,
                                         x: nat, y: nat)
    requires Run(states, events, interval) && 0.0 <= interval
    requires x <= y < |GrantsOf(events, key)|
    ensures (y - x) as real * interval <= StampOf(events, key, y) - StampOf(events, key, x)
    decreases y
  {
    GrantIndices(events, key);
    var g := GrantsOf(events, key);
    if x < y {
      SpacingAddsUp(states, events, interval, key, x, y - 1);
      GrantsAreSpaced(states, events, interval, g[y - 1], g[y]);
      hide Run, GrantsOf;
      OneMoreInterval(y - 1 - x, interval);
    }
  }

  lemma OneMoreInterval(n: int, interval: real)
    ensures (n + 1) as real * interval == n as real * interval + interval
  {
    assert (n + 1) as real == n as real + 1.0;
  }

  /** The stamp of the x-th grant of a key. */
  ghost function StampOf(events: seq<Event>, key: string, x: nat): real
    requires x < |GrantsOf(events, key)|
  {
    GrantIndices(events, key);
    events[GrantsOf(events, key)[x]].stamp
  }

  /** In any window of length w a key is granted at most w / interval + 1 times. */
  lemma WindowBound(states: seq<Pool>, events: seq<Event>, interval: real, key: string, x: nat, y: nat, w: real)
    requires Run(states, events, interval) && 0.0 < interval
    requires x <= y < |GrantsOf(events, key)| && StampOf(events, key, y) - StampOf(events, key, x) <= w
    ensures (y - x + 1) as real <= w / interval + 1.0
  {
    hide StampOf, GrantsOf, Run;
    SpacingAddsUp(states, events, interval, key, x, y);
    QuotientBound((y - x) as real, interval, w);
  }

  lemma QuotientBound(n: real, d: real, w: real)
    requires 0.0 < d && n * d <= w
    ensures n <= w / d
  {
    assert w / d * d == w;
    assert (w / d - n) * d >= 0.0;
  }

  // ---- fairness ----

  /** Only grants, from the initial state, by a clock that never runs backwards. */
  ghost predicate UnlimitedRun(states: seq<Pool>, events: seq<Event>, interval: real, keys: seq<string>) {
    && Run(states, events, interval) && 0.0 <= interval
    && states[0] == Initial(keys)
    && (forall i :: 0 <= i < |events| ==> events[i].Grant? && 0.0 <= events[i].now)
    && (forall i, j :: 0 <= i < j < |events| ==> events[i].stamp <= events[j].stamp)
  }

  ghost predicate NothingCools(p: Pool, keys: seq<string>) {
    && p.keys == keys && p.modelCooldown == map[]
    && forall k :: k in p.keyCooldown ==> p.keyCooldown[k] == 0.0
  }

  lemma {:induction false} NothingEverCools(states: seq<Pool>, events: seq<Event>, interval: real, keys: seq<string>,
                                            i: nat)
    requires UnlimitedRun(states, events, interval, keys) && i < |states|
    ensures NothingCools(states[i], keys)
  {
    if i > 0 {
      NothingEverCools(states, events, interval, keys, i - 1);
      assert Step(states[i - 1], events[i - 1], states[i], interval);
    }
  }

  /** While some key is out of its cooldowns the chosen one is too, and none of those has an older stamp; otherwise
      no key leaves its cooldowns earlier than the chosen one. */
  lemma ChoiceIsBest(p: Pool, now: real, model: string, k: string)
    requires k in p.keys
    ensures Choose(p, now, model) in p.keys
    ensures p.CoolUntil(k, model) <= now ==>
              p.CoolUntil(Choose(p, now, model), model) <= now && p.LastUsed(Choose(p, now, model)) <= p.LastUsed(k)
    ensures now < p.CoolUntil(Choose(p, now, model), model) ==>
              p.CoolUntil(Choose(p, now, model), model) <= p.CoolUntil(k, model)
  {
    var active := Available(p, p.keys, now, model);
    assert p.CoolUntil(k, model) <= now ==> k in active;
    assert active != [] ==> active[0] in active;
  }

  /** When the key was last granted before event q. */
  function Recent(events: seq<Event>, q: nat, key: string): real
    requires q <= |events| && forall i :: 0 <= i < q ==> events[i].Grant?
  {
    if q == 0 then 0.0 else if events[q - 1].key == key then events[q - 1].stamp else Recent(events, q - 1, key)
  }

  lemma {:induction false} RecentIsLastUsed(states: seq<Pool>, events: seq<Event>, interval: real, keys: seq<string>,
                                            q: nat, key: string)
    requires UnlimitedRun(states, events, interval, keys) && q < |states|
    ensures states[q].LastUsed(key) == Recent(events, q, key)
  {
    hide Choose;
    if q > 0 {
      RecentIsLastUsed(states, events, interval, keys, q - 1, key);
      assert Step(states[q - 1], events[q - 1], states[q], interval);
    }
  }

  /** The first q grants go through the keys in the order of the list, again and again. */
  ghost predicate InTurn(events: seq<Event>, keys: seq<string>, q: nat)
    requires keys != [] && q <= |events|
  {
    forall i :: 0 <= i < q ==> events[i].Grant? && events[i].key == keys[i % |keys|]
  }

  /** Where the k-th of n keys was last granted before event q, when they are granted in turn; negative for never. */
  function LastTurn(q: nat, n: nat, k: nat): (i: int)
    requires k < n
    ensures i < q
  {
    q - q % n + k - if k < q % n then 0 else n
  }

  /** The stamp of a grant, or that of a fresh key. */
  function StampAt(events: seq<Event>, i: int): real
    requires i < |events| && forall j :: 0 <= j < |events| ==> events[j].Grant?
  {
    if i < 0 then 0.0 else events[i].stamp
  }

  ghost predicate Rising(events: seq<Event>) {
    && (forall i :: 0 <= i < |events| ==> events[i].Grant? && 0.0 <= events[i].stamp)
    && (forall i, j :: 0 <= i < j < |events| ==> events[i].stamp <= events[j].stamp)
  }

  lemma StampsRise(events: seq<Event>, i: int, j: int)
    requires Rising(events) && i <= j < |events|
    ensures StampAt(events, i) <= StampAt(events, j)
  {
  }

  lemma NextTurn(q: nat, n: nat, k: nat)
    requires k < n
    ensures LastTurn(q + 1, n, k) == if k == q % n then q else LastTurn(q, n, k)
    ensures LastTurn(0, n, k) < 0 && LastTurn(q, n, q % n) == q - n
  {
    var r := q % n;
    if r + 1 < n {
      RemainderIs(q + 1, n, q / n, r + 1);
    } else {
      RemainderIs(q + 1, n, q / n + 1, 0);
    }
  }

  lemma RemainderIs(x: nat, n: nat, d: nat, r: nat)
    requires r < n && x == d * n + r
    ensures x % n == r
  {
    var e := d - x / n;
    assert e * n == x % n - r;
    MulAtLeast(e, n);
  }

  lemma MulAtLeast(e: int, n: nat)
    ensures (1 <= e ==> n <= e * n) && (e <= -1 ==> e * n + n <= 0)
  {
    if 1 <= e {
      assert 0 <= (e - 1) * n;
    } else if e <= -1 {
      assert (e + 1) * n <= 0;
    }
  }

  lemma {:induction false} RecentInTurn(events: seq<Event>, keys: seq<string>, q: nat, k: nat)
    requires k < |keys| && Distinct(keys) && q <= |events| && InTurn(events, keys, q)
    requires forall i :: 0 <= i < |events| ==> events[i].Grant?
    ensures Recent(events, q, keys[k]) == StampAt(events, LastTurn(q, |keys|, k))
  {
    if q == 0 {
      NextTurn(q, |keys|, k);
    } else {
      RecentInTurn(events, keys, q - 1, k);
      NextTurn(q - 1, |keys|, k);
      hide LastTurn;
    }
  }

  lemma {:induction false} FirstMinIs(keys: seq<string>, score: string -> real, r: nat)
    requires r < |keys|
    requires forall k :: 0 <= k < |keys| ==> score(keys[r]) <= score(keys[k])
    requires forall k :: 0 <= k < r ==> score(keys[r]) < score(keys[k])
    ensures FirstMin(keys, score) == keys[r]
  {
    var n := |keys| - 1;
    if n > 0 {
      if r < n {
        FirstMinIs(keys[..n], score, r);
      } else {
        assert FirstMin(keys[..n], score) in keys[..n];
      }
    }
  }

  lemma {:induction false} AllAvailable(p: Pool, keys: seq<string>, now: real, model: string)
    requires NothingCools(p, p.keys) && 0.0 <= now
    ensures Available(p, keys, now, model) == keys
  {
    if keys != [] {
      AllAvailable(p, keys[1..], now, model);
      assert keys == [keys[0]] + keys[1..];
    }
  }

  /** Nothing cools and the r-th key is the first of the least recently used ones: it is chosen. */
  lemma OldestIsChosen(p: Pool, now: real, model: string, r: nat)
    requires NothingCools(p, p.keys) && 0.0 <= now && r < |p.keys|
    requires forall k :: 0 <= k < |p.keys| ==> p.LastUsed(p.keys[r]) <= p.LastUsed(p.keys[k])
    requires forall k :: 0 <= k < r ==> p.LastUsed(p.keys[r]) < p.LastUsed(p.keys[k])
    ensures Choose(p, now, model) == p.keys[r]
  {
    AllAvailable(p, p.keys, now, model);
    FirstMinIs(p.keys, k => p.LastUsed(k), r);
  }

  /** The key whose turn it is at event q was stamped before the first key got its latest stamp. */
  predicate StampsPart(events: seq<Event>, n: nat, q: nat)
    requires 0 < n && q < |events| && forall i :: 0 <= i < |events| ==> events[i].Grant?
  {
    q % n == 0 || StampAt(events, q - n) < StampAt(events, q - q % n)
  }

  /** The key that comes next. */
  function Next(events: seq<Event>, n: nat, q: nat): nat
    requires 0 < n && q < |events| && forall i :: 0 <= i < |events| ==> events[i].Grant?
  {
    if StampsPart(events, n, q) then q % n else 0
  }

  lemma NextIsOldest(events: seq<Event>, n: nat, q: nat, k: nat)
    requires k < n && q < |events| && Rising(events)
    ensures var next := StampAt(events, LastTurn(q, n, Next(events, n, q)));
            && next <= StampAt(events, LastTurn(q, n, k))
            && (k < Next(events, n, q) ==> next < StampAt(events, LastTurn(q, n, k)))
  {
    TurnOrder(q, n, k);
    var start := q - q % n;
    hide LastTurn, StampAt, Rising;
    StampsRise(events, q - n, LastTurn(q, n, k));
    if k < q % n {
      StampsRise(events, start, LastTurn(q, n, k));
    }
  }

  /** The key in turn was granted before all others, and after it the first key. */
  lemma TurnOrder(q: nat, n: nat, k: nat)
    requires k < n
    ensures LastTurn(q, n, q % n) == q - n <= LastTurn(q, n, k)
    ensures 0 < q % n ==> LastTurn(q, n, 0) == q - q % n
    ensures k < q % n ==> q - q % n <= LastTurn(q, n, k)
  {
  }

  /** After grants in turn, the next key in turn is granted exactly when the stamps part; else it is the first again. */
  lemma NextInTurn(states: seq<Pool>, events: seq<Event>, interval: real, keys: seq<string>, q: nat)
    requires UnlimitedRun(states, events, interval, keys) && Distinct(keys) && keys != []
    requires q < |events| && InTurn(events, keys, q)
    ensures events[q].key == keys[Next(events, |keys|, q)]
  {
    var p, n, next := states[q], |keys|, Next(events, |keys|, q);
    assert Step(p, events[q], states[q + 1], interval);
    NothingEverCools(states, events, interval, keys, q);
    StampsAreRising(states, events, interval, keys);
    forall k | 0 <= k < n
      ensures p.LastUsed(keys[k]) == StampAt(events, LastTurn(q, n, k))
      ensures StampAt(events, LastTurn(q, n, next)) <= StampAt(events, LastTurn(q, n, k))
      ensures k < next ==> StampAt(events, LastTurn(q, n, next)) < StampAt(events, LastTurn(q, n, k))
    {
      hide Choose, NothingCools, Run, Recent, Next, StampsPart;
      RecentIsLastUsed(states, events, interval, keys, q, keys[k]);
      RecentInTurn(events, keys, q, k);
      NextIsOldest(events, n, q, k);
    }
    hide Choose, NothingCools, InTurn;
    OldestIsChosen(p, events[q].now, events[q].model, next);
  }

  lemma StampsAreRising(states: seq<Pool>, events: seq<Event>, interval: real, keys: seq<string>)
    requires UnlimitedRun(states, events, interval, keys)
    ensures Rising(events)
  {
    assert events != [] ==> Step(states[0], events[0], states[1], interval);
  }

  /** Any |keys| consecutive grants use pairwise different keys. */
  ghost predicate Rotates(events: seq<Event>, n: nat)
    requires forall i :: 0 <= i < |events| ==> events[i].Grant?
  {
    forall i, j :: 0 <= i < j < |events| && j - i < n ==> events[i].key != events[j].key
  }

  /** Round robin holds over a run exactly when no key shares its stamp with the next stamp of the first key. */
  lemma RotatesExactly(states: seq<Pool>, events: seq<Event>, interval: real, keys: seq<string>)
    requires UnlimitedRun(states, events, interval, keys) && Distinct(keys) && keys != []
    ensures Rotates(events, |keys|) <==> forall q :: 0 <= q < |events| ==> StampsPart(events, |keys|, q)
  {
    if Rotates(events, |keys|) {
      TurnsTaken(states, events, interval, keys, |events|);
    } else if forall q :: 0 <= q < |events| ==> StampsPart(events, |keys|, q) {
      TurnsTaken(states, events, interval, keys, |events|);
      var i, j :| 0 <= i < j < |events| && j - i < |keys| && events[i].key == events[j].key;
      TurnsDiffer(i, j, |keys|);
      assert false;
    }
  }

  lemma TurnsDiffer(i: nat, j: nat, n: nat)
    requires i < j < i + n
    ensures i % n != j % n
  {
    var e := j / n - i / n;
    assert i % n == j % n ==> j - i == e * n;
    MulAtLeast(e, n);
  }

  lemma {:induction false} TurnsTaken(states: seq<Pool>, events: seq<Event>, interval: real, keys: seq<string>, q: nat)
    requires UnlimitedRun(states, events, interval, keys) && Distinct(keys) && keys != [] && q <= |events|
    requires Rotates(events, |keys|) || forall i :: 0 <= i < |events| ==> StampsPart(events, |keys|, i)
    ensures InTurn(events, keys, q) && forall i :: 0 <= i < q ==> StampsPart(events, |keys|, i)
  {
    if q > 0 {
      TurnsTaken(states, events, interval, keys, q - 1);
      NextInTurn(states, events, interval, keys, q - 1);
      RoundStarts(q - 1, |keys|);
      hide UnlimitedRun, StampAt;
    }
  }

  lemma RoundStarts(q: nat, n: nat)
    requires 0 < n
    ensures 0 <= q - q % n && (q - q % n) % n == 0
  {
    RemainderIs(q - q % n, n, q / n, 0);
  }

  /** With strictly rising stamps the keys take turns. */
  lemma ConsecutiveGrantsDiffer(states: seq<Pool>, events: seq<Event>, interval: real, keys: seq<string>,
                                i: nat, j: nat)
    requires UnlimitedRun(states, events, interval, keys) && Distinct(keys)
    requires forall x :: 0 <= x < |events| ==> 0.0 < events[x].stamp
    requires forall x, y :: 0 <= x < y < |events| ==> events[x].stamp < events[y].stamp
    requires i < j < |events| && j - i < |keys|
    ensures events[i].key != events[j].key
  {
    RotatesExactly(states, events, interval, keys);
    forall q | 0 <= q < |events|
      ensures StampsPart(events, |keys|, q)
    {
      RoundStarts(q, |keys|);
      hide UnlimitedRun;
      assert q % |keys| < |keys|;
    }
    hide UnlimitedRun, StampsPart;
  }

  /** Whatever the interval, equal stamps can break the rotation: ties go to the first key. */
  lemma EqualStampsBreakRotation(interval: real) returns (states: seq<Pool>, events: seq<Event>)
    requires 0.0 <= interval
    ensures UnlimitedRun(states, events, interval, ["a", "b"]) && !Rotates(events, 2)
  {
    hide Choose;
    var start := 1.0 + interval;
    var tie, later := start + interval, start + interval + interval;
    var p0 := Initial(["a", "b"]);
    var p1 := AfterGrant(p0, "a", start);
    var p2 := AfterGrant(p1, "b", tie);
    var p3 := AfterGrant(p2, "a", tie);
    var p4 := AfterGrant(p3, "a", later);
    TwoKeys(p0, start);
    TwoKeys(p1, tie);
    TwoKeys(p2, tie);
    TwoKeys(p3, tie);
    states := [p0, p1, p2, p3, p4];
    events := [Grant("a", "", start, start), Grant("b", "", tie, tie), Grant("a", "", tie, tie),
               Grant("a", "", tie, later)];
    assert Step(p0, events[0], p1, interval) && Step(p1, events[1], p2, interval)
           && Step(p2, events[2], p3, interval) && Step(p3, events[3], p4, interval);
    assert events[2].key == events[3].key;
  }

  lemma TwoKeys(p: Pool, now: real)
    requires p.keys == ["a", "b"] && NothingCools(p, p.keys) && 0.0 <= now
    ensures Choose(p, now, "") == if p.LastUsed("b") < p.LastUsed("a") then "b" else "a"
  {
    OldestIsChosen(p, now, "", if p.LastUsed("b") < p.LastUsed("a") then 1 else 0);
  }
}
