/** The in-process limit on failed admin logins: a sliding window per address, in a table of bounded size. */
module LoginLimiter {
  import opened Common

  const CAPACITY: nat := 4096

  /** A network address. */
  type Address = nat

  predicate Sorted(stamps: seq<int>) {
    forall i, j :: 0 <= i < j < |stamps| ==> stamps[i] <= stamps[j]
  }

  /** The stamps still inside the window at time `t`. */
  function Recent(stamps: seq<int>, t: int, window: int): (r: seq<int>)
    ensures |r| <= |stamps|
    ensures forall s :: s in r <==> s in stamps && t - s < window
  {
    if stamps == [] then []
    else
      var rest := Recent(stamps[1..], t, window);
      assert forall s :: s in stamps <==> s == stamps[0] || s in stamps[1..];
      if t - stamps[0] < window then [stamps[0]] + rest else rest
  }

  lemma {:induction false} RecentSkips(stamps: seq<int>, k: nat, t: int, window: int)
    requires k <= |stamps| && forall i :: 0 <= i < k ==> t - stamps[i] >= window
    ensures Recent(stamps, t, window) == Recent(stamps[k..], t, window)
  {
    if k > 0 {
      RecentSkips(stamps[1..], k - 1, t, window);
      assert stamps[1..][k - 1..] == stamps[k..];
    } else {
      assert stamps[0..] == stamps;
    }
  }

  lemma {:induction false} RecentOfFresh(stamps: seq<int>, t: int, window: int)
    requires forall s <- stamps :: t - s < window
    ensures Recent(stamps, t, window) == stamps
  {
    if stamps != [] {
      assert stamps[0] in stamps && forall s <- stamps[1..] :: s in stamps;
      RecentOfFresh(stamps[1..], t, window);
    }
  }

  /** In a sorted list the window cuts off a prefix. */
  lemma {:induction false} RecentIsSuffix(stamps: seq<int>, t: int, window: int) returns (k: nat)
    requires Sorted(stamps)
    ensures k <= |stamps| && Recent(stamps, t, window) == stamps[k..]
    ensures forall i :: 0 <= i < k ==> t - stamps[i] >= window
  {
    if stamps == [] {
      k := 0;
    } else if t - stamps[0] < window {
      k := 0;
      forall s | s in stamps ensures t - s < window { var i :| 0 <= i < |stamps| && stamps[i] == s; }
      RecentOfFresh(stamps, t, window);
    } else {
      var j := RecentIsSuffix(stamps[1..], t, window);
      k := j + 1;
      assert stamps[1..][j..] == stamps[k..];
      forall i | 0 <= i < k ensures t - stamps[i] >= window { if i > 0 { assert stamps[i] == stamps[1..][i - 1]; } }
    }
  }

  /** What the table holds of an address's failures is the tail of all of them; what it lacks has left the window, or was
      dropped by an eviction at `dropped` or earlier. */
  ghost predicate Tail(kept: seq<int>, all: seq<int>, clock: int, window: int, dropped: Option<int>) {
    && |kept| <= |all| && kept == all[|all| - |kept|..]
    && forall i :: 0 <= i < |all| - |kept| ==>
         clock - all[i] >= window || (dropped.Some? && all[i] <= dropped.value)
  }

  /** No eviction of the address that could still matter. */
  predicate Undisturbed(dropped: Option<int>, t: int, window: int) {
    dropped.None? || t - dropped.value >= window
  }

  lemma TailCounts(kept: seq<int>, all: seq<int>, clock: int, window: int, dropped: Option<int>, t: int)
    requires Tail(kept, all, clock, window, dropped) && clock <= t
    ensures |Recent(kept, t, window)| <= |Recent(all, t, window)|
    ensures Undisturbed(dropped, t, window) ==> Recent(kept, t, window) == Recent(all, t, window)
  {
    var k := |all| - |kept|;
    RecentOfTail(all, k, t, window);
    if Undisturbed(dropped, t, window) { RecentSkips(all, k, t, window); }
  }

  lemma {:induction false} RecentOfTail(stamps: seq<int>, k: nat, t: int, window: int)
    requires k <= |stamps|
    ensures |Recent(stamps[k..], t, window)| <= |Recent(stamps, t, window)|
  {
    if k > 0 {
      RecentOfTail(stamps[1..], k - 1, t, window);
      assert stamps[1..][k - 1..] == stamps[k..];
    } else {
      assert stamps[0..] == stamps;
    }
  }

  function Get<T>(m: map<Address, seq<T>>, k: Address): seq<T> {
    if k in m then m[k] else []
  }

  function Lookup(m: map<Address, int>, k: Address): Option<int> {
    if k in m then Some(m[k]) else None
  }

  /* ---------- the exact history and the table ---------- */

  type Table = map<Address, seq<int>>

  /** The time of the last call, every failure of an address since it was last cleared, and when a live entry of it was
      last evicted. */
  datatype History = History(clock: int, failures: Table, evictions: map<Address, int>)

  ghost predicate AddressOk(attempts: Table, h: History, window: int, a: Address) {
    && (a in attempts ==> attempts[a] != [])
    && Sorted(Get(h.failures, a))
    && (forall s <- Get(h.failures, a) :: s <= h.clock)
    && Tail(Get(attempts, a), Get(h.failures, a), h.clock, window, Lookup(h.evictions, a))
  }

  ghost predicate Ok(attempts: Table, h: History, window: int) {
    forall a: Address :: AddressOk(attempts, h, window, a)
  }

  lemma AdvanceKeepsOk(attempts: Table, h: History, window: int, now: int)
    requires Ok(attempts, h, window) && h.clock <= now
    ensures Ok(attempts, h.(clock := now), window)
  {
    forall a: Address ensures AddressOk(attempts, h.(clock := now), window, a) { assert AddressOk(attempts, h, window, a); }
  }

  predicate Expired(stamps: seq<int>, now: int, window: int) {
    stamps == [] || now - stamps[|stamps| - 1] >= window
  }

  /** What the table and the history say about one address. */
  lemma AddressStays(attempts: Table, h: History, attempts': Table, h': History, window: int, a: Address)
    requires AddressOk(attempts, h, window, a) && h'.clock == h.clock
    requires (a in attempts' <==> a in attempts) && Get(attempts', a) == Get(attempts, a)
    requires Get(h'.failures, a) == Get(h.failures, a) && Lookup(h'.evictions, a) == Lookup(h.evictions, a)
    ensures AddressOk(attempts', h', window, a)
  {
    hide Tail, Sorted;
  }

  /** An expired list holds nothing that is still in the window, so all of the history may be missing from the table. */
  lemma ExpiredTail(kept: seq<int>, all: seq<int>, clock: int, window: int, dropped: Option<int>)
    requires Tail(kept, all, clock, window, dropped) && Sorted(all) && kept != [] && Expired(kept, clock, window)
    ensures Tail([], all, clock, window, dropped)
  {
    assert kept[|kept| - 1] == all[|all| - 1];
    forall i | 0 <= i < |all| ensures clock - all[i] >= window { assert all[i] <= all[|all| - 1]; }
  }

  /** Dropping an entry whose last stamp has left the window loses nothing, now or later. */
  lemma DropExpiredKeepsOk(attempts: Table, attempts': Table, h: History, window: int)
    requires Ok(attempts, h, window)
    requires forall a <- attempts' :: a in attempts && attempts'[a] == attempts[a]
    requires forall a <- attempts :: a in attempts' || Expired(attempts[a], h.clock, window)
    ensures Ok(attempts', h, window)
  {
    hide Expired, Tail, Sorted;
    forall a: Address ensures AddressOk(attempts', h, window, a) {
      assert AddressOk(attempts, h, window, a);
      if a in attempts && a !in attempts' {
        ExpiredTail(attempts[a], Get(h.failures, a), h.clock, window, Lookup(h.evictions, a));
      } else {
        AddressStays(attempts, h, attempts', h, window, a);
      }
    }
  }

  lemma EvictKeepsOk(attempts: Table, h: History, window: int, victim: Address)
    requires Ok(attempts, h, window)
    ensures Ok(attempts - {victim}, h.(evictions := h.evictions[victim := h.clock]), window)
  {
    hide AddressOk;
    var h' := h.(evictions := h.evictions[victim := h.clock]);
    forall a: Address ensures AddressOk(attempts - {victim}, h', window, a) {
      assert AddressOk(attempts, h, window, a);
      if a == victim {
        VictimIsOk(attempts, h, window, victim);
      } else {
        AddressStays(attempts, h, attempts - {victim}, h', window, a);
      }
    }
  }

  lemma VictimIsOk(attempts: Table, h: History, window: int, victim: Address)
    requires AddressOk(attempts, h, window, victim)
    ensures AddressOk(attempts - {victim}, h.(evictions := h.evictions[victim := h.clock]), window, victim)
  {
    EvictedTail(Get(h.failures, victim), h, window, victim);
    hide Tail, Sorted;
    assert Get(attempts - {victim}, victim) == [];
  }

  lemma EvictedTail(all: seq<int>, h: History, window: int, victim: Address)
    requires all == Get(h.failures, victim) && forall s <- all :: s <= h.clock
    ensures Tail([], all, h.clock, window, Some(h.clock))
  {
    forall i | 0 <= i < |all| ensures all[i] <= h.clock { assert all[i] in all; }
  }

  lemma AddedSorts(all: seq<int>, now: int, record: bool)
    requires Sorted(all) && forall s <- all :: s <= now
    ensures Sorted(all + if record then [now] else [])
  {
    var all' := all + if record then [now] else [];
    forall i, j | 0 <= i < j < |all'| ensures all'[i] <= all'[j] {
      if j == |all| { assert all[i] in all; }
    }
  }

  lemma TailSorts(all: seq<int>, n: nat)
    requires Sorted(all) && n <= |all|
    ensures Sorted(all[n..])
  {
  }

  /** Leaving out the first `k` of the kept stamps, if they have left the window. */
  lemma ShorterTail(kept: seq<int>, all: seq<int>, now: int, window: int, dropped: Option<int>, k: nat)
    requires Tail(kept, all, now, window, dropped) && k <= |kept| && forall i :: 0 <= i < k ==> now - kept[i] >= window
    ensures Tail(kept[k..], all, now, window, dropped)
  {
    var n := |all| - |kept|;
    assert kept[k..] == all[n + k..];
    forall i | 0 <= i < n + k ensures now - all[i] >= window || (dropped.Some? && all[i] <= dropped.value) {
      if i >= n { assert all[i] == kept[i - n]; }
    }
  }

  lemma LongerTail(kept: seq<int>, all: seq<int>, now: int, window: int, dropped: Option<int>, added: seq<int>)
    requires Tail(kept, all, now, window, dropped)
    ensures Tail(kept + added, all + added, now, window, dropped)
  {
    var n := |all| - |kept|;
    assert (all + added)[n..] == all[n..] + added;
    forall i | 0 <= i < n ensures (all + added)[i] == all[i] {}
  }

  /** The pruned list, with a failure recorded, is again the tail of all failures. */
  lemma RecordedTail(kept: seq<int>, all: seq<int>, now: int, window: int, dropped: Option<int>, record: bool)
    requires Tail(kept, all, now, window, dropped) && Sorted(all) && forall s <- all :: s <= now
    ensures var added := if record then [now] else [];
            Tail(Recent(kept, now, window) + added, all + added, now, window, dropped) && Sorted(all + added)
  {
    TailSorts(all, |all| - |kept|);
    var k := RecentIsSuffix(kept, now, window);
    ShorterTail(kept, all, now, window, dropped, k);
    hide Tail, Sorted, Recent;
    AddedSorts(all, now, record);
    LongerTail(kept[k..], all, now, window, dropped, if record then [now] else []);
  }

  function Put(m: Table, k: Address, stamps: seq<int>): Table {
    if stamps == [] then m - {k} else m[k := stamps]
  }

  function Recorded(h: History, ip: Address, now: int, record: bool): History {
    if record then h.(failures := h.failures[ip := Get(h.failures, ip) + [now]]) else h
  }

  lemma RecordKeepsOk(attempts: Table, h: History, window: int, ip: Address, record: bool)
    requires Ok(attempts, h, window)
    ensures var added := if record then [h.clock] else [];
            Ok(Put(attempts, ip, Recent(Get(attempts, ip), h.clock, window) + added),
               Recorded(h, ip, h.clock, record), window)
  {
    hide AddressOk, Recent;
    var added := if record then [h.clock] else [];
    var recent := Recent(Get(attempts, ip), h.clock, window) + added;
    var attempts', h' := Put(attempts, ip, recent), Recorded(h, ip, h.clock, record);
    forall a: Address ensures AddressOk(attempts', h', window, a) {
      assert AddressOk(attempts, h, window, a);
      if a == ip {
        RecordedIsOk(attempts, h, window, ip, record);
      } else {
        AddressStays(attempts, h, attempts', h', window, a);
      }
    }
  }

  lemma RecordedIsOk(attempts: Table, h: History, window: int, ip: Address, record: bool)
    requires AddressOk(attempts, h, window, ip)
    ensures var added := if record then [h.clock] else [];
            AddressOk(Put(attempts, ip, Recent(Get(attempts, ip), h.clock, window) + added),
                      Recorded(h, ip, h.clock, record), window, ip)
  {
    RecordedTail(Get(attempts, ip), Get(h.failures, ip), h.clock, window, Lookup(h.evictions, ip), record);
    hide Tail, Sorted, Recent;
    var added := if record then [h.clock] else [];
    var recent := Recent(Get(attempts, ip), h.clock, window) + added;
    assert Get(Recorded(h, ip, h.clock, record).failures, ip) == Get(h.failures, ip) + added;
    assert Get(Put(attempts, ip, recent), ip) == recent;
  }

  lemma ItsAddressIsOk(attempts: Table, h: History, window: int, a: Address)
    requires Ok(attempts, h, window)
    ensures AddressOk(attempts, h, window, a)
  {
  }

  lemma ClearKeepsOk(attempts: Table, h: History, window: int, ip: Address)
    requires Ok(attempts, h, window)
    ensures Ok(attempts - {ip}, h.(failures := h.failures - {ip}, evictions := h.evictions - {ip}), window)
  {
    var h' := h.(failures := h.failures - {ip}, evictions := h.evictions - {ip});
    forall a: Address ensures AddressOk(attempts - {ip}, h', window, a) {
      assert AddressOk(attempts, h, window, a);
    }
  }

  lemma FewerKeys(m: Table, m': Table)
    requires m'.Keys <= m.Keys
    ensures |m'| <= |m|
    ensures (exists k <- m :: k !in m') ==> |m'| < |m|
  {
    SubsetIsSmaller(m'.Keys, m.Keys);
  }

  lemma NewKey(m: Table, k: Address, stamps: seq<int>)
    requires k in m || |m| < CAPACITY || stamps == []
    requires |m| <= CAPACITY
    ensures |Put(m, k, stamps)| <= CAPACITY
  {
    if stamps == [] {
      FewerKeys(m, m - {k});
    } else if k in m {
      assert m[k := stamps].Keys == m.Keys;
    } else {
      assert m[k := stamps].Keys == m.Keys + {k};
    }
  }

  /** The last failure of an address. */
  function Last(stamps: seq<int>): int {
    if stamps == [] then 0 else stamps[|stamps| - 1]
  }

  /** The address is the only one to go, and no other's last failure is older. */
  predicate EvictedAlone(m: Table, m': Table, a: Address)
    requires a in m
  {
    m' == m - {a} && forall b <- m :: Last(m[a]) <= Last(m[b])
  }

  /* ---------- the limiter ---------- */

  class AdminLoginLimiter {
    const window: int
    const maximum: int
    var attempts: Table
    ghost var history: History

    ghost predicate Valid()
      reads this
    {
      |attempts| <= CAPACITY && Ok(attempts, history, window)
    }

    constructor (window: int, maximum: int, start: int)
      ensures Valid() && this.window == window && this.maximum == maximum && history == History(start, map[], map[])
    {
      this.window, this.maximum := window, maximum;
      attempts, history := map[], History(start, map[], map[]);
    }

    method RemoveExpired(now: int)
      requires Valid() && now == history.clock
      modifies this`attempts
      ensures Valid() && |attempts| <= |old(attempts)|
      ensures forall a <- attempts :: a in old(attempts) && attempts[a] == old(attempts)[a]
      ensures |attempts| == |old(attempts)| ==>
                attempts == old(attempts) && forall a <- attempts :: !Expired(attempts[a], now, window)
      ensures forall a <- old(attempts) :: a in attempts || Expired(old(attempts)[a], now, window)
      ensures forall a <- old(attempts) ::
                (a in attempts <==> old(attempts)[a] != [] && now - Last(old(attempts)[a]) < window)
    {
      var live := map a <- attempts | !Expired(attempts[a], now, window) :: attempts[a];
      DropExpiredKeepsOk(attempts, live, history, window);
      FewerKeys(attempts, live);
      attempts := live;
    }

    /** Frees a place: expired entries go first; if there is none, the entry with the oldest last failure goes. */
    method MakeRoom(now: int)
      requires Valid() && now == history.clock && |attempts| >= CAPACITY
      modifies this
      ensures Valid() && |attempts| < CAPACITY
      ensures history == old(history).(evictions := history.evictions)
      ensures forall a <- attempts :: a in old(attempts)
      ensures forall a: Address :: Lookup(history.evictions, a) != Lookup(old(history.evictions), a) ==> a in old(attempts)
      ensures history != old(history) ==> forall a <- old(attempts) :: !Expired(old(attempts)[a], now, window)
      ensures forall a <- attempts :: attempts[a] == old(attempts)[a]
      ensures forall a <- old(attempts) :: a in attempts || Expired(old(attempts)[a], now, window)
                                          || EvictedAlone(old(attempts), attempts, a)
      ensures forall a <- attempts :: attempts[a] != [] && now - Last(attempts[a]) < window
    {
      RemoveExpired(now);
      if |attempts| >= CAPACITY {
        var victim := Oldest(attempts);
        EvictKeepsOk(attempts, history, window, victim);
        history := history.(evictions := history.evictions[victim := now]);
        FewerKeys(attempts, attempts - {victim});
        attempts := attempts - {victim};
      }
    }

    /** Answers for one address, after recording a failure if asked to.

        The answer compares the failures of the address within the window since it was last cleared, and the one just
        made, with the maximum. It is exact unless a live entry of the address was evicted within the last window, and
        never stricter than exact. An eviction happens only when the table is full of live entries of other addresses. */
    method RateLimited(ip: Address, now: int, recordFailure: bool) returns (limited: bool)
      requires Valid() && history.clock <= now
      modifies this
      ensures Valid()
      ensures history == Recorded(old(history), ip, now, recordFailure).(clock := now, evictions := history.evictions)
      ensures var exact := |Recent(Get(old(history).failures, ip), now, window)| + (if recordFailure then 1 else 0) >= maximum;
              && (limited ==> exact)
              && (Undisturbed(Lookup(history.evictions, ip), now, window) ==> limited == exact)
      ensures forall a: Address :: Lookup(history.evictions, a) != Lookup(old(history).evictions, a) ==>
                a != ip && recordFailure && ip !in old(attempts) && |old(attempts)| == CAPACITY
      ensures history.evictions != old(history).evictions ==>
                forall a <- old(attempts) :: !Expired(old(attempts)[a], now, window)
    {
      hide Ok, Tail, Sorted, Recent, Expired;
      AdvanceKeepsOk(attempts, history, window, now);
      history := history.(clock := now);
      if recordFailure && ip !in attempts && |attempts| >= CAPACITY { MakeRoom(now); }
      ItsAddressIsOk(attempts, history, window, ip);
      TailCounts(Get(attempts, ip), Get(history.failures, ip), now, window, Lookup(history.evictions, ip), now);
      var count := PruneAndRecord(ip, now, recordFailure);
      limited := count >= maximum;
    }

    /** Leaves the stamps inside the window, and the new one, under the address. */
    method PruneAndRecord(ip: Address, now: int, recordFailure: bool) returns (count: nat)
      requires Valid() && now == history.clock
      requires ip in attempts || |attempts| < CAPACITY || !recordFailure
      modifies this
      ensures Valid() && history == Recorded(old(history), ip, now, recordFailure)
      ensures count == |Recent(Get(old(attempts), ip), now, window)| + if recordFailure then 1 else 0
    {
      hide Ok;
      RecordKeepsOk(attempts, history, window, ip, recordFailure);
      var recent := Recent(Get(attempts, ip), now, window);
      assert recent + [] == recent;
      if recordFailure { recent := recent + [now]; }
      assert ip !in attempts && !recordFailure ==> recent == [];
      NewKey(attempts, ip, recent);
      history := Recorded(history, ip, now, recordFailure);
      if recent != [] { attempts := attempts[ip := recent]; } else { attempts := attempts - {ip}; }
      count := |recent|;
    }

    method ClearFailures(ip: Address)
      requires Valid()
      modifies this
      ensures Valid()
      ensures history == old(history).(failures := old(history).failures - {ip}, evictions := old(history).evictions - {ip})
    {
      ClearKeepsOk(attempts, history, window, ip);
      FewerKeys(attempts, attempts - {ip});
      attempts := attempts - {ip};
      history := history.(failures := history.failures - {ip}, evictions := history.evictions - {ip});
    }
  }

  /** The key whose last stamp is smallest. */
  method Oldest(m: Table) returns (oldest: Address)
    requires m != map[] && forall a <- m :: m[a] != []
    ensures oldest in m && forall a <- m :: m[oldest][|m[oldest]| - 1] <= m[a][|m[a]| - 1]
  {
    var left := m.Keys;
    oldest :| oldest in left;
    left := left - {oldest};
    while left != {}
      invariant left <= m.Keys && oldest in m
      invariant forall a <- m :: a in left || m[oldest][|m[oldest]| - 1] <= m[a][|m[a]| - 1]
      decreases left
    {
      var a :| a in left;
      if m[a][|m[a]| - 1] < m[oldest][|m[oldest]| - 1] { oldest := a; }
      left := left - {a};
    }
  }
}
