// Reverse lookups of local addresses: one shared cache, at most one lookup in
// flight per address and a bounded number in all. Callers and lookups run
// concurrently; each critical section is one step, and the return of a slot
// happens outside the lock, at any moment.

module PtrLookups {
  import opened Types

  type Address = nat
  type Name = string
  type Raw = string
  type Lookup = nat

  const MAX_CACHE := 4096

  datatype Entry = Entry(name: Name, expires: int)

  // A lookup in flight: its result and how often its done channel was closed.
  datatype Flight = Flight(address: Address, name: Name, closed: nat)

  type Cache = map<Address, Entry>

  // Everything still valid at the given time.
  function Pruned(cache: Cache, now: int): Cache { map a | a in cache && now < cache[a].expires :: cache[a] }

  predicate Holds(cache: Cache, a: Address, now: int) { a in cache && now < cache[a].expires }

  // What a lookup puts into the cache: a missing name for its own time.
  function Answer(name: Name, now: int, positiveTTL: nat, negativeTTL: nat): (e: Entry)
    ensures e.name == name
    ensures e.expires == now + if name == "" then negativeTTL else positiveTTL
  {
    var ttl := if name == "" then negativeTTL else positiveTTL;
    Entry(name, now + ttl)
  }

  ghost predicate Oldest(cache: Cache, a: Address) {
    a in cache && forall b | b in cache :: cache[a].expires <= cache[b].expires
  }

  // A full cache gives up an entry that expires first.
  ghost predicate Cached(before: Cache, after: Cache, a: Address, entry: Entry) {
    if a !in before && |before| >= MAX_CACHE then
      exists oldest: Address :: Oldest(before, oldest) && after == (before - {oldest})[a := entry]
    else after == before[a := entry]
  }

  // The lookup is the one in flight for its address.
  ghost predicate Live(inflight: map<Address, Lookup>, flights: map<Lookup, Flight>, id: Lookup) {
    id in flights && flights[id].address in inflight && inflight[flights[id].address] == id
  }

  // Each address in flight stands for a lookup of that address.
  ghost predicate Linked(inflight: map<Address, Lookup>, flights: map<Lookup, Flight>) {
    forall a | a in inflight :: inflight[a] in flights && flights[inflight[a]].address == a
  }

  // A channel is open exactly while its lookup is in flight, and is closed once
  // with an answer for the lookup's address.
  ghost predicate Published(inflight: map<Address, Lookup>, flights: map<Lookup, Flight>,
                            answered: set<(Address, Name)>) {
    forall id | id in flights ::
      if Live(inflight, flights, id) then flights[id].closed == 0
      else flights[id].closed == 1 && (flights[id].address, flights[id].name) in answered
  }

  ghost predicate Sound(cache: Cache, answered: set<(Address, Name)>) {
    |cache| <= MAX_CACHE && forall a | a in cache :: (a, cache[a].name) in answered
  }

  // Lookups are never forgotten and a published result never changes.
  ghost predicate Grows(before: map<Lookup, Flight>, after: map<Lookup, Flight>) {
    && (forall id | id in before :: id in after && after[id].address == before[id].address)
    && (forall id | id in before && before[id].closed == 1 :: after[id] == before[id])
  }

  ghost function Open(flights: map<Lookup, Flight>): set<Lookup> {
    set id | id in flights && flights[id].closed == 0
  }

  // No address has two open lookups, and there are no more open lookups than
  // entries in flight, each of which holds a slot.
  lemma OpenLookups(inflight: map<Address, Lookup>, flights: map<Lookup, Flight>, answered: set<(Address, Name)>)
    requires Linked(inflight, flights) && Published(inflight, flights, answered)
    ensures forall x, y | x in Open(flights) && y in Open(flights) && flights[x].address == flights[y].address :: x == y
    ensures |Open(flights)| <= |inflight|
  {
    forall id | id in Open(flights) ensures flights[id].address in inflight && inflight[flights[id].address] == id {
      assert Live(inflight, flights, id);
    }
    Covered(Open(flights), inflight);
  }

  lemma {:induction false} Covered(ids: set<Lookup>, inflight: map<Address, Lookup>)
    requires forall id | id in ids :: exists a :: a in inflight && inflight[a] == id
    ensures |ids| <= |inflight|
    decreases |ids|
  {
    if ids != {} {
      var id :| id in ids;
      var a :| a in inflight && inflight[a] == id;
      forall x | x in ids - {id} ensures exists b :: b in inflight - {a} && (inflight - {a})[b] == x {
        var b :| b in inflight && inflight[b] == x;
        assert b in inflight - {a};
      }
      Covered(ids - {id}, inflight - {a});
      Without(inflight, a);
    }
  }

  lemma GrowsOn(a: map<Lookup, Flight>, b: map<Lookup, Flight>, c: map<Lookup, Flight>)
    requires Grows(a, b) && Grows(b, c)
    ensures Grows(a, c)
  {
  }

  // Names of requested addresses that a name server gave.
  ghost predicate Known(names: map<Address, Name>, ordered: seq<Address>, answered: set<(Address, Name)>) {
    forall a | a in names :: a in ordered && names[a] != "" && (a, names[a]) in answered
  }

  // Lookups of requested addresses.
  ghost predicate Awaitable(pending: seq<(Address, Lookup)>, ordered: seq<Address>, flights: map<Lookup, Flight>) {
    forall i | 0 <= i < |pending| ::
      pending[i].0 in ordered && pending[i].1 in flights && flights[pending[i].1].address == pending[i].0
  }

  lemma AwaitableOn(pending: seq<(Address, Lookup)>, ordered: seq<Address>, a: map<Lookup, Flight>,
                    b: map<Lookup, Flight>)
    requires Awaitable(pending, ordered, a) && Grows(a, b)
    ensures Awaitable(pending, ordered, b)
  {
  }

  predicate Distinct(ordered: seq<Address>) { forall i, j | 0 <= i < j < |ordered| :: ordered[i] != ordered[j] }

  predicate DistinctAddresses(pending: seq<(Address, Lookup)>) {
    forall i, j | 0 <= i < j < |pending| :: pending[i].0 != pending[j].0
  }

  // Lookups that were under way for addresses without a cached name are waited
  // for, unless there are too many.
  ghost predicate Joined(ordered: seq<Address>, cache: Cache, inflight: map<Address, Lookup>, now: int,
                         pending: seq<(Address, Lookup)>, bound: nat) {
    |pending| == bound
    || forall a | a in ordered && a in inflight && !Holds(cache, a, now) :: (a, inflight[a]) in pending
  }

  // Names of addresses as a cache holds them, all of them.
  predicate FromCache(names: map<Address, Name>, ordered: seq<Address>, cache: Cache, now: int) {
    && (forall a | a in names :: a in ordered && CachedName(cache, a, now) && names[a] == cache[a].name)
    && (forall a | a in ordered && CachedName(cache, a, now) :: a in names)
  }

  predicate CachedName(cache: Cache, a: Address, now: int) { Holds(cache, a, now) && cache[a].name != "" }

  predicate Apart(pending: seq<(Address, Lookup)>, ordered: seq<Address>, cache: Cache, now: int) {
    forall i | 0 <= i < |pending| :: pending[i].0 in ordered && !Holds(cache, pending[i].0, now)
  }

  ghost predicate SameValid(a: Cache, b: Cache, now: int) {
    && (forall k | Holds(a, k, now) :: k in b && b[k] == a[k])
    && (forall k | Holds(b, k, now) :: Holds(a, k, now))
  }

  predicate NoneExpired(cache: Cache, now: int) { forall a | a in cache :: now < cache[a].expires }

  predicate Extends(a: map<Address, Lookup>, b: map<Address, Lookup>) {
    forall k | k in a :: k in b && b[k] == a[k]
  }

  // What a call has found for the addresses seen so far.
  ghost predicate Gathered(names: map<Address, Name>, pending: seq<(Address, Lookup)>, seen: seq<Address>,
                           cache: Cache, inflight: map<Address, Lookup>, now: int, bound: nat) {
    && FromCache(names, seen, cache, now) && |pending| <= bound
    && Joined(seen, cache, inflight, now, pending, bound) && Apart(pending, seen, cache, now)
    && (Distinct(seen) ==> DistinctAddresses(pending))
  }

  lemma GatheredStep(names: map<Address, Name>, pending: seq<(Address, Lookup)>, seen: seq<Address>, a: Address,
                     cache: Cache, inflight: map<Address, Lookup>, now: int, bound: nat, name: Name,
                     flight: Option<Lookup>, named: map<Address, Name>, awaited: seq<(Address, Lookup)>,
                     more: seq<Address>)
    requires named == (if name != "" then names[a := name] else names) && more == seen + [a]
    requires awaited == if flight.Some? then pending + [(a, flight.value)] else pending
    requires name == if Holds(cache, a, now) then cache[a].name else ""
    requires flight.Some? ==> |pending| < bound && !Holds(cache, a, now)
    requires !Holds(cache, a, now) && |pending| < bound && a in inflight ==> flight == Some(inflight[a])
    ensures Gathered(names, pending, seen, cache, inflight, now, bound) ==>
              Gathered(named, awaited, more, cache, inflight, now, bound)
  {
    if !Gathered(names, pending, seen, cache, inflight, now, bound) { return; }
    NamesStep(names, seen, a, cache, now, name);
    PendingStep(pending, seen, a, cache, inflight, now, bound, flight);
    if Distinct(seen + [a]) {
      assert forall i, j | 0 <= i < j < |seen| :: (seen + [a])[i] == seen[i] && (seen + [a])[j] == seen[j];
      assert forall i | 0 <= i < |seen| :: (seen + [a])[i] == seen[i] && (seen + [a])[|seen|] == a;
    }
  }

  lemma KnownFromCache(names: map<Address, Name>, ordered: seq<Address>, cache: Cache, now: int,
                       answered: set<(Address, Name)>)
    requires FromCache(names, ordered, cache, now) && Sound(cache, answered)
    ensures Known(names, ordered, answered)
  {
  }

  lemma StillValid(a: Cache, b: Cache, c: Cache, k: Address, now: int)
    requires SameValid(a, b, now) && (c == b || (c == b - {k} && !Holds(b, k, now)))
    ensures SameValid(a, c, now)
  {
  }

  lemma ExtendsOn(a: map<Address, Lookup>, b: map<Address, Lookup>, c: map<Address, Lookup>)
    requires Extends(a, b) && Extends(b, c)
    ensures Extends(a, c)
  {
  }

  lemma PrefixStep(ordered: seq<Address>, i: nat)
    requires i < |ordered|
    ensures ordered[..i + 1] == ordered[..i] + [ordered[i]]
  {
  }

  lemma NamesStep(names: map<Address, Name>, seen: seq<Address>, a: Address, cache: Cache, now: int, name: Name)
    requires FromCache(names, seen, cache, now) && name == if Holds(cache, a, now) then cache[a].name else ""
    ensures FromCache(if name != "" then names[a := name] else names, seen + [a], cache, now)
  {
  }

  lemma PendingStep(pending: seq<(Address, Lookup)>, seen: seq<Address>, a: Address, cache: Cache,
                    inflight: map<Address, Lookup>, now: int, bound: nat, flight: Option<Lookup>)
    requires Joined(seen, cache, inflight, now, pending, bound) && Apart(pending, seen, cache, now)
    requires |pending| <= bound && (flight.Some? ==> |pending| < bound && !Holds(cache, a, now))
    requires !Holds(cache, a, now) && |pending| < bound && a in inflight ==> flight == Some(inflight[a])
    ensures var next := if flight.Some? then pending + [(a, flight.value)] else pending;
      && Joined(seen + [a], cache, inflight, now, next, bound) && Apart(next, seen + [a], cache, now)
      && (a !in seen && DistinctAddresses(pending) ==> DistinctAddresses(next))
  {
    var next := if flight.Some? then pending + [(a, flight.value)] else pending;
    if |next| < bound {
      forall b | b in seen + [a] && b in inflight && !Holds(cache, b, now) ensures (b, inflight[b]) in next {
        if b != a { assert (b, inflight[b]) in pending; } else { assert next[|pending|] == (a, inflight[a]); }
      }
    }
  }

  class Resolver {
    const maxLookups: nat
    var cache: Cache
    var inflight: map<Address, Lookup>
    var slots: nat                    // slots taken
    var flights: map<Lookup, Flight>  // every lookup ever started
    var next: nat
    var leaving: nat                  // finished lookups that still hold their slot
    ghost var answered: set<(Address, Name)>  // what name servers answered

    ghost predicate Valid()
      reads this
    {
      && slots == |inflight| + leaving <= maxLookups
      && (forall id | id in flights :: id < next)
      && Linked(inflight, flights)
      && Published(inflight, flights, answered)
      && Sound(cache, answered)
    }

    // What any goroutine may do in the meantime.
    twostate predicate Progressed()
      reads this
    {
      Grows(old(flights), flights) && old(answered) <= answered
    }

    constructor (maxLookups: nat)
      ensures Valid() && this.maxLookups == maxLookups && cache == map[] && flights == map[]
    {
      this.maxLookups := maxLookups;
      cache, inflight, slots, flights, next := map[], map[], 0, map[], 0;
      leaving, answered := 0, {};
    }

    // ------------------------------------------------------------- the cache

    method PrunePTRCache(now: int)
      requires Valid()
      modifies this`cache
      ensures Valid() && cache == Pruned(old(cache), now)
      ensures forall a :: a in cache <==> a in old(cache) && now < old(cache)[a].expires
      ensures forall a | a in cache :: cache[a] == old(cache)[a]
    {
      Smaller(Pruned(cache, now), cache);
      cache := Pruned(cache, now);
    }

    // The entry that expires first.
    method FindOldest() returns (oldest: Address)
      requires cache != map[]
      ensures Oldest(cache, oldest)
    {
      var candidates := cache.Keys;
      oldest :| oldest in candidates;
      while candidates != {}
        invariant candidates <= cache.Keys && oldest in cache
        invariant forall a | a in cache && a !in candidates :: cache[oldest].expires <= cache[a].expires
        decreases |candidates|
      {
        var candidate :| candidate in candidates;
        if cache[candidate].expires < cache[oldest].expires { oldest := candidate; }
        candidates := candidates - {candidate};
      }
    }

    method CachePTR(a: Address, entry: Entry)
      requires |cache| <= MAX_CACHE
      modifies this`cache
      ensures Cached(old(cache), cache, a, entry) && |cache| <= MAX_CACHE
    {
      if a !in cache && |cache| >= MAX_CACHE {
        var oldest := FindOldest();
        Without(cache, oldest);
        cache := cache - {oldest};
      }
      cache := cache[a := entry];
    }

    method CacheAnswer(a: Address, entry: Entry)
      requires Sound(cache, answered)
      modifies this`cache, this`answered
      ensures Sound(cache, answered)
      ensures answered == old(answered) + {(a, entry.name)} && a in cache && cache[a] == entry
    {
      CachePTR(a, entry);
      CachedSound(old(cache), cache, a, entry, answered);
      answered := answered + {(a, entry.name)};
    }

    // ------------------------------------------------------------ the lookup

    // The locked end of a lookup: cache, publish, forget, close.
    method FinishLookup(id: Lookup, name: Name, now: int, positiveTTL: nat, negativeTTL: nat)
      requires Valid() && id in flights && flights[id].closed == 0
      modifies this
      ensures Valid() && Progressed()
      ensures flights == old(flights)[id := Flight(old(flights)[id].address, name, 1)]
      ensures var a := flights[id].address;
        && inflight == old(inflight) - {a}
        && a in cache && cache[a].name == name
        && cache[a].expires == now + if name == "" then negativeTTL else positiveTTL
      ensures slots == old(slots) && leaving == old(leaving) + 1
    {
      var flight := flights[id];
      var published := flight.(name := name, closed := flight.closed + 1);
      assert published == Flight(flight.address, name, 1);
      FinishState(inflight, flights, answered, id, name);
      CacheAnswer(flight.address, Answer(name, now, positiveTTL, negativeTTL));
      inflight := inflight - {flight.address};
      flights := flights[id := published];
      leaving := leaving + 1;
    }

    // The slot comes back after the lock was released.
    method ReleaseSlot()
      requires Valid() && leaving > 0
      modifies this`slots, this`leaving
      ensures Valid() && slots == old(slots) - 1 && leaving == old(leaving) - 1
    {
      slots, leaving := slots - 1, leaving - 1;
    }

    // Starts a lookup if a slot is free.
    method StartLookup(a: Address) returns (started: Option<Lookup>)
      requires Valid() && a !in inflight
      modifies this
      ensures Valid() && Progressed() && cache == old(cache) && answered == old(answered)
      ensures started.Some? <==> old(slots) < maxLookups
      ensures started.Some? ==> started.value in flights && flights[started.value].address == a
      ensures inflight == if started.Some? then old(inflight)[a := started.value] else old(inflight)
    {
      if slots >= maxLookups { return None; }
      var id := next;
      StartState(inflight, flights, answered, a, id);
      next, slots := next + 1, slots + 1;
      flights, inflight := flights[id := Flight(a, "", 0)], inflight[a := id];
      started := Some(id);
    }

    // Slots given back by lookups that ended meanwhile.
    method ReleaseSome()
      requires Valid()
      modifies this`slots, this`leaving
      ensures Valid() && slots <= old(slots)
    {
      while leaving > 0
        invariant Valid() && slots <= old(slots)
      {
        var another: bool := *;
        if !another { return; }
        ReleaseSlot();
      }
    }

    // ------------------------------------------------------------ the callers

    // One address of a call: its cached name, or else the lookup to wait for.
    method Visit(a: Address, now: int, full: bool, servers: bool, alive: bool)
      returns (name: Name, flight: Option<Lookup>)
      requires Valid()
      modifies this
      ensures Valid() && Progressed() && answered == old(answered)
      ensures name != "" ==> (a, name) in answered
      ensures if Holds(old(cache), a, now) then name == old(cache)[a].name && flight.None? else name == ""
      // Only a lookup under way is joined, and only with a free slot one starts.
      ensures !Holds(old(cache), a, now) && !full && a in old(inflight) ==> flight == Some(old(inflight)[a])
      ensures !Holds(old(cache), a, now) && !full && a !in old(inflight) ==>
                && (flight.Some? ==> servers && alive)
                && (servers && alive && old(slots) < maxLookups ==> flight.Some?)
      ensures cache == if Holds(old(cache), a, now) then old(cache) else old(cache) - {a}
      ensures Extends(old(inflight), inflight)
      ensures flight.Some? ==> !full && flight.value in flights && flights[flight.value].address == a
    {
      ReleaseSome();
      name, flight := "", None;
      if a in cache && now < cache[a].expires { return cache[a].name, None; }
      Drop(a);
      if full { return; }
      if a in inflight { return "", Some(inflight[a]); }
      if servers && alive { flight := StartLookup(a); }
    }

    // The locked part of a call: cached names, and the lookups to wait for.
    method Begin(now: int, ordered: seq<Address>, servers: bool)
      returns (names: map<Address, Name>, pending: seq<(Address, Lookup)>)
      requires Valid()
      modifies this
      ensures Valid() && Progressed() && answered == old(answered)
      ensures Known(names, ordered, answered)
      ensures |pending| <= maxLookups && Awaitable(pending, ordered, flights)
      // The names are those of the cache, and what is under way for the other
      // addresses is waited for, up to the bound.
      ensures Gathered(names, pending, ordered, old(cache), old(inflight), now, maxLookups)
      ensures NoneExpired(cache, now)
    {
      ghost var cache0, inflight0 := cache, inflight;
      PrunePTRCache(now);
      names, pending := GatherAll(now, ordered, servers, cache0, inflight0);
      KnownFromCache(names, ordered, cache0, now, answered);
    }

    method GatherAll(now: int, ordered: seq<Address>, servers: bool, ghost cache0: Cache,
                     ghost inflight0: map<Address, Lookup>)
      returns (names: map<Address, Name>, pending: seq<(Address, Lookup)>)
      requires Valid() && Continues(cache0, inflight0, now)
      modifies this
      ensures Valid() && Progressed() && answered == old(answered)
      ensures Awaitable(pending, ordered, flights) && Continues(cache0, inflight0, now)
      ensures Gathered(names, pending, ordered, cache0, inflight0, now, maxLookups)
    {
      names, pending := map[], [];
      ghost var seen: seq<Address> := [];
      for i := 0 to |ordered|
        invariant Valid() && Grows(old(flights), flights) && answered == old(answered)
        invariant Awaitable(pending, ordered, flights) && Continues(cache0, inflight0, now)
        invariant seen == ordered[..i]
        invariant Gathered(names, pending, seen, cache0, inflight0, now, maxLookups)
      {
        ghost var before := flights;
        names, pending := Gather(names, pending, ordered[i], now, servers, ordered, seen, cache0, inflight0);
        GrowsOn(old(flights), before, flights);
        PrefixStep(ordered, i);
        seen := seen + [ordered[i]];
      }
      assert seen == ordered by { assert ordered[..|ordered|] == ordered; }
    }

    // Nothing valid was dropped or added, and no lookup under way ended.
    ghost predicate Continues(cache0: Cache, inflight0: map<Address, Lookup>, now: int)
      reads this
    {
      SameValid(cache0, cache, now) && Extends(inflight0, inflight) && NoneExpired(cache, now)
    }

    method VisitGathering(a: Address, now: int, full: bool, servers: bool, alive: bool, ghost cache0: Cache,
                          ghost inflight0: map<Address, Lookup>)
      returns (name: Name, flight: Option<Lookup>)
      requires Valid() && Continues(cache0, inflight0, now)
      modifies this
      ensures Valid() && Progressed() && answered == old(answered) && Continues(cache0, inflight0, now)
      ensures name == if Holds(cache0, a, now) then cache0[a].name else ""
      ensures flight.Some? ==> !full && !Holds(cache0, a, now)
      ensures flight.Some? ==> flight.value in flights && flights[flight.value].address == a
      ensures !Holds(cache0, a, now) && !full && a in inflight0 ==> flight == Some(inflight0[a])
    {
      ghost var cache1, inflight1 := cache, inflight;
      assert Holds(cache0, a, now) == Holds(cache1, a, now);
      name, flight := Visit(a, now, full, servers, alive);
      StillValid(cache0, cache1, cache, a, now);
      ExtendsOn(inflight0, inflight1, inflight);
    }

    method Gather(names: map<Address, Name>, pending: seq<(Address, Lookup)>, a: Address, now: int, servers: bool,
                  ghost ordered: seq<Address>, ghost seen: seq<Address>, ghost cache0: Cache,
                  ghost inflight0: map<Address, Lookup>)
      returns (named: map<Address, Name>, awaited: seq<(Address, Lookup)>)
      requires Valid() && a in ordered
      requires Awaitable(pending, ordered, flights) && Continues(cache0, inflight0, now)
      requires Gathered(names, pending, seen, cache0, inflight0, now, maxLookups)
      modifies this
      ensures Valid() && Progressed() && answered == old(answered)
      ensures Awaitable(awaited, ordered, flights) && Continues(cache0, inflight0, now)
      ensures Gathered(named, awaited, seen + [a], cache0, inflight0, now, maxLookups)
    {
      var alive: bool := *;
      var name, flight := VisitGathering(a, now, |pending| >= maxLookups, servers, alive, cache0, inflight0);
      named := if name != "" then names[a := name] else names;
      awaited := if flight.Some? then pending + [(a, flight.value)] else pending;
      assert Gathered(named, awaited, seen + [a], cache0, inflight0, now, maxLookups) by {
        GatheredStep(names, pending, seen, a, cache0, inflight0, now, maxLookups, name, flight,
                     named, awaited, seen + [a]);
      }
      assert Awaitable(awaited, ordered, flights) by { AwaitableOn(pending, ordered, old(flights), flights); }
    }

    method Drop(a: Address)
      requires Valid()
      modifies this`cache
      ensures Valid() && cache == old(cache) - {a}
    {
      Smaller(cache - {a}, cache);
      cache := cache - {a};
    }

    // Anything the other goroutines do between two steps of this one.
    method Interfere(steps: nat)
      requires Valid()
      modifies this
      ensures Valid() && Progressed()
      ensures steps == 0 ==> cache == old(cache) && inflight == old(inflight)
    {
      for step := 0 to steps
        invariant Valid() && Grows(old(flights), flights) && old(answered) <= answered
        invariant step == 0 ==> cache == old(cache) && inflight == old(inflight)
      {
        var what: nat, id: Lookup, name: Name, now: int, positive: nat, negative: nat := *, *, *, *, *, *;
        if what == 0 {
          if id in flights && flights[id].closed == 0 { FinishLookup(id, name, now, positive, negative); }
        } else if what == 1 {
          ReleaseSome();
        } else {
          var ordered: seq<Address>, servers: bool := *, *;
          var names, pending := Begin(now, ordered, servers);
        }
      }
    }

    // Waits for a lookup. None means that the caller gave up first.
    method Await(a: Address, id: Lookup) returns (name: Option<Name>)
      requires Valid() && id in flights && flights[id].address == a
      modifies this
      ensures Valid() && Progressed()
      ensures name.Some? ==> (a, name.value) in answered
      ensures if name.Some? then flights[id].closed == 1 && flights[id].name == name.value else flights[id].closed == 0
    {
      var steps: nat := *;
      Interfere(steps);
      name := if flights[id].closed == 0 then None else Some(flights[id].name);
    }
  }

  // The spellings under which each address was asked for.
  ghost predicate Spelled(requested: map<Address, set<Raw>>, requests: seq<Raw>, parse: map<Raw, Address>) {
    forall a, raw | a in requested && raw in requested[a] :: raw in requests && raw in parse && parse[raw] == a
  }

  ghost predicate Nameless(ordered: seq<Address>, requested: map<Address, set<Raw>>, local: map<Address, Name>) {
    forall a | a in ordered :: a in requested && LocalName(local, a) == ""
  }

  // The spelling is kept with its address, which is to be asked for if it has no
  // local name.
  ghost predicate Filed(raw: Raw, a: Address, requested: map<Address, set<Raw>>, ordered: seq<Address>,
                        local: map<Address, Name>) {
    a in requested && raw in requested[a] && (LocalName(local, a) == "" ==> a in ordered)
  }

  // What sorting the spellings seen so far gives: the local names, and where every
  // other spelling is filed.
  ghost predicate LocallyNamed(seen: set<Raw>, parse: map<Raw, Address>, local: map<Address, Name>,
                               result: map<Raw, Name>) {
    && (forall raw :: raw in result <==> raw in seen && raw in parse && LocalName(local, parse[raw]) != "")
    && (forall raw | raw in result :: result[raw] == LocalName(local, parse[raw]))
  }

  ghost predicate AllFiled(seen: set<Raw>, parse: map<Raw, Address>, local: map<Address, Name>,
                           requested: map<Address, set<Raw>>, ordered: seq<Address>) {
    && (forall a, raw | a in requested && raw in requested[a] :: raw in seen && raw in parse && parse[raw] == a)
    && (forall raw | raw in seen && raw in parse :: parse[raw] in requested && raw in requested[parse[raw]])
    && (forall a | a in ordered :: a in requested && LocalName(local, a) == "")
    && (forall a | a in requested && LocalName(local, a) == "" :: a in ordered)
    && Distinct(ordered)
  }

  function Added(requested: map<Address, set<Raw>>, a: Address, raw: Raw): map<Address, set<Raw>> {
    requested[a := (if a in requested then requested[a] else {}) + {raw}]
  }

  lemma FiledStep(seen: set<Raw>, raw: Raw, parse: map<Raw, Address>, local: map<Address, Name>,
                  requested: map<Address, set<Raw>>, ordered: seq<Address>)
    requires AllFiled(seen, parse, local, requested, ordered)
    ensures raw !in parse ==> AllFiled(seen + {raw}, parse, local, requested, ordered)
    ensures raw in parse ==>
              var a := parse[raw];
              AllFiled(seen + {raw}, parse, local, Added(requested, a, raw),
                       if LocalName(local, a) == "" && a !in requested then ordered + [a] else ordered)
  {
  }

  // Sorts the requests: names known locally, and for the other addresses the
  // spellings asked for. `parse` gives the eligible address a spelling denotes.
  method Collect(requests: seq<Raw>, parse: map<Raw, Address>, local: map<Address, Name>)
    returns (result: map<Raw, Name>, requested: map<Address, set<Raw>>, ordered: seq<Address>)
    ensures forall raw :: raw in result <==> raw in requests && raw in parse && LocalName(local, parse[raw]) != ""
    ensures forall raw | raw in result :: result[raw] == LocalName(local, parse[raw])
    ensures Spelled(requested, requests, parse) && Nameless(ordered, requested, local) && Distinct(ordered)
    ensures forall raw | raw in requests && raw in parse :: Filed(raw, parse[raw], requested, ordered, local)
  {
    result, requested, ordered := map[], map[], [];
    ghost var asked: set<Raw> := {};
    for i := 0 to |requests|
      invariant LocallyNamed(asked, parse, local, result) && AllFiled(asked, parse, local, requested, ordered)
      invariant forall raw :: raw in asked <==> raw in requests[..i]
    {
      var raw := requests[i];
      assert requests[..i + 1] == requests[..i] + [raw];
      FiledStep(asked, raw, parse, local, requested, ordered);
      asked := asked + {raw};
      if raw !in parse { continue; }
      var a := parse[raw];
      var seen := a in requested;
      requested := Added(requested, a, raw);
      if LocalName(local, a) != "" {
        result := result[raw := LocalName(local, a)];
        continue;
      }
      if !seen { ordered := ordered + [a]; }
    }
    assert requests[..|requests|] == requests;
  }

  function LocalName(local: map<Address, Name>, a: Address): Name { if a in local then local[a] else "" }

  // Gives every spelling of an address its name.
  function Named(result: map<Raw, Name>, raws: set<Raw>, name: Name): map<Raw, Name> {
    result + map raw | raw in raws :: name
  }

  // Every name returned is the local name of the requested address, or else one
  // that a name server gave for it; local names are never overridden.
  ghost predicate Honest(result: map<Raw, Name>, requests: seq<Raw>, parse: map<Raw, Address>,
                         local: map<Address, Name>, answered: set<(Address, Name)>) {
    && (forall raw | raw in result :: raw in requests && raw in parse && result[raw] != ""
          && (if LocalName(local, parse[raw]) != "" then result[raw] == LocalName(local, parse[raw])
              else (parse[raw], result[raw]) in answered))
    && (forall raw | raw in requests && raw in parse && LocalName(local, parse[raw]) != "" :: raw in result)
  }

  // Every spelling of an address has the name given for that address.
  ghost predicate Gives(result: map<Raw, Name>, requested: map<Address, set<Raw>>, given: map<Address, Name>) {
    forall a, raw | a in given && a in requested && raw in requested[a] :: raw in result && result[raw] == given[a]
  }

  // Every awaited lookup ended, and its name, if it has one, is given.
  ghost predicate Awaited(pending: seq<(Address, Lookup)>, n: nat, flights: map<Lookup, Flight>,
                          given: map<Address, Name>)
    requires n <= |pending|
  {
    forall i | 0 <= i < n ::
      && pending[i].1 in flights && flights[pending[i].1].closed == 1
      && (flights[pending[i].1].name != "" ==>
            pending[i].0 in given && given[pending[i].0] == flights[pending[i].1].name)
  }

  // A spelling of an eligible address without a local name.
  predicate Asked(raw: Raw, requests: seq<Raw>, parse: map<Raw, Address>, local: map<Address, Name>) {
    raw in requests && raw in parse && LocalName(local, parse[raw]) == ""
  }

  predicate Unfinished(id: Lookup, flights: map<Lookup, Flight>) { id in flights && flights[id].closed == 0 }

  // Whatever an asked address has been given, each of its spellings has.
  ghost predicate GivenToAll(result: map<Raw, Name>, requests: seq<Raw>, parse: map<Raw, Address>,
                             local: map<Address, Name>, given: map<Address, Name>) {
    forall raw | Asked(raw, requests, parse, local) && parse[raw] in given ::
      raw in result && result[raw] == given[parse[raw]]
  }

  // Names in the cache are given to the addresses asked for.
  ghost predicate CacheGiven(requests: seq<Raw>, parse: map<Raw, Address>, local: map<Address, Name>, cache: Cache,
                             now: int, given: map<Address, Name>) {
    forall raw | Asked(raw, requests, parse, local) && CachedName(cache, parse[raw], now) ::
      parse[raw] in given && given[parse[raw]] == cache[parse[raw]].name
  }

  // Lookups under way for the addresses asked for are awaited, up to the bound.
  ghost predicate FlightsAwaited(requests: seq<Raw>, parse: map<Raw, Address>, local: map<Address, Name>, cache: Cache,
                                 inflight: map<Address, Lookup>, now: int, pending: seq<(Address, Lookup)>,
                                 bound: nat) {
    |pending| == bound
    || forall raw | Asked(raw, requests, parse, local) && parse[raw] in inflight && !Holds(cache, parse[raw], now) ::
         (parse[raw], inflight[parse[raw]]) in pending
  }

  // Resolves the requests. `steps` is what others do before this call takes the
  // lock; `given` collects the names for addresses, `pending` what was awaited,
  // and `finished` tells that it was not given up.
  method Resolve(resolver: Resolver, requests: seq<Raw>, parse: map<Raw, Address>, local: map<Address, Name>,
                 servers: bool, now: int, steps: nat)
    returns (result: map<Raw, Name>, ghost given: map<Address, Name>, ghost pending: seq<(Address, Lookup)>,
             ghost finished: bool)
    requires resolver.Valid()
    modifies resolver
    ensures resolver.Valid() && resolver.Progressed()
    ensures Honest(result, requests, parse, local, resolver.answered)
    ensures GivenToAll(result, requests, parse, local, given)
    ensures steps == 0 ==> CacheGiven(requests, parse, local, old(resolver.cache), now, given)
    ensures steps == 0 ==> FlightsAwaited(requests, parse, local, old(resolver.cache), old(resolver.inflight), now,
                                          pending, resolver.maxLookups)
    ensures if finished then Awaited(pending, |pending|, resolver.flights, given)
            else exists i | 0 <= i < |pending| :: Unfinished(pending[i].1, resolver.flights)
  {
    var requested, ordered;
    result, requested, ordered := Collect(requests, parse, local);
    resolver.Interfere(steps);
    ghost var cache, inflight, flights := resolver.cache, resolver.inflight, resolver.flights;
    var names, awaited := resolver.Begin(now, ordered, servers);
    GrowsOn(old(resolver.flights), flights, resolver.flights);
    flights := resolver.flights;
    result := NameCached(ordered, names, requested, result, requests, parse, local, resolver.answered);
    pending := awaited;
    assert forall j | 0 <= j < |awaited| :: awaited[j].0 !in names;
    result, given, finished := AwaitAll(resolver, awaited, ordered, names, requested, result, requests, parse, local);
    GrowsOn(old(resolver.flights), flights, resolver.flights);
    FoundFor(requests, parse, local, requested, ordered, names, awaited, cache, inflight, now, resolver.maxLookups);
  }

  lemma FoundFor(requests: seq<Raw>, parse: map<Raw, Address>, local: map<Address, Name>,
                 requested: map<Address, set<Raw>>, ordered: seq<Address>, names: map<Address, Name>,
                 pending: seq<(Address, Lookup)>, cache: Cache, inflight: map<Address, Lookup>, now: int, bound: nat)
    requires forall raw | raw in requests && raw in parse :: Filed(raw, parse[raw], requested, ordered, local)
    requires Gathered(names, pending, ordered, cache, inflight, now, bound)
    ensures CacheGiven(requests, parse, local, cache, now, names)
    ensures FlightsAwaited(requests, parse, local, cache, inflight, now, pending, bound)
  {
    forall raw | Asked(raw, requests, parse, local) ensures parse[raw] in ordered {
      assert Filed(raw, parse[raw], requested, ordered, local);
    }
  }

  // What has been given once the first n lookups were awaited.
  ghost predicate Giving(result: map<Raw, Name>, requested: map<Address, set<Raw>>, given: map<Address, Name>,
                         names: map<Address, Name>, awaited: seq<(Address, Lookup)>, n: nat,
                         flights: map<Lookup, Flight>) {
    && n <= |awaited| && Gives(result, requested, given) && Awaited(awaited, n, flights, given)
    && (forall a | a in names :: a in given && given[a] == names[a])
    && (forall j | n <= j < |awaited| :: awaited[j].0 !in given)
  }

  // Waits for the lookups one by one.
  method AwaitAll(resolver: Resolver, awaited: seq<(Address, Lookup)>, ghost ordered: seq<Address>,
                  ghost names: map<Address, Name>, requested: map<Address, set<Raw>>, start: map<Raw, Name>,
                  ghost requests: seq<Raw>, ghost parse: map<Raw, Address>, ghost local: map<Address, Name>)
    returns (result: map<Raw, Name>, ghost given: map<Address, Name>, ghost finished: bool)
    requires resolver.Valid() && Awaitable(awaited, ordered, resolver.flights) && DistinctAddresses(awaited)
    requires Honest(start, requests, parse, local, resolver.answered) && Gives(start, requested, names)
    requires Spelled(requested, requests, parse) && Nameless(ordered, requested, local)
    requires forall raw | raw in requests && raw in parse :: Filed(raw, parse[raw], requested, ordered, local)
    requires forall j | 0 <= j < |awaited| :: awaited[j].0 !in names
    modifies resolver
    ensures resolver.Valid() && resolver.Progressed()
    ensures Honest(result, requests, parse, local, resolver.answered)
    ensures GivenToAll(result, requests, parse, local, given)
    ensures forall a | a in names :: a in given && given[a] == names[a]
    ensures if finished then Awaited(awaited, |awaited|, resolver.flights, given)
            else exists i | 0 <= i < |awaited| :: Unfinished(awaited[i].1, resolver.flights)
  {
    result, given, finished := start, names, false;
    for i := 0 to |awaited|
      invariant resolver.Valid() && resolver.Progressed()
      invariant Awaitable(awaited, ordered, resolver.flights)
      invariant Honest(result, requests, parse, local, resolver.answered)
      invariant Giving(result, requested, given, names, awaited, i, resolver.flights)
    {
      ghost var before := resolver.flights;
      var ended;
      result, given, ended :=
        AwaitNext(resolver, awaited, i, ordered, names, requested, result, given, requests, parse, local);
      GrowsOn(old(resolver.flights), before, resolver.flights);
      if !ended {
        assert Unfinished(awaited[i].1, resolver.flights);
        GivesAll(result, requests, parse, local, requested, ordered, given);
        return;
      }
    }
    GivesAll(result, requests, parse, local, requested, ordered, given);
    finished := true;
  }

  method AwaitNext(resolver: Resolver, awaited: seq<(Address, Lookup)>, i: nat, ghost ordered: seq<Address>,
                   ghost names: map<Address, Name>, requested: map<Address, set<Raw>>, start: map<Raw, Name>,
                   ghost had: map<Address, Name>, ghost requests: seq<Raw>, ghost parse: map<Raw, Address>,
                   ghost local: map<Address, Name>)
    returns (result: map<Raw, Name>, ghost given: map<Address, Name>, ended: bool)
    requires i < |awaited| && Spelled(requested, requests, parse) && Nameless(ordered, requested, local)
    requires resolver.Valid() && Awaitable(awaited, ordered, resolver.flights) && DistinctAddresses(awaited)
    requires Honest(start, requests, parse, local, resolver.answered)
    requires Giving(start, requested, had, names, awaited, i, resolver.flights)
    modifies resolver
    ensures resolver.Valid() && resolver.Progressed() && Awaitable(awaited, ordered, resolver.flights)
    ensures Honest(result, requests, parse, local, resolver.answered)
    ensures Giving(result, requested, given, names, awaited, if ended then i + 1 else i, resolver.flights)
    ensures !ended ==> Unfinished(awaited[i].1, resolver.flights)
  {
    ghost var before, known := resolver.flights, resolver.answered;
    var a := awaited[i].0;
    result, given := start, had;
    var name := resolver.Await(a, awaited[i].1);
    AwaitableOn(awaited, ordered, before, resolver.flights);
    HonestOn(result, requests, parse, local, known, resolver.answered);
    AwaitedOn(awaited, i, before, resolver.flights, given);
    ended := name.Some?;
    if ended && name.value != "" {
      NamedHonest(result, requested, a, name.value, requests, parse, local, resolver.answered);
      NamedGives(result, requested, given, a, name.value, requests, parse);
      result := Named(result, requested[a], name.value);
      AwaitedMore(awaited, i, resolver.flights, given, name.value);
      given := given[a := name.value];
    }
  }

  lemma GivesAll(result: map<Raw, Name>, requests: seq<Raw>, parse: map<Raw, Address>, local: map<Address, Name>,
                 requested: map<Address, set<Raw>>, ordered: seq<Address>, given: map<Address, Name>)
    requires forall raw | raw in requests && raw in parse :: Filed(raw, parse[raw], requested, ordered, local)
    requires Gives(result, requested, given)
    ensures GivenToAll(result, requests, parse, local, given)
  {
    forall raw | Asked(raw, requests, parse, local) && parse[raw] in given
      ensures raw in result && result[raw] == given[parse[raw]]
    {
      assert Filed(raw, parse[raw], requested, ordered, local);
    }
  }

  lemma AwaitedOn(pending: seq<(Address, Lookup)>, n: nat, a: map<Lookup, Flight>, b: map<Lookup, Flight>,
                  given: map<Address, Name>)
    requires n <= |pending| && Awaited(pending, n, a, given) && Grows(a, b)
    ensures Awaited(pending, n, b, given)
  {
  }

  lemma AwaitedMore(pending: seq<(Address, Lookup)>, n: nat, flights: map<Lookup, Flight>, given: map<Address, Name>,
                    name: Name)
    requires n < |pending| && Awaited(pending, n, flights, given) && DistinctAddresses(pending)
    requires pending[n].1 in flights && flights[pending[n].1].closed == 1 && flights[pending[n].1].name == name
    ensures Awaited(pending, n + 1, flights, given[pending[n].0 := name])
  {
  }

  method NameCached(ordered: seq<Address>, names: map<Address, Name>, requested: map<Address, set<Raw>>,
                    start: map<Raw, Name>, ghost requests: seq<Raw>, ghost parse: map<Raw, Address>,
                    ghost local: map<Address, Name>, ghost answered: set<(Address, Name)>)
    returns (result: map<Raw, Name>)
    requires Honest(start, requests, parse, local, answered) && Known(names, ordered, answered)
    requires Spelled(requested, requests, parse) && Nameless(ordered, requested, local)
    ensures Honest(result, requests, parse, local, answered)
    ensures Gives(result, requested, names)
  {
    result := start;
    ghost var given: map<Address, Name> := map[];
    for i := 0 to |ordered|
      invariant Honest(result, requests, parse, local, answered)
      invariant Gives(result, requested, given)
      invariant forall a :: a in given <==> a in names && a in ordered[..i]
      invariant forall a | a in given :: given[a] == names[a]
    {
      var a := ordered[i];
      assert ordered[..i + 1] == ordered[..i] + [a];
      if a in names {
        NamedHonest(result, requested, a, names[a], requests, parse, local, answered);
        NamedGives(result, requested, given, a, names[a], requests, parse);
        result := Named(result, requested[a], names[a]);
        given := given[a := names[a]];
      }
    }
  }

  // Spellings of different addresses differ.
  lemma NamedGives(result: map<Raw, Name>, requested: map<Address, set<Raw>>, given: map<Address, Name>, a: Address,
                   name: Name, requests: seq<Raw>, parse: map<Raw, Address>)
    requires Gives(result, requested, given) && Spelled(requested, requests, parse) && a in requested
    ensures Gives(Named(result, requested[a], name), requested, given[a := name])
  {
    var next, more := Named(result, requested[a], name), given[a := name];
    forall b, raw | b in more && b in requested && raw in requested[b] ensures raw in next && next[raw] == more[b] {
      assert parse[raw] == b;
      if b != a { assert raw !in requested[a]; }
    }
  }

  lemma HonestOn(result: map<Raw, Name>, requests: seq<Raw>, parse: map<Raw, Address>, local: map<Address, Name>,
                 a: set<(Address, Name)>, b: set<(Address, Name)>)
    requires Honest(result, requests, parse, local, a) && a <= b
    ensures Honest(result, requests, parse, local, b)
  {
  }

  lemma NamedHonest(result: map<Raw, Name>, requested: map<Address, set<Raw>>, a: Address, name: Name,
                    requests: seq<Raw>, parse: map<Raw, Address>, local: map<Address, Name>,
                    answered: set<(Address, Name)>)
    requires Honest(result, requests, parse, local, answered) && Spelled(requested, requests, parse)
    requires a in requested && LocalName(local, a) == "" && name != "" && (a, name) in answered
    ensures Honest(Named(result, requested[a], name), requests, parse, local, answered)
  {
  }

  lemma Smaller(a: Cache, b: Cache)
    requires forall k | k in a :: k in b
    ensures |a| <= |b|
  {
    assert a.Keys <= b.Keys;
    assert b.Keys == a.Keys + (b.Keys - a.Keys);
    assert |a| == |a.Keys| && |b| == |b.Keys|;
  }

  lemma Without<V>(m: map<Address, V>, a: Address)
    requires a in m
    ensures |m - {a}| == |m| - 1
  {
    assert (m - {a}).Keys == m.Keys - {a};
  }

  lemma FinishState(inflight: map<Address, Lookup>, flights: map<Lookup, Flight>, answered: set<(Address, Name)>,
                    id: Lookup, name: Name)
    requires id in flights && flights[id].closed == 0
    requires Linked(inflight, flights) && Published(inflight, flights, answered)
    ensures Live(inflight, flights, id)
    ensures var a := flights[id].address;
      var flights' := flights[id := Flight(a, name, 1)];
      && Linked(inflight - {a}, flights') && Published(inflight - {a}, flights', answered + {(a, name)})
      && Grows(flights, flights') && |inflight - {a}| == |inflight| - 1
  {
    Without(inflight, flights[id].address);
  }

  lemma StartState(inflight: map<Address, Lookup>, flights: map<Lookup, Flight>, answered: set<(Address, Name)>,
                   a: Address, id: Lookup)
    requires a !in inflight && id !in flights
    requires Linked(inflight, flights) && Published(inflight, flights, answered)
    ensures var flights' := flights[id := Flight(a, "", 0)];
      && Linked(inflight[a := id], flights') && Published(inflight[a := id], flights', answered)
      && Grows(flights, flights') && |inflight[a := id]| == |inflight| + 1
  {
    var flights' := flights[id := Flight(a, "", 0)];
    assert inflight[a := id].Keys == inflight.Keys + {a};
    forall k | k in flights'
      ensures if Live(inflight[a := id], flights', k) then flights'[k].closed == 0
        else flights'[k].closed == 1 && (flights'[k].address, flights'[k].name) in answered
    {
      assert k != id ==> Live(inflight[a := id], flights', k) == Live(inflight, flights, k);
    }
  }

  lemma CachedSound(before: Cache, after: Cache, a: Address, entry: Entry, answered: set<(Address, Name)>)
    requires Sound(before, answered) && Cached(before, after, a, entry) && |after| <= MAX_CACHE
    ensures Sound(after, answered + {(a, entry.name)})
    ensures a in after && after[a] == entry
  {
  }
}
