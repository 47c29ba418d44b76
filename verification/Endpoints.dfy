// Last-known-good addresses of proxy endpoints: each refresh resolves the
// hosts of the active profile, falls back to the cache, keeps synthetic
// addresses out and replaces the cache.

module Endpoints {
  import opened Types
  import opened Sorting
  import opened Collections

  type Host = string
  type Address = nat

  const MAX_ADDRESSES := 8192

  predicate AddressLess(a: Address, b: Address) { a < b }

  // An inclusive range of synthetic addresses.
  datatype FakeRange = FakeRange(from: nat, to: nat)

  predicate Fake(ranges: seq<FakeRange>, a: Address) {
    exists i | 0 <= i < |ranges| :: ranges[i].from <= a <= ranges[i].to
  }

  // One refresh: the hosts in use, what their lookups gave (None is a failure)
  // and the synthetic ranges in force.
  datatype Refresh = Refresh(hosts: seq<Host>, answers: map<Host, Option<seq<Address>>>, fake: seq<FakeRange>) {
    ghost predicate Complete() {
      && (forall h | h in hosts :: h in answers)
      && (forall i, j | 0 <= i < j < |hosts| :: hosts[i] != hosts[j])
    }
  }

  ghost function Real(addresses: set<Address>, fake: seq<FakeRange>): set<Address> {
    set a | a in addresses && !Fake(fake, a)
  }

  // The real addresses of this refresh's own lookup.
  ghost function Answer(r: Refresh, h: Host): set<Address>
    requires r.Complete() && h in r.hosts
  {
    if r.answers[h].None? then {} else Real(Members(r.answers[h].value), r.fake)
  }

  // The addresses known for each host.
  type Known = map<Host, set<Address>>

  ghost function Of(known: Known, h: Host): set<Address> { if h in known then known[h] else {} }

  ghost function Contribution(r: Refresh, known: Known, h: Host): set<Address>
    requires r.Complete() && h in r.hosts
  {
    if Answer(r, h) != {} then Answer(r, h) else Real(Of(known, h), r.fake)
  }

  // The known addresses once the first n hosts have been gone through.
  ghost function Next(r: Refresh, known: Known, n: nat): Known
    requires r.Complete() && n <= |r.hosts|
  {
    if n == 0 then map[]
    else
      var h, before := r.hosts[n - 1], Next(r, known, n - 1);
      var c := Contribution(r, known, h);
      if c == {} then before else before[h := c]
  }

  ghost function Union(r: Refresh, known: Known, n: nat): set<Address>
    requires r.Complete() && n <= |r.hosts|
  {
    if n == 0 then {} else Union(r, known, n - 1) + Contribution(r, known, r.hosts[n - 1])
  }

  ghost predicate AllComplete(history: seq<Refresh>) { forall i | 0 <= i < |history| :: history[i].Complete() }

  // What is known after a history of persisted refreshes.
  ghost function After(base: Known, history: seq<Refresh>): Known
    requires AllComplete(history)
  {
    if history == [] then base
    else var n := |history| - 1; Next(history[n], After(base, history[..n]), |history[n].hosts|)
  }

  // ------------------------------------------------------------- the manager

  function Filter(addresses: seq<Address>, fake: seq<FakeRange>): (r: seq<Address>)
    ensures forall a :: a in r <==> a in addresses && !Fake(fake, a)
    ensures forall a, f | a in r && f in fake :: a < f.from || f.to < a
    ensures forall a | a in addresses && a !in r :: exists f :: f in fake && f.from <= a <= f.to
  {
    if addresses == [] then []
    else (if Fake(fake, addresses[0]) then [] else [addresses[0]]) + Filter(addresses[1..], fake)
  }

  lemma SortedMembers(s: seq<Address>)
    ensures Members(SortCompact(s, AddressLess)) == Members(s)
    ensures Strict(SortCompact(s, AddressLess), AddressLess)
    ensures |SortCompact(s, AddressLess)| <= |s|
  {
    SortCompactMeaning(s, AddressLess);
  }

  type Cache = map<Host, seq<Address>>

  ghost function View(cache: Cache): Known { map h | h in cache :: Members(cache[h]) }

  // The state of a refresh after n hosts.
  ghost predicate Progress(r: Refresh, known: Known, n: nat, next: Cache, list: seq<Address>, seen: set<Address>)
    requires r.Complete() && n <= |r.hosts|
  {
    && View(next) == Next(r, known, n)
    && seen == Members(list) == Union(r, known, n)
    && |seen| == |list| <= MAX_ADDRESSES
  }

  // The inner loop: records every address of one host and collects the new ones.
  method Collect(addresses: seq<Address>, result: seq<Address>, seen: set<Address>)
    returns (ok: bool, encoded: seq<Address>, result': seq<Address>, seen': set<Address>)
    requires seen == Members(result) && |seen| == |result| <= MAX_ADDRESSES
    ensures ok <==> |seen + Members(addresses)| <= MAX_ADDRESSES
    ensures ok ==> encoded == addresses
    ensures ok ==> seen' == Members(result') == seen + Members(addresses) && |seen'| == |result'|
  {
    ok, encoded, result', seen' := true, [], result, seen;
    for i := 0 to |addresses|
      invariant encoded == addresses[..i]
      invariant seen' == Members(result') == seen + Members(addresses[..i])
      invariant |seen'| == |result'| <= MAX_ADDRESSES
    {
      MembersStep(seen, addresses, i);
      encoded := encoded + [addresses[i]];
      if addresses[i] !in seen' {
        if |result'| >= MAX_ADDRESSES { ok := false; return; }
        MembersGrow(result', addresses[i]);
        result', seen' := result' + [addresses[i]], seen' + {addresses[i]};
      }
    }
    assert addresses[..|addresses|] == addresses;
  }

  class EndpointBypass {
    var cache: Cache
    ghost const base: Known
    ghost var history: seq<Refresh>  // refreshes that were persisted

    ghost predicate Valid()
      reads this
    {
      AllComplete(history) && View(cache) == After(base, history)
    }

    constructor (cache: Cache)
      ensures Valid() && this.cache == cache && history == []
    {
      this.cache, base, history := cache, View(cache), [];
    }

    // The addresses one host contributes: its lookup, or else the cache.
    method Addresses(r: Refresh, host: Host) returns (addresses: seq<Address>)
      requires r.Complete() && host in r.hosts
      ensures Members(addresses) == Contribution(r, View(cache), host)
    {
      var answer := r.answers[host];
      addresses := [];
      if answer.Some? { addresses := Filter(answer.value, r.fake); }
      if |addresses| == 0 {
        assert Answer(r, host) == {};
        addresses := Filter(if host in cache then cache[host] else [], r.fake);
      } else {
        assert addresses[0] in Answer(r, host);
      }
    }

    // One turn of the loop over the hosts.
    method GatherHost(r: Refresh, n: nat, next: Cache, list: seq<Address>, seen: set<Address>)
      returns (ok: bool, next': Cache, list': seq<Address>, seen': set<Address>)
      requires r.Complete() && n < |r.hosts| && Progress(r, View(cache), n, next, list, seen)
      ensures ok <==> |Union(r, View(cache), n + 1)| <= MAX_ADDRESSES
      ensures ok ==> Progress(r, View(cache), n + 1, next', list', seen')
    {
      ok, next', list', seen' := true, next, list, seen;
      var addresses := Addresses(r, r.hosts[n]);
      NextStep(r, View(cache), n, next, addresses);
      if |addresses| > 0 {
        var encoded;
        ok, encoded, list', seen' := Collect(addresses, list, seen);
        next' := next[r.hosts[n] := SortCompact(encoded, AddressLess)];
      }
    }

    // Goes through the hosts: the next cache, and all addresses without
    // repetition. It gives up exactly when there are too many of them.
    method Gather(r: Refresh) returns (ok: bool, next: Cache, list: seq<Address>)
      requires r.Complete()
      ensures ok <==> |Union(r, View(cache), |r.hosts|)| <= MAX_ADDRESSES
      ensures ok ==> View(next) == Next(r, View(cache), |r.hosts|)
      ensures ok ==> Members(list) == Union(r, View(cache), |r.hosts|) && |list| <= MAX_ADDRESSES
    {
      var seen: set<Address> := {};
      ok, next, list := true, map[], [];
      for n := 0 to |r.hosts|
        invariant Progress(r, View(cache), n, next, list, seen) && ok
      {
        UnionGrows(r, View(cache), n + 1, |r.hosts|);
        ok, next, list, seen := GatherHost(r, n, next, list, seen);
        if !ok { return; }
      }
    }

    // A successful refresh returns exactly the union of the contributions, each
    // address once and at most the limit; when persisted it becomes part of the
    // history. It fails exactly when the cache is unreadable, there are too many
    // addresses or the cache cannot be written, and then nothing changes.
    method PrepareHosts(r: Refresh, persist: bool) returns (result: Option<seq<Address>>, readable: bool, written: bool)
      requires Valid() && r.Complete()
      modifies this
      ensures Valid()
      ensures result.Some? ==> Members(result.value) == Union(r, old(View(cache)), |r.hosts|)
      ensures result.Some? ==> Strict(result.value, AddressLess) && |result.value| <= MAX_ADDRESSES
      ensures result.None? <==>
                !readable || |Union(r, old(View(cache)), |r.hosts|)| > MAX_ADDRESSES || (persist && !written)
      ensures history == if persist && result.Some? then old(history) + [r] else old(history)
      ensures !persist || result.None? ==> cache == old(cache)
    {
      written, readable := true, *;
      if !readable { return None, readable, written; }
      var ok, next, list := Gather(r);
      if !ok { return None, readable, written; }
      if persist {
        if cache != next {
          written := *;
          if !written { return None, readable, written; }
          cache := next;
        }
        assert (history + [r])[..|history|] == history;
        history := history + [r];
      }
      SortedMembers(list);
      result := Some(SortCompact(list, AddressLess));
    }
  }

  lemma NextStep(r: Refresh, known: Known, n: nat, next: Cache, addresses: seq<Address>)
    requires r.Complete() && n < |r.hosts|
    requires View(next) == Next(r, known, n) && Members(addresses) == Contribution(r, known, r.hosts[n])
    ensures addresses == [] ==> View(next) == Next(r, known, n + 1) && Members(addresses) == {}
    ensures addresses != [] ==> View(next[r.hosts[n] := SortCompact(addresses, AddressLess)]) == Next(r, known, n + 1)
  {
    if addresses != [] {
      SortedMembers(addresses);
      assert addresses[0] in Members(addresses);
      var h, sorted := r.hosts[n], SortCompact(addresses, AddressLess);
      assert View(next[h := sorted]) == View(next)[h := Members(sorted)];
    }
  }

  lemma {:induction false} UnionGrows(r: Refresh, known: Known, n: nat, m: nat)
    requires r.Complete() && n <= m <= |r.hosts|
    ensures Union(r, known, n) <= Union(r, known, m)
    ensures |Union(r, known, n)| <= |Union(r, known, m)|
  {
    if n < m { UnionGrows(r, known, n, m - 1); }
    Fewer(Union(r, known, n), Union(r, known, m));
  }

  // ------------------------------------------------------------- whole runs

  // Each host of the refresh is known by its contribution, no other host is.
  lemma {:induction false} NextOf(r: Refresh, known: Known, n: nat, h: Host)
    requires r.Complete() && n <= |r.hosts|
    ensures Of(Next(r, known, n), h) == if h in r.hosts[..n] then Contribution(r, known, h) else {}
  {
    if n > 0 {
      NextOf(r, known, n - 1, h);
      assert r.hosts[..n] == r.hosts[..n - 1] + [r.hosts[n - 1]];
    }
  }

  // The host's last lookup that gave a real address, the host being in use ever
  // since.
  ghost predicate Latest(history: seq<Refresh>, h: Host, i: nat)
    requires AllComplete(history)
  {
    && i < |history|
    && InUseSince(history, h, i)
    && Answer(history[i], h) != {}
    && NoAnswerSince(history, h, i + 1)
  }

  ghost predicate InUseSince(history: seq<Refresh>, h: Host, i: nat) {
    forall j | i <= j < |history| :: h in history[j].hosts
  }

  ghost predicate NoAnswerSince(history: seq<Refresh>, h: Host, i: nat)
    requires AllComplete(history)
  {
    forall j | i <= j < |history| && h in history[j].hosts :: Answer(history[j], h) == {}
  }

  // The addresses that are synthetic in none of the refreshes from i on.
  ghost function RealSince(addresses: set<Address>, history: seq<Refresh>, i: nat): set<Address> {
    set a | a in addresses && forall j | i <= j < |history| :: !Fake(history[j].fake, a)
  }

  // What is known of a host after any history: the latest answer while the host
  // stayed in use, less every address that has been synthetic since; without
  // such an answer, what was known at the start on the same terms.
  ghost function Expected(base: Known, history: seq<Refresh>, h: Host): set<Address>
    requires AllComplete(history)
  {
    if exists i: nat :: Latest(history, h, i) then
      var i: nat :| Latest(history, h, i);
      RealSince(Answer(history[i], h), history, i)
    else if InUseSince(history, h, 0) then RealSince(Of(base, h), history, 0)
    else {}
  }

  lemma LatestUnique(history: seq<Refresh>, h: Host, i: nat, j: nat)
    requires AllComplete(history) && Latest(history, h, i) && Latest(history, h, j)
    ensures i == j
  {
  }

  lemma {:induction false} LastKnownGood(base: Known, history: seq<Refresh>, h: Host)
    requires AllComplete(history)
    ensures Of(After(base, history), h) == Expected(base, history, h)
  {
    if history == [] {
      assert RealSince(Of(base, h), history, 0) == Of(base, h);
    } else {
      var n := |history| - 1;
      var init, r := history[..n], history[n];
      LastKnownGood(base, init, h);
      NextOf(r, After(base, init), |r.hosts|, h);
      assert r.hosts[..|r.hosts|] == r.hosts;
      if h !in r.hosts {
        assert !InUseSince(history, h, 0);
      } else if Answer(r, h) != {} {
        assert Latest(history, h, n);
        LatestIs(base, history, h, n);
        assert RealSince(Answer(r, h), history, n) == Answer(r, h);
      } else {
        Carried(base, history, h);
      }
    }
  }

  lemma LatestIs(base: Known, history: seq<Refresh>, h: Host, i: nat)
    requires AllComplete(history) && Latest(history, h, i)
    ensures Expected(base, history, h) == RealSince(Answer(history[i], h), history, i)
  {
    var k: nat :| Latest(history, h, k) && Expected(base, history, h) == RealSince(Answer(history[k], h), history, k);
    LatestUnique(history, h, i, k);
  }

  lemma RealOnce(addresses: set<Address>, history: seq<Refresh>, i: nat)
    requires history != [] && i < |history|
    ensures RealSince(addresses, history, i)
         == Real(RealSince(addresses, history[..|history| - 1], i), history[|history| - 1].fake)
  {
  }

  lemma LatestCarried(history: seq<Refresh>, h: Host, i: nat)
    requires AllComplete(history) && history != [] && i < |history| - 1
    requires var r := history[|history| - 1]; h in r.hosts && Answer(r, h) == {}
    ensures Latest(history, h, i) <==> Latest(history[..|history| - 1], h, i)
  {
    var init := history[..|history| - 1];
    assert forall j | 0 <= j < |init| :: init[j] == history[j];
  }

  // Without a usable answer the expectation is filtered once more.
  lemma Carried(base: Known, history: seq<Refresh>, h: Host)
    requires AllComplete(history) && history != []
    requires var r := history[|history| - 1]; h in r.hosts && Answer(r, h) == {}
    ensures Expected(base, history, h) == Real(Expected(base, history[..|history| - 1], h), history[|history| - 1].fake)
  {
    var init := history[..|history| - 1];
    if i: nat :| Latest(init, h, i) {
      LatestCarried(history, h, i);
      LatestIs(base, init, h, i);
      LatestIs(base, history, h, i);
      RealOnce(Answer(history[i], h), history, i);
    } else {
      forall i: nat ensures !Latest(history, h, i) {
        if i < |init| { LatestCarried(history, h, i); }
      }
      assert InUseSince(init, h, 0) <==> InUseSince(history, h, 0);
      RealOnce(Of(base, h), history, 0);
    }
  }

  lemma {:induction false} UnionMembers(r: Refresh, known: Known, n: nat, a: Address)
    requires r.Complete() && n <= |r.hosts|
    ensures a in Union(r, known, n) <==> exists i | 0 <= i < n :: a in Contribution(r, known, r.hosts[i])
  {
    if n > 0 { UnionMembers(r, known, n - 1, a); }
  }

  // What a refresh returns at the end of any run: exactly the last-known-good
  // addresses of its hosts, none of them synthetic.
  lemma ResultOverRun(base: Known, history: seq<Refresh>, r: Refresh, a: Address)
    requires AllComplete(history) && r.Complete()
    ensures AllComplete(history + [r])
    ensures a in Union(r, After(base, history), |r.hosts|)
       <==> exists i | 0 <= i < |r.hosts| :: a in Expected(base, history + [r], r.hosts[i])
    ensures a in Union(r, After(base, history), |r.hosts|) ==> !Fake(r.fake, a)
  {
    var known, all := After(base, history), history + [r];
    UnionMembers(r, known, |r.hosts|, a);
    assert all[..|history|] == history;
    forall i | 0 <= i < |r.hosts| ensures Contribution(r, known, r.hosts[i]) == Expected(base, all, r.hosts[i]) {
      LastKnownGood(base, all, r.hosts[i]);
      NextOf(r, known, |r.hosts|, r.hosts[i]);
    }
  }

  // Nothing a persisted refresh leaves in the cache is synthetic in it.
  lemma PersistedReal(r: Refresh, known: Known, h: Host, a: Address)
    requires r.Complete() && a in Of(Next(r, known, |r.hosts|), h)
    ensures h in r.hosts && !Fake(r.fake, a)
  {
    NextOf(r, known, |r.hosts|, h);
  }
}
