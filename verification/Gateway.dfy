// The lifecycle's calls carried out on the router: what a history of calls says
// about capture, and so what each lifecycle state says, in terms of dnsmasq, the
// owned rules and the stored generation.

module Gateways {
  import opened Types
  import opened Traces
  import opened Dataplane
  import opened Lifecycles

  // Nothing of boxctl is left on the router.
  ghost predicate Clean(a: Activation)
    reads a
  {
    a.dnsmasq == a.original && a.backup.None? && a.nft.None? && a.saved.None?
  }

  // Whatever other processes would put back is that of g, but for the address
  // sets.
  predicate StoredFor(a: Activation, g: Generation)
    reads a
  {
    a.saved.Some? ==>
      && a.saved.value.engine == g.engine && a.saved.value.capture.listener == g.capture.listener
      && a.saved.value.capture.dnsEnabled == g.capture.dnsEnabled
  }

  ghost predicate Shows(a: Activation, c: Capture)
    reads a
  {
    (c.Off? ==> Clean(a)) && (c.On? ==> StoredFor(a, c.g))
  }

  // Any number of hotplug events, refreshes and edits of an untouched dnsmasq.
  method Meanwhile(a: Activation, steps: nat, ghost c: Capture)
    requires a.Conserved() && a.gatewayMode && Shows(a, c)
    modifies a
    ensures a.Conserved() && a.gatewayMode && Shows(a, c)
    ensures old(a.Steady()) ==> a.Steady() && a.world == old(a.world)
  {
    for step := 0 to steps
      invariant a.Conserved() && a.gatewayMode && Shows(a, c)
      invariant old(a.Steady()) ==> a.Steady() && a.world == old(a.world)
    {
      var what: nat, d: seq<nat>, e: seq<nat>, value: DNS := *, *, *, *;
      if what == 0 {
        var ok := a.Reconcile();
      } else if what == 1 {
        var ok, refreshed, how := a.RefreshDynamicCapture(d, e);
      } else if a.backup.None? {
        a.EditDNS(value);
      }
    }
  }

  // The same call, whatever came of it.
  predicate SameCall(e: Event, f: Event) {
    match e
    case Activate(g, _) => f.Activate? && f.g == g
    case Deactivate(_) => f.Deactivate?
    case _ => e == f
  }

  // At most a handoff at the very beginning, of the generation stored.
  predicate Inherits(a: Activation, t: seq<Event>)
    reads a
  {
    forall i | 0 <= i < |t| && t[i].Handoff? :: i == 0 && StoredFor(a, t[i].g)
  }

  // What a history says about capture is so on the router.
  ghost predicate Holds(a: Activation, u: seq<Event>, inherits: bool)
    reads a
  {
    var c := Summarize(u).capture;
    (c.Off? ==> Clean(a)) && (inherits && c.On? ==> StoredFor(a, c.g))
  }

  // Makes the dataplane calls of a history on a router in gateway mode, with
  // anything in between. `u` is the history with the outcomes they had.
  method Perform(a: Activation, t: seq<Event>) returns (u: seq<Event>)
    requires a.Conserved() && a.gatewayMode
    modifies a
    ensures a.Conserved() && a.gatewayMode
    ensures |u| == |t| && forall i | 0 <= i < |t| :: SameCall(u[i], t[i])
    ensures Holds(a, u, old(Inherits(a, t)))
    ensures old(a.Steady()) && old(a.world).failing == {} ==>
              forall i | 0 <= i < |t| && t[i].Activate? :: u[i] == Event.Activate(t[i].g, true)
  {
    u := [];
    ghost var inherits := Inherits(a, t);
    for i := 0 to |t|
      invariant a.Conserved() && a.gatewayMode
      invariant |u| == i && forall k | 0 <= k < i :: SameCall(u[k], t[k])
      invariant i == 0 && inherits ==> Inherits(a, t)
      invariant Holds(a, u, inherits)
      invariant old(a.Steady()) ==> a.Steady() && a.world == old(a.world)
      invariant old(a.Steady()) && a.world.failing == {} ==>
                  forall k | 0 <= k < i && t[k].Activate? :: u[k] == Event.Activate(t[k].g, true)
    {
      var e, pause: nat := t[i], *;
      ghost var aside;
      match t[i] {
        case Activate(g, _) =>
          var ok;
          ok, aside := a.Activate(g);
          e := Event.Activate(g, ok);
        case Deactivate(_) =>
          var g: Option<Generation>, ok := *, false;
          ok, aside := a.Deactivate(g);
          e := Event.Deactivate(ok);
        case _ =>
      }
      SummarizeAppend(u, e);
      u := u + [e];
      ghost var c := Summarize(u).capture;
      Meanwhile(a, pause, if c.Off? || (inherits && c.On?) then c else Unknown);
    }
  }

  // Whenever the lifecycle stops a core, the router is clean already: so it is
  // after every call made before the stop, if those had the recorded outcomes.
  method StopsClean(lifecycle: Lifecycle, t: seq<Event>, s: nat, a: Activation) returns (u: seq<Event>)
    requires lifecycle.AtRest() && t == lifecycle.trace && s < |t| && t[s].CoreStop?
    requires a.Conserved() && a.gatewayMode
    modifies a
    ensures u == t[..s] ==> Clean(a)
  {
    u := Perform(a, t[..s]);
    lifecycle.ReachableStates();
    CaptureMeaning(t, s);
    assert t == t[..s] + t[s..];
    SummaryOfPrefix(t[..s], t[s..], s);
  }

  // A stopped or failed lifecycle leaves the router clean; while it runs, other
  // processes put back only what it runs.
  method StatesOnRouter(lifecycle: Lifecycle, t: seq<Event>, a: Activation) returns (u: seq<Event>)
    requires lifecycle.AtRest() && t == lifecycle.trace
    requires a.Conserved() && a.gatewayMode
    modifies a
    ensures u == t && lifecycle.state in {Stopped, State.Failed} ==> Clean(a)
    ensures u == t && lifecycle.state == Running && old(Inherits(a, t)) ==> StoredFor(a, lifecycle.prepared.value)
  {
    u := Perform(a, t);
  }
}
