// Every call the manager makes to the core, the dataplane and the profile
// store, in order, and what a finite history of such calls establishes.

module Traces {
  import opened Types

  datatype Event =
    | CoreStart(g: Generation, accepted: bool)
    | CoreStop(ok: bool)
    | Probe(ready: bool)
    | Activate(g: Generation, ok: bool)
    | Deactivate(ok: bool)
    | Verify(ok: bool)
    | Commit(ok: bool)
    | Handoff(g: Generation)

  // What is known of packet capture and DNS after a history. `Suspect` means a
  // half-applied or half-removed dataplane may still be live.
  datatype Capture = Unknown | Off | Suspect | On(g: Generation)

  datatype Summary = Summary(
    capture: Capture,
    ready: bool,        // a readiness probe succeeded since the last start or stop
    settled: bool,      // a readiness probe succeeded since the last activation
    verified: bool,     // the restart guard verified since the last activation
    stopped: bool,      // cleanup then stop both succeeded, nothing since
    failOpen: bool,     // every stop was issued with capture off
    readyFirst: bool,   // every activation was issued to a ready core
    starts: seq<Generation>,  // generations offered to the core, in order
    cleanups: nat,      // cleanups that succeeded
    commits: nat,       // commits attempted
    committed: nat)     // commits that succeeded

  const INITIAL := Summary(Unknown, false, false, false, false, true, true, [], 0, 0, 0)

  function Step(s: Summary, e: Event): Summary {
    match e
    case CoreStart(g, _) =>
      s.(ready := false, settled := false, verified := false, stopped := false, starts := s.starts + [g])
    case CoreStop(ok) =>
      s.(ready := false, settled := false, verified := false,
         stopped := ok && s.capture.Off?, failOpen := s.failOpen && s.capture.Off?)
    case Probe(ready) =>
      s.(ready := s.ready || ready, settled := s.settled || (ready && s.capture.On?))
    case Activate(g, ok) =>
      s.(capture := if ok then On(g) else Suspect, settled := false, verified := false, stopped := false,
         readyFirst := s.readyFirst && s.ready)
    case Deactivate(ok) =>
      s.(capture := if ok then Off else Suspect, settled := false, verified := false,
         stopped := s.stopped && ok, cleanups := s.cleanups + if ok then 1 else 0)
    case Verify(ok) => s.(verified := s.verified || (ok && s.capture.On?))
    case Commit(ok) => s.(commits := s.commits + 1, committed := s.committed + if ok then 1 else 0)
    case Handoff(g) => s.(capture := On(g), ready := true, settled := true, verified := false, stopped := false)
  }

  lemma StepOrder(s: Summary, e: Event)
    ensures Step(s, e).failOpen == (s.failOpen && (e.CoreStop? ==> s.capture.Off?))
    ensures Step(s, e).readyFirst == (s.readyFirst && (e.Activate? ==> s.ready))
  {
  }

  // What the first i calls of a history establish.
  function SummaryAt(t: seq<Event>, i: nat): Summary
    requires i <= |t|
  {
    if i == 0 then INITIAL else Step(SummaryAt(t, i - 1), t[i - 1])
  }

  function Summarize(t: seq<Event>): Summary {
    SummaryAt(t, |t|)
  }

  lemma {:induction false} SummaryOfPrefix(t: seq<Event>, u: seq<Event>, i: nat)
    requires i <= |t|
    ensures SummaryAt(t + u, i) == SummaryAt(t, i)
  {
    if i > 0 { SummaryOfPrefix(t, u, i - 1); }
  }

  lemma SummarizeAppend(t: seq<Event>, e: Event)
    ensures Summarize(t + [e]) == Step(Summarize(t), e)
  {
    SummaryOfPrefix(t, [e], |t|);
  }

  // ------------------------------------------------------------------
  // The same facts read directly off the positions of the calls.

  predicate TouchesCapture(e: Event) {
    e.Activate? || e.Deactivate? || e.Handoff?
  }

  // The last call touching the dataplane before position i is at j.
  ghost predicate LastTouch(t: seq<Event>, j: nat, i: nat)
    requires i <= |t|
  {
    j < i && TouchesCapture(t[j]) && forall k | j < k < i :: !TouchesCapture(t[k])
  }

  ghost predicate OffAt(t: seq<Event>, i: nat)
    requires i <= |t|
  {
    exists j: nat :: LastTouch(t, j, i) && t[j] == Deactivate(true)
  }

  predicate Answers(e: Event) { e == Probe(true) || e.Handoff? }

  predicate MovesCore(e: Event) { e.CoreStart? || e.CoreStop? }

  // The core last answered a readiness probe at j, with no start or stop since.
  ghost predicate AnsweredAt(t: seq<Event>, j: nat, i: nat)
    requires i <= |t|
  {
    j < i && Answers(t[j]) && forall k | j < k < i :: !MovesCore(t[k])
  }

  ghost predicate ReadyAt(t: seq<Event>, i: nat)
    requires i <= |t|
  {
    exists j: nat :: AnsweredAt(t, j, i)
  }

  // The last dataplane call turned capture on for g.
  ghost predicate OnAt(t: seq<Event>, g: Generation, i: nat)
    requires i <= |t|
  {
    exists j: nat :: LastTouch(t, j, i) && (t[j] == Activate(g, true) || t[j] == Handoff(g))
  }

  lemma TouchStep(t: seq<Event>, p: nat, j: nat)
    requires p < |t|
    ensures LastTouch(t, j, p + 1) <==> if TouchesCapture(t[p]) then j == p else LastTouch(t, j, p)
  {
  }

  lemma CaptureStep(t: seq<Event>, p: nat)
    requires p < |t|
    ensures OffAt(t, p + 1) <==> if TouchesCapture(t[p]) then t[p] == Deactivate(true) else OffAt(t, p)
    ensures forall g :: OnAt(t, g, p + 1) <==>
                        if TouchesCapture(t[p]) then t[p] == Activate(g, true) || t[p] == Handoff(g) else OnAt(t, g, p)
  {
    forall j: nat ensures LastTouch(t, j, p + 1) <==> if TouchesCapture(t[p]) then j == p else LastTouch(t, j, p) {
      TouchStep(t, p, j);
    }
    assert TouchesCapture(t[p]) ==> LastTouch(t, p, p + 1);
  }

  // Capture is known to be off exactly when the last dataplane call was a
  // successful cleanup, and known to be on for g exactly when it was a
  // successful activation (or a verified handoff) of g.
  lemma {:induction false} CaptureMeaning(t: seq<Event>, i: nat)
    requires i <= |t|
    ensures SummaryAt(t, i).capture.Off? <==> OffAt(t, i)
    ensures forall g :: SummaryAt(t, i).capture == On(g) <==> OnAt(t, g, i)
  {
    if i > 0 {
      CaptureMeaning(t, i - 1);
      CaptureStep(t, i - 1);
    }
  }

  lemma {:induction false} ReadyMeaning(t: seq<Event>, i: nat)
    requires i <= |t|
    ensures SummaryAt(t, i).ready <==> ReadyAt(t, i)
  {
    if i > 0 {
      ReadyMeaning(t, i - 1);
      if Answers(t[i - 1]) {
        assert AnsweredAt(t, i - 1, i);
      } else if !MovesCore(t[i - 1]) {
        if ReadyAt(t, i) {
          var j: nat :| AnsweredAt(t, j, i);
          assert AnsweredAt(t, j, i - 1);
        }
        if ReadyAt(t, i - 1) {
          var j: nat :| AnsweredAt(t, j, i - 1);
          assert AnsweredAt(t, j, i);
        }
      }
    }
  }

  lemma {:induction false} StopSteps(t: seq<Event>, i: nat)
    requires i <= |t|
    ensures SummaryAt(t, i).failOpen
       <==> forall s: nat {:trigger t[s]} | s < i && t[s].CoreStop? :: SummaryAt(t, s).capture.Off?
  {
    if i > 0 {
      var p := i - 1;
      StopSteps(t, p);
      StepOrder(SummaryAt(t, p), t[p]);
      assert forall s: nat {:trigger t[s]} :: s < i <==> s < p || s == p;
    }
  }

  lemma {:induction false} ActivationSteps(t: seq<Event>, i: nat)
    requires i <= |t|
    ensures SummaryAt(t, i).readyFirst
       <==> forall s: nat {:trigger t[s]} | s < i && t[s].Activate? :: SummaryAt(t, s).ready
  {
    if i > 0 {
      var p := i - 1;
      ActivationSteps(t, p);
      StepOrder(SummaryAt(t, p), t[p]);
      assert forall s: nat {:trigger t[s]} :: s < i <==> s < p || s == p;
    }
  }

  // Fail-open ordering: the core is only ever told to stop when the last call
  // touching the dataplane was a successful cleanup.
  lemma FailOpenMeaning(t: seq<Event>, i: nat)
    requires i <= |t|
    ensures SummaryAt(t, i).failOpen <==> forall s: nat | s < i && t[s].CoreStop? :: OffAt(t, s)
  {
    StopSteps(t, i);
    forall s: nat | s < i ensures SummaryAt(t, s).capture.Off? <==> OffAt(t, s) { CaptureMeaning(t, s); }
  }

  // Readiness comes first: no dataplane change is made for a core that has not
  // answered a readiness probe since it was last started or stopped.
  lemma ReadyFirstMeaning(t: seq<Event>, i: nat)
    requires i <= |t|
    ensures SummaryAt(t, i).readyFirst <==> forall s: nat | s < i && t[s].Activate? :: ReadyAt(t, s)
  {
    ActivationSteps(t, i);
    forall s: nat | s < i ensures SummaryAt(t, s).ready <==> ReadyAt(t, s) { ReadyMeaning(t, s); }
  }

  // A settled activation: capture is on, and after the call that turned it on
  // the core answered a readiness probe and was neither started nor stopped.
  ghost predicate SettledFor(t: seq<Event>, g: Generation, a: nat, p: nat, i: nat)
    requires i <= |t|
  {
    LastTouch(t, a, i) && AnsweredAt(t, p, i) && a <= p && (t[a] == Activate(g, true) || t[a] == Handoff(g))
  }

  lemma {:induction false} SettledMeaning(t: seq<Event>, i: nat) returns (a: nat, p: nat)
    requires i <= |t| && SummaryAt(t, i).settled
    ensures SummaryAt(t, i).capture.On?
    ensures SettledFor(t, SummaryAt(t, i).capture.g, a, p, i)
  {
    var n := i - 1;
    if SummaryAt(t, n).settled && !TouchesCapture(t[n]) && !MovesCore(t[n]) {
      a, p := SettledMeaning(t, n);
    } else {
      assert Answers(t[n]);
      CaptureMeaning(t, i);
      var g := SummaryAt(t, i).capture.g;
      a :| LastTouch(t, a, i) && (t[a] == Activate(g, true) || t[a] == Handoff(g));
      p := n;
    }
  }

  // A verified activation: capture is on for g, and after the call that turned it
  // on the restart guard verified, the core being left alone since.
  ghost predicate VerifiedFor(t: seq<Event>, g: Generation, a: nat, v: nat, i: nat)
    requires i <= |t|
  {
    && a < v < i && LastTouch(t, a, i) && t[v] == Verify(true)
    && (t[a] == Activate(g, true) || t[a] == Handoff(g))
    && forall k | v < k < i :: !MovesCore(t[k])
  }

  lemma {:induction false} VerifiedMeaning(t: seq<Event>, i: nat) returns (a: nat, v: nat)
    requires i <= |t| && SummaryAt(t, i).verified
    ensures SummaryAt(t, i).capture.On?
    ensures VerifiedFor(t, SummaryAt(t, i).capture.g, a, v, i)
  {
    var n := i - 1;
    if SummaryAt(t, n).verified && !TouchesCapture(t[n]) && !MovesCore(t[n]) {
      a, v := VerifiedMeaning(t, n);
    } else {
      assert t[n] == Verify(true);
      CaptureMeaning(t, i);
      var g := SummaryAt(t, i).capture.g;
      a :| LastTouch(t, a, i) && (t[a] == Activate(g, true) || t[a] == Handoff(g));
      v := n;
    }
  }

  // The generations of the start calls before position i, in order.
  function StartsBefore(t: seq<Event>, i: nat): (s: seq<Generation>)
    requires i <= |t|
  {
    if i == 0 then [] else StartsBefore(t, i - 1) + if t[i - 1].CoreStart? then [t[i - 1].g] else []
  }

  lemma {:induction false} StartsMeaning(t: seq<Event>, i: nat)
    requires i <= |t|
    ensures SummaryAt(t, i).starts == StartsBefore(t, i)
  {
    if i > 0 { StartsMeaning(t, i - 1); }
  }

  // A start call is listed right after those before it, and stays there.
  lemma {:induction false} StartListed(t: seq<Event>, j: nat, i: nat)
    requires j < i <= |t| && t[j].CoreStart?
    ensures |StartsBefore(t, j)| < |StartsBefore(t, i)| && StartsBefore(t, i)[|StartsBefore(t, j)|] == t[j].g
  {
    if j < i - 1 { StartListed(t, j, i - 1); }
  }

  // Whatever is listed was the generation of a start call.
  lemma {:induction false} ListedWasStarted(t: seq<Event>, i: nat, k: nat) returns (j: nat)
    requires i <= |t| && k < |StartsBefore(t, i)|
    ensures j < i && t[j].CoreStart? && t[j].g == StartsBefore(t, i)[k] && |StartsBefore(t, j)| == k
  {
    j := i - 1;
    if k < |StartsBefore(t, j)| { j := ListedWasStarted(t, j, k); }
  }

  ghost predicate Disturbs(e: Event) {
    MovesCore(e) || (TouchesCapture(e) && e != Deactivate(true))
  }

  // Stopped means: a successful stop, issued with capture off, after which the
  // core and the dataplane were left alone except for repeated clean cleanups.
  ghost predicate StoppedSince(t: seq<Event>, s: nat, i: nat)
    requires i <= |t|
  {
    s < i && t[s] == CoreStop(true) && OffAt(t, s)
    && forall k | s < k < i :: !Disturbs(t[k])
  }

  ghost predicate StoppedAt(t: seq<Event>, i: nat)
    requires i <= |t|
  {
    exists s: nat :: StoppedSince(t, s, i)
  }

  lemma StoppedStep(t: seq<Event>, i: nat)
    requires i < |t|
    ensures StoppedAt(t, i + 1) <==>
              (t[i] == CoreStop(true) && OffAt(t, i)) || (StoppedAt(t, i) && !Disturbs(t[i]))
  {
    var n := i + 1;
    if StoppedAt(t, n) {
      var s: nat :| StoppedSince(t, s, n);
      if s < i { assert StoppedSince(t, s, i); }
    }
    if t[i] == CoreStop(true) && OffAt(t, i) { assert StoppedSince(t, i, n); }
    if StoppedAt(t, i) && !Disturbs(t[i]) {
      var s: nat :| StoppedSince(t, s, i);
      assert StoppedSince(t, s, n);
    }
  }

  lemma {:induction false} StoppedMeaning(t: seq<Event>, i: nat)
    requires i <= |t|
    ensures SummaryAt(t, i).stopped <==> StoppedAt(t, i)
  {
    if i > 0 {
      var p := i - 1;
      StoppedMeaning(t, p);
      CaptureMeaning(t, p);
      StoppedStep(t, p);
    }
  }
}
