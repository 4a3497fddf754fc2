/**
 * cmd/run.go: the shutdown rule of boot, the MAC-address admission gate
 * bootWithMacAddressObservation, and the choice between the two in RunE.
 * Services, signals, sleeps and GetMacAddress are inputs: a gate run reads a finite
 * sequence of address samples and of boot outcomes, and running out of either means the
 * gate is still running (asleep or inside boot).
 */
module RunCommand {
  import opened Options
  import opened Net
  import opened Errors
  import WifiMac

  datatype Service = ListenerService | WebFrontend | WebApi

  const AllServices: set<Service> := {ListenerService, WebFrontend, WebApi}

  /** What ends boot's select: the context is done, or one service's Start failed with an error. */
  datatype Wakeup = ContextDone | ServiceFailed(service: Service, error: Error)

  /** The services boot shuts down and the error it returns. */
  datatype BootReport = BootReport(shutdown: set<Service>, result: Option<Error>)

  const Unexpected := "unexpected error occurred"

  /**
   * boot: on cancellation every service is shut down and ctx.Err() of the derived timeout
   * context (a cancelled parent makes it Canceled) is returned; on a failure the other two
   * are shut down and the failure, wrapped, is returned. Shutdown errors are only logged.
   */
  function Boot(w: Wakeup): BootReport {
    match w
    case ContextDone => BootReport(AllServices, Some(Canceled))
    case ServiceFailed(s, e) => BootReport(AllServices - {s}, Some(Wrapped(Unexpected, e)))
  }

  /** Cancellation shuts down all three; a failure shuts down exactly the other two, never the failed one. */
  lemma BootShutdownSet(w: Wakeup)
    ensures w.ContextDone? ==> Boot(w).shutdown == AllServices
    ensures w.ServiceFailed? ==>
      (w.service !in Boot(w).shutdown && |Boot(w).shutdown| == 2
       && forall s :: s != w.service ==> s in Boot(w).shutdown)
  {
    if w.ServiceFailed? {
      var rest := AllServices - {w.service};
      match w.service
      case ListenerService => assert rest == {WebFrontend, WebApi};
      case WebFrontend => assert rest == {ListenerService, WebApi};
      case WebApi => assert rest == {ListenerService, WebFrontend};
    }
  }

  /** boot returns the failing service's error (wrapped) or Canceled, and never nil. */
  lemma BootNeverReturnsNil(w: Wakeup)
    ensures Boot(w).result.Some?
    ensures Boot(w).result == Some(if w.ContextDone? then Canceled else Wrapped(Unexpected, w.error))
  {
  }

  /** One GetMacAddress call: the hardware address or the error. */
  type Sample = Result<seq<byte>>

  predicate Matches(target: string, s: Sample) {
    s.Ok? && WifiMac.MacString(s.value) == target
  }

  /** What the gate did, in order: slept after a sample, or called boot. */
  datatype Action = Slept | Booted

  datatype GateOutcome = ReturnedNil | ReturnedErr(error: Error) | StillRunning

  datatype GateRun = GateRun(outcome: GateOutcome, actions: seq<Action>)

  function Then(a: seq<Action>, r: GateRun): GateRun {
    GateRun(r.outcome, a + r.actions)
  }

  /**
   * The specification of bootWithMacAddressObservation. A failed or non-matching sample:
   * sleep and sample again. A matching sample: boot; nil from boot returns nil; an error
   * from boot is followed by a re-sample, which returns the error wrapped if it still
   * matches, and otherwise (failed or different) sleeps and starts over.
   */
  function Gate(target: string, samples: seq<Sample>, boots: seq<Option<Error>>): (r: GateRun)
    ensures |r.actions| <= |samples|
    ensures r.outcome != StillRunning ==> r.actions != [] && r.actions[|r.actions| - 1] == Booted
    decreases |samples|
  {
    if samples == [] then GateRun(StillRunning, [])
    else if !Matches(target, samples[0]) then Then([Slept], Gate(target, samples[1..], boots))
    else if boots == [] then GateRun(StillRunning, [Booted])
    else if boots[0].None? then GateRun(ReturnedNil, [Booted])
    else if |samples| == 1 then GateRun(StillRunning, [Booted])
    else if Matches(target, samples[1]) then GateRun(ReturnedErr(Wrapped(Unexpected, boots[0].value)), [Booted])
    else Then([Booted, Slept], Gate(target, samples[2..], boots[1..]))
  }

  /** Gate read from sample i and boot j on, one case per branch of the loop body. */
  lemma GateStep(target: string, samples: seq<Sample>, boots: seq<Option<Error>>, i: nat, j: nat)
    requires i < |samples| && j <= |boots|
    ensures var g := Gate(target, samples[i..], boots[j..]);
      && (!Matches(target, samples[i]) ==> g == Then([Slept], Gate(target, samples[i + 1..], boots[j..])))
      && (Matches(target, samples[i]) && j == |boots| ==> g == GateRun(StillRunning, [Booted]))
      && (Matches(target, samples[i]) && j < |boots| && boots[j].None? ==> g == GateRun(ReturnedNil, [Booted]))
      && (Matches(target, samples[i]) && j < |boots| && boots[j].Some? && i + 1 == |samples| ==>
            g == GateRun(StillRunning, [Booted]))
      && (Matches(target, samples[i]) && j < |boots| && boots[j].Some? && i + 1 < |samples| && Matches(target, samples[i + 1]) ==>
            g == GateRun(ReturnedErr(Wrapped(Unexpected, boots[j].value)), [Booted]))
      && (Matches(target, samples[i]) && j < |boots| && boots[j].Some? && i + 1 < |samples| && !Matches(target, samples[i + 1]) ==>
            g == Then([Booted, Slept], Gate(target, samples[i + 2..], boots[j + 1..])))
  {
    assert samples[i..][1..] == samples[i + 1..];
    if i + 1 < |samples| {
      assert samples[i..][2..] == samples[i + 2..];
    }
    if j < |boots| {
      assert boots[j..][1..] == boots[j + 1..];
    }
  }

  lemma ThenThen(a: seq<Action>, b: seq<Action>, r: GateRun)
    ensures Then(a, Then(b, r)) == Then(a + b, r)
  {
  }

  /** bootWithMacAddressObservation's loop, proved against Gate. */
  method BootWithMacAddressObservation(target: string, samples: seq<Sample>, boots: seq<Option<Error>>)
    returns (outcome: GateOutcome, actions: seq<Action>)
    ensures GateRun(outcome, actions) == Gate(target, samples, boots)
  {
    var i, j := 0, 0;
    actions := [];
    while true
      invariant 0 <= i <= |samples| && 0 <= j <= |boots|
      invariant Gate(target, samples, boots) == Then(actions, Gate(target, samples[i..], boots[j..]))
      decreases |samples| - i
    {
      if i == |samples| {
        return StillRunning, actions;
      }
      GateStep(target, samples, boots, i, j);
      var ma := samples[i];
      if ma.Err? {
        // no network: sleep and sample again
        ThenThen(actions, [Slept], Gate(target, samples[i + 1..], boots[j..]));
        actions := actions + [Slept];
        i := i + 1;
        continue;
      }
      if WifiMac.MacString(ma.value) != target {
        // another address: sleep and sample again
        ThenThen(actions, [Slept], Gate(target, samples[i + 1..], boots[j..]));
        actions := actions + [Slept];
        i := i + 1;
        continue;
      }
      if j == |boots| {
        return StillRunning, actions + [Booted];
      }
      var err := boots[j];
      if err.None? {
        return ReturnedNil, actions + [Booted];
      }
      if i + 1 == |samples| {
        return StillRunning, actions + [Booted];
      }
      var ma2 := samples[i + 1];
      if ma2.Ok? && WifiMac.MacString(ma2.value) == target {
        return ReturnedErr(Wrapped(Unexpected, err.value)), actions + [Booted];
      }
      // the re-sample failed or shows another address: sleep and start over
      ThenThen(actions, [Booted, Slept], Gate(target, samples[i + 2..], boots[j + 1..]));
      actions := actions + [Booted, Slept];
      i, j := i + 2, j + 1;
    }
  }

  /** Samples none of which matches: the gate sleeps after each and never boots or returns. */
  lemma {:induction false} NoMatchNeverBoots(target: string, samples: seq<Sample>, boots: seq<Option<Error>>)
    requires forall i :: 0 <= i < |samples| ==> !Matches(target, samples[i])
    ensures Gate(target, samples, boots) == GateRun(StillRunning, seq(|samples|, _ => Slept))
    decreases |samples|
  {
    if samples != [] {
      NoMatchNeverBoots(target, samples[1..], boots);
      assert [Slept] + seq(|samples| - 1, _ => Slept) == seq(|samples|, _ => Slept);
    }
  }

  /**
   * Every boot follows a sample of the configured address: the k-th action answers the k-th
   * sample, and a Booted action answers a matching one. Hence the number of boots never
   * exceeds the number of matching samples.
   */
  lemma {:induction false} BootsOnlyOnMatch(target: string, samples: seq<Sample>, boots: seq<Option<Error>>)
    ensures var g := Gate(target, samples, boots);
      forall k :: 0 <= k < |g.actions| && g.actions[k] == Booted ==> k < |samples| && Matches(target, samples[k])
    ensures CountBoots(Gate(target, samples, boots).actions) <= CountMatches(target, samples)
    decreases |samples|
  {
    if samples != [] {
      var r := Gate(target, samples, boots);
      if !Matches(target, samples[0]) {
        BootsOnlyOnMatch(target, samples[1..], boots);
      } else if boots != [] && boots[0].Some? && |samples| > 1 && !Matches(target, samples[1]) {
        BootsOnlyOnMatch(target, samples[2..], boots[1..]);
        assert samples[1..][1..] == samples[2..];
      }
    }
  }

  function CountBoots(actions: seq<Action>): nat
    decreases |actions|
  {
    if actions == [] then 0 else (if actions[0] == Booted then 1 else 0) + CountBoots(actions[1..])
  }

  function CountMatches(target: string, samples: seq<Sample>): nat
    decreases |samples|
  {
    if samples == [] then 0 else (if Matches(target, samples[0]) then 1 else 0) + CountMatches(target, samples[1..])
  }

  /** A failed sample is handled like a sample of some other address: sleep and sample again. */
  lemma SamplingFailureIsAMismatch(target: string, e: Error, other: seq<byte>, rest: seq<Sample>, boots: seq<Option<Error>>)
    requires WifiMac.MacString(other) != target
    ensures Gate(target, [Err(e)] + rest, boots) == Gate(target, [Ok(other)] + rest, boots)
    ensures Gate(target, [Err(e)] + rest, boots) == Then([Slept], Gate(target, rest, boots))
  {
    assert ([Err(e)] + rest)[1..] == rest;
    assert ([Ok(other)] + rest)[1..] == rest;
  }

  /** The gate returns an error only as the wrapped error of one of the boots; a sampling failure never is one. */
  lemma {:induction false} GateErrorIsABootError(target: string, samples: seq<Sample>, boots: seq<Option<Error>>)
    requires Gate(target, samples, boots).outcome.ReturnedErr?
    ensures exists k :: (0 <= k < |boots| && boots[k].Some?
      && Gate(target, samples, boots).outcome.error == Wrapped(Unexpected, boots[k].value))
    decreases |samples|
  {
    var r := Gate(target, samples, boots);
    if !Matches(target, samples[0]) {
      GateErrorIsABootError(target, samples[1..], boots);
    } else if !Matches(target, samples[1]) {
      GateErrorIsABootError(target, samples[2..], boots[1..]);
      var k :| 0 <= k < |boots[1..]| && boots[1..][k].Some?
        && Gate(target, samples[2..], boots[1..]).outcome.error == Wrapped(Unexpected, boots[1..][k].value);
      assert boots[k + 1] == boots[1..][k];
    } else {
      assert r.outcome.error == Wrapped(Unexpected, boots[0].value);
    }
  }

  /** The gate returns nil only when some boot returned nil. */
  lemma {:induction false} GateNilNeedsNilBoot(target: string, samples: seq<Sample>, boots: seq<Option<Error>>)
    requires Gate(target, samples, boots).outcome == ReturnedNil
    ensures exists k :: 0 <= k < |boots| && boots[k].None?
    decreases |samples|
  {
    if !Matches(target, samples[0]) {
      GateNilNeedsNilBoot(target, samples[1..], boots);
    } else if boots[0].Some? {
      GateNilNeedsNilBoot(target, samples[2..], boots[1..]);
      var k :| 0 <= k < |boots[1..]| && boots[1..][k].None?;
      assert boots[k + 1] == boots[1..][k];
    } else {
      assert boots[0].None?;
    }
  }

  /** With this boot, which never returns nil, the gate never returns nil. */
  lemma GateWithBootNeverReturnsNil(target: string, samples: seq<Sample>, wakeups: seq<Wakeup>)
    ensures Gate(target, samples, seq(|wakeups|, k requires 0 <= k < |wakeups| => Boot(wakeups[k]).result)).outcome != ReturnedNil
  {
    var boots := seq(|wakeups|, k requires 0 <= k < |wakeups| => Boot(wakeups[k]).result);
    if Gate(target, samples, boots).outcome == ReturnedNil {
      GateNilNeedsNilBoot(target, samples, boots);
      var k :| 0 <= k < |boots| && boots[k].None?;
      BootNeverReturnsNil(wakeups[k]);
    }
  }

  /** A failed boot followed by a matching re-sample returns that boot error, wrapped. */
  lemma FailedBootThenMatchReturnsError(target: string, s1: Sample, s2: Sample, rest: seq<Sample>, e: Error, boots: seq<Option<Error>>)
    requires Matches(target, s1) && Matches(target, s2)
    ensures Gate(target, [s1, s2] + rest, [Some(e)] + boots) == GateRun(ReturnedErr(Wrapped(Unexpected, e)), [Booted])
  {
  }

  /** A failed boot followed by a failed or different re-sample sleeps and starts over with the next boot. */
  lemma FailedBootThenMismatchStartsOver(target: string, s1: Sample, s2: Sample, rest: seq<Sample>, e: Error, boots: seq<Option<Error>>)
    requires Matches(target, s1) && !Matches(target, s2)
    ensures Gate(target, [s1, s2] + rest, [Some(e)] + boots) == Then([Booted, Slept], Gate(target, rest, boots))
  {
    assert ([s1, s2] + rest)[2..] == rest;
    assert ([Some(e)] + boots)[1..] == boots;
  }

  /** How RunE ends: nil (a signal came first, or the goroutine finished without an error), an error, or still waiting. */
  datatype Exit = ExitNil | ExitErr(error: Error) | Waiting

  /**
   * RunE: the gate runs iff a boot MAC address is configured, otherwise boot itself; an
   * error from the goroutine is returned unless the signal came first, and a goroutine that
   * ends without error sends nothing, so RunE then waits for the signal.
   */
  function RunE(bootMac: string, signalled: bool, gate: GateOutcome, boot: Option<Error>): (x: Exit) {
    var sent: Option<Error> := if bootMac != "" then (if gate.ReturnedErr? then Some(gate.error) else None) else boot;
    if signalled then ExitNil
    else if sent.Some? then ExitErr(sent.value)
    else Waiting
  }

  /** The goroutine takes the gate path iff the configured address is non-empty. */
  lemma RunEPathSelection(bootMac: string, gate: GateOutcome, boot: Option<Error>)
    ensures bootMac == "" ==> RunE(bootMac, false, gate, boot) == (if boot.Some? then ExitErr(boot.value) else Waiting)
    ensures bootMac != "" ==> RunE(bootMac, false, gate, boot) == (if gate.ReturnedErr? then ExitErr(gate.error) else Waiting)
    ensures RunE(bootMac, true, gate, boot) == ExitNil
  {
  }
}
