/** The compound lifecycle actions of lib/actions/restart.js and lib/actions/stop.js:
    a down command, the wait until the service reads down, and for restart an up
    command, each step starting only after the previous one resolved. */
module Actions {
  import opened Js
  import opened NdtUtil

  /** The svc command line that takes the service down. */
  function DownCommand(env: Env): string {
    env.svc.bin + " -d " + env.appLink
  }

  /** The svc command line that brings the service up. */
  function UpCommand(env: Env): string {
    env.svc.bin + " -u " + env.appLink
  }

  /** The commands a successful down followed by a wait of `checks` status probes sends. */
  function WaitTrace(env: Env, checks: nat): seq<string> {
    [DownCommand(env)] + Repeat(StatusCommand(env), checks)
  }

  /** Such a trace holds only the down command and status probes, never an up command. */
  lemma WaitTraceCommands(env: Env, checks: nat)
    ensures forall c :: c in WaitTrace(env, checks) ==> c == DownCommand(env) || c == StatusCommand(env)
  {
  }

  /** The wait that follows a down command sent as launch number `base`. */
  function WaitAfterDown(script: nat -> Reply, base: nat): WaitRun {
    WaitFrom(script, base + 1, EffectiveTimeout(0), 0)
  }

  /** The wait after a down command probes at least once and at most 121 times. */
  lemma WaitAfterDownBounds(script: nat -> Reply, base: nat)
    ensures 1 <= WaitAfterDown(script, base).checks <= 121
  {
    WaitFromSettles(script, base + 1, 120, 0);
  }

  /** stop: down, then the wait with its default timeout. It resolves exactly when the
      wait sees the service down, rejects with the down command's failure or with
      'Service did not stop', never sends an up command, and stays pending when a
      status probe fails. */
  method Stop(sv: Supervisor, env: Env) returns (r: Settled<()>)
    modifies sv
    ensures var base := |old(sv.sent)|;
            var down := sv.script(base);
            var w := WaitAfterDown(sv.script, base);
      && (down.Failed? ==> r == Rejected(down.reason) && sv.sent == old(sv.sent) + [DownCommand(env)])
      && (down.Done? ==> sv.sent == old(sv.sent) + WaitTrace(env, w.checks))
      && (down.Done? && w.verdict == Stopped ==> r == Resolved(()))
      && (down.Done? && w.verdict == TimedOut ==> r == Rejected(DidNotStop))
      && (down.Done? && w.verdict == Hung ==> r == Pending)
    ensures forall c :: c in sv.sent[|old(sv.sent)|..] ==> c == DownCommand(env) || c == StatusCommand(env)
  {
    SvcCommandFlags(env);
    ghost var before := sv.sent;
    var down := sv.Svc(env, "down");
    if down.value.Failed? {
      assert sv.sent[|before|..] == [DownCommand(env)];
      return Rejected(down.value.reason);
    }
    var run, delays := sv.WaitDown(env, 0);
    assert sv.sent[|before|..] == WaitTrace(env, run.checks);
    WaitTraceCommands(env, run.checks);
    if run.verdict == Hung {
      return Pending;
    }
    if run.verdict == TimedOut {
      return Rejected(DidNotStop);
    }
    r := Resolved(());
  }

  /** restart: down, then the wait with its default timeout, then up. Up is sent only
      after the wait saw the service down; a rejected down or wait rejects restart with
      the same reason and nothing more is sent; a failed status probe leaves it pending.
      It resolves with the up command's output parts. */
  method Restart(sv: Supervisor, env: Env) returns (r: Settled<seq<string>>)
    modifies sv
    ensures var base := |old(sv.sent)|;
            var down := sv.script(base);
            var w := WaitAfterDown(sv.script, base);
            var up := sv.script(base + 1 + w.checks);
      && (down.Failed? ==> r == Rejected(down.reason) && sv.sent == old(sv.sent) + [DownCommand(env)])
      && (down.Done? && w.verdict == Stopped ==>
            sv.sent == old(sv.sent) + WaitTrace(env, w.checks) + [UpCommand(env)] &&
            r == (if up.Done? then Resolved(up.out) else Rejected(up.reason)))
      && (down.Done? && w.verdict == TimedOut ==>
            r == Rejected(DidNotStop) && sv.sent == old(sv.sent) + WaitTrace(env, w.checks))
      && (down.Done? && w.verdict == Hung ==>
            r == Pending && sv.sent == old(sv.sent) + WaitTrace(env, w.checks))
  {
    SvcCommandFlags(env);
    ghost var before := sv.sent;
    var down := sv.Svc(env, "down");
    if down.value.Failed? {
      return Rejected(down.value.reason);
    }
    var run, delays := sv.WaitDown(env, 0);
    if run.verdict == Hung {
      return Pending;
    }
    if run.verdict == TimedOut {
      return Rejected(DidNotStop);
    }
    var up := sv.Svc(env, "up");
    assert sv.sent == before + WaitTrace(env, run.checks) + [UpCommand(env)];
    if up.value.Failed? {
      return Rejected(up.value.reason);
    }
    r := Resolved(up.value.out);
  }
}
