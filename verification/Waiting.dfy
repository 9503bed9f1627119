/** Connections that wait for admission: who may wait, and until when. */
module Waiting {
  import opened Json
  import opened Protocol
  import opened Streams
  import opened Coordinator
  import opened Invariants
  import opened Effects
  import opened Frames
  import opened Turns

  /** A connection waits, and has not been answered. */
  predicate Undecided(s: State, g: nat) { g in s.pending && s.pending[g].closeAfterWrite == None }

  /** An accepted connection waits for two seconds from the time it was accepted, if these are not over
      already, fewer than sixteen others wait, and its workers can be started. */
  lemma AcceptedWaits(s: State, at: nat, now: nat, env: Env)
    ensures var r, b := Dispatch(s, Accepted(at), now, env), ExpirePending(s, now);
            if now < at + 2000 && |b.pending| < 16 then
              if env.spawn(s.generation + 1) then
                && r.ok && r.s.pending.Keys == b.pending.Keys + {s.generation + 1} && Undecided(r.s, s.generation + 1)
                && r.s.pending[s.generation + 1].deadline == at + 2000
              else !r.ok
            else r == Out(b, true)
  {
    hide ExpirePending, AcceptPending;
    ExpireIs(s, now);
    Acceptance(ExpirePending(s, now), at, now, env);
  }

  lemma Acceptance(s: State, at: nat, now: nat, env: Env)
    ensures var r := AcceptPending(s, at, now, env);
            if now < at + 2000 && |s.pending| < 16 then
              if env.spawn(s.generation + 1) then
                && r.ok && r.s.pending.Keys == s.pending.Keys + {s.generation + 1} && Undecided(r.s, s.generation + 1)
                && r.s.pending[s.generation + 1].deadline == at + 2000
              else !r.ok
            else r == Out(s, true)
  {
  }

  predicate Remaining(s: State, s': State, now: nat, stalled: set<Source>) {
    && (forall g | g in s'.pending :: g in s.pending && s'.pending[g] == s.pending[g])
    && (forall g | g in s.pending ::
          g in s'.pending
          <==> FromClient(g) !in stalled && (s.pending[g].closeAfterWrite.Some? || now < s.pending[g].deadline))
  }

  /** What is left of the waiting connections when an event is awaited: those that were answered, or are
      in time, and whose output has not stalled; unless a stop begins, which closes all of them. */
  lemma PrologueKeepsWaiting(s: State, now: nat, stalled: set<Source>, env: Env)
    ensures var p := Prologue(s, now, stalled, env);
            p.ok ==>
              || (p.s.stopRequested && p.s.pending == map[])
              || Remaining(s, p.s, now, stalled)
  {
    hide Disconnect, UpstreamFailed, BeginStop;
    var s0 := ExpirePending(s, now);
    var s1 := s0.(pending := map g | g in s0.pending && FromClient(g) !in stalled :: s0.pending[g]);
    LeavesWaiting(s1, now, env);
    FailureKeepsWaiting(s1);
    FailureKeepsWaiting(Disconnect(s1, now, env).s);
    var s2 := ExpireStalled(s0, stalled, now, env);
    if s2.ok { StopClosesAll(AdvanceDeadline(s2.s, now), now, env); }
  }

  lemma FailureKeepsWaiting(s: State)
    ensures UpstreamFailed(s).pending == s.pending
  {
  }

  lemma ShutdownKeepsWaiting(s: State, after: AfterExit, now: nat, env: Env)
    ensures BeginShutdown(s, after, now, env).s.pending == s.pending
    ensures BeginShutdown(s, after, now, env).s.stopRequested == s.stopRequested
  {
  }

  lemma RestartKeepsWaiting(s: State, now: nat, env: Env)
    ensures BeginRestart(s, now, env).s.pending == s.pending
    ensures BeginRestart(s, now, env).s.stopRequested == s.stopRequested
  {
    hide BeginShutdown;
    ShutdownKeepsWaiting(s, Restart, now, env);
  }

  lemma LeavesWaiting(s: State, now: nat, env: Env)
    ensures Disconnect(s, now, env).s.pending == s.pending
    ensures Disconnect(s, now, env).s.stopRequested == s.stopRequested
  {
    hide Settle, BeginRestart, DropClient, Same;
    if s.client.Some? {
      var s1 := Settle(DropClient(s), s.client.value, env).s;
      SettleSame(DropClient(s), s.client.value, env);
      SettledWaiting(DropClient(s), s1);
      DroppedWaiting(s);
      RestartKeepsWaiting(s1, now, env);
    }
  }

  lemma SettledWaiting(s: State, s': State)
    requires Same(s, s', NONE)
    ensures s'.pending == s.pending && s'.stopRequested == s.stopRequested
  {
  }

  lemma DroppedWaiting(s: State)
    ensures DropClient(s).pending == s.pending && DropClient(s).stopRequested == s.stopRequested
  {
  }

  lemma StopClosesAll(s: State, now: nat, env: Env)
    ensures var s' := BeginStop(s, now, env).s; s'.pending == map[] && s'.stopRequested
  {
    hide Disconnect, BeginShutdown;
    var s0 := s.(stopRequested := true, accepting := false, pending := map[]);
    LeavesWaiting(s0, now, env);
    ShutdownKeepsWaiting(Disconnect(s0, now, env).s, Stop, now, env);
  }

  /** The first message of a connection decides about it, and about no other: it becomes the client, or it
      is a request that is answered, after which the connection only waits for the answer to be
      written, or it goes. */
  lemma FirstMessageDecides(s: State, g: nat, read: ReaderEvent, now: nat, env: Env)
    requires Steady(s) && g in ExpirePending(s, now).pending
    ensures var b, s' := ExpirePending(s, now), Dispatch(s, Reader(FromClient(g), read), now, env).s;
            && s'.pending - {g} == b.pending - {g}
            && (g in s'.pending <==> Answerable(b, g, read, env) && env.write(s.attempts))
            && (g in s'.pending ==> s'.pending[g].closeAfterWrite == Some(b.pending[g].client.nextWriteId + 1))
            && (Admits(b, g, read, env) && s'.client.Some? ==> s'.client.value.generation == g)
            && (!Admits(b, g, read, env) ==> s'.client == s.client)
  {
    hide ExpirePending, HandlePendingMessage, Admits, NormalizeInitialize;
    ExpireIs(s, now);
    Decided(ExpirePending(s, now), g, read, now, env);
  }

  lemma Decided(s: State, g: nat, read: ReaderEvent, now: nat, env: Env)
    requires Steady(s) && g in s.pending
    ensures var s' := HandlePendingMessage(s, g, read, now, env).s;
            && s'.pending - {g} == s.pending - {g}
            && (g in s'.pending <==> Answerable(s, g, read, env) && env.write(s.attempts))
            && (g in s'.pending ==> s'.pending[g].closeAfterWrite == Some(s.pending[g].client.nextWriteId + 1))
            && (Admits(s, g, read, env) && s'.client.Some? ==> s'.client.value.generation == g)
            && (!Admits(s, g, read, env) ==> s'.client == s.client)
  {
    hide HandleClientMessage, NormalizeInitialize;
    if Admits(s, g, read, env) { AdmittedWaits(s, g, read.m, now, env); }
  }

  lemma AdmittedWaits(s: State, g: nat, m: Message, now: nat, env: Env)
    requires Steady(s) && g in s.pending && m.name == Initialize && m.id.Some?
    ensures var s' := HandleClientMessage(Admitted(s, g), m, now, env).s;
            s'.pending == s.pending - {g} && s'.client.Some? && s'.client.value.generation == g
  {
    hide HandleInitialize, Disconnect;
    InitializeKeepsWaiting(Admitted(s, g), m, now, env);
  }

  lemma InitializeKeepsWaiting(s: State, m: Message, now: nat, env: Env)
    requires s.client.Some?
    ensures var s' := HandleInitialize(s, m, now, env).s;
            && s'.pending == s.pending
            && s'.client.Some? && s'.client.value.generation == s.client.value.generation
  {
    hide NormalizeInitialize, BeginRestart, Fingerprint, WantsBackgroundWork, IdKey;
    if m.id.Some? && m.params.Some? && NormalizeInitialize(m.params.value, env.target).Ok? {
      var normal := NormalizeInitialize(m.params.value, env.target).value;
      var init := PendingInitialize(m.id.value, normal, Fingerprint(normal), WantsBackgroundWork(normal));
      var s1 := SetPhase(s.(pendingInitialize := Some(init)), WaitingForUpstream);
      RestartKeepsWaiting(s1, now, env);
      RestartKeepsClient(s1, now, env);
    }
  }

  lemma RestartKeepsClient(s: State, now: nat, env: Env)
    ensures BeginRestart(s, now, env).s.client == s.client
  {
  }

  /** Requests are answered, unless they admit their connection. */
  predicate Answerable(s: State, g: nat, read: ReaderEvent, env: Env)
    requires g in s.pending
  {
    read.Received? && read.m.id.Some? && read.m.name != Missing && !Admits(s, g, read, env)
  }

  /** A connection whose output fails goes, and no other does. */
  lemma FailedGoes(s: State, g: nat, id: nat, now: nat, env: Env)
    requires g in ExpirePending(s, now).pending
    ensures var b := ExpirePending(s, now);
            Dispatch(s, Writer(FromClient(g), Refused(id)), now, env) == Out(b.(pending := b.pending - {g}), true)
  {
    hide ExpirePending;
  }
}
