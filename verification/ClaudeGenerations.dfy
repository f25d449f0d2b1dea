/**
 Connections and their generations: which command retires a connection, by position in the log, and
 that nothing a retired connection still posts reaches a later run.
 */
module ClaudeGenerations {
  import opened Wrappers
  import opened ClaudeFrames
  import opened ClaudeSupervisor

  // ---------------------------------------------------------------- retirement

  // The start gets as far as a connection.
  predicate Connects(s: Supervisor, c: Command) {
    c.Start? && s.active == None && c.fate != ConnectFails
  }

  // A result that is forced while delegated work is in flight.
  predicate EndsByForce(s: Supervisor, c: Command)
    requires Indexes(s)
  {
    && c.Received? && c.generation == s.generation && s.active.Some?
    && var h := s.handles[s.active.value];
       h.end == None && h.acked && !IsEcho(c.frame, h.uuid) && c.frame.kind == Outcome && Forces(c.frame) && s.inflight != {}
  }

  // The active run, if it is the one asked for, is interrupted before its echo.
  predicate InterruptsEarly(s: Supervisor, c: Command)
    requires Indexes(s)
  {
    && c.Interrupt? && c.works && s.connected && s.active.Some?
    && (c.wanted == None || c.wanted == Some(s.handles[s.active.value].run))
    && !s.handles[s.active.value].acked
  }

  // The command retires the connection there is.
  predicate Retires(s: Supervisor, c: Command)
    requires Indexes(s)
  {
    match c
    case Start(_, _, fate) => Connects(s, c) && fate == QueryFails
    case Received(_, _) => EndsByForce(s, c)
    case Stopped(generation) => generation == s.generation
    case Interrupt(_, _) => InterruptsEarly(s, c)
    case Close => true
  }

  // Every active run has a connection, that of the current generation.
  ghost predicate Linked(s: Supervisor) {
    Indexes(s) && (s.active.Some? ==> s.connected && s.handles[s.active.value].end == None)
  }

  lemma ReceivedLinks(s: Supervisor, generation: nat, f: Frame)
    requires Linked(s)
    ensures var c := Received(generation, f);
            var s' := Step(s, c);
            Linked(s') && s'.generation == s.generation && (s'.connected <==> s.connected && !Retires(s, c))
  {
  }

  lemma OtherLinks(s: Supervisor, c: Command)
    requires Linked(s) && !c.Received?
    ensures var s' := Step(s, c);
            && Linked(s')
            && (s'.connected <==> (s.connected || Connects(s, c)) && !Retires(s, c))
            && s'.generation == s.generation + if Connects(s, c) && !s.connected then 1 else 0
  {
  }

  /** What one command does to the connection: it is up afterwards exactly if it was or the command
      connects, and the command does not retire it; and a new one has the next generation. */
  lemma LinkStep(s: Supervisor, c: Command)
    requires Linked(s)
    ensures var s' := Step(s, c);
            && Linked(s')
            && (s'.connected <==> (s.connected || Connects(s, c)) && !Retires(s, c))
            && s'.generation == s.generation + if Connects(s, c) && !s.connected then 1 else 0
  {
    if c.Received? {
      ReceivedLinks(s, c.generation, c.frame);
    } else {
      OtherLinks(s, c);
    }
  }

  lemma RunFront(log: seq<Command>, m: nat)
    requires m < |log|
    ensures Run(log[..m + 1]) == Step(Run(log[..m]), log[m])
  {
    assert log[..m + 1][..m] == log[..m];
  }

  lemma {:induction false} RunLinked(log: seq<Command>)
    ensures Linked(Run(log))
    decreases |log|
  {
    if log == [] {
    } else {
      RunLinked(log[..|log| - 1]);
      LinkStep(Run(log[..|log| - 1]), log[|log| - 1]);
    }
  }

  // ---------------------------------------------------------------- between two moments

  ghost predicate RetiresAt(log: seq<Command>, r: nat) {
    r < |log| && Indexes(Run(log[..r])) && Retires(Run(log[..r]), log[r])
  }

  // The connection before and after command m.
  lemma LinkAt(log: seq<Command>, m: nat)
    requires m < |log|
    ensures var s, s' := Run(log[..m]), Run(log[..m + 1]);
            && (s'.connected <==> (s.connected || Connects(s, log[m])) && !RetiresAt(log, m))
            && s'.generation == s.generation + if Connects(s, log[m]) && !s.connected then 1 else 0
  {
    RunLinked(log[..m]);
    RunFront(log, m);
    LinkStep(Run(log[..m]), log[m]);
  }

  // Past this generation, or still at it without a connection.
  predicate Beyond(s: Supervisor, generation: nat) {
    s.generation > generation || (s.generation == generation && !s.connected)
  }

  lemma {:induction false} BeyondStays(log: seq<Command>, r: nat, m: nat, generation: nat)
    requires r <= m <= |log| && Beyond(Run(log[..r]), generation)
    ensures Beyond(Run(log[..m]), generation)
    decreases m
  {
    if r == m {
    } else {
      BeyondStays(log, r, m - 1, generation);
      LinkAt(log, m - 1);
    }
  }

  // From its retirement on, every state is beyond the connection's generation.
  lemma RetiredBeyond(log: seq<Command>, r: nat, m: nat)
    requires RetiresAt(log, r) && r < m <= |log|
    ensures Beyond(Run(log[..m]), Run(log[..r + 1]).generation)
  {
    LinkAt(log, r);
    BeyondStays(log, r + 1, m, Run(log[..r + 1]).generation);
  }

  ghost predicate Unretired(log: seq<Command>, i: nat, m: nat) {
    forall r: nat :: i <= r < m ==> !RetiresAt(log, r)
  }

  lemma {:induction false} ConnectionStays(log: seq<Command>, i: nat, m: nat)
    requires i <= m <= |log| && Run(log[..i]).connected && Unretired(log, i, m)
    ensures Run(log[..m]).connected && Run(log[..m]).generation == Run(log[..i]).generation
    decreases m
  {
    if i == m {
    } else {
      ConnectionStays(log, i, m - 1);
      LinkAt(log, m - 1);
    }
  }

  // ---------------------------------------------------------------- which connection a run has

  // Run k was started by a command that connected, and has that connection.
  ghost predicate Started(log: seq<Command>, k: nat) {
    k < |Run(log).handles| &&
    var h := Run(log).handles[k];
    && h.since < |log| && Connects(Run(log[..h.since]), log[h.since])
    && log[h.since].run == h.run && log[h.since].uuid == h.uuid
    && h.generation == Run(log[..h.since + 1]).generation
    && k == |Run(log[..h.since]).handles|
  }

  lemma HandleStays(s: Supervisor, c: Command, k: nat)
    requires Indexes(s) && k < |s.handles|
    ensures var s' := Step(s, c);
            && k < |s'.handles|
            && var h, h' := s.handles[k], s'.handles[k];
               h'.run == h.run && h'.uuid == h.uuid && h'.since == h.since && h'.generation == h.generation
  {
  }

  lemma HandleNew(s: Supervisor, c: Command, k: nat)
    requires Indexes(s) && |s.handles| <= k < |Step(s, c).handles|
    ensures k == |s.handles| && Connects(s, c)
    ensures var h := Step(s, c).handles[k];
            h.run == c.run && h.uuid == c.uuid && h.since == s.clock && h.generation == Step(s, c).generation
  {
  }

  lemma {:induction false} EveryStarted(log: seq<Command>, k: nat)
    requires k < |Run(log).handles|
    ensures Started(log, k)
    decreases |log|
  {
    if log == [] {
    } else {
      var n := |log| - 1;
      var s := Run(log[..n]);
      RunLinked(log[..n]);
      RunOk(log[..n]);
      if k < |s.handles| {
        EveryStarted(log[..n], k);
        HandleStays(s, log[n], k);
        var since := s.handles[k].since;
        assert log[..n][..since] == log[..since] && log[..n][..since + 1] == log[..since + 1];
      } else {
        HandleNew(s, log[n], k);
        assert log[..n + 1] == log;
      }
    }
  }

  lemma {:induction false} GenerationGrows(log: seq<Command>, i: nat, m: nat)
    requires i <= m <= |log|
    ensures Run(log[..i]).generation <= Run(log[..m]).generation
    decreases m
  {
    if i == m {
    } else {
      GenerationGrows(log, i, m - 1);
      LinkAt(log, m - 1);
    }
  }

  // Command i connects, and its connection has this generation.
  ghost predicate StartsAt(log: seq<Command>, i: nat, generation: nat) {
    i < |log| && Connects(Run(log[..i]), log[i]) && Run(log[..i + 1]).generation == generation
  }

  lemma HandleStartsAt(log: seq<Command>, k: nat)
    requires k < |Run(log).handles|
    ensures StartsAt(log, Run(log).handles[k].since, Run(log).handles[k].generation)
  {
    EveryStarted(log, k);
  }

  lemma SameConnection(log: seq<Command>, i: nat, j: nat, a: nat, b: nat)
    requires i < j && StartsAt(log, i, a) && StartsAt(log, j, b) && Unretired(log, i, j)
    ensures a == b
  {
    LinkAt(log, i);
    assert !RetiresAt(log, i);
    ConnectionStays(log, i + 1, j);
    LinkAt(log, j);
  }

  lemma NewConnection(log: seq<Command>, i: nat, j: nat, a: nat, b: nat, r: nat)
    requires StartsAt(log, i, a) && StartsAt(log, j, b) && i <= r < j && RetiresAt(log, r)
    ensures a < b
  {
    GenerationGrows(log, i + 1, r + 1);
    RetiredBeyond(log, r, j);
    LinkAt(log, j);
  }

  lemma StartsCompare(log: seq<Command>, i: nat, j: nat, a: nat, b: nat)
    requires i < j && StartsAt(log, i, a) && StartsAt(log, j, b)
    ensures if Unretired(log, i, j) then a == b else a < b
  {
    if Unretired(log, i, j) {
      SameConnection(log, i, j, a, b);
    } else {
      var r: nat :| i <= r < j && RetiresAt(log, r);
      NewConnection(log, i, j, a, b, r);
    }
  }

  /** Two runs, the earlier one first: they share a connection exactly if no command from the first start
      to the second retired it, and otherwise the later one has a larger generation. */
  lemma GenerationsExactly(log: seq<Command>, a: nat, b: nat)
    requires a < |Run(log).handles| && b < |Run(log).handles| && Run(log).handles[a].since < Run(log).handles[b].since
    ensures var ha, hb := Run(log).handles[a], Run(log).handles[b];
            if Unretired(log, ha.since, hb.since) then ha.generation == hb.generation else ha.generation < hb.generation
  {
    HandleStartsAt(log, a);
    HandleStartsAt(log, b);
    var ha, hb := Run(log).handles[a], Run(log).handles[b];
    StartsCompare(log, ha.since, hb.since, ha.generation, hb.generation);
  }

  /** Nothing a retired connection still posts changes any run: from its retirement on, a frame or an end
      with its generation, or an earlier one, only lets time pass. */
  lemma RetiredIsSilent(log: seq<Command>, r: nat, m: nat, c: Command)
    requires RetiresAt(log, r) && r < m <= |log|
    requires (c.Received? || c.Stopped?) && c.generation <= Run(log[..r + 1]).generation
    ensures var s := Run(log[..m]); Step(s, c) == s.(clock := s.clock + 1)
  {
    RetiredBeyond(log, r, m);
    RunLinked(log[..m]);
    RunOk(log[..m]);
  }

  // ---------------------------------------------------------------- how a run breaks

  // Run k breaks: its start fails after connecting, or its connection is retired under it.
  predicate BreaksRun(s: Supervisor, c: Command, k: nat)
    requires Indexes(s)
  {
    || (k == |s.handles| && Connects(s, c) && c.fate in {AdmissionFails, QueryFails})
    || (s.active == Some(k) && Retires(s, c) && !EndsByForce(s, c))
  }

  lemma BreakStep(s: Supervisor, c: Command, k: nat)
    requires Linked(s) && k < |Step(s, c).handles| && (s.active.Some? ==> s.handles[s.active.value].until == None)
    ensures Step(s, c).handles[k].until ==
              if BreaksRun(s, c, k) then Some(s.clock) else if k < |s.handles| then s.handles[k].until else None
    ensures BreaksRun(s, c, k) ==> Step(s, c).handles[k].end == Some(Broken)
  {
    if c.Start? && k >= |s.handles| {
      HandleNew(s, c, k);
    }
  }

  ghost predicate BreaksAt(log: seq<Command>, k: nat, j: nat) {
    j < |log| && Indexes(Run(log[..j])) && BreaksRun(Run(log[..j]), log[j], k)
  }

  lemma ActiveUnbroken(log: seq<Command>)
    ensures var s := Run(log); s.active.Some? ==> s.handles[s.active.value].until == None && s.handles[s.active.value].end == None
  {
    RunOk(log);
    var s := Run(log);
    if s.active.Some? {
      assert HandleOk(s, log, s.active.value);
    }
  }

  lemma BreakNow(log: seq<Command>, k: nat)
    requires log != [] && k < |Run(log).handles|
    ensures var n := |log| - 1;
            var s := Run(log[..n]);
            && (BreaksAt(log, k, n) ==> (k < |s.handles| ==> s.handles[k].until == None))
            && Run(log).handles[k].until ==
                 if BreaksAt(log, k, n) then Some(n) else if k < |s.handles| then s.handles[k].until else None
  {
    var n := |log| - 1;
    RunLinked(log[..n]);
    ActiveUnbroken(log[..n]);
    BreakStep(Run(log[..n]), log[n], k);
  }

  lemma BreaksEarlier(log: seq<Command>, k: nat, j: nat)
    requires log != [] && j < |log| - 1
    ensures BreaksAt(log[..|log| - 1], k, j) <==> BreaksAt(log, k, j)
  {
    assert log[..|log| - 1][..j] == log[..j];
  }

  lemma {:induction false} NotYetBroken(log: seq<Command>, k: nat, j: nat)
    requires k >= |Run(log).handles|
    ensures !BreaksAt(log, k, j)
    decreases |log|
  {
    if log == [] || j >= |log| {
    } else {
      var n := |log| - 1;
      var s := Run(log[..n]);
      RunLinked(log[..n]);
      if s.handles != [] {
        HandleStays(s, log[n], |s.handles| - 1);
      }
      if j < n {
        NotYetBroken(log[..n], k, j);
        BreaksEarlier(log, k, j);
      }
    }
  }

  /** When a run broke: exactly at the command that failed its start after connecting, or that retired the
      connection under it, be it the receiver's end, an interrupt before the echo or the close. */
  lemma {:induction false} BrokenExactly(log: seq<Command>, k: nat, j: nat)
    requires k < |Run(log).handles|
    ensures Run(log).handles[k].until == Some(j) <==> BreaksAt(log, k, j)
    decreases |log|
  {
    if log == [] {
    } else {
      var n := |log| - 1;
      BreakNow(log, k);
      if j < n {
        BreaksEarlier(log, k, j);
      }
      if k < |Run(log[..n]).handles| {
        BrokenExactly(log[..n], k, j);
      } else {
        NotYetBroken(log[..n], k, j);
      }
    }
  }

  /** The end of the current connection's receiver breaks the active run, and no other. */
  lemma StopBreaks(s: Supervisor, generation: nat)
    requires Linked(s)
    ensures var s' := Step(s, Stopped(generation));
            && |s'.handles| == |s.handles|
            && (forall k :: 0 <= k < |s.handles| && !(generation == s.generation && s.active == Some(k)) ==> s'.handles[k] == s.handles[k])
            && (generation == s.generation && s.active.Some? ==>
                  var h := s.handles[s.active.value];
                  s'.handles[s.active.value] == h.(end := Some(Broken), until := Some(s.clock)) && s'.active == None && !s'.connected)
  {
  }
}
