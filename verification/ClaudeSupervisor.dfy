/**
 The supervisor of one chat: one connection after another, one run after another on each, and a
 queue of commands handled one at a time.  Every run's stream is the projection of the frames its
 own connection delivered since it started.
 */
module ClaudeSupervisor {
  import opened Wrappers
  import opened ClaudeFrames

  // How a run ended: by its result, or by an error of the transport.
  datatype End = Finished(result: Frame) | Broken

  // A run handle: the id its caller knows it by, and the id of its query, which the echo carries.
  // `since` and `until` are the command counts at its creation and at its failure.
  datatype Handle = Handle(run: string, uuid: string, generation: nat, acked: bool, delivered: seq<Frame>, end: Option<End>, since: nat, until: Option<nat>)

  // How starting a run goes.
  datatype Fate = ConnectFails | AdmissionFails | QueryFails | Accepted

  datatype Command =
    | Start(run: string, uuid: string, fate: Fate)
    | Received(generation: nat, frame: Frame)
    | Stopped(generation: nat)
    | Interrupt(wanted: Option<string>, works: bool)
    | Close

  datatype Supervisor = Supervisor(
    handles: seq<Handle>,
    active: Option<nat>,
    inflight: set<string>,
    generation: nat,
    connected: bool,
    clock: nat)

  const FRESH := Supervisor([], None, {}, 0, false, 0)

  predicate Indexes(s: Supervisor) {
    s.active.Some? ==> s.active.value < |s.handles|
  }

  // ---------------------------------------------------------------- handlers

  function Fail(h: Handle, clock: nat): Handle {
    if h.end.Some? then h else h.(end := Some(Broken), until := Some(clock))
  }

  function FailActive(s: Supervisor): Supervisor
    requires Indexes(s)
  {
    if s.active.None? then s.(inflight := {})
    else s.(handles := s.handles[s.active.value := Fail(s.handles[s.active.value], s.clock)], active := None, inflight := {})
  }

  function Connect(s: Supervisor): Supervisor {
    if s.connected then s else s.(connected := true, generation := s.generation + 1)
  }

  function HandleStart(s: Supervisor, run: string, uuid: string, fate: Fate): Supervisor
    requires Indexes(s)
  {
    if s.active.Some? then s
    else if fate.ConnectFails? then s
    else
      var c := Connect(s);
      var h := Handle(run, uuid, c.generation, false, [], None, s.clock, None);
      match fate
      case AdmissionFails => c.(handles := c.handles + [Fail(h, s.clock)])
      case QueryFails => c.(handles := c.handles + [Fail(h, s.clock)], connected := false)
      case _ => c.(handles := c.handles + [h], active := Some(|c.handles|))
  }

  // The handle as a reading of the stream.
  function ReadingOf(h: Handle, inflight: set<string>): Reading {
    Reading(h.acked, inflight, h.delivered, if h.end.Some? && h.end.value.Finished? then Some(h.end.value.result) else None)
  }

  // What one frame does to the active run and to the ledger of its delegated tasks.
  function Heed(h: Handle, inflight: set<string>, f: Frame): (Handle, set<string>) {
    if !h.acked then (h.(acked := IsEcho(f, h.uuid)), inflight)
    else if IsEcho(f, h.uuid) then (h, inflight)
    else if f.kind.Outcome? then
      if inflight != {} && !Forces(f) then (h, inflight)
      else (h.(delivered := h.delivered + [f], end := Some(Finished(f))), {})
    else (h.(delivered := h.delivered + [f]), NextTasks(inflight, f))
  }

  // A forced end with work still in flight also retires the connection.
  function HandleReceived(s: Supervisor, generation: nat, f: Frame): Supervisor
    requires Indexes(s)
  {
    if generation != s.generation || s.active.None? || s.handles[s.active.value].end.Some? then s
    else
      var (h, tasks) := Heed(s.handles[s.active.value], s.inflight, f);
      s.(handles := s.handles[s.active.value := h],
         active := if h.end.Some? then None else s.active,
         inflight := tasks,
         connected := s.connected && !(h.end.Some? && s.inflight != {}))
  }

  function HandleStopped(s: Supervisor, generation: nat): Supervisor
    requires Indexes(s)
  {
    if generation != s.generation then s else FailActive(s).(connected := false)
  }

  // Interrupts the run given, or whichever is active.  Before the echo that leaves delivery uncertain
  // and retires the connection.
  function HandleInterrupt(s: Supervisor, wanted: Option<string>, works: bool): Supervisor
    requires Indexes(s)
  {
    if s.active.None? || (wanted.Some? && s.handles[s.active.value].run != wanted.value) || !s.connected || !works then s
    else if s.handles[s.active.value].acked then s
    else FailActive(s).(connected := false)
  }

  function Handled(s: Supervisor, c: Command): Supervisor
    requires Indexes(s)
  {
    match c
    case Start(run, uuid, fate) => HandleStart(s, run, uuid, fate)
    case Received(generation, f) => HandleReceived(s, generation, f)
    case Stopped(generation) => HandleStopped(s, generation)
    case Interrupt(wanted, works) => HandleInterrupt(s, wanted, works)
    case Close => FailActive(s).(connected := false)
  }

  function Step(s: Supervisor, c: Command): (s': Supervisor)
    requires Indexes(s)
    ensures Indexes(s')
  {
    Handled(s, c).(clock := s.clock + 1)
  }

  function Run(log: seq<Command>): (s: Supervisor)
    ensures Indexes(s) && s.clock == |log|
    decreases |log|
  {
    if log == [] then FRESH else Step(Run(log[..|log| - 1]), log[|log| - 1])
  }

  // ---------------------------------------------------------------- what a run heard

  // The frames a connection delivered between two points of the log.
  function Heard(log: seq<Command>, generation: nat, since: nat, until: nat): seq<Frame>
    requires until <= |log|
    decreases until
  {
    if until <= since then []
    else
      Heard(log, generation, since, until - 1)
      + if log[until - 1].Received? && log[until - 1].generation == generation then [log[until - 1].frame] else []
  }

  lemma {:induction false} HeardPrefix(log: seq<Command>, c: Command, generation: nat, since: nat, until: nat)
    requires until <= |log|
    ensures Heard(log + [c], generation, since, until) == Heard(log, generation, since, until)
    decreases until
  {
    if until <= since {
    } else {
      HeardPrefix(log, c, generation, since, until - 1);
      assert (log + [c])[until - 1] == log[until - 1];
    }
  }

  // ---------------------------------------------------------------- the invariant

  // A handle shows the projection of what its connection delivered.
  ghost predicate Projects(h: Handle, inflight: set<string>, log: seq<Command>) {
    && h.since <= |log| && (h.until.Some? ==> h.until.value <= |log|)
    && (h.until.Some? <==> h.end == Some(Broken))
    && var fs := Heard(log, h.generation, h.since, if h.until.Some? then h.until.value else |log|);
       var r := ReadAll(fs, h.uuid, |fs|);
       && h.delivered == r.delivered && h.acked == r.acked
       && (h.until.None? ==> r == ReadingOf(h, inflight))
       && (h.until.Some? ==> r.end.None?)
  }

  ghost predicate HandleOk(s: Supervisor, log: seq<Command>, k: nat)
    requires k < |s.handles|
  {
    && s.handles[k].generation <= s.generation
    && Projects(s.handles[k], if s.active == Some(k) then s.inflight else {}, log)
    && (s.active != Some(k) ==> s.handles[k].end.Some?)
  }

  ghost predicate Ok(s: Supervisor, log: seq<Command>) {
    && s.clock == |log|
    && (s.active.Some? ==>
          && s.active.value < |s.handles| && s.handles[s.active.value].end.None?
          && s.handles[s.active.value].generation == s.generation)
    && (s.active.None? ==> s.inflight == {})
    && (forall k :: 0 <= k < |s.handles| ==> HandleOk(s, log, k))
  }

  // ---------------------------------------------------------------- one command

  // A run that is over, or hears nothing, projects as before.
  lemma QuietProjects(h: Handle, inflight: set<string>, log: seq<Command>, c: Command)
    requires Projects(h, inflight, log)
    requires h.end.Some? || !(c.Received? && c.generation == h.generation)
    ensures Projects(h, inflight, log + [c])
  {
    var until := if h.until.Some? then h.until.value else |log|;
    var fs := Heard(log, h.generation, h.since, until);
    HeardPrefix(log, c, h.generation, h.since, until);
    if h.until.None? && c.Received? && c.generation == h.generation {
      assert Heard(log + [c], h.generation, h.since, |log| + 1) == fs + [c.frame];
      ReadOneMore(fs, c.frame, h.uuid);
    } else if h.until.None? {
      assert Heard(log + [c], h.generation, h.since, |log| + 1) == fs;
    }
  }

  // Failing a run stops its clock.
  lemma FailProjects(h: Handle, inflight: set<string>, log: seq<Command>, c: Command)
    requires Projects(h, inflight, log) && h.end.None?
    ensures Projects(Fail(h, |log|), {}, log + [c])
  {
    HeardPrefix(log, c, h.generation, h.since, |log|);
  }

  lemma FreshProjects(run: string, uuid: string, generation: nat, log: seq<Command>, c: Command)
    requires !c.Received?
    ensures var h := Handle(run, uuid, generation, false, [], None, |log|, None);
            Projects(h, {}, log + [c]) && Projects(Fail(h, |log|), {}, log + [c])
  {
  }

  lemma HearProjects(h: Handle, inflight: set<string>, log: seq<Command>, f: Frame)
    requires Projects(h, inflight, log) && h.end.None?
    ensures var (h', tasks) := Heed(h, inflight, f); Projects(h', tasks, log + [Received(h.generation, f)])
  {
    var c := Received(h.generation, f);
    var fs := Heard(log, h.generation, h.since, |log|);
    HeardPrefix(log, c, h.generation, h.since, |log|);
    assert Heard(log + [c], h.generation, h.since, |log| + 1) == fs + [f];
    ReadOneMore(fs, f, h.uuid);
  }

  lemma ReceivedKeeps(s: Supervisor, log: seq<Command>, generation: nat, f: Frame)
    requires Ok(s, log)
    ensures Ok(Step(s, Received(generation, f)), log + [Received(generation, f)])
  {
    var c := Received(generation, f);
    var s' := Step(s, c);
    forall k | 0 <= k < |s'.handles| ensures HandleOk(s', log + [c], k) {
      assert HandleOk(s, log, k);
      if s.active == Some(k) && generation == s.generation {
        HearProjects(s.handles[k], s.inflight, log, f);
      } else {
        QuietProjects(s.handles[k], if s.active == Some(k) then s.inflight else {}, log, c);
      }
    }
  }

  lemma FailActiveKeeps(s: Supervisor, log: seq<Command>, c: Command, connected: bool)
    requires Ok(s, log) && !c.Received?
    ensures Ok(FailActive(s).(connected := connected, clock := s.clock + 1), log + [c])
  {
    var s' := FailActive(s).(connected := connected, clock := s.clock + 1);
    forall k | 0 <= k < |s'.handles| ensures HandleOk(s', log + [c], k) {
      assert HandleOk(s, log, k);
      if s.active == Some(k) {
        FailProjects(s.handles[k], s.inflight, log, c);
      } else {
        QuietProjects(s.handles[k], {}, log, c);
      }
    }
  }

  lemma IgnoredKeeps(s: Supervisor, log: seq<Command>, c: Command)
    requires Ok(s, log) && !c.Received?
    ensures Ok(s.(clock := s.clock + 1), log + [c])
  {
    var s' := s.(clock := s.clock + 1);
    forall k | 0 <= k < |s'.handles| ensures HandleOk(s', log + [c], k) {
      assert HandleOk(s, log, k);
      QuietProjects(s.handles[k], if s.active == Some(k) then s.inflight else {}, log, c);
    }
  }

  // One more run, which is active unless it has failed already.
  lemma InstalledKeeps(s: Supervisor, log: seq<Command>, c: Command, h: Handle, s': Supervisor)
    requires Ok(s, log) && !c.Received? && s.active.None?
    requires s'.handles == s.handles + [h] && s'.inflight == {} && s'.clock == s.clock + 1
    requires s'.active == if h.end.Some? then None else Some(|s.handles|)
    requires s.generation <= s'.generation == h.generation && Projects(h, {}, log + [c])
    ensures Ok(s', log + [c])
  {
    forall k | 0 <= k < |s'.handles| ensures HandleOk(s', log + [c], k) {
      if k < |s.handles| {
        assert HandleOk(s, log, k);
        QuietProjects(s.handles[k], {}, log, c);
      }
    }
  }

  lemma StartKeeps(s: Supervisor, log: seq<Command>, run: string, uuid: string, fate: Fate)
    requires Ok(s, log)
    ensures Ok(Step(s, Start(run, uuid, fate)), log + [Start(run, uuid, fate)])
  {
    var c := Start(run, uuid, fate);
    if s.active.Some? || fate.ConnectFails? {
      IgnoredKeeps(s, log, c);
    } else {
      FreshProjects(run, uuid, Connect(s).generation, log, c);
      var s' := Step(s, c);
      InstalledKeeps(s, log, c, s'.handles[|s.handles|], s');
    }
  }

  lemma StepKeeps(s: Supervisor, log: seq<Command>, c: Command)
    requires Ok(s, log)
    ensures Ok(Step(s, c), log + [c])
  {
    match c
    case Start(run, uuid, fate) => StartKeeps(s, log, run, uuid, fate);
    case Received(generation, f) => ReceivedKeeps(s, log, generation, f);
    case Stopped(generation) =>
      IgnoredKeeps(s, log, c);
      FailActiveKeeps(s, log, c, false);
    case Interrupt(wanted, works) =>
      IgnoredKeeps(s, log, c);
      FailActiveKeeps(s, log, c, false);
    case Close => FailActiveKeeps(s, log, c, false);
  }

  lemma {:induction false} RunOk(log: seq<Command>)
    ensures Ok(Run(log), log)
    decreases |log|
  {
    if log == [] {
    } else {
      var n := |log| - 1;
      RunOk(log[..n]);
      StepKeeps(Run(log[..n]), log[..n], log[n]);
      assert log[..n] + [log[n]] == log;
    }
  }

  // ---------------------------------------------------------------- the promise

  /** For every log of commands and every run: what was delivered is exactly the shown part of the
      frames its own connection delivered since it started (until it broke, if it did); it finished
      if and only if one of those frames ends it, and then that frame is the last one delivered;
      and only one run at a time is unfinished. */
  lemma RunProjection(log: seq<Command>, k: nat)
    requires k < |Run(log).handles|
    ensures var s := Run(log); var h := s.handles[k];
            && h.since <= |log| && (h.until.Some? ==> h.until.value <= |log|)
            && (h.until.Some? <==> h.end == Some(Broken))
            && var fs := Heard(log, h.generation, h.since, if h.until.Some? then h.until.value else |log|);
               && h.delivered == Stream(fs, h.uuid, |fs|)
               && ((h.end.Some? && h.end.value.Finished?) <==> Ended(fs, h.uuid, |fs|))
               && (h.end.Some? && h.end.value.Finished? ==> h.delivered != [] && h.delivered[|h.delivered| - 1] == h.end.value.result)
               && (h.end.None? <==> s.active == Some(k))
  {
    RunOk(log);
    var s := Run(log);
    var h := s.handles[k];
    assert HandleOk(s, log, k);
    var fs := Heard(log, h.generation, h.since, if h.until.Some? then h.until.value else |log|);
    ReadingIsStream(fs, h.uuid, |fs|);
  }

  /** Delegated tasks never leak from one run into the next. */
  lemma NoTaskLeaks(log: seq<Command>, t: string)
    requires t in Run(log).inflight
    ensures var s := Run(log);
            && s.active.Some?
            && var h := s.handles[s.active.value];
               var fs := Heard(log, h.generation, h.since, |log|); InFlight(fs, h.uuid, |fs|, t)
  {
    RunOk(log);
    var s := Run(log);
    assert HandleOk(s, log, s.active.value);
    var h := s.handles[s.active.value];
    var fs := Heard(log, h.generation, h.since, |log|);
    ReadingIsStream(fs, h.uuid, |fs|);
  }

  // ---------------------------------------------------------------- the supervisor object

  lemma RunAppend(log: seq<Command>, c: Command)
    ensures Run(log + [c]) == Step(Run(log), c)
  {
    assert (log + [c])[..|log|] == log;
  }

  class ChatSupervisor {
    var handles: seq<Handle>
    var active: Option<nat>
    var inflight: set<string>
    var generation: nat
    var connected: bool
    var clock: nat
    ghost var log: seq<Command>   // the commands handled so far

    function View(): Supervisor
      reads this
    {
      Supervisor(handles, active, inflight, generation, connected, clock)
    }

    // The supervisor is that of a run.
    ghost predicate Valid()
      reads this
    {
      View() == Run(log)
    }

    constructor ()
      ensures Valid() && log == []
    {
      handles, active, inflight, generation, connected, clock, log := [], None, {}, 0, false, 0, [];
    }

    method FailActiveRun()
      requires Indexes(View())
      modifies this`handles, this`active, this`inflight
      ensures View() == FailActive(old(View()))
    {
      if active.Some? {
        var h := handles[active.value];
        if h.end.None? {
          h := h.(end := Some(Broken), until := Some(clock));
        }
        handles := handles[active.value := h];
        active := None;
      }
      inflight := {};
    }

    // What a frame of the current connection does to the active run.
    method Deliver(f: Frame)
      requires Indexes(View()) && active.Some? && handles[active.value].end.None?
      modifies this`handles, this`active, this`inflight, this`connected
      ensures View() == HandleReceived(old(View()), generation, f)
    {
      var k := active.value;
      if !handles[k].acked {
        // Output from before this query is dropped; its own replay opens the run.
        handles := handles[k := handles[k].(acked := IsEcho(f, handles[k].uuid))];
        return;
      }
      if IsEcho(f, handles[k].uuid) {
        return;
      }
      if f.kind.Outcome? {
        var busy := inflight != {};
        if busy && !Forces(f) {
          return;
        }
        handles := handles[k := handles[k].(delivered := handles[k].delivered + [f])];
        handles := handles[k := handles[k].(end := Some(Finished(f)))];
        active := None;
        inflight := {};
        if busy {
          connected := false;
        }
        return;
      }
      if f.task != "" {
        match f.subtype
        case Started(deferring) =>
          if deferring {
            inflight := inflight + {f.task};
          }
        case Notified => inflight := inflight - {f.task};
        case Updated(terminal) =>
          if terminal {
            inflight := inflight - {f.task};
          }
        case NoTask =>
      }
      handles := handles[k := handles[k].(delivered := handles[k].delivered + [f])];
    }

    method OnReceived(from: nat, f: Frame)
      requires Valid()
      modifies this
      ensures Valid() && log == old(log) + [Received(from, f)]
    {
      RunAppend(log, Received(from, f));
      log := log + [Received(from, f)];
      if from == generation && active.Some? && handles[active.value].end.None? {
        Deliver(f);
      }
      clock := clock + 1;
    }

    method OnStart(run: string, uuid: string, fate: Fate) returns (handle: Option<nat>)
      requires Valid()
      modifies this
      ensures Valid() && log == old(log) + [Start(run, uuid, fate)]
      ensures handle.Some? <==> old(active).None? && fate.Accepted?
      ensures handle.Some? ==> active == handle && handle.value < |handles|
                               && handles[handle.value].run == run && handles[handle.value].uuid == uuid
                               && handles[handle.value].delivered == []
    {
      RunAppend(log, Start(run, uuid, fate));
      log := log + [Start(run, uuid, fate)];
      handle := None;
      if active.None? && !fate.ConnectFails? {
        if !connected {
          generation := generation + 1;
          connected := true;
        }
        var h := Handle(run, uuid, generation, false, [], None, clock, None);
        if fate.Accepted? {
          handles := handles + [h];
          active := Some(|handles| - 1);
          handle := active;
        } else {
          handles := handles + [h.(end := Some(Broken), until := Some(clock))];
          connected := fate.AdmissionFails?;
        }
      }
      clock := clock + 1;
    }

    method OnReceiverStopped(from: nat)
      requires Valid()
      modifies this
      ensures Valid() && log == old(log) + [Stopped(from)]
      ensures from == old(generation) ==> active.None? && !connected
      ensures from == old(generation) && old(active).Some? ==>
                |handles| == |old(handles)| && handles[old(active).value].end == Some(Broken)
      ensures from != old(generation) ==> handles == old(handles) && active == old(active) && connected == old(connected)
    {
      RunOk(log);
      RunAppend(log, Stopped(from));
      log := log + [Stopped(from)];
      if from == generation {
        FailActiveRun();
        connected := false;
      }
      clock := clock + 1;
    }

    // True if the run was interrupted; before its echo that also retires the connection.
    method OnInterrupt(wanted: Option<string>, works: bool) returns (ok: bool)
      requires Valid()
      modifies this
      ensures Valid() && log == old(log) + [Interrupt(wanted, works)]
      ensures ok && old(active).Some? && !old(handles)[old(active).value].acked ==> active.None? && !connected
      ensures ok <==> works && old(connected) && old(active).Some?
                      && (wanted.Some? ==> old(handles)[old(active).value].run == wanted.value)
    {
      RunAppend(log, Interrupt(wanted, works));
      log := log + [Interrupt(wanted, works)];
      ok := active.Some? && (wanted.Some? ==> handles[active.value].run == wanted.value) && connected && works;
      if ok && !handles[active.value].acked {
        FailActiveRun();
        connected := false;
      }
      clock := clock + 1;
    }

    method OnClose()
      requires Valid()
      modifies this
      ensures Valid() && log == old(log) + [Close] && active.None?
    {
      RunAppend(log, Close);
      log := log + [Close];
      FailActiveRun();
      connected := false;
      clock := clock + 1;
    }

    /** What the reader of run k got, after any sequence of commands: the projection of what its own
        connection delivered while the run lasted; and whether it finished. */
    method Delivered(k: nat) returns (stream: seq<Frame>, finished: bool)
      requires Valid() && k < |handles|
      ensures var h := handles[k];
              && h.since <= |log| && (h.until.Some? ==> h.until.value <= |log|)
              && var fs := Heard(log, h.generation, h.since, if h.until.Some? then h.until.value else |log|);
                 stream == Stream(fs, h.uuid, |fs|) && (finished <==> Ended(fs, h.uuid, |fs|))
    {
      RunProjection(log, k);
      stream := handles[k].delivered;
      finished := handles[k].end.Some? && handles[k].end.value.Finished?;
    }
  }
}
