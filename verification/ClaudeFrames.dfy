/**
 Which frames of one long message stream belong to one run: a declarative definition by position,
 and the step-by-step reading the supervisor does, proved to agree.
 */
module ClaudeFrames {
  import opened Wrappers

  datatype Kind = User | Outcome | Other

  // Task lifecycle of a frame: a delegated agent or workflow starts, is reported, or changes status.
  datatype Subtype = NoTask | Started(deferring: bool) | Notified | Updated(terminal: bool)

  // `replayed` is what proves that a user frame is the replay of a submitted one.
  datatype Frame = Frame(kind: Kind, uuid: string, replayed: bool, subtype: Subtype, task: string, error: bool, aborted: bool, body: string)

  predicate IsEcho(f: Frame, uuid: string) {
    f.kind.User? && f.uuid == uuid && f.replayed
  }

  // A result that ends the run even with delegated work in flight.
  predicate Forces(f: Frame) {
    f.error || f.aborted
  }

  // ---------------------------------------------------------------- by position

  // The replay of the run's own frame was seen before position i.
  ghost predicate Echoed(fs: seq<Frame>, uuid: string, i: nat)
    requires i <= |fs|
  {
    exists j :: 0 <= j < i && IsEcho(fs[j], uuid)
  }

  // Frames that count for the run: after its echo, and not another echo.
  ghost predicate Owned(fs: seq<Frame>, uuid: string, i: nat)
    requires i < |fs|
  {
    Echoed(fs, uuid, i) && !IsEcho(fs[i], uuid)
  }

  predicate StartsTask(f: Frame, t: string) {
    !f.kind.Outcome? && f.task != "" && f.task == t && f.subtype.Started? && f.subtype.deferring
  }

  predicate StopsTask(f: Frame, t: string) {
    !f.kind.Outcome? && f.task != "" && f.task == t && (f.subtype.Notified? || (f.subtype.Updated? && f.subtype.terminal))
  }

  // Task t was started by the run before i and has not stopped since.
  ghost predicate InFlight(fs: seq<Frame>, uuid: string, i: nat, t: string)
    requires i <= |fs|
  {
    exists j :: 0 <= j < i && Owned(fs, uuid, j) && StartsTask(fs[j], t)
                && forall k :: j < k < i && Owned(fs, uuid, k) ==> !StopsTask(fs[k], t)
  }

  ghost predicate Idle(fs: seq<Frame>, uuid: string, i: nat)
    requires i <= |fs|
  {
    forall t :: !InFlight(fs, uuid, i, t)
  }

  // A result that ends the run: forced, or nothing is in flight.
  ghost predicate Ends(fs: seq<Frame>, uuid: string, i: nat)
    requires i < |fs|
  {
    Owned(fs, uuid, i) && fs[i].kind.Outcome? && (Forces(fs[i]) || Idle(fs, uuid, i))
  }

  ghost predicate Ended(fs: seq<Frame>, uuid: string, i: nat)
    requires i <= |fs|
  {
    exists j :: 0 <= j < i && Ends(fs, uuid, j)
  }

  /** Frame i is shown to the run's reader: it is the run's own, no earlier frame ended the run, and
      if it is a result it is the one that ends it. */
  ghost predicate Shown(fs: seq<Frame>, uuid: string, i: nat)
    requires i < |fs|
  {
    Owned(fs, uuid, i) && !Ended(fs, uuid, i) && (fs[i].kind.Outcome? ==> Ends(fs, uuid, i))
  }

  // The shown frames among the first n, in order.
  ghost function Stream(fs: seq<Frame>, uuid: string, n: nat): seq<Frame>
    requires n <= |fs|
  {
    if n == 0 then [] else Stream(fs, uuid, n - 1) + if Shown(fs, uuid, n - 1) then [fs[n - 1]] else []
  }

  // ---------------------------------------------------------------- step by step

  datatype Reading = Reading(acked: bool, tasks: set<string>, delivered: seq<Frame>, end: Option<Frame>)

  const UNREAD := Reading(false, {}, [], None)

  function NextTasks(tasks: set<string>, f: Frame): set<string> {
    if f.task == "" then tasks
    else
      match f.subtype
      case Started(deferring) => if deferring then tasks + {f.task} else tasks
      case Notified => tasks - {f.task}
      case Updated(terminal) => if terminal then tasks - {f.task} else tasks
      case NoTask => tasks
  }

  // What one received frame does to the active run.
  function Read(r: Reading, uuid: string, f: Frame): Reading {
    if r.end.Some? then r
    else if !r.acked then r.(acked := IsEcho(f, uuid))
    else if IsEcho(f, uuid) then r
    else if f.kind.Outcome? then
      if r.tasks != {} && !Forces(f) then r
      else Reading(true, {}, r.delivered + [f], Some(f))
    else r.(tasks := NextTasks(r.tasks, f), delivered := r.delivered + [f])
  }

  function ReadAll(fs: seq<Frame>, uuid: string, n: nat): Reading
    requires n <= |fs|
  {
    if n == 0 then UNREAD else Read(ReadAll(fs, uuid, n - 1), uuid, fs[n - 1])
  }

  // ---------------------------------------------------------------- they agree

  lemma EchoedStep(fs: seq<Frame>, uuid: string, n: nat)
    requires n < |fs|
    ensures Echoed(fs, uuid, n + 1) <==> Echoed(fs, uuid, n) || IsEcho(fs[n], uuid)
  {
  }

  lemma EndedStep(fs: seq<Frame>, uuid: string, n: nat)
    requires n < |fs|
    ensures Ended(fs, uuid, n + 1) <==> Ended(fs, uuid, n) || Ends(fs, uuid, n)
  {
  }

  // The ledger of tasks is what is in flight by position, while the run has not ended.
  ghost predicate LedgerIs(tasks: set<string>, fs: seq<Frame>, uuid: string, n: nat)
    requires n <= |fs|
  {
    forall t :: t in tasks <==> InFlight(fs, uuid, n, t)
  }

  lemma LedgerStep(tasks: set<string>, fs: seq<Frame>, uuid: string, n: nat)
    requires n < |fs| && LedgerIs(tasks, fs, uuid, n)
    ensures Owned(fs, uuid, n) && !fs[n].kind.Outcome? ==> LedgerIs(NextTasks(tasks, fs[n]), fs, uuid, n + 1)
    ensures !Owned(fs, uuid, n) || fs[n].kind.Outcome? ==> LedgerIs(tasks, fs, uuid, n + 1)
  {
  }

  ghost predicate Agrees(r: Reading, fs: seq<Frame>, uuid: string, n: nat)
    requires n <= |fs|
  {
    && (r.acked <==> Echoed(fs, uuid, n))
    && (r.end.Some? <==> Ended(fs, uuid, n))
    && (r.end.None? ==> LedgerIs(r.tasks, fs, uuid, n))
    && r.delivered == Stream(fs, uuid, n)
    && (r.end.Some? ==> r.tasks == {} && r.delivered != [] && r.delivered[|r.delivered| - 1] == r.end.value)
  }

  lemma IdleIs(tasks: set<string>, fs: seq<Frame>, uuid: string, n: nat)
    requires n <= |fs| && LedgerIs(tasks, fs, uuid, n)
    ensures tasks == {} <==> Idle(fs, uuid, n)
  {
  }

  lemma ReadAgrees(r: Reading, fs: seq<Frame>, uuid: string, n: nat)
    requires n < |fs| && Agrees(r, fs, uuid, n)
    ensures Agrees(Read(r, uuid, fs[n]), fs, uuid, n + 1)
  {
    EchoedStep(fs, uuid, n);
    EndedStep(fs, uuid, n);
    if r.end.None? {
      IdleIs(r.tasks, fs, uuid, n);
      LedgerStep(r.tasks, fs, uuid, n);
    } else {
      EndedEchoed(fs, uuid, n);
    }
  }

  lemma EndedEchoed(fs: seq<Frame>, uuid: string, n: nat)
    requires n <= |fs| && Ended(fs, uuid, n)
    ensures Echoed(fs, uuid, n)
  {
  }

  /** Reading a stream frame by frame shows exactly the frames the positions say: everything through
      the first echo is dropped, later echoes and intermediate results too, and the first result
      that is forced or finds nothing in flight is the last frame shown. */
  lemma {:induction false} ReadingIsStream(fs: seq<Frame>, uuid: string, n: nat)
    requires n <= |fs|
    ensures Agrees(ReadAll(fs, uuid, n), fs, uuid, n)
    decreases n
  {
    if n == 0 {
      assert !Echoed(fs, uuid, 0) && !Ended(fs, uuid, 0);
    } else {
      ReadingIsStream(fs, uuid, n - 1);
      ReadAgrees(ReadAll(fs, uuid, n - 1), fs, uuid, n - 1);
    }
  }

  // A reading depends only on what was read.
  lemma {:induction false} ReadPrefix(fs: seq<Frame>, gs: seq<Frame>, uuid: string, n: nat)
    requires n <= |fs| && n <= |gs| && fs[..n] == gs[..n]
    ensures ReadAll(fs, uuid, n) == ReadAll(gs, uuid, n)
    decreases n
  {
    if n == 0 {
    } else {
      assert fs[..n - 1] == fs[..n][..n - 1] && gs[..n - 1] == gs[..n][..n - 1];
      ReadPrefix(fs, gs, uuid, n - 1);
      assert fs[n - 1] == fs[..n][n - 1] && gs[n - 1] == gs[..n][n - 1];
    }
  }

  lemma ReadOneMore(fs: seq<Frame>, f: Frame, uuid: string)
    ensures ReadAll(fs + [f], uuid, |fs| + 1) == Read(ReadAll(fs, uuid, |fs|), uuid, f)
  {
    assert (fs + [f])[..|fs|] == fs[..|fs|];
    ReadPrefix(fs + [f], fs, uuid, |fs|);
  }
}
