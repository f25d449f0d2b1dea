/**
 The client's table of turns and its subscriptions: every turn of every thread is queued exactly the
 notifications `CodexStream` assigns to it, and a failed start never leaves a thread occupied by a
 handle nobody was given.
 */
module CodexTurns {
  import opened Wrappers
  import opened CodexStream

  // An error put into a subscription: none, still to be read, or read.
  datatype Failure = Intact | Pending | Raised

  // A turn handle.  `tap.queue` is everything ever queued, of which the reader has taken the first
  // `taken`.  `since` and `until` are the event counts when it was installed and when the client
  // closed its subscription from outside the stream.
  datatype Handle = Handle(thread: string, tap: Tap, since: nat, until: Option<nat>, taken: nat, failure: Failure)

  // How many unread notifications a subscription holds.
  type Limit = n: nat | 1 <= n witness 1

  datatype Client = Client(limit: Limit, turns: map<string, nat>, handles: seq<Handle>, clock: nat)

  function Idle(limit: Limit): Client {
    Client(limit, map[], [], 0)
  }

  function Fresh(thread: string, clock: nat): Handle {
    Handle(thread, OPEN, clock, None, 0, Intact)
  }

  // How starting a turn fails: cancelled, an error that forbids or allows a retry, or a foreign one.
  datatype Why = Cancelled | Unsafe | Safe | Foreign

  datatype Action =
    | Install(thread: string)
    | Receive(note: Notification)
    | Accept(k: nat, turn: string)
    | Release(k: nat)
    | StartFails(k: nat, why: Why)
    | Take(k: nat)
    | Lose

  // ---------------------------------------------------------------- steps

  function InstallTurn(c: Client, thread: string): Client {
    if thread == "" || thread in c.turns then c
    else c.(turns := c.turns[thread := |c.handles|], handles := c.handles + [Fresh(thread, c.clock)])
  }

  predicate Occupies(c: Client, k: nat)
    requires k < |c.handles|
  {
    c.handles[k].thread in c.turns && c.turns[c.handles[k].thread] == k
  }

  function Shut(h: Handle, clock: nat): Handle {
    if h.tap.closed then h else h.(tap := h.tap.(closed := true), until := Some(clock))
  }

  // Closing with an error drops what is unread and leaves the error in its place.
  function Break(h: Handle, clock: nat): Handle {
    if h.tap.closed then h else Shut(h, clock).(failure := Pending)
  }

  predicate Overflows(h: Handle, tap: Tap, n: Notification, limit: Limit) {
    Matches(tap, h.thread, n) && |tap.queue| >= h.taken + limit
  }

  function Rebound(h: Handle, active: bool, n: Notification): Tap {
    if active then Rebind(h.tap, h.thread, n) else h.tap
  }

  // One notification at one handle; only the thread's active handle follows its turn, and a full
  // subscription breaks.
  function Touch(h: Handle, active: bool, n: Notification, limit: Limit, clock: nat): Handle {
    var t := Rebound(h, active, n);
    if t.closed then h.(tap := t)
    else if Overflows(h, t, n, limit) then Break(h.(tap := t), clock)
    else
      var q := if Matches(t, h.thread, n) then t.(queue := t.queue + [n]) else t;
      var done :=
        || (active && n.kind.TurnCompleted? && (n.turn == "" || t.handle == "" || n.turn == t.handle))
        || (n.kind.TurnCompleted? && n.thread == h.thread && n.turn != "" && t.filter == n.turn)
        || (n.kind.ThreadClosed? && n.thread == h.thread);
      h.(tap := q.(closed := done))
  }

  predicate ActiveFor(c: Client, k: nat, n: Notification) {
    n.thread in c.turns && c.turns[n.thread] == k
  }

  function TouchAll(c: Client, n: Notification, m: nat): seq<Handle>
    requires m <= |c.handles|
  {
    if m == 0 then [] else TouchAll(c, n, m - 1) + [Touch(c.handles[m - 1], ActiveFor(c, m - 1, n), n, c.limit, c.clock)]
  }

  // The active turn is done with when its completion arrives.
  predicate Retires(c: Client, n: Notification) {
    n.thread in c.turns && c.turns[n.thread] < |c.handles| && n.kind.TurnCompleted? &&
    var t := Rebind(c.handles[c.turns[n.thread]].tap, c.handles[c.turns[n.thread]].thread, n);
    n.turn == "" || t.handle == "" || n.turn == t.handle
  }

  function ReceiveNote(c: Client, n: Notification): Client {
    c.(turns := if Retires(c, n) then c.turns - {n.thread} else c.turns, handles := TouchAll(c, n, |c.handles|))
  }

  // The start response binds the turn, unless earlier notifications named another one.
  function AcceptTurn(c: Client, k: nat, turn: string): Client {
    if k >= |c.handles| || turn == "" || c.handles[k].tap.handle != "" then c
    else c.(handles := c.handles[k := c.handles[k].(tap := c.handles[k].tap.(handle := turn, filter := turn))])
  }

  function CloseHandle(c: Client, k: nat): Client
    requires k < |c.handles|
  {
    c.(handles := c.handles[k := Shut(c.handles[k], c.clock)])
  }

  function Vacate(c: Client, k: nat): Client
    requires k < |c.handles|
  {
    if Occupies(c, k) then c.(turns := c.turns - {c.handles[k].thread}) else c
  }

  function ReleaseTurn(c: Client, k: nat): Client {
    if k >= |c.handles| then c else CloseHandle(Vacate(c, k), k)
  }

  // What a failed start leaves behind, and the handle its error carries.
  function FailStart(c: Client, k: nat, why: Why): (Client, Option<nat>)
    requires k < |c.handles|
  {
    match why
    case Cancelled => if Occupies(c, k) then (c, Some(k)) else (CloseHandle(c, k), None)
    case Unsafe => if Occupies(c, k) then (c, Some(k)) else (CloseHandle(c, k), Some(k))
    case _ => (CloseHandle(Vacate(c, k), k), None)
  }

  function BreakAll(c: Client, m: nat): seq<Handle>
    requires m <= |c.handles|
  {
    if m == 0 then [] else BreakAll(c, m - 1) + [Break(c.handles[m - 1], c.clock)]
  }

  // What the reader of a handle can still get.
  function Readable(h: Handle): seq<Notification> {
    if h.failure.Intact? && h.taken <= |h.tap.queue| then h.tap.queue[h.taken..] else []
  }

  // One read that does not wait: the next notification, or the error once.
  function Advance(h: Handle): Handle {
    if Readable(h) != [] then h.(taken := h.taken + 1)
    else if h.failure.Pending? then h.(failure := Raised)
    else h
  }

  function TakeNext(c: Client, k: nat): Client {
    if k >= |c.handles| then c else c.(handles := c.handles[k := Advance(c.handles[k])])
  }

  function Handled(c: Client, a: Action): Client {
    match a
    case Install(thread) => InstallTurn(c, thread)
    case Receive(n) => ReceiveNote(c, n)
    case Accept(k, turn) => AcceptTurn(c, k, turn)
    case Release(k) => ReleaseTurn(c, k)
    case StartFails(k, why) => if k < |c.handles| then FailStart(c, k, why).0 else c
    case Take(k) => TakeNext(c, k)
    case Lose => c.(turns := map[], handles := BreakAll(c, |c.handles|))
  }

  function Step(c: Client, a: Action): Client {
    Handled(c, a).(clock := c.clock + 1)
  }

  function Run(limit: Limit, log: seq<Action>): Client
    decreases |log|
  {
    if log == [] then Idle(limit) else Step(Run(limit, log[..|log| - 1]), log[|log| - 1])
  }

  // ---------------------------------------------------------------- what a turn saw

  function EventFor(a: Action, k: nat): seq<Event> {
    match a
    case Receive(n) => [Note(n)]
    case Accept(j, turn) => if j == k && turn != "" then [Named(turn)] else []
    case _ => []
  }

  // The events for handle k between two points of the log.
  function Seen(log: seq<Action>, k: nat, since: nat, until: nat): seq<Event>
    requires until <= |log|
    decreases until
  {
    if until <= since then [] else Seen(log, k, since, until - 1) + EventFor(log[until - 1], k)
  }

  lemma {:induction false} SeenPrefix(log: seq<Action>, a: Action, k: nat, since: nat, until: nat)
    requires until <= |log|
    ensures Seen(log + [a], k, since, until) == Seen(log, k, since, until)
    decreases until
  {
    if until <= since {
    } else {
      SeenPrefix(log, a, k, since, until - 1);
      assert (log + [a])[until - 1] == log[until - 1];
    }
  }

  lemma {:induction false} RoutePrefix(es: seq<Event>, e: Event, thread: string, n: nat)
    requires n <= |es|
    ensures RouteAll(es + [e], thread, n) == RouteAll(es, thread, n)
    decreases n
  {
    if n == 0 {
    } else {
      RoutePrefix(es, e, thread, n - 1);
      assert (es + [e])[n - 1] == es[n - 1];
    }
  }

  lemma RouteOneMore(es: seq<Event>, e: Event, thread: string)
    ensures RouteAll(es + [e], thread, |es| + 1) == Route(RouteAll(es, thread, |es|), thread, e)
  {
    RoutePrefix(es, e, thread, |es|);
  }

  // ---------------------------------------------------------------- the invariant

  // The reader's place: within what was queued, and a broken subscription is closed.
  predicate Placed(h: Handle) {
    h.taken <= |h.tap.queue| && (h.failure.Intact? || h.tap.closed)
  }

  // A handle's queue is the routing of what it saw.
  predicate Follows(h: Handle, routed: Tap) {
    && h.tap.handle == h.tap.filter
    && h.tap.queue == routed.queue
    && (h.until.None? ==> h.tap.closed == routed.closed)
    && (h.until.Some? ==> h.tap.closed && !routed.closed)
    && (!h.tap.closed ==> h.tap == routed)
    && Placed(h)
  }

  function SeenBy(h: Handle, k: nat, log: seq<Action>): seq<Event>
    requires h.until.Some? ==> h.until.value <= |log|
  {
    Seen(log, k, h.since, if h.until.Some? then h.until.value else |log|)
  }

  ghost predicate HandleOk(h: Handle, k: nat, log: seq<Action>) {
    && h.thread != "" && h.since <= |log| && (h.until.Some? ==> h.until.value <= |log|)
    && var es := SeenBy(h, k, log); Follows(h, RouteAll(es, h.thread, |es|))
  }

  // An open handle is the one its thread is occupied by.
  ghost predicate TableOk(c: Client) {
    && (forall t :: t in c.turns ==> c.turns[t] < |c.handles| && c.handles[c.turns[t]].thread == t)
    && (forall k :: 0 <= k < |c.handles| && !c.handles[k].tap.closed ==> Occupies(c, k))
  }

  ghost predicate Ok(c: Client, log: seq<Action>) {
    && c.clock == |log|
    && TableOk(c)
    && HandlesOk(c.handles, log)
  }

  ghost predicate HandlesOk(handles: seq<Handle>, log: seq<Action>) {
    forall k :: 0 <= k < |handles| ==> HandleOk(handles[k], k, log)
  }

  // ---------------------------------------------------------------- one handle

  lemma QuietHandle(h: Handle, k: nat, log: seq<Action>, a: Action)
    requires HandleOk(h, k, log) && (EventFor(a, k) == [] || h.tap.closed)
    ensures HandleOk(h, k, log + [a])
  {
    var until := if h.until.Some? then h.until.value else |log|;
    SeenPrefix(log, a, k, h.since, until);
    if h.until.None? {
      var es := Seen(log, k, h.since, |log|);
      if EventFor(a, k) == [] {
        assert Seen(log + [a], k, h.since, |log| + 1) == es;
      } else {
        var e := EventFor(a, k)[0];
        assert EventFor(a, k) == [e];
        assert Seen(log + [a], k, h.since, |log| + 1) == es + [e];
        RouteOneMore(es, e, h.thread);
      }
    }
  }

  lemma ShutHandle(h: Handle, k: nat, log: seq<Action>, a: Action)
    requires HandleOk(h, k, log) && EventFor(a, k) == []
    ensures HandleOk(Shut(h, |log|), k, log + [a]) && HandleOk(Break(h, |log|), k, log + [a])
  {
    QuietHandle(h, k, log, a);
    if !h.tap.closed {
      SeenPrefix(log, a, k, h.since, |log|);
    }
  }

  // What overflows is not queued: the handle saw the stream up to it.
  lemma OverflowHandle(h: Handle, k: nat, log: seq<Action>, a: Action, id: string)
    requires HandleOk(h, k, log) && !h.tap.closed
    ensures HandleOk(Break(h.(tap := h.tap.(handle := id, filter := id)), |log|), k, log + [a])
  {
    SeenPrefix(log, a, k, h.since, |log|);
  }

  // Reading moves nothing but the reader.
  lemma AdvanceHandle(h: Handle, k: nat, log: seq<Action>)
    requires HandleOk(h, k, log)
    ensures HandleOk(Advance(h), k, log)
  {
    assert SeenBy(Advance(h), k, log) == SeenBy(h, k, log);
  }

  // Where it fits, an open handle routes a notification as `CodexStream` says.
  lemma TouchRoutes(h: Handle, active: bool, n: Notification, limit: Limit, clock: nat)
    requires !h.tap.closed && h.tap.handle == h.tap.filter && (active <==> n.thread == h.thread)
    requires !Overflows(h, Rebound(h, active, n), n, limit)
    ensures Touch(h, active, n, limit, clock) == h.(tap := Route(h.tap, h.thread, Note(n)))
  {
  }

  lemma TouchOpen(h: Handle, k: nat, log: seq<Action>, n: Notification)
    requires HandleOk(h, k, log) && !h.tap.closed
    ensures HandleOk(h.(tap := Route(h.tap, h.thread, Note(n))), k, log + [Receive(n)])
  {
    var es := Seen(log, k, h.since, |log|);
    SeenPrefix(log, Receive(n), k, h.since, |log|);
    assert Seen(log + [Receive(n)], k, h.since, |log| + 1) == es + [Note(n)];
    RouteOneMore(es, Note(n), h.thread);
  }

  lemma TouchClosed(h: Handle, k: nat, log: seq<Action>, n: Notification, id: string)
    requires HandleOk(h, k, log) && h.tap.closed
    ensures HandleOk(h.(tap := h.tap.(handle := id, filter := id)), k, log + [Receive(n)])
  {
    QuietHandle(h, k, log, Receive(n));
    var h' := h.(tap := h.tap.(handle := id, filter := id));
    assert SeenBy(h', k, log + [Receive(n)]) == SeenBy(h, k, log + [Receive(n)]);
  }

  // An open handle is active for exactly the notifications of its thread.
  lemma TouchHandle(h: Handle, k: nat, log: seq<Action>, n: Notification, active: bool, limit: Limit)
    requires HandleOk(h, k, log) && (!h.tap.closed ==> (active <==> n.thread == h.thread))
    ensures HandleOk(Touch(h, active, n, limit, |log|), k, log + [Receive(n)])
  {
    var t := Rebound(h, active, n);
    assert t == h.tap.(handle := t.handle, filter := t.handle);
    if h.tap.closed {
      TouchClosed(h, k, log, n, t.handle);
    } else if Overflows(h, t, n, limit) {
      OverflowHandle(h, k, log, Receive(n), t.handle);
    } else {
      TouchRoutes(h, active, n, limit, |log|);
      TouchOpen(h, k, log, n);
    }
  }

  lemma AcceptHandle(h: Handle, k: nat, log: seq<Action>, turn: string)
    requires HandleOk(h, k, log) && turn != ""
    ensures h.tap.handle == "" ==> HandleOk(h.(tap := h.tap.(handle := turn, filter := turn)), k, log + [Accept(k, turn)])
    ensures h.tap.handle != "" ==> HandleOk(h, k, log + [Accept(k, turn)])
  {
    if h.tap.closed {
      QuietHandle(h, k, log, Accept(k, turn));
      var h' := h.(tap := h.tap.(handle := turn, filter := turn));
      assert SeenBy(h', k, log + [Accept(k, turn)]) == SeenBy(h, k, log + [Accept(k, turn)]);
    } else {
      var es := Seen(log, k, h.since, |log|);
      SeenPrefix(log, Accept(k, turn), k, h.since, |log|);
      assert Seen(log + [Accept(k, turn)], k, h.since, |log| + 1) == es + [Named(turn)];
      RouteOneMore(es, Named(turn), h.thread);
    }
  }

  // ---------------------------------------------------------------- the whole client

  lemma {:induction false} TouchAllAt(c: Client, n: Notification, m: nat)
    requires m <= |c.handles|
    ensures |TouchAll(c, n, m)| == m
    ensures forall k :: 0 <= k < m ==> TouchAll(c, n, m)[k] == Touch(c.handles[k], ActiveFor(c, k, n), n, c.limit, c.clock)
  {
    if m == 0 {
    } else {
      TouchAllAt(c, n, m - 1);
    }
  }

  lemma {:induction false} BreakAllAt(c: Client, m: nat)
    requires m <= |c.handles|
    ensures |BreakAll(c, m)| == m
    ensures forall k :: 0 <= k < m ==> BreakAll(c, m)[k] == Break(c.handles[k], c.clock)
  {
    if m == 0 {
    } else {
      BreakAllAt(c, m - 1);
    }
  }

  lemma ReceiveTable(c: Client, n: Notification)
    requires TableOk(c)
    ensures TableOk(ReceiveNote(c, n))
  {
    TouchAllAt(c, n, |c.handles|);
    var c' := ReceiveNote(c, n);
    forall k | 0 <= k < |c'.handles| && !c'.handles[k].tap.closed ensures Occupies(c', k) {
      assert Occupies(c, k);
    }
  }

  lemma ReceiveHandle(c: Client, log: seq<Action>, n: Notification, k: nat)
    requires TableOk(c) && c.clock == |log| && k < |c.handles| && HandleOk(c.handles[k], k, log)
    ensures HandleOk(Touch(c.handles[k], ActiveFor(c, k, n), n, c.limit, c.clock), k, log + [Receive(n)])
  {
    assert !c.handles[k].tap.closed ==> Occupies(c, k);
    TouchHandle(c.handles[k], k, log, n, ActiveFor(c, k, n), c.limit);
  }

  lemma ReceiveHandles(c: Client, log: seq<Action>, n: Notification)
    requires TableOk(c) && c.clock == |log| && HandlesOk(c.handles, log)
    ensures HandlesOk(TouchAll(c, n, |c.handles|), log + [Receive(n)])
  {
    TouchAllAt(c, n, |c.handles|);
    var handles := TouchAll(c, n, |c.handles|);
    forall k | 0 <= k < |handles| ensures HandleOk(handles[k], k, log + [Receive(n)]) {
      ReceiveHandle(c, log, n, k);
    }
  }

  lemma ReceiveKeeps(c: Client, log: seq<Action>, n: Notification)
    requires Ok(c, log)
    ensures Ok(Step(c, Receive(n)), log + [Receive(n)])
  {
    ReceiveHandles(c, log, n);
    ReceiveTable(c, n);
    TableClock(ReceiveNote(c, n), c.clock + 1);
  }

  lemma TableClock(c: Client, clock: nat)
    requires TableOk(c)
    ensures TableOk(c.(clock := clock))
  {
  }

  lemma InstallKeeps(c: Client, log: seq<Action>, thread: string)
    requires Ok(c, log)
    ensures Ok(Step(c, Install(thread)), log + [Install(thread)])
  {
    var a := Install(thread);
    var c' := Step(c, a);
    forall k | 0 <= k < |c'.handles| ensures HandleOk(c'.handles[k], k, log + [a]) && (!c'.handles[k].tap.closed ==> Occupies(c', k)) {
      if k < |c.handles| {
        QuietHandle(c.handles[k], k, log, a);
        assert !c.handles[k].tap.closed ==> Occupies(c, k);
      } else {
        assert Seen(log + [a], k, |log|, |log| + 1) == [];
      }
    }
  }

  lemma AcceptKeeps(c: Client, log: seq<Action>, k: nat, turn: string)
    requires Ok(c, log)
    ensures Ok(Step(c, Accept(k, turn)), log + [Accept(k, turn)])
  {
    var a := Accept(k, turn);
    var c' := Step(c, a);
    forall j | 0 <= j < |c'.handles| ensures HandleOk(c'.handles[j], j, log + [a]) && (!c'.handles[j].tap.closed ==> Occupies(c', j)) {
      assert !c.handles[j].tap.closed ==> Occupies(c, j);
      if j == k && turn != "" {
        AcceptHandle(c.handles[j], j, log, turn);
      } else {
        QuietHandle(c.handles[j], j, log, a);
      }
    }
  }

  lemma ClosingHandles(c: Client, log: seq<Action>, a: Action, k: nat)
    requires HandlesOk(c.handles, log) && c.clock == |log| && (a.Release? || a.StartFails?) && k < |c.handles|
    ensures HandlesOk(c.handles, log + [a]) && HandlesOk(c.handles[k := Shut(c.handles[k], c.clock)], log + [a])
  {
    forall j | 0 <= j < |c.handles|
      ensures HandleOk(c.handles[j], j, log + [a]) && HandleOk(Shut(c.handles[j], c.clock), j, log + [a])
    {
      QuietHandle(c.handles[j], j, log, a);
      ShutHandle(c.handles[j], j, log, a);
    }
  }

  lemma ClosingTable(c: Client, k: nat, vacate: bool)
    requires TableOk(c) && k < |c.handles|
    ensures TableOk((if vacate then Vacate(c, k) else c).(handles := c.handles[k := Shut(c.handles[k], c.clock)]))
  {
    var c' := (if vacate then Vacate(c, k) else c).(handles := c.handles[k := Shut(c.handles[k], c.clock)]);
    forall j | 0 <= j < |c'.handles| && !c'.handles[j].tap.closed ensures Occupies(c', j) {
      assert Occupies(c, j);
    }
  }

  lemma IdleKeeps(c: Client, log: seq<Action>, a: Action)
    requires Ok(c, log) && (a.Release? || a.StartFails?)
    ensures Ok(c.(clock := c.clock + 1), log + [a])
  {
    if c.handles != [] {
      ClosingHandles(c, log, a, 0);
    }
    TableClock(c, c.clock + 1);
  }

  // Closing one handle and at most freeing its thread.
  lemma ClosingKeeps(c: Client, log: seq<Action>, a: Action, k: nat, vacate: bool)
    requires Ok(c, log) && (a.Release? || a.StartFails?) && k < |c.handles|
    ensures Ok(CloseHandle(if vacate then Vacate(c, k) else c, k).(clock := c.clock + 1), log + [a])
  {
    ClosingHandles(c, log, a, k);
    ClosingTable(c, k, vacate);
    TableClock(CloseHandle(if vacate then Vacate(c, k) else c, k), c.clock + 1);
  }

  lemma ReleaseKeeps(c: Client, log: seq<Action>, k: nat)
    requires Ok(c, log)
    ensures Ok(Step(c, Release(k)), log + [Release(k)])
  {
    IdleKeeps(c, log, Release(k));
    if k < |c.handles| {
      ClosingKeeps(c, log, Release(k), k, true);
    }
  }

  lemma StartFailsKeeps(c: Client, log: seq<Action>, k: nat, why: Why)
    requires Ok(c, log)
    ensures Ok(Step(c, StartFails(k, why)), log + [StartFails(k, why)])
  {
    IdleKeeps(c, log, StartFails(k, why));
    if k < |c.handles| {
      ClosingKeeps(c, log, StartFails(k, why), k, false);
      ClosingKeeps(c, log, StartFails(k, why), k, true);
    }
  }

  lemma LoseKeeps(c: Client, log: seq<Action>)
    requires Ok(c, log)
    ensures Ok(Step(c, Lose), log + [Lose])
  {
    LoseHandles(c, log);
    BreakAllAt(c, |c.handles|);
  }

  lemma LoseHandles(c: Client, log: seq<Action>)
    requires HandlesOk(c.handles, log) && c.clock == |log|
    ensures HandlesOk(BreakAll(c, |c.handles|), log + [Lose])
  {
    BreakAllAt(c, |c.handles|);
    var handles := BreakAll(c, |c.handles|);
    forall k | 0 <= k < |handles| ensures HandleOk(handles[k], k, log + [Lose]) {
      ShutHandle(c.handles[k], k, log, Lose);
    }
  }

  lemma TakeKeeps(c: Client, log: seq<Action>, k: nat)
    requires Ok(c, log)
    ensures Ok(Step(c, Take(k)), log + [Take(k)])
  {
    TakeTable(c, k);
    TableClock(TakeNext(c, k), c.clock + 1);
    TakeHandles(c, log, k);
  }

  lemma TakeHandles(c: Client, log: seq<Action>, k: nat)
    requires HandlesOk(c.handles, log)
    ensures HandlesOk(TakeNext(c, k).handles, log + [Take(k)])
  {
    forall j | 0 <= j < |c.handles|
      ensures HandleOk(c.handles[j], j, log + [Take(k)]) && HandleOk(Advance(c.handles[j]), j, log + [Take(k)])
    {
      QuietHandle(c.handles[j], j, log, Take(k));
      AdvanceHandle(c.handles[j], j, log + [Take(k)]);
    }
  }

  lemma TakeTable(c: Client, k: nat)
    requires TableOk(c)
    ensures TableOk(TakeNext(c, k))
  {
    var c' := TakeNext(c, k);
    forall j | 0 <= j < |c'.handles| && !c'.handles[j].tap.closed ensures Occupies(c', j) {
      assert Occupies(c, j);
    }
  }

  lemma StepKeeps(c: Client, log: seq<Action>, a: Action)
    requires Ok(c, log)
    ensures Ok(Step(c, a), log + [a])
  {
    match a
    case Install(thread) => InstallKeeps(c, log, thread);
    case Receive(n) => ReceiveKeeps(c, log, n);
    case Accept(k, turn) => AcceptKeeps(c, log, k, turn);
    case Release(k) => ReleaseKeeps(c, log, k);
    case StartFails(k, why) => StartFailsKeeps(c, log, k, why);
    case Take(k) => TakeKeeps(c, log, k);
    case Lose => LoseKeeps(c, log);
  }

  lemma {:induction false} RunOk(limit: Limit, log: seq<Action>)
    ensures Ok(Run(limit, log), log)
    decreases |log|
  {
    if log == [] {
    } else {
      var n := |log| - 1;
      RunOk(limit, log[..n]);
      StepKeeps(Run(limit, log[..n]), log[..n], log[n]);
      assert log[..n] + [log[n]] == log;
    }
  }

  /** For every log and every turn ever installed: what was queued for it is exactly the filter of
      what was received from its installation (until the client closed it, if it did), and the ids of
      the handle and its subscription are equal. */
  lemma EveryQueueIsFilter(limit: Limit, log: seq<Action>, k: nat)
    requires k < |Run(limit, log).handles|
    ensures var h := Run(limit, log).handles[k];
            && (h.until.Some? ==> h.until.value <= |log|)
            && var es := SeenBy(h, k, log);
               && h.tap.queue == Filtered(es, h.thread, |es|)
               && h.tap.handle == h.tap.filter
               && (!h.tap.closed ==> h.tap.handle == Bound(es, h.thread, |es|) && Occupies(Run(limit, log), k))
  {
    RunOk(limit, log);
    var h := Run(limit, log).handles[k];
    assert HandleOk(h, k, log);
    var es := SeenBy(h, k, log);
    RoutingIsFilter(es, h.thread, |es|);
    assert !h.tap.closed ==> Occupies(Run(limit, log), k);
  }

  // ---------------------------------------------------------------- failing to start

  /** After a failed start the error carries its handle exactly if it forbids a retry, or the start was
      cancelled while the handle occupied its thread; a handle that did so and may have reached
      app-server stays as it is, any other is closed and out of the table; and no other turn is
      disturbed. */
  lemma StartFailure(c: Client, k: nat, why: Why)
    requires k < |c.handles|
    ensures var (c', carried) := FailStart(c, k, why);
            && |c'.handles| == |c.handles|
            && (Occupies(c', k) ==> carried == Some(k))
            && carried == (if why == Unsafe || (why == Cancelled && Occupies(c, k)) then Some(k) else None)
            && (if Occupies(c, k) && (why == Unsafe || why == Cancelled) then c' == c
                else c'.handles[k].tap.closed && !Occupies(c', k))
            && (forall t :: t in c.turns && c.turns[t] != k ==> t in c'.turns && c'.turns[t] == c.turns[t])
            && (forall j :: 0 <= j < |c.handles| && j != k ==> c'.handles[j] == c.handles[j])
  {
  }

  /** "The thread is free or the error carries the occupant" holds after a failed start exactly if no
      other start had meanwhile taken the thread. */
  lemma StartFailureExactly(c: Client, k: nat, why: Why)
    requires k < |c.handles|
    ensures var (c', carried) := FailStart(c, k, why);
            var thread := c.handles[k].thread;
            (thread !in c'.turns || carried == Some(c'.turns[thread])) <==> (thread in c.turns ==> c.turns[thread] == k)
  {
  }

  /** It does happen: a completion that names no turn frees the thread, another start takes it, and
      then the first one fails. */
  lemma AnotherTookTheThread(limit: Limit, thread: string, why: Why)
    requires thread != ""
    ensures var c := Run(limit, [Install(thread), Receive(Notification(TurnCompleted, thread, "", "")), Install(thread)]);
            && |c.handles| == 2 && thread in c.turns && c.turns[thread] == 1
            && var (c', carried) := FailStart(c, 0, why);
               thread in c'.turns && carried != Some(c'.turns[thread])
  {
    var n := Notification(TurnCompleted, thread, "", "");
    var log := [Install(thread), Receive(n), Install(thread)];
    assert log[..2] == [Install(thread), Receive(n)] && log[..2][..1] == [Install(thread)] && log[..2][..1][..0] == [];
    var c1 := Step(Idle(limit), Install(thread));
    assert Run(limit, [Install(thread)]) == c1;
    var c2 := Step(c1, Receive(n));
    TouchAllAt(c1, n, 1);
    assert Run(limit, log[..2]) == c2;
    assert thread !in c2.turns && |c2.handles| == 1;
  }
}
