/**
 What the readers of turns get: what was queued, in order and without gaps, until the client drops
 what is unread; and the client object, whose readers get exactly that.
 */
module CodexReaders {
  import opened Wrappers
  import opened CodexStream
  import opened CodexTurns

  // ---------------------------------------------------------------- what a reader gets

  // What one action hands to the reader of handle k.
  function Got(c: Client, a: Action, k: nat): seq<Notification> {
    if a == Take(k) && k < |c.handles| && Readable(c.handles[k]) != [] then [Readable(c.handles[k])[0]] else []
  }

  // Everything the reader of handle k was handed, in order.
  function Reads(limit: Limit, log: seq<Action>, k: nat): seq<Notification>
    decreases |log|
  {
    if log == [] then []
    else
      var n := |log| - 1;
      Reads(limit, log[..n], k) + Got(Run(limit, log[..n]), log[n], k)
  }

  // The action breaks the subscription of handle k: the transport is lost, or the backlog is full.
  predicate Breaks(c: Client, a: Action, k: nat)
    requires k < |c.handles|
  {
    && !c.handles[k].tap.closed
    && (|| a.Lose?
        || (a.Receive? && Overflows(c.handles[k], Rebound(c.handles[k], ActiveFor(c, k, a.note), a.note), a.note, c.limit)))
  }

  // It does so while something is unread.
  predicate Drops(c: Client, a: Action, k: nat) {
    k < |c.handles| && Breaks(c, a, k) && c.handles[k].taken < |c.handles[k].tap.queue|
  }

  predicate DropsAt(limit: Limit, log: seq<Action>, k: nat, i: nat) {
    i < |log| && Drops(Run(limit, log[..i]), log[i], k)
  }

  ghost predicate Dropped(limit: Limit, log: seq<Action>, k: nat) {
    exists i :: DropsAt(limit, log, k, i)
  }

  predicate Lossy(h: Handle) {
    !h.failure.Intact? && h.taken < |h.tap.queue|
  }

  lemma TouchReads(c: Client, n: Notification, k: nat)
    requires k < |c.handles| && Placed(c.handles[k])
    ensures var h, h' := c.handles[k], Touch(c.handles[k], ActiveFor(c, k, n), n, c.limit, c.clock);
            && h.tap.queue <= h'.tap.queue && h'.taken == h.taken
            && (Lossy(h') <==> Lossy(h) || Drops(c, Receive(n), k))
  {
  }

  lemma AdvanceReads(h: Handle)
    requires Placed(h)
    ensures var h' := Advance(h);
            && h'.tap == h.tap && Placed(h') && (Lossy(h') <==> Lossy(h))
            && h.tap.queue[..h'.taken] == h.tap.queue[..h.taken] + if Readable(h) != [] then [Readable(h)[0]] else []
  {
  }

  // One step at one reader: what it was handed comes next in its queue, and it has lost something
  // exactly if it had before or this step drops something.
  lemma StepReads(c: Client, a: Action, k: nat)
    requires k < |c.handles| && Placed(c.handles[k])
    ensures k < |Step(c, a).handles|
    ensures var h, h' := c.handles[k], Step(c, a).handles[k];
            && h.tap.queue <= h'.tap.queue && h.taken <= h'.taken <= |h'.tap.queue|
            && h'.tap.queue[..h'.taken] == h.tap.queue[..h.taken] + Got(c, a, k)
            && (Lossy(h') <==> Lossy(h) || Drops(c, a, k))
  {
    match a
    case Receive(n) =>
      TouchAllAt(c, n, |c.handles|);
      TouchReads(c, n, k);
    case Take(j) =>
      AdvanceReads(c.handles[k]);
    case Lose =>
      BreakAllAt(c, |c.handles|);
    case _ => QuietReads(c, a, k);
  }

  lemma QuietReads(c: Client, a: Action, k: nat)
    requires k < |c.handles| && !a.Receive? && !a.Take? && !a.Lose?
    ensures k < |Step(c, a).handles|
    ensures var h, h' := c.handles[k], Step(c, a).handles[k];
            h'.tap.queue == h.tap.queue && h'.taken == h.taken && h'.failure == h.failure
  {
  }

  lemma FreshReads(c: Client, a: Action, k: nat)
    requires |c.handles| <= k < |Step(c, a).handles|
    ensures a.Install? && Step(c, a).handles[k] == Fresh(a.thread, c.clock)
  {
    if a.Receive? {
      TouchAllAt(c, a.note, |c.handles|);
    } else if a.Lose? {
      BreakAllAt(c, |c.handles|);
    }
  }

  lemma {:induction false} ReadsNothing(limit: Limit, log: seq<Action>, k: nat)
    requires k >= |Run(limit, log).handles|
    ensures Reads(limit, log, k) == [] && !Dropped(limit, log, k)
    decreases |log|
  {
    if log == [] {
    } else {
      var n := |log| - 1;
      HandlesStay(Run(limit, log[..n]), log[n]);
      ReadsNothing(limit, log[..n], k);
      DroppedMore(limit, log, k);
    }
  }

  lemma HandlesStay(c: Client, a: Action)
    ensures |c.handles| <= |Step(c, a).handles|
  {
    if a.Receive? {
      TouchAllAt(c, a.note, |c.handles|);
    } else if a.Lose? {
      BreakAllAt(c, |c.handles|);
    }
  }

  lemma DropsEarlier(limit: Limit, log: seq<Action>, k: nat, n: nat, i: nat)
    requires i < n <= |log|
    ensures DropsAt(limit, log[..n], k, i) <==> DropsAt(limit, log, k, i)
  {
    assert log[..n][..i] == log[..i];
  }

  lemma DroppedMore(limit: Limit, log: seq<Action>, k: nat)
    requires log != []
    ensures Dropped(limit, log, k) <==> Dropped(limit, log[..|log| - 1], k) || DropsAt(limit, log, k, |log| - 1)
  {
    var n := |log| - 1;
    forall i: nat | i < n ensures DropsAt(limit, log[..n], k, i) <==> DropsAt(limit, log, k, i) {
      DropsEarlier(limit, log, k, n, i);
    }
  }

  lemma RunPlaced(limit: Limit, log: seq<Action>, k: nat)
    requires k < |Run(limit, log).handles|
    ensures Placed(Run(limit, log).handles[k])
  {
    RunOk(limit, log);
    assert HandleOk(Run(limit, log).handles[k], k, log);
  }

  lemma {:induction false} ReadsQueue(limit: Limit, log: seq<Action>, k: nat)
    requires k < |Run(limit, log).handles|
    ensures var h := Run(limit, log).handles[k];
            Placed(h) && Reads(limit, log, k) == h.tap.queue[..h.taken] && (Lossy(h) <==> Dropped(limit, log, k))
    decreases |log|
  {
    if log == [] {
    } else {
      var n := |log| - 1;
      var c := Run(limit, log[..n]);
      RunPlaced(limit, log, k);
      DroppedMore(limit, log, k);
      if k < |c.handles| {
        ReadsQueue(limit, log[..n], k);
        StepReads(c, log[n], k);
      } else {
        ReadsNothing(limit, log[..n], k);
        FreshReads(c, log[n], k);
      }
    }
  }

  /** For every log and every turn: what its reader was handed is always a prefix of the filter of its
      stream, in order and without gaps; and it together with what can still be read is the whole
      filter if and only if the subscription never broke with something unread. */
  lemma ReaderExactly(limit: Limit, log: seq<Action>, k: nat)
    requires k < |Run(limit, log).handles|
    ensures var h := Run(limit, log).handles[k];
            && (h.until.Some? ==> h.until.value <= |log|)
            && var es := SeenBy(h, k, log);
               var stream := Filtered(es, h.thread, |es|);
               && Reads(limit, log, k) <= stream
               && (Reads(limit, log, k) + Readable(h) == stream <==> !Dropped(limit, log, k))
               && (Dropped(limit, log, k) ==> h.tap.closed && Readable(h) == [])
  {
    EveryQueueIsFilter(limit, log, k);
    ReadsQueue(limit, log, k);
    WholeExactly(Run(limit, log).handles[k]);
  }

  lemma WholeExactly(h: Handle)
    requires Placed(h)
    ensures h.tap.queue[..h.taken] <= h.tap.queue
    ensures h.tap.queue[..h.taken] + Readable(h) == h.tap.queue <==> !Lossy(h)
    ensures Lossy(h) ==> h.tap.closed && Readable(h) == []
  {
    if h.failure.Intact? {
      assert h.tap.queue[..h.taken] + Readable(h) == h.tap.queue;
    }
  }

  /** It does happen: a notification still unread when the transport is lost never reaches the reader. */
  lemma LossDropsUnread(limit: Limit, thread: string, body: string)
    requires thread != ""
    ensures var n := Notification(OtherKind, thread, "", body);
            var log := [Install(thread), Receive(n), Lose];
            && |Run(limit, log).handles| == 1 && Reads(limit, log, 0) == [] && Readable(Run(limit, log).handles[0]) == []
            && Dropped(limit, log, 0)
            && var h := Run(limit, log).handles[0];
               h.until == Some(2) && var es := SeenBy(h, 0, log); Filtered(es, thread, |es|) == [n]
  {
    var n := Notification(OtherKind, thread, "", body);
    var log := [Install(thread), Receive(n), Lose];
    assert log[..2] == [Install(thread), Receive(n)] && log[..2][..1] == [Install(thread)] && log[..2][..1][..0] == [];
    var c1 := Step(Idle(limit), Install(thread));
    assert Run(limit, log[..2][..1]) == c1;
    TouchAllAt(c1, n, 1);
    var c2 := Step(c1, Receive(n));
    assert Run(limit, log[..2]) == c2 && |c2.handles| == 1;
    assert !c2.handles[0].tap.closed && c2.handles[0].tap.queue == [n];
    BreakAllAt(c2, 1);
    assert Run(limit, log) == Step(c2, Lose);
    assert DropsAt(limit, log, 0, 2);
    EveryQueueIsFilter(limit, log, 0);
    ReadsQueue(limit, log, 0);
  }

  /** Nor does one still unread when the next does not fit. */
  lemma OverflowDropsUnread(thread: string, body: string)
    requires thread != ""
    ensures var n := Notification(OtherKind, thread, "", body);
            var log := [Install(thread), Receive(n), Receive(n)];
            && |Run(1, log).handles| == 1 && Reads(1, log, 0) == [] && Readable(Run(1, log).handles[0]) == []
            && Dropped(1, log, 0)
  {
    var n := Notification(OtherKind, thread, "", body);
    var log := [Install(thread), Receive(n), Receive(n)];
    assert log[..2] == [Install(thread), Receive(n)] && log[..2][..1] == [Install(thread)] && log[..2][..1][..0] == [];
    var c1 := Step(Idle(1), Install(thread));
    assert Run(1, log[..2][..1]) == c1;
    TouchAllAt(c1, n, 1);
    var c2 := Step(c1, Receive(n));
    assert Run(1, log[..2]) == c2 && |c2.handles| == 1;
    assert !c2.handles[0].tap.closed && c2.handles[0].tap.queue == [n];
    TouchAllAt(c2, n, 1);
    assert Run(1, log) == Step(c2, Receive(n));
    assert DropsAt(1, log, 0, 2);
    ReadsQueue(1, log, 0);
  }

  // ---------------------------------------------------------------- the client object

  lemma RunAppend(limit: Limit, log: seq<Action>, a: Action)
    ensures Run(limit, log + [a]) == Step(Run(limit, log), a)
  {
    assert (log + [a])[..|log|] == log;
  }

  lemma RunTable(limit: Limit, log: seq<Action>)
    ensures TableOk(Run(limit, log))
  {
    RunOk(limit, log);
  }

  // How one read ends: a notification, the error that broke the subscription, the end of a closed
  // one, or a wait for more.
  datatype Answer = Next(note: Notification) | Failed | Closed | Waits

  class AppServerClient {
    const limit: Limit
    var turns: map<string, nat>
    var handles: seq<Handle>
    var clock: nat
    ghost var log: seq<Action>   // what has happened to this client

    function View(): Client
      reads this
    {
      Client(limit, turns, handles, clock)
    }

    // The client is that of a run.
    ghost predicate Valid()
      reads this
    {
      View() == Run(limit, log)
    }

    constructor (limit: int)
      ensures Valid() && log == [] && this.limit == if limit < 1 then 1 else limit
    {
      this.limit := if limit < 1 then 1 else limit;
      turns, handles, clock, log := map[], [], 0, [];
    }

    // Moves the active handle to its turn, offers the notification to every subscription, then
    // closes what it completes.
    method RouteNotification(raw: Raw)
      requires Valid()
      modifies this
      ensures Valid() && log == old(log) + [Receive(Scoped(raw))]
    {
      RunTable(limit, log);
      var n := Scoped(raw);
      RunAppend(limit, log, Receive(n));
      log := log + [Receive(n)];
      var active := if n.thread in turns then Some(turns[n.thread]) else None;
      var retired := false;
      if active.Some? {
        var h := handles[active.value];
        var t := Rebind(h.tap, h.thread, n);
        retired := n.kind.TurnCompleted? && (n.turn == "" || t.handle == "" || n.turn == t.handle);
      }
      handles := TouchEach(n, active);
      clock := clock + 1;
      if retired {
        turns := turns - {n.thread};
      }
    }

    method TouchEach(n: Notification, active: Option<nat>) returns (routed: seq<Handle>)
      requires active == if n.thread in turns then Some(turns[n.thread]) else None
      ensures routed == TouchAll(View(), n, |handles|)
    {
      routed := [];
      var k := 0;
      while k < |handles|
        invariant 0 <= k <= |handles|
        invariant routed == TouchAll(View(), n, k)
      {
        routed := routed + [Touch(handles[k], active == Some(k), n, limit, clock)];
        k := k + 1;
      }
    }

    method StartTurn(thread: string) returns (handle: Option<nat>)
      requires Valid()
      modifies this
      ensures Valid() && log == old(log) + [Install(thread)]
      ensures handle.Some? <==> thread != "" && thread !in old(turns)
      ensures handle.Some? ==> handle.value < |handles| && Occupies(View(), handle.value)
    {
      RunAppend(limit, log, Install(thread));
      log := log + [Install(thread)];
      handle := None;
      if thread != "" && thread !in turns {
        handle := Some(|handles|);
        turns := turns[thread := |handles|];
        handles := handles + [Fresh(thread, clock)];
      }
      clock := clock + 1;
    }

    // The response names the turn; false if earlier notifications named another one.  A response
    // without an id is a failed start.
    method TurnAccepted(k: nat, turn: string) returns (ok: bool)
      requires Valid() && k < |handles| && turn != ""
      modifies this
      ensures Valid() && log == old(log) + [Accept(k, turn)]
      ensures k < |handles| && (ok <==> handles[k].tap.handle == turn)
    {
      RunAppend(limit, log, Accept(k, turn));
      log := log + [Accept(k, turn)];
      if handles[k].tap.handle == "" {
        handles := handles[k := handles[k].(tap := handles[k].tap.(handle := turn, filter := turn))];
      }
      ok := handles[k].tap.handle == turn;
      clock := clock + 1;
    }

    method StartTurnFailed(k: nat, why: Why) returns (carried: Option<nat>)
      requires Valid() && k < |handles|
      modifies this
      ensures Valid() && log == old(log) + [StartFails(k, why)]
      ensures carried == FailStart(old(View()), k, why).1
      ensures k < |handles| && (Occupies(View(), k) ==> carried == Some(k))
    {
      RunAppend(limit, log, StartFails(k, why));
      log := log + [StartFails(k, why)];
      var occupied := Occupies(View(), k);
      carried := None;
      if why.Cancelled? || why.Unsafe? {
        if occupied || why.Unsafe? {
          carried := Some(k);
        }
        if occupied {
          clock := clock + 1;
          return;
        }
      } else if occupied {
        turns := turns - {handles[k].thread};
      }
      handles := handles[k := Shut(handles[k], clock)];
      clock := clock + 1;
    }

    method ReleaseHandle(k: nat)
      requires Valid() && k < |handles|
      modifies this
      ensures Valid() && log == old(log) + [Release(k)]
      ensures k < |handles| && handles[k].tap.closed && !Occupies(View(), k)
    {
      RunAppend(limit, log, Release(k));
      log := log + [Release(k)];
      if Occupies(View(), k) {
        turns := turns - {handles[k].thread};
      }
      handles := handles[k := Shut(handles[k], clock)];
      clock := clock + 1;
    }

    /** Everything fails with the transport: no thread stays occupied, every subscription is closed,
        and whoever had one open reads the error next and nothing else. */
    method LoseTransport()
      requires Valid()
      modifies this
      ensures Valid() && log == old(log) + [Lose] && turns == map[] && |handles| == |old(handles)|
      ensures forall k :: 0 <= k < |handles| ==>
                handles[k].tap.closed
                && (if old(handles)[k].tap.closed then handles[k] == old(handles)[k]
                    else handles[k].failure.Pending? && Readable(handles[k]) == [])
    {
      RunAppend(limit, log, Lose);
      log := log + [Lose];
      ghost var before := View();
      var broken := BreakEach();
      BreakAllAt(before, |handles|);
      turns, handles, clock := map[], broken, clock + 1;
    }

    method BreakEach() returns (broken: seq<Handle>)
      ensures broken == BreakAll(View(), |handles|)
    {
      broken := [];
      var k := 0;
      while k < |handles|
        invariant 0 <= k <= |handles|
        invariant broken == BreakAll(View(), k)
      {
        broken := broken + [Break(handles[k], clock)];
        k := k + 1;
      }
    }

    /** One read.  A notification is the next of what was queued and extends what this reader got;
        the error comes once, and a closed subscription with nothing left says so. */
    method Read(k: nat) returns (answer: Answer)
      requires Valid() && k < |handles|
      modifies this
      ensures Valid() && log == old(log) + [Take(k)]
      ensures Reads(limit, log, k) == Reads(limit, old(log), k) + if answer.Next? then [answer.note] else []
      ensures answer == var h := old(handles)[k];
                        if Readable(h) != [] then Next(Readable(h)[0])
                        else if h.failure.Pending? then Failed
                        else if h.tap.closed then Closed else Waits
      ensures answer.Failed? ==> k < |handles| && handles[k].failure.Raised?
    {
      RunAppend(limit, log, Take(k));
      RunPlaced(limit, log, k);
      ReadsAppend(limit, log, Take(k), k);
      log := log + [Take(k)];
      var h := handles[k];
      if h.failure.Intact? && h.taken < |h.tap.queue| {
        answer := Next(h.tap.queue[h.taken]);
        handles := handles[k := h.(taken := h.taken + 1)];
      } else if h.failure.Pending? {
        answer := Failed;
        handles := handles[k := h.(failure := Raised)];
      } else {
        answer := if h.tap.closed then Closed else Waits;
        assert handles[k := h] == handles;
      }
      clock := clock + 1;
    }

    /** What the reader of handle k can still get, after any sequence of calls: with what it got before
        the whole filter of its stream, if and only if the subscription never broke with something
        unread. */
    method Queued(k: nat) returns (rest: seq<Notification>, broken: bool)
      requires Valid() && k < |handles|
      ensures var h := handles[k];
              && (h.until.Some? ==> h.until.value <= |log|)
              && var es := SeenBy(h, k, log);
                 var stream := Filtered(es, h.thread, |es|);
                 && Reads(limit, log, k) <= stream
                 && (Reads(limit, log, k) + rest == stream <==> !Dropped(limit, log, k))
                 && (Dropped(limit, log, k) ==> broken && rest == [])
    {
      ReaderExactly(limit, log, k);
      ReadsQueue(limit, log, k);
      rest := Readable(handles[k]);
      broken := !handles[k].failure.Intact?;
    }
  }

  lemma ReadsAppend(limit: Limit, log: seq<Action>, a: Action, k: nat)
    ensures Reads(limit, log + [a], k) == Reads(limit, log, k) + Got(Run(limit, log), a, k)
  {
    assert (log + [a])[..|log|] == log;
  }
}
