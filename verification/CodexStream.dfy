/**
 Which notifications reach a turn's queue: a definition by position in the stream, and the routing
 the client does notification by notification, proved to agree.
 */
module CodexStream {
  import opened Wrappers

  datatype Kind = TurnStarted | TurnCompleted | ThreadStarted | ThreadClosed | OtherKind

  datatype Notification = Notification(kind: Kind, thread: string, turn: string, body: string)

  // What concerns one turn: notifications, and the response that names the turn.
  datatype Event = Note(note: Notification) | Named(turn: string)

  // A notification as sent: ids given directly, or nested in objects that carry one.
  datatype Params = Params(threadId: string, turnId: string, thread: Option<string>, turn: Option<string>)

  datatype Raw = Raw(kind: Kind, params: Params, body: string)

  function Resolve(direct: string, nested: Option<string>): string {
    if direct == "" && nested.Some? then nested.value else direct
  }

  // The notification with the thread and the turn it is about.
  function Scoped(raw: Raw): Notification {
    var p := raw.params;
    Notification(raw.kind, Resolve(p.threadId, p.thread), Resolve(p.turnId, p.turn), raw.body)
  }

  /** A direct id wins: whatever objects a notification nests beside its own ids, it is the same
      notification; and nesting an id is as good as giving it. */
  lemma DirectIdsDecide(raw: Raw, thread: Option<string>, turn: Option<string>)
    ensures raw.params.threadId != "" && raw.params.turnId != "" ==>
              Scoped(raw) == Scoped(raw.(params := raw.params.(thread := thread, turn := turn)))
    ensures thread.Some? && turn.Some? ==>
              Scoped(raw.(params := Params("", "", thread, turn))) == Scoped(raw.(params := Params(thread.value, turn.value, None, None)))
  {
  }

  // ---------------------------------------------------------------- by position

  predicate About(e: Event, thread: string) {
    e.Note? && e.note.thread == thread
  }

  // A turn/started of this thread that names a turn.
  predicate Moves(e: Event, thread: string) {
    About(e, thread) && e.note.turn != "" && e.note.kind.TurnStarted?
  }

  function NameIn(e: Event, thread: string): string {
    if e.Named? then e.turn else if e.note.thread == thread then e.note.turn else ""
  }

  // The turn named by the last turn/started among the first n events.
  function LastMove(es: seq<Event>, thread: string, n: nat): string
    requires n <= |es|
  {
    if n == 0 then "" else if Moves(es[n - 1], thread) then es[n - 1].note.turn else LastMove(es, thread, n - 1)
  }

  // The first turn named at all.
  function FirstName(es: seq<Event>, thread: string, n: nat): string
    requires n <= |es|
  {
    if n == 0 then ""
    else if FirstName(es, thread, n - 1) != "" then FirstName(es, thread, n - 1)
    else NameIn(es[n - 1], thread)
  }

  // The current turn: the last one started, or the first one heard of, or none yet.
  function Bound(es: seq<Event>, thread: string, n: nat): string
    requires n <= |es|
  {
    if LastMove(es, thread, n) != "" then LastMove(es, thread, n) else FirstName(es, thread, n)
  }

  // Event i is for the turn: of its thread, and once the turn is known, of that turn.
  predicate Fits(es: seq<Event>, thread: string, i: nat)
    requires i < |es|
  {
    About(es[i], thread) && (Bound(es, thread, i + 1) == "" || es[i].note.turn == Bound(es, thread, i + 1))
  }

  // The turn completes, or its thread closes.
  predicate Ends(es: seq<Event>, thread: string, i: nat)
    requires i < |es|
  {
    About(es[i], thread) &&
    var n := es[i].note;
    || (n.kind.TurnCompleted? && (n.turn == "" || Bound(es, thread, i + 1) == "" || n.turn == Bound(es, thread, i + 1)))
    || n.kind.ThreadClosed?
  }

  ghost predicate Over(es: seq<Event>, thread: string, n: nat)
    requires n <= |es|
  {
    exists j :: 0 <= j < n && Ends(es, thread, j)
  }

  // The notifications for the turn among the first n events, in order, up to its end.
  ghost function Filtered(es: seq<Event>, thread: string, n: nat): seq<Notification>
    requires n <= |es|
  {
    if n == 0 then []
    else
      Filtered(es, thread, n - 1)
      + if Fits(es, thread, n - 1) && !Over(es, thread, n - 1) then [es[n - 1].note] else []
  }

  // ---------------------------------------------------------------- routing

  // A turn handle with its subscription: both ids, everything queued so far, and whether it is closed.
  datatype Tap = Tap(handle: string, filter: string, queue: seq<Notification>, closed: bool)

  const OPEN := Tap("", "", [], false)

  function Rebind(tap: Tap, thread: string, n: Notification): Tap {
    if n.thread == thread && n.turn != "" && (tap.handle == "" || n.kind.TurnStarted?)
    then tap.(handle := n.turn, filter := n.turn)
    else tap
  }

  predicate Matches(tap: Tap, thread: string, n: Notification) {
    n.thread == thread && (tap.filter == "" || n.turn == tap.filter)
  }

  predicate Completes(tap: Tap, thread: string, n: Notification) {
    n.thread == thread &&
    (|| (n.kind.TurnCompleted? && (n.turn == "" || tap.handle == "" || n.turn == tap.handle))
     || n.kind.ThreadClosed?)
  }

  // One event as the open tap sees it; a closed one is out of the client's reach.
  function Route(tap: Tap, thread: string, e: Event): Tap {
    if tap.closed then tap
    else
      match e
      case Named(turn) => if tap.handle == "" then tap.(handle := turn, filter := turn) else tap
      case Note(n) =>
        var t := Rebind(tap, thread, n);
        var q := if Matches(t, thread, n) then t.(queue := t.queue + [n]) else t;
        q.(closed := Completes(t, thread, n))
  }

  function RouteAll(es: seq<Event>, thread: string, n: nat): Tap
    requires n <= |es|
  {
    if n == 0 then OPEN else Route(RouteAll(es, thread, n - 1), thread, es[n - 1])
  }

  // ---------------------------------------------------------------- they agree

  ghost predicate Agrees(tap: Tap, es: seq<Event>, thread: string, n: nat)
    requires n <= |es|
  {
    && tap.handle == tap.filter
    && (tap.closed <==> Over(es, thread, n))
    && (!tap.closed ==> tap.handle == Bound(es, thread, n))
    && tap.queue == Filtered(es, thread, n)
  }

  lemma BoundStep(es: seq<Event>, thread: string, n: nat)
    requires n < |es|
    ensures var b := Bound(es, thread, n);
            Bound(es, thread, n + 1) ==
              if Moves(es[n], thread) then es[n].note.turn else if b == "" then NameIn(es[n], thread) else b
  {
  }

  lemma OverStep(es: seq<Event>, thread: string, n: nat)
    requires n < |es|
    ensures Over(es, thread, n + 1) <==> Over(es, thread, n) || Ends(es, thread, n)
  {
  }

  lemma RouteAgrees(tap: Tap, es: seq<Event>, thread: string, n: nat)
    requires n < |es| && Agrees(tap, es, thread, n)
    ensures Agrees(Route(tap, thread, es[n]), es, thread, n + 1)
  {
    BoundStep(es, thread, n);
    OverStep(es, thread, n);
  }

  /** Routing refines the filter: a turn's queue is, in order, every notification of its thread until
      a turn is known and then exactly those of the current turn, up to the end; the ids of handle
      and subscription never differ. */
  lemma {:induction false} RoutingIsFilter(es: seq<Event>, thread: string, n: nat)
    requires n <= |es|
    ensures Agrees(RouteAll(es, thread, n), es, thread, n)
    decreases n
  {
    if n == 0 {
    } else {
      RoutingIsFilter(es, thread, n - 1);
      RouteAgrees(RouteAll(es, thread, n - 1), es, thread, n - 1);
    }
  }

  lemma {:induction false} FilteredEnds(es: seq<Event>, thread: string, i: nat, n: nat)
    requires i < n <= |es| && Ends(es, thread, i)
    ensures Filtered(es, thread, n) == Filtered(es, thread, i + 1)
    decreases n
  {
    if n == i + 1 {
    } else {
      FilteredEnds(es, thread, i, n - 1);
      assert Over(es, thread, n - 1);
    }
  }

  /** A turn/completed that names the current turn is the last item, whatever follows. */
  lemma CompletedIsLast(es: seq<Event>, thread: string, i: nat)
    requires i < |es| && About(es[i], thread) && es[i].note.kind.TurnCompleted? && !Over(es, thread, i)
    requires es[i].note.turn != "" && es[i].note.turn == Bound(es, thread, i + 1)
    ensures var q := RouteAll(es, thread, |es|).queue;
            q == RouteAll(es, thread, i).queue + [es[i].note] && RouteAll(es, thread, |es|).closed
  {
    RoutingIsFilter(es, thread, i);
    RoutingIsFilter(es, thread, |es|);
    FilteredEnds(es, thread, i, |es|);
    assert Ends(es, thread, i);
  }

  // ---------------------------------------------------------------- the steering watermark

  lemma {:induction false} QueueGrows(es: seq<Event>, thread: string, i: nat, n: nat)
    requires i <= n <= |es|
    ensures RouteAll(es, thread, i).queue <= RouteAll(es, thread, n).queue
    decreases n
  {
    if i == n {
    } else {
      QueueGrows(es, thread, i, n - 1);
    }
  }

  /** The watermark of a steering response read after n events is the number of items queued so far:
      an item at or below it was queued before the response, one above it by a later event. */
  lemma Watermark(es: seq<Event>, thread: string, n: nat, k: nat) returns (i: nat)
    requires n <= |es| && k < |RouteAll(es, thread, |es|).queue|
    ensures i < |es| && (k < |RouteAll(es, thread, n).queue| <==> i < n)
    ensures |RouteAll(es, thread, i).queue| == k && |RouteAll(es, thread, i + 1).queue| == k + 1
    ensures RouteAll(es, thread, i + 1).queue <= RouteAll(es, thread, |es|).queue
  {
    if k < |RouteAll(es, thread, n).queue| {
      i := QueuedAt(es, thread, 0, n, k);
    } else {
      i := QueuedAt(es, thread, n, |es|, k);
    }
    QueueGrows(es, thread, i + 1, |es|);
  }

  // Which event queued item k.
  lemma {:induction false} QueuedAt(es: seq<Event>, thread: string, n: nat, m: nat, k: nat) returns (i: nat)
    requires n <= m <= |es| && |RouteAll(es, thread, n).queue| <= k < |RouteAll(es, thread, m).queue|
    ensures n <= i < m && |RouteAll(es, thread, i).queue| == k && |RouteAll(es, thread, i + 1).queue| == k + 1
    decreases m
  {
    if |RouteAll(es, thread, m - 1).queue| <= k {
      i := m - 1;
    } else {
      i := QueuedAt(es, thread, n, m - 1, k);
    }
  }
}
