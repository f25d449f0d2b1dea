/**
 What the sections under the outbound guard bring about: which routes are published, live or retired,
 which connections are known and which one is active, told by position in the run, and which ledger
 transaction each section performs.
 */
module PeerRoutes {
  import opened Wrappers
  import opened Histories
  import opened Ledger
  import opened PeerLinks

  // ---------------------------------------------------------------- what may be retired

  // A request that is pending and not overdue when the section looks.
  predicate Due(db: Db, i: Id, now: nat) {
    i in db.intents && db.intents[i].state == Pending && now < db.intents[i].order.expires
  }

  ghost predicate RouteIdle(db: Db, k: Key, now: nat) {
    forall i :: Due(db, i, now) ==>
      var o := db.intents[i].order; !(o.connection == k.connection && o.route == k.route && o.revision == k.revision)
  }

  ghost predicate ChatIdle(db: Db, chat: string, now: nat) {
    forall i :: Due(db, i, now) ==> db.intents[i].order.session != chat
  }

  // Nothing leaves by the connection, and no delivery that came by it is unfinished.
  ghost predicate ConnectionIdle(db: Db, c: string, now: nat) {
    && (forall i :: Due(db, i, now) ==> db.intents[i].order.connection != c)
    && (forall i :: i in db.rows && db.rows[i].state in {Prepared, Authorized, Queued, Running} ==> db.rows[i].claim.connection != c)
  }

  lemma RouteIdleExactly(db: Db, k: Key, now: nat)
    ensures PendingForRoute(ExpireOutbound(db, now), k) == {} <==> RouteIdle(db, k, now)
  {
    var db' := ExpireOutbound(db, now);
    forall i ensures i in PendingForRoute(db', k) <==> Due(db, i, now) && KeyOf(db.intents[i].order) == k {
    }
    if i :| Due(db, i, now) && KeyOf(db.intents[i].order) == k {
      assert i in PendingForRoute(db', k);
    }
  }

  lemma ChatIdleExactly(db: Db, chat: string, now: nat)
    ensures PendingForChat(ExpireOutbound(db, now), chat) == {} <==> ChatIdle(db, chat, now)
  {
    var db' := ExpireOutbound(db, now);
    forall i ensures i in PendingForChat(db', chat) <==> Due(db, i, now) && db.intents[i].order.session == chat {
    }
    if i :| Due(db, i, now) && db.intents[i].order.session == chat {
      assert i in PendingForChat(db', chat);
    }
  }

  lemma ConnectionIdleExactly(db: Db, c: string, now: nat)
    ensures Quiescent(ExpireOutbound(db, now), c) <==> ConnectionIdle(db, c, now)
  {
    var db' := ExpireOutbound(db, now);
    forall i ensures i in PendingForConnection(db', c) <==> Due(db, i, now) && db.intents[i].order.connection == c {
    }
    if i :| Due(db, i, now) && db.intents[i].order.connection == c {
      assert i in PendingForConnection(db', c);
    }
    if i :| i in db.rows && db.rows[i].state in {Prepared, Authorized, Queued, Running} && db.rows[i].claim.connection == c {
      assert i in OpenForConnection(db', c);
    }
  }

  // ---------------------------------------------------------------- facts

  datatype Fact =
    | Listed(key: Key, chat: string, actions: set<string>, hosted: bool)
    | Is(key: Key, status: Status)
    | Known(connection: string)
    | IsActive(connection: string)

  predicate Holds(l: Links, f: Fact) {
    match f
    case Listed(k, chat, actions, hosted) =>
      k in l.routes && l.routes[k].chat == chat && l.routes[k].actions == actions && l.routes[k].hosted == hosted
    case Is(k, status) => k in l.routes && l.routes[k].status == status
    case Known(c) => c in l.connections
    case IsActive(c) => l.active == Some(c)
  }

  // A new route: a host's own, or one of the active connection.
  predicate Adds(l: Links, a: Action, k: Key) {
    a.Advertise? && a.key == k && k !in l.routes && (a.entry.hosted || l.active == Some(k.connection))
  }

  // The section retires the route: nobody leaves by it, nobody of its chat leaves, or nothing needs its
  // connection.
  ghost predicate Retires(l: Links, a: Action, now: nat, k: Key) {
    k in l.routes &&
    match a
    case Revoke(key, answer) =>
      key == k && RouteIdle(l.db, k, now) && (if l.routes[k].hosted then answer == Confirmed else answer != Rejected)
    case Archive(chat, done) => k in done && l.routes[k].chat == chat && ChatIdle(l.db, chat, now)
    case Drop(c, completes) => k.connection == c && !l.routes[k].hosted && ConnectionIdle(l.db, c, now)
    case _ => false
  }

  ghost predicate Leaves(l: Links, a: Action, now: nat, c: string) {
    && (a == Suspend(c, true) || a == Drop(c, true))
    && ConnectionIdle(l.db, c, now)
  }

  ghost predicate Makes(l: Links, a: Action, now: nat, f: Fact) {
    match f
    case Listed(k, chat, actions, hosted) =>
      Adds(l, a, k) && a.entry.chat == chat && a.entry.actions == actions && a.entry.hosted == hosted
    case Is(k, Live) => (a == Advertised(k) && Holds(l, Is(k, Publishing))) || (Adds(l, a, k) && a.entry.status == Live)
    case Is(k, Publishing) => Adds(l, a, k) && a.entry.status == Publishing
    case Is(k, Retired) => Retires(l, a, now, k) || (Adds(l, a, k) && a.entry.status == Retired)
    case Known(c) => a == Pair(c)
    case IsActive(c) => a == Switch(c) && c in l.connections && (l.active == None || l.active == Some(c))
  }

  ghost predicate Unmakes(l: Links, a: Action, now: nat, f: Fact) {
    match f
    case Listed(k, chat, actions, hosted) => false
    case Is(k, Live) => Retires(l, a, now, k)
    case Is(k, Publishing) => Retires(l, a, now, k) || a == Advertised(k)
    case Is(k, Retired) => false
    case Known(c) => a == Drop(c, true) && ConnectionIdle(l.db, c, now)
    case IsActive(c) => Leaves(l, a, now, c)
  }

  ghost predicate Exact(l: Links, a: Action, now: nat, f: Fact) {
    Holds(Step(l, a, now), f) <==> Makes(l, a, now, f) || (Holds(l, f) && !Unmakes(l, a, now, f))
  }

  lemma RevokeStep(l: Links, k: Key, answer: Answered, now: nat, f: Fact)
    ensures Exact(l, Revoke(k, answer), now, f)
  {
    RouteIdleExactly(l.db, k, now);
  }

  lemma ArchiveStep(l: Links, chat: string, done: set<Key>, now: nat, f: Fact)
    ensures Exact(l, Archive(chat, done), now, f)
  {
    ChatIdleExactly(l.db, chat, now);
  }

  lemma DropStep(l: Links, c: string, completes: bool, now: nat, f: Fact)
    ensures Exact(l, Drop(c, completes), now, f)
  {
    ConnectionIdleExactly(l.db, c, now);
  }

  lemma SuspendStep(l: Links, c: string, accepted: bool, now: nat, f: Fact)
    ensures Exact(l, Suspend(c, accepted), now, f)
  {
    ConnectionIdleExactly(l.db, c, now);
  }

  lemma StepMakes(l: Links, a: Action, now: nat, f: Fact)
    ensures Exact(l, a, now, f)
  {
    match a
    case Revoke(k, answer) => RevokeStep(l, k, answer, now, f);
    case Archive(chat, done) => ArchiveStep(l, chat, done, now, f);
    case Suspend(c, accepted) => SuspendStep(l, c, accepted, now, f);
    case Drop(c, completes) => DropStep(l, c, completes, now, f);
    case _ =>
  }

  // ---------------------------------------------------------------- every run

  lemma {:induction false} PlaySplit(l: Links, a: seq<(Action, nat)>, b: seq<(Action, nat)>)
    ensures Play(l, a + b) == Play(Play(l, a), b)
    decreases |a|
  {
    if a == [] {
      assert a + b == b;
    } else {
      assert (a + b)[1..] == a[1..] + b;
      PlaySplit(Step(l, a[0].0, a[0].1), a[1..], b);
    }
  }

  lemma PlayMore(l: Links, log: seq<(Action, nat)>, k: nat)
    requires k < |log|
    ensures Play(l, log[..k + 1]) == Step(Play(l, log[..k]), log[k].0, log[k].1)
  {
    assert log[..k + 1] == log[..k] + [log[k]];
    PlaySplit(l, log[..k], [log[k]]);
  }

  // Whether the fact holds before step k, and what that step does to it.
  ghost function HoldsAt(l: Links, log: seq<(Action, nat)>, f: Fact): nat -> bool {
    (k: nat) => k <= |log| && Holds(Play(l, log[..k]), f)
  }

  ghost function MakesAt(l: Links, log: seq<(Action, nat)>, f: Fact): nat -> bool {
    (k: nat) => k < |log| && Makes(Play(l, log[..k]), log[k].0, log[k].1, f)
  }

  ghost function UnmakesAt(l: Links, log: seq<(Action, nat)>, f: Fact): nat -> bool {
    (k: nat) => k < |log| && Unmakes(Play(l, log[..k]), log[k].0, log[k].1, f)
  }

  /** In every interleaving: a route is published, live or retired, a connection known or active, exactly
      if some section made it so and no later one has ended it; retirement is final. */
  lemma RegistryExactly(l: Links, log: seq<(Action, nat)>, f: Fact)
    ensures Holds(Play(l, log), f) <==> Stands(Holds(l, f), MakesAt(l, log, f), UnmakesAt(l, log, f), |log|)
  {
    forall k: nat | k < |log| ensures Changes(HoldsAt(l, log, f), MakesAt(l, log, f), UnmakesAt(l, log, f), k)
    {
      PlayMore(l, log, k);
      StepMakes(Play(l, log[..k]), log[k].0, log[k].1, f);
    }
    StandsExactly(HoldsAt(l, log, f), MakesAt(l, log, f), UnmakesAt(l, log, f), |log|);
    assert log[..|log|] == log && log[..0] == [];
  }

  // ---------------------------------------------------------------- the ledger beside it

  // The transaction a section performs on the ledger, if any.  Every look at pending work first gives up
  // what is overdue.
  function Transaction(l: Links, a: Action): Option<Op> {
    match a
    case Handoff(id, o, action) =>
      var k := Key(o.connection, o.route, o.revision);
      if k in l.routes && l.routes[k].status == Live && l.routes[k].chat == o.session && action in l.routes[k].actions
      then Some(DoPrepareOutbound(id, o)) else None
    case ClaimEnvelope(id, claim, lease) =>
      if claim.role.Client? && l.active != Some(claim.connection) then None else Some(DoPrepare(id, claim, lease))
    case Revoke(k, answer) => Some(DoExpireOutbound)
    case Archive(chat, done) => Some(DoExpireOutbound)
    case Suspend(c, accepted) => Some(DoExpireOutbound)
    case Drop(c, completes) => Some(DoExpireOutbound)
    case LedgerStep(op) => if op.DoPrepare? || op.DoPrepareOutbound? then None else Some(op)
    case _ => None
  }

  /** A request is handed off exactly by a live route of its own chat that allows the action, an envelope
      claimed exactly for a host or through the active connection, and no section does anything else to
      the ledger. */
  lemma TransactionExactly(l: Links, a: Action, now: nat)
    requires !a.PruneStep?
    ensures Step(l, a, now).db == if Transaction(l, a).Some? then Apply(l.db, Transaction(l, a).value, now) else l.db
  {
  }
}
