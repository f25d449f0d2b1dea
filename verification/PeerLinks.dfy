/**
 Client connections and published routes beside the ledger: the sections run under the outbound
 guard, each one atomic step, and the promise that retiring a route, a chat or a connection never
 crosses work that still needs it.

 The registry of connections and routes is kept by a client that is not part of this model; a
 route is named by its connection, id and revision, and publishing only adds one.
 */
module PeerLinks {
  import opened Wrappers
  import opened Ledger

  datatype Key = Key(connection: string, route: string, revision: string)

  datatype Status = Publishing | Live | Retired

  // A client's own route, or one its host store keeps for a peer.
  datatype Route = Route(chat: string, status: Status, actions: set<string>, hosted: bool)

  datatype Links = Links(db: Db, routes: map<Key, Route>, connections: set<string>, active: Option<string>)

  // ---------------------------------------------------------------- pending work

  function KeyOf(o: Order): Key {
    Key(o.connection, o.route, o.revision)
  }

  function PendingForConnection(db: Db, connection: string): set<Id> {
    set i | i in db.intents && db.intents[i].state.Pending? && db.intents[i].order.connection == connection
  }

  function PendingForRoute(db: Db, k: Key): set<Id> {
    set i | i in db.intents && db.intents[i].state.Pending? && KeyOf(db.intents[i].order) == k
  }

  function PendingForChat(db: Db, chat: string): set<Id> {
    set i | i in db.intents && db.intents[i].state.Pending? && db.intents[i].order.session == chat
  }

  function OpenForConnection(db: Db, connection: string): set<Id> {
    set i | i in db.rows && !Terminal(db.rows[i].state) && db.rows[i].claim.connection == connection
  }

  predicate Quiescent(db: Db, connection: string) {
    PendingForConnection(db, connection) == {} && OpenForConnection(db, connection) == {}
  }

  // ---------------------------------------------------------------- guarded sections

  // The one exact live source route an outbound request may leave by.
  predicate SourceLive(l: Links, o: Order, action: string) {
    && KeyOf(o) in l.routes
    && l.routes[KeyOf(o)].chat == o.session
    && l.routes[KeyOf(o)].status.Live?
    && action in l.routes[KeyOf(o)].actions
  }

  function PrepareHandoff(l: Links, id: Id, o: Order, action: string, now: nat): Links {
    if SourceLive(l, o, action) then l.(db := PrepareOutbound(l.db, id, o, now).0) else l
  }

  // A client envelope is claimed only through the active connection.
  function ClaimInbound(l: Links, id: Id, claim: Claim, lease: string, now: nat): Links {
    if claim.role.Host? || l.active == Some(claim.connection)
    then l.(db := Prepare(l.db, id, claim, lease, now).0)
    else l
  }

  function RetireKey(routes: map<Key, Route>, k: Key): map<Key, Route> {
    if k in routes then routes[k := routes[k].(status := Retired)] else routes
  }

  // How one compare-and-swap revocation is answered.  The client's tombstone is durable before
  // the remote call, so only an explicit rejection leaves its route as it was; the host store
  // revokes in one transaction or not at all.
  datatype Answered = Confirmed | Unreachable | Rejected

  predicate Refuses(r: Route, answer: Answered) {
    if r.hosted then !answer.Confirmed? else answer.Rejected?
  }

  predicate Revocable(l: Links, k: Key, answer: Answered) {
    PendingForRoute(l.db, k) == {} && k in l.routes && !Refuses(l.routes[k], answer)
  }

  function RevokeRoute(l: Links, k: Key, answer: Answered, now: nat): Links {
    var l' := l.(db := ExpireOutbound(l.db, now));
    if Revocable(l', k, answer) then l'.(routes := RetireKey(l'.routes, k)) else l'
  }

  function RetireKeys(routes: map<Key, Route>, keys: set<Key>): map<Key, Route> {
    map k | k in routes :: if k in keys then routes[k].(status := Retired) else routes[k]
  }

  function ChatKeys(routes: map<Key, Route>, chat: string): set<Key> {
    set k | k in routes && routes[k].chat == chat && !routes[k].status.Retired?
  }

  // `done` are the routes retired before an explicit rejection stopped the loop, or all of them.
  function RetireChat(l: Links, chat: string, done: set<Key>, now: nat): Links {
    var l' := l.(db := ExpireOutbound(l.db, now));
    if PendingForChat(l'.db, chat) != {} then l' else l'.(routes := RetireKeys(l'.routes, ChatKeys(l'.routes, chat) * done))
  }

  function Activate(l: Links, connection: string): Links {
    if connection in l.connections && (l.active.None? || l.active == Some(connection))
    then l.(active := Some(connection))
    else l
  }

  function WithoutActive(l: Links, connection: string): Links {
    if l.active == Some(connection) then l.(active := None) else l
  }

  // `accepted` is whether the client still knows the connection under the expected identity.
  function Deactivate(l: Links, connection: string, accepted: bool, now: nat): Links {
    var l' := l.(db := ExpireOutbound(l.db, now));
    if Quiescent(l'.db, connection) && accepted then WithoutActive(l', connection) else l'
  }

  function ConnectionKeys(routes: map<Key, Route>, connection: string): set<Key> {
    set k | k in routes && k.connection == connection && !routes[k].hosted
  }

  // The remote revocation retires the routes before the local key goes; a failure in between
  // leaves the connection known.
  function Forget(l: Links, connection: string, completes: bool, now: nat): Links {
    var l' := l.(db := ExpireOutbound(l.db, now));
    if !Quiescent(l'.db, connection) then l'
    else
      var retired := l'.(routes := RetireKeys(l'.routes, ConnectionKeys(l'.routes, connection)));
      if !completes then retired
      else WithoutActive(retired, connection).(connections := retired.connections - {connection})
  }

  function Publish(l: Links, k: Key, r: Route): Links {
    if (r.hosted || l.active == Some(k.connection)) && k !in l.routes then l.(routes := l.routes[k := r]) else l
  }

  // The client finishes publishing.
  function Confirm(l: Links, k: Key): Links {
    if k in l.routes && l.routes[k].status.Publishing?
    then l.(routes := l.routes[k := l.routes[k].(status := Live)])
    else l
  }

  // Every other ledger operation runs outside the guard, interleaved at will.
  predicate Unguarded(op: Op) {
    !op.DoPrepare? && !op.DoPrepareOutbound?
  }

  datatype Action =
    | Handoff(id: Id, order: Order, action: string)
    | ClaimEnvelope(id: Id, claim: Claim, lease: string)
    | Revoke(key: Key, answer: Answered)
    | Archive(chat: string, done: set<Key>)
    | Pair(connection: string)
    | Switch(connection: string)
    | Suspend(connection: string, accepted: bool)
    | Drop(connection: string, completes: bool)
    | Advertise(key: Key, entry: Route)
    | Advertised(key: Key)
    | LedgerStep(op: Op)
    | PruneStep

  function Step(l: Links, a: Action, now: nat): Links {
    match a
    case Handoff(id, o, action) => PrepareHandoff(l, id, o, action, now)
    case ClaimEnvelope(id, claim, lease) => ClaimInbound(l, id, claim, lease, now)
    case Revoke(k, answer) => RevokeRoute(l, k, answer, now)
    case Archive(chat, done) => RetireChat(l, chat, done, now)
    case Pair(c) => l.(connections := l.connections + {c})
    case Switch(c) => Activate(l, c)
    case Suspend(c, accepted) => Deactivate(l, c, accepted, now)
    case Drop(c, completes) => Forget(l, c, completes, now)
    case Advertise(k, r) => Publish(l, k, r)
    case Advertised(k) => Confirm(l, k)
    case LedgerStep(op) => if Unguarded(op) then l.(db := Apply(l.db, op, now)) else l
    case PruneStep => l.(db := Prune(l.db, now))
  }

  function Play(l: Links, log: seq<(Action, nat)>): Links
    decreases |log|
  {
    if log == [] then l else Play(Step(l, log[0].0, log[0].1), log[1..])
  }

  // ---------------------------------------------------------------- the promise

  predicate RouteHeld(l: Links, o: Order) {
    KeyOf(o) in l.routes && l.routes[KeyOf(o)].chat == o.session && l.routes[KeyOf(o)].status.Live?
  }

  ghost predicate HandoffsHeld(l: Links) {
    forall i :: i in l.db.intents && l.db.intents[i].state.Pending? ==> RouteHeld(l, l.db.intents[i].order)
  }

  ghost predicate DeliveriesHeld(l: Links) {
    forall i :: i in l.db.rows && !Terminal(l.db.rows[i].state) && l.db.rows[i].claim.role.Client? ==>
      l.active == Some(l.db.rows[i].claim.connection)
  }

  ghost predicate Held(l: Links) {
    HandoffsHeld(l) && DeliveriesHeld(l)
  }

  // A fresh registry over an empty ledger.
  const FRESH := Links(Db(map[], map[]), map[], {}, None)

  lemma FreshHeld()
    ensures Held(FRESH)
  {
  }

  // ---------------------------------------------------------------- the ledger opens nothing by itself

  ghost predicate NoNewIntents(db: Db, db': Db) {
    forall i :: i in db'.intents && db'.intents[i].state.Pending? ==>
      i in db.intents && db.intents[i].state.Pending? && db'.intents[i].order == db.intents[i].order
  }

  ghost predicate NoNewRows(db: Db, db': Db) {
    forall i :: i in db'.rows && !Terminal(db'.rows[i].state) ==>
      i in db.rows && !Terminal(db.rows[i].state) && db'.rows[i].claim == db.rows[i].claim
  }

  lemma UnguardedIntents(db: Db, op: Op, now: nat)
    requires Unguarded(op)
    ensures NoNewIntents(db, Apply(db, op, now))
  {
  }

  lemma UnguardedRow(db: Db, op: Op, now: nat, i: Id)
    requires Unguarded(op) && i in Apply(db, op, now).rows && !Terminal(Apply(db, op, now).rows[i].state)
    ensures i in db.rows && !Terminal(db.rows[i].state) && Apply(db, op, now).rows[i].claim == db.rows[i].claim
  {
  }

  lemma UnguardedRows(db: Db, op: Op, now: nat)
    requires Unguarded(op)
    ensures NoNewRows(db, Apply(db, op, now))
  {
    forall i | i in Apply(db, op, now).rows && !Terminal(Apply(db, op, now).rows[i].state)
      ensures i in db.rows && !Terminal(db.rows[i].state) && Apply(db, op, now).rows[i].claim == db.rows[i].claim
    {
      UnguardedRow(db, op, now, i);
    }
  }

  lemma FewerKeeps(l: Links, l': Links)
    requires Held(l) && l'.routes == l.routes && l'.active == l.active
    requires NoNewIntents(l.db, l'.db) && NoNewRows(l.db, l'.db)
    ensures Held(l')
  {
  }

  // ---------------------------------------------------------------- when retirement is harmless

  /** Retiring a route breaks the promise exactly when a request still has to leave by it. */
  lemma RouteExactly(l: Links, k: Key)
    requires Held(l)
    ensures Held(l.(routes := RetireKey(l.routes, k))) <==> PendingForRoute(l.db, k) == {}
  {
    var l' := l.(routes := RetireKey(l.routes, k));
    forall i | i in l.db.intents && l.db.intents[i].state.Pending?
      ensures RouteHeld(l', l.db.intents[i].order) <==> i !in PendingForRoute(l.db, k)
    {
      assert RouteHeld(l, l.db.intents[i].order);
    }
  }

  /** Retiring every route of a chat breaks it exactly when that chat has a request pending. */
  lemma ChatExactly(l: Links, chat: string)
    requires Held(l)
    ensures Held(l.(routes := RetireKeys(l.routes, ChatKeys(l.routes, chat)))) <==> PendingForChat(l.db, chat) == {}
  {
    var l' := l.(routes := RetireKeys(l.routes, ChatKeys(l.routes, chat)));
    if i :| i in PendingForChat(l.db, chat) {
      assert RouteHeld(l, l.db.intents[i].order);
      assert !RouteHeld(l', l.db.intents[i].order);
    }
    assert PendingForChat(l.db, chat) == {} ==> HandoffsHeld(l') by {
      SomeChatKeys(l, chat, ChatKeys(l.routes, chat));
    }
  }

  lemma SomeChatKeys(l: Links, chat: string, keys: set<Key>)
    requires HandoffsHeld(l) && keys <= ChatKeys(l.routes, chat)
    ensures PendingForChat(l.db, chat) == {} ==> HandoffsHeld(l.(routes := RetireKeys(l.routes, keys)))
  {
    if PendingForChat(l.db, chat) == {} {
      forall i | i in l.db.intents && l.db.intents[i].state.Pending?
        ensures RouteHeld(l.(routes := RetireKeys(l.routes, keys)), l.db.intents[i].order)
      {
        assert i !in PendingForChat(l.db, chat);
        assert RouteHeld(l, l.db.intents[i].order);
      }
    }
  }

  /** Deactivating the active connection breaks it exactly when a client delivery is still open. */
  lemma DeactivateExactly(l: Links, connection: string)
    requires Held(l) && l.active == Some(connection)
    ensures Held(l.(active := None))
            <==> forall i :: i in OpenForConnection(l.db, connection) ==> !l.db.rows[i].claim.role.Client?
  {
  }

  // ---------------------------------------------------------------- every step keeps the promise

  lemma ExpireKeeps(l: Links, now: nat)
    requires Held(l)
    ensures Held(l.(db := ExpireOutbound(l.db, now)))
  {
    FewerKeeps(l, l.(db := ExpireOutbound(l.db, now)));
  }

  lemma QuietConnection(l: Links, connection: string)
    requires Held(l) && Quiescent(l.db, connection)
    ensures Held(WithoutActive(l, connection))
    ensures Held(l.(routes := RetireKeys(l.routes, ConnectionKeys(l.routes, connection))))
  {
    forall i | i in l.db.rows && !Terminal(l.db.rows[i].state) && l.db.rows[i].claim.role.Client?
      ensures l.active != Some(connection)
    {
      assert i !in OpenForConnection(l.db, connection);
    }
    forall i | i in l.db.intents && l.db.intents[i].state.Pending?
      ensures l.db.intents[i].order.connection != connection
    {
      assert i !in PendingForConnection(l.db, connection);
    }
  }

  lemma HandoffKeeps(l: Links, id: Id, o: Order, action: string, now: nat)
    requires Held(l)
    ensures Held(PrepareHandoff(l, id, o, action, now))
  {
  }

  lemma ClaimKeeps(l: Links, id: Id, claim: Claim, lease: string, now: nat)
    requires Held(l)
    ensures Held(ClaimInbound(l, id, claim, lease, now))
  {
  }

  lemma ArchiveKeeps(l: Links, chat: string, done: set<Key>, now: nat)
    requires Held(l)
    ensures Held(RetireChat(l, chat, done, now))
  {
    ExpireKeeps(l, now);
    var l' := l.(db := ExpireOutbound(l.db, now));
    SomeChatKeys(l', chat, ChatKeys(l'.routes, chat) * done);
  }

  lemma ForgetKeeps(l: Links, connection: string, completes: bool, now: nat)
    requires Held(l)
    ensures Held(Forget(l, connection, completes, now))
  {
    ExpireKeeps(l, now);
    var l' := l.(db := ExpireOutbound(l.db, now));
    if Quiescent(l'.db, connection) {
      QuietConnection(l', connection);
      var retired := l'.(routes := RetireKeys(l'.routes, ConnectionKeys(l'.routes, connection)));
      QuietConnection(retired, connection);
    }
  }

  lemma LinkStepKeeps(l: Links, a: Action, now: nat)
    requires Held(l) && (a.Pair? || a.Switch? || a.Advertise? || a.Advertised?)
    ensures Held(Step(l, a, now))
  {
  }

  lemma StepKeeps(l: Links, a: Action, now: nat)
    requires Held(l)
    ensures Held(Step(l, a, now))
  {
    match a
    case Handoff(id, o, action) => HandoffKeeps(l, id, o, action, now);
    case ClaimEnvelope(id, claim, lease) => ClaimKeeps(l, id, claim, lease, now);
    case Revoke(k, answer) =>
      ExpireKeeps(l, now);
      RouteExactly(l.(db := ExpireOutbound(l.db, now)), k);
    case Archive(chat, done) => ArchiveKeeps(l, chat, done, now);
    case Suspend(c, accepted) =>
      ExpireKeeps(l, now);
      if Quiescent(ExpireOutbound(l.db, now), c) {
        QuietConnection(l.(db := ExpireOutbound(l.db, now)), c);
      }
    case Drop(c, completes) => ForgetKeeps(l, c, completes, now);
    case LedgerStep(op) =>
      if Unguarded(op) {
        UnguardedIntents(l.db, op, now);
        UnguardedRows(l.db, op, now);
        FewerKeeps(l, Step(l, a, now));
      }
    case PruneStep => FewerKeeps(l, Step(l, a, now));
    case _ => LinkStepKeeps(l, a, now);
  }

  /** Over every interleaving of handoffs, claims, revocations, chat retirements, activations,
      deactivations, forgets, publications and ledger transactions: each pending request's exact
      route is still published for its own chat, and each open client delivery belongs to the one
      active connection. */
  lemma {:induction false} RetirementNeverCrosses(l: Links, log: seq<(Action, nat)>)
    requires Held(l)
    ensures Held(Play(l, log))
    decreases |log|
  {
    if log == [] {
    } else {
      StepKeeps(l, log[0].0, log[0].1);
      RetirementNeverCrosses(Step(l, log[0].0, log[0].1), log[1..]);
    }
  }

  // ---------------------------------------------------------------- the runtime object

  class PeerRuntime {
    var db: Db
    var routes: map<Key, Route>
    var connections: set<string>
    var active: Option<string>

    constructor ()
      ensures View() == FRESH && Held(View())
    {
      db, routes, connections, active := Db(map[], map[]), map[], {}, None;
    }

    function View(): Links
      reads this
    {
      Links(db, routes, connections, active)
    }

    method ActivatePairing(connection: string) returns (ok: bool)
      requires Held(View())
      modifies this`active
      ensures Held(View()) && View() == Activate(old(View()), connection)
      ensures ok ==> active == Some(connection)
      ensures !ok ==> active == old(active)
    {
      StepKeeps(View(), Switch(connection), 0);
      if connection !in connections || (active.Some? && active.value != connection) {
        return false;
      }
      active := Some(connection);
      ok := true;
    }

    method DeactivateConnection(connection: string, accepted: bool, now: nat) returns (ok: bool)
      requires Held(View())
      modifies this`db, this`active
      ensures Held(View()) && View() == Deactivate(old(View()), connection, accepted, now)
      ensures ok <==> Quiescent(db, connection) && accepted
      ensures ok ==> active != Some(connection)
    {
      StepKeeps(View(), Suspend(connection, accepted), now);
      db := ExpireOutbound(db, now);
      if PendingForConnection(db, connection) != {} || OpenForConnection(db, connection) != {} {
        return false;
      }
      ok := accepted;
      if ok && active == Some(connection) {
        active := None;
      }
    }

    method RevokePublishedRoute(k: Key, answer: Answered, now: nat) returns (ok: bool)
      requires Held(View())
      modifies this`db, this`routes
      ensures Held(View()) && View() == RevokeRoute(old(View()), k, answer, now)
      ensures ok <==> PendingForRoute(db, k) == {} && k in old(routes) && !Refuses(old(routes)[k], answer)
      ensures ok ==> k in routes && routes[k].status.Retired?
      ensures !ok ==> routes == old(routes)
    {
      StepKeeps(View(), Revoke(k, answer), now);
      db := ExpireOutbound(db, now);
      if PendingForRoute(db, k) != {} || k !in routes || Refuses(routes[k], answer) {
        return false;
      }
      routes := routes[k := routes[k].(status := Retired)];
      ok := true;
    }

    // Walks the client's routes and then the host store's, and retires the chat's until one
    // revocation is refused.
    method RevokeRoutesForChat(chat: string, listed: seq<Key>, answers: seq<Answered>, now: nat)
      returns (ok: bool, ghost done: set<Key>)
      requires Held(View()) && |answers| == |listed|
      requires forall k :: k in listed ==> k in routes
      requires forall k :: k in routes && !routes[k].status.Retired? ==> k in listed
      modifies this`db, this`routes
      ensures Held(View()) && View() == RetireChat(old(View()), chat, done, now)
      ensures ok ==> PendingForChat(db, chat) == {} && ChatKeys(routes, chat) == {}
      ensures (forall n :: 0 <= n < |answers| ==> !Refuses(old(routes)[listed[n]], answers[n]))
              ==> (ok <==> PendingForChat(db, chat) == {})
    {
      ghost var l := View();
      db := ExpireOutbound(db, now);
      done := {};
      if PendingForChat(db, chat) == {} {
        ok, done := RevokeListed(chat, listed, answers);
      } else {
        ok := false;
      }
      StepKeeps(l, Archive(chat, done), now);
    }

    // `done` are the routes retired before a refusal stopped the loop.
    method RevokeListed(chat: string, listed: seq<Key>, answers: seq<Answered>) returns (ok: bool, ghost done: set<Key>)
      requires |answers| == |listed|
      requires forall k :: k in listed ==> k in routes
      requires forall k :: k in routes && !routes[k].status.Retired? ==> k in listed
      modifies this`routes
      ensures routes == RetireKeys(old(routes), ChatKeys(old(routes), chat) * done)
      ensures ok ==> ChatKeys(routes, chat) == {}
      ensures (forall n :: 0 <= n < |answers| ==> !Refuses(old(routes)[listed[n]], answers[n])) ==> ok
    {
      done := {};
      var n := 0;
      assert routes == RetireKeys(old(routes), ChatKeys(old(routes), chat) * done);
      while n < |listed|
        invariant 0 <= n <= |listed|
        invariant routes == RetireKeys(old(routes), ChatKeys(old(routes), chat) * done)
        invariant forall m :: 0 <= m < n ==> listed[m] !in ChatKeys(routes, chat)
      {
        var k := listed[n];
        if routes[k].chat == chat && !routes[k].status.Retired? {
          if Refuses(routes[k], answers[n]) {
            return false, done;
          }
          routes := routes[k := routes[k].(status := Retired)];
          done := done + {k};
        }
        n := n + 1;
      }
      assert forall k :: k in ChatKeys(routes, chat) ==> k in listed;
      ok := true;
    }
  }
}
