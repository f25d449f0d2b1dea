/**
 The ledger as the object its callers hold: two tables updated in place, one transaction per
 method.  Every method leaves the tables as the transaction functions of `Ledger` say and appends
 its transaction to a log, so a sequence of calls is a run of `LedgerHistory`.
 */
module LedgerStore {
  import opened Wrappers
  import opened Ledger
  import opened LedgerHistory

  // What a transition writes beside the state.
  datatype Patch = NoPatch | Outcome(result: Option<string>, error: Option<Failure>)

  class DeliveryLedger {
    var rows: map<Id, Row>
    var intents: map<Id, Intent>
    ghost var base: Db               // the tables when they were opened or last pruned
    ghost var log: seq<(Op, nat)>    // the transactions since

    function View(): Db
      reads this
    {
      Db(rows, intents)
    }

    // The tables are those of a run.
    ghost predicate Valid()
      reads this
    {
      DbOk(base) && View() == Run(base, log)
    }

    twostate predicate Ran(op: Op, now: nat)
      reads this
    {
      base == old(base) && log == old(log) + [(op, now)]
    }

    /** What every sequence of calls keeps: the ledger invariant, and since the last pruning the
        history of each row and each request. */
    lemma Promises()
      requires Valid()
      ensures DbOk(View()) && DbAdvances(base, View())
    {
      RunKeeps(base, log);
    }

    // What one call keeps.
    twostate lemma CallAdvances(op: Op, now: nat)
      requires old(Valid()) && Valid() && Ran(op, now)
      ensures DbAdvances(old(View()), View())
    {
      RunKeeps(base, old(log));
      RunAppend(base, old(log), op, now);
      ApplyKeeps(old(View()), op, now);
    }

    constructor ()
      ensures Valid() && View() == Db(map[], map[]) && base == View() && log == []
    {
      rows, intents, base, log := map[], map[], Db(map[], map[]), [];
      new;
      assert Nonterminal(View()) == {};
    }

    function Get(id: Id): (reply: Reply<Row>)
      reads this
      ensures reply.Found? <==> id in rows
      ensures reply.Found? ==> reply.value == rows[id]
    {
      ReplyRow(View(), id)
    }

    // ---------------------------------------------------------------- inbound deliveries

    method PrepareDelivery(id: Id, claim: Claim, lease: string, now: nat) returns (reply: Reply<Row>)
      requires Valid()
      modifies this
      ensures Valid() && Ran(DoPrepare(id, claim, lease), now)
      ensures (View(), reply) == Prepare(old(View()), id, claim, lease, now)
    {
      RunAppend(base, log, DoPrepare(id, claim, lease), now);
      log := log + [(DoPrepare(id, claim, lease), now)];
      if id in rows {
        if rows[id].claim != claim {
          return Raised;
        }
        if rows[id].state == Prepared && rows[id].lease != lease {
          rows := rows[id := rows[id].(lease := lease, updated := now)];
        }
        return Found(rows[id]);
      }
      var expired := map i | i in rows :: Expire(rows[i], now);
      assert Db(expired, intents) == ExpireAll(View(), now);
      if |Nonterminal(Db(expired, intents))| >= CAPACITY {
        // The transaction rolls back, and with it the expiry.
        return Raised;
      }
      rows := expired[id := Fresh(claim, lease, now)];
      reply := Found(rows[id]);
    }

    // The conditional update behind `authorize` and `finish`.
    method Transition(id: Id, expected: set<State>, state: State, patch: Patch, now: nat) returns (reply: Reply<Row>)
      modifies this`rows
      ensures id in old(rows) && old(rows)[id].state in expected ==>
                var r := old(rows)[id].(state := state, updated := now);
                var r' := if patch.Outcome? then r.(result := patch.result, error := patch.error) else r;
                rows == old(rows)[id := r'] && reply == Found(r')
      ensures !(id in old(rows) && old(rows)[id].state in expected) ==> rows == old(rows) && reply == Absent
    {
      reply := Absent;
      if id in rows && rows[id].state in expected {
        var r := rows[id].(state := state, updated := now);
        if patch.Outcome? {
          r := r.(result := patch.result, error := patch.error);
        }
        rows := rows[id := r];
        reply := Found(r);
      }
    }

    method AuthorizeDelivery(id: Id, now: nat) returns (reply: Reply<Row>)
      requires Valid()
      modifies this
      ensures Valid() && Ran(DoAuthorize(id), now)
      ensures (View(), reply) == Authorize(old(View()), id, now)
    {
      RunAppend(base, log, DoAuthorize(id), now);
      log := log + [(DoAuthorize(id), now)];
      reply := Transition(id, {Prepared, Authorized}, Authorized, NoPatch, now);
    }

    method FailOwnerlessAuthorized(id: Id, error: string, now: nat) returns (reply: Reply<Row>)
      requires Valid()
      modifies this
      ensures Valid() && Ran(DoFailOwnerless(id, error), now)
      ensures (View(), reply) == FailOwnerless(old(View()), id, error, now)
    {
      RunAppend(base, log, DoFailOwnerless(id, error), now);
      log := log + [(DoFailOwnerless(id, error), now)];
      if id in rows && Ownerless(rows[id]) {
        rows := rows[id := rows[id].(state := Failed, error := Some(Because(error)), retryAt := None, updated := now)];
      }
      reply := Get(id);
    }

    method Bind(id: Id, queued: Option<string>, run: Option<string>, now: nat) returns (reply: Reply<Row>)
      requires Valid()
      modifies this
      ensures Valid() && Ran(DoBind(id, queued, run), now)
      ensures (View(), reply) == BindOwner(old(View()), id, queued, run, now)
    {
      RunAppend(base, log, DoBind(id, queued, run), now);
      log := log + [(DoBind(id, queued, run), now)];
      if queued.None? && run.None? {
        return Raised;
      }
      if id !in rows {
        return Absent;
      }
      var r := rows[id];
      if r.state == Authorized {
        if Ownerless(r) {
          if OwnerTaken(View(), id, queued, run) {
            return Raised;
          }
          var next := if run.Some? then Running else Queued;
          rows := rows[id := r.(state := next, queued := queued, run := run, retryAt := None, updated := now)];
        }
      } else if r.state == Queued {
        if r.queued != queued || r.run.Some? {
          return Absent;
        }
        if run.Some? {
          if OwnerTaken(View(), id, None, run) {
            return Raised;
          }
          rows := rows[id := r.(state := Running, run := run, retryAt := None, updated := now)];
        }
      } else if r.state == Running {
        if r.queued != queued || r.run != run {
          return Absent;
        }
      } else {
        return Absent;
      }
      reply := Get(id);
    }

    method Defer(id: Id, now: nat) returns (reply: Reply<Row>)
      requires Valid()
      modifies this
      ensures Valid() && Ran(DoDefer(id), now)
      ensures (View(), reply) == DeferAdmission(old(View()), id, now)
    {
      RunAppend(base, log, DoDefer(id), now);
      log := log + [(DoDefer(id), now)];
      if id in rows && Ownerless(rows[id]) {
        var attempts := rows[id].attempts + 1;
        rows := rows[id := rows[id].(attempts := attempts, retryAt := Some(now + Delay(attempts)), updated := now)];
      }
      reply := Get(id);
    }

    method Finish(id: Id, succeeded: bool, result: Option<string>, error: Option<Failure>, now: nat) returns (reply: Reply<Row>)
      requires Valid()
      modifies this
      ensures Valid() && Ran(DoFinish(id, succeeded, result, error), now)
      ensures (View(), reply) == FinishDelivery(old(View()), id, succeeded, result, error, now)
    {
      RunAppend(base, log, DoFinish(id, succeeded, result, error), now);
      log := log + [(DoFinish(id, succeeded, result, error), now)];
      var expected := if succeeded then {Authorized, Queued, Running} else {Prepared, Authorized, Queued, Running};
      reply := Transition(id, expected, if succeeded then Completed else Failed, Outcome(result, error), now);
    }

    // ---------------------------------------------------------------- responses

    method PrepareResponse(id: Id, a: Answer, now: nat) returns (reply: Reply<Row>)
      requires Valid()
      modifies this
      ensures Valid() && Ran(DoPrepareAnswer(id, a), now)
      ensures (View(), reply) == PrepareAnswer(old(View()), id, a, now)
    {
      RunAppend(base, log, DoPrepareAnswer(id, a), now);
      log := log + [(DoPrepareAnswer(id, a), now)];
      if id !in rows || !Accepted(rows[id].state) || rows[id].claim.kind == Instruction {
        return Absent;
      }
      var r := rows[id];
      if r.answer.Some? {
        if r.answer.value != a {
          return Raised;
        }
      } else if !r.committed {
        rows := rows[id := r.(answer := Some(a), answerRetryAt := Some(now), answerAttempts := 0, updated := now)];
      }
      reply := Get(id);
    }

    method CommitResponse(id: Id, request: Option<string>, now: nat) returns (reply: Reply<Row>)
      requires Valid()
      modifies this
      ensures Valid() && Ran(DoCommitAnswer(id, request), now)
      ensures (View(), reply) == CommitAnswer(old(View()), id, request, now)
    {
      RunAppend(base, log, DoCommitAnswer(id, request), now);
      log := log + [(DoCommitAnswer(id, request), now)];
      if id in rows && Uncommitted(rows[id]) && (request.None? || Answers(rows[id], request.value)) {
        rows := rows[id := rows[id].(committed := true, answerRetryAt := None, updated := now)];
      }
      reply := Get(id);
    }

    method ClearResponse(id: Id, request: string, now: nat) returns (reply: Reply<Row>)
      requires Valid()
      modifies this
      ensures Valid() && Ran(DoClearAnswer(id, request), now)
      ensures (View(), reply) == ClearAnswer(old(View()), id, request, now)
    {
      RunAppend(base, log, DoClearAnswer(id, request), now);
      log := log + [(DoClearAnswer(id, request), now)];
      if id in rows && Uncommitted(rows[id]) && Answers(rows[id], request) {
        rows := rows[id := rows[id].(answer := None, answerRetryAt := None, answerAttempts := 0, updated := now)];
      }
      reply := Get(id);
    }

    method DeferResponse(id: Id, request: string, now: nat) returns (reply: Reply<Row>)
      requires Valid()
      modifies this
      ensures Valid() && Ran(DoDeferAnswer(id, request), now)
      ensures (View(), reply) == DeferAnswer(old(View()), id, request, now)
    {
      RunAppend(base, log, DoDeferAnswer(id, request), now);
      log := log + [(DoDeferAnswer(id, request), now)];
      if id in rows && Uncommitted(rows[id]) && Answers(rows[id], request) {
        var attempts := rows[id].answerAttempts + 1;
        rows := rows[id := rows[id].(answerAttempts := attempts, answerRetryAt := Some(now + Delay(attempts)), updated := now)];
      }
      reply := Get(id);
    }

    // ---------------------------------------------------------------- outbound requests

    method PrepareRequest(id: Id, o: Order, now: nat) returns (reply: Reply<Intent>)
      requires Valid()
      modifies this
      ensures Valid() && Ran(DoPrepareOutbound(id, o), now)
      ensures (View(), reply) == PrepareOutbound(old(View()), id, o, now)
    {
      RunAppend(base, log, DoPrepareOutbound(id, o), now);
      log := log + [(DoPrepareOutbound(id, o), now)];
      if id !in intents {
        intents := intents[id := Intent(o, Pending, None, Some(now), 0, now, now)];
      } else if intents[id].order != o {
        return Raised;
      }
      reply := Found(intents[id]);
    }

    method CommitRequest(id: Id, response: string, now: nat) returns (reply: Reply<Intent>)
      requires Valid()
      modifies this
      ensures Valid() && Ran(DoCommitOutbound(id, response), now)
      ensures (View(), reply) == CommitOutbound(old(View()), id, response, now)
    {
      RunAppend(base, log, DoCommitOutbound(id, response), now);
      log := log + [(DoCommitOutbound(id, response), now)];
      if id !in intents {
        return Absent;
      }
      var i := intents[id];
      if i.state == Sent {
        if i.response != Some(response) {
          return Raised;
        }
      } else if i.state == Pending {
        intents := intents[id := i.(state := Sent, response := Some(response), retryAt := None, updated := now)];
      }
      reply := Found(intents[id]);
    }

    method DeferRequest(id: Id, now: nat) returns (reply: Reply<Intent>)
      requires Valid()
      modifies this
      ensures Valid() && Ran(DoDeferOutbound(id), now)
      ensures (View(), reply) == DeferOutbound(old(View()), id, now)
    {
      RunAppend(base, log, DoDeferOutbound(id), now);
      log := log + [(DoDeferOutbound(id), now)];
      if id in intents && intents[id].state == Pending {
        var attempts := intents[id].attempts + 1;
        intents := intents[id := intents[id].(attempts := attempts, retryAt := Some(now + Delay(attempts)), updated := now)];
      }
      reply := ReplyIntent(View(), id);
    }

    method FailRequest(id: Id, now: nat) returns (reply: Reply<Intent>)
      requires Valid()
      modifies this
      ensures Valid() && Ran(DoFailOutbound(id), now)
      ensures (View(), reply) == FailOutbound(old(View()), id, now)
    {
      RunAppend(base, log, DoFailOutbound(id), now);
      log := log + [(DoFailOutbound(id), now)];
      if id in intents && intents[id].state == Pending {
        intents := intents[id := intents[id].(state := Dropped, retryAt := None, updated := now)];
      }
      reply := ReplyIntent(View(), id);
    }

    // Expires what is overdue, then lists the requests still pending for a connection.
    method PendingForConnection(connection: string, now: nat) returns (found: set<Id>)
      requires Valid()
      modifies this
      ensures Valid() && Ran(DoExpireOutbound, now)
      ensures View() == ExpireOutbound(old(View()), now)
      ensures forall i :: i in found <==> i in intents && intents[i].state.Pending? && intents[i].order.connection == connection
      ensures forall i :: i in found ==> now < intents[i].order.expires
    {
      RunAppend(base, log, DoExpireOutbound, now);
      log := log + [(DoExpireOutbound, now)];
      intents := map i | i in intents :: ExpireIntent(intents[i], now);
      found := set i | i in intents && intents[i].state.Pending? && intents[i].order.connection == connection;
    }

    method PruneSettled(cutoff: nat)
      requires Valid()
      modifies this
      ensures View() == Prune(old(View()), cutoff)
      ensures Valid() && base == View() && log == []
    {
      RunKeeps(base, log);
      PruneForgets(View(), cutoff);
      base, log := Prune(View(), cutoff), [];
      rows := map i | i in rows && !PruneRow(rows[i], cutoff) :: rows[i];
      intents := map i | i in intents && !PruneIntent(intents[i], cutoff) :: intents[i];
    }
  }
}
