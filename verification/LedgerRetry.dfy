/**
 Retry scheduling of accepted deliveries that have no owner yet: delays grow and stay bounded,
 and a due delivery is offered after a number of rounds fixed by its position in the queue.
 */
module LedgerRetry {
  import opened Ledger

  // ---------------------------------------------------------------- delays

  lemma {:induction false} Pow2Grows(a: nat, b: nat)
    requires a <= b
    ensures Pow2(a) <= Pow2(b)
    decreases b - a
  {
    if a == b {
    } else {
      Pow2Grows(a, b - 1);
    }
  }

  /** Delays never shrink as attempts accumulate and stop at 256 seconds, so the cap at 300
      never decides one. */
  lemma DelayBounds(attempts: nat, later: nat)
    requires attempts <= later
    ensures 1 <= Delay(attempts) <= Delay(later) <= 256
    ensures Delay(attempts) == Pow2(Min(attempts, 8))
  {
    assert Pow2(8) == 256 && Pow2(0) == 1;
    Pow2Grows(Min(later, 8), 8);
    Pow2Grows(Min(attempts, 8), Min(later, 8));
    Pow2Grows(0, Min(attempts, 8));
  }

  // ---------------------------------------------------------------- one page of due admissions

  function DueTime(r: Row): nat {
    if r.retryAt.Some? then r.retryAt.value else 0
  }

  // The query's ORDER BY.
  predicate Sooner(db: Db, i: Id, j: Id)
    requires i in db.rows && j in db.rows
  {
    var a, b := db.rows[i], db.rows[j];
    || DueTime(a) < DueTime(b)
    || (DueTime(a) == DueTime(b) && a.created < b.created)
    || (DueTime(a) == DueTime(b) && a.created == b.created && i < j)
  }

  function Waiting(db: Db): set<Id> {
    set i | i in db.rows && Ownerless(db.rows[i])
  }

  function Eligible(db: Db, now: nat): (due: set<Id>)
    ensures due <= Waiting(db)
  {
    set i | i in db.rows && Ownerless(db.rows[i]) && DueTime(db.rows[i]) <= now
  }

  ghost predicate InOrder(db: Db, page: seq<Id>)
    requires forall i :: i in page ==> i in db.rows
  {
    forall a, b :: 0 <= a < b < |page| ==> Sooner(db, page[a], page[b])
  }

  // The soonest `limit` due deliveries, in order.
  ghost predicate IsPage(db: Db, due: set<Id>, limit: nat, page: seq<Id>)
    requires due <= Waiting(db)
  {
    && (forall i :: i in page ==> i in due)
    && InOrder(db, page)
    && |page| <= limit
    && (|page| < limit ==> forall i :: i in due ==> i in page)
    && (forall i, j :: i in due && i !in page && j in page ==> Sooner(db, j, i))
  }

  method Soonest(db: Db, due: set<Id>) returns (first: Id)
    requires due <= Waiting(db) && due != {}
    ensures first in due
    ensures forall i :: i in due && i != first ==> Sooner(db, first, i)
  {
    first :| first in due;
    var left := due - {first};
    while left != {}
      invariant left <= due && first in due && first !in left
      invariant forall i :: i in due && i !in left && i != first ==> Sooner(db, first, i)
      decreases |left|
    {
      var next :| next in left;
      left := left - {next};
      if Sooner(db, next, first) {
        first := next;
      }
    }
  }

  method PendingAdmissions(db: Db, limit: nat, now: nat) returns (page: seq<Id>)
    ensures IsPage(db, Eligible(db, now), limit, page)
  {
    page := [];
    ghost var due := Eligible(db, now);
    var left := Eligible(db, now);
    while left != {} && |page| < limit
      invariant left <= due && |page| <= limit
      invariant forall i :: i in page <==> i in due && i !in left
      invariant InOrder(db, page)
      invariant forall i, j :: i in left && j in page ==> Sooner(db, j, i)
      decreases |left|
    {
      var first := Soonest(db, left);
      page := page + [first];
      left := left - {first};
    }
  }

  // ---------------------------------------------------------------- what a run does to a waiting row

  // While a row waits, its place in the queue changes only by a deferral past `now`.
  predicate Waits(r: Row, r': Row, now: nat) {
    && r'.created == r.created
    && (Ownerless(r') ==> r.attempts <= r'.attempts)
    && (Ownerless(r') && r'.attempts == r.attempts ==> r'.retryAt == r.retryAt)
    && (Ownerless(r') && r'.attempts > r.attempts ==> DueTime(r') > now)
  }

  lemma WaitsStep(db: Db, op: Op, t: nat, now: nat, i: Id)
    requires i in db.rows && Ownerless(db.rows[i]) && now <= t
    ensures i in Apply(db, op, t).rows && Waits(db.rows[i], Apply(db, op, t).rows[i], now)
  {
    if op.DoDefer? {
      DelayBounds(db.rows[i].attempts + 1, db.rows[i].attempts + 1);
    }
  }

  // Once a row has left the waiting state it does not come back.
  lemma GoneStep(db: Db, op: Op, t: nat, i: Id)
    requires i in db.rows && !Ownerless(db.rows[i]) && !db.rows[i].state.Prepared?
    ensures var db' := Apply(db, op, t);
            i in db'.rows && !Ownerless(db'.rows[i]) && !db'.rows[i].state.Prepared? && db'.rows[i].created == db.rows[i].created
  {
  }

  lemma WaitsNotPrepared(db: Db, op: Op, t: nat, i: Id)
    requires i in db.rows && Ownerless(db.rows[i])
    ensures i in Apply(db, op, t).rows && !Apply(db, op, t).rows[i].state.Prepared?
  {
  }

  lemma {:induction false} GoneRun(db: Db, log: seq<(Op, nat)>, i: Id)
    requires i in db.rows && !Ownerless(db.rows[i]) && !db.rows[i].state.Prepared?
    ensures i in Run(db, log).rows && !Ownerless(Run(db, log).rows[i])
            && Run(db, log).rows[i].created == db.rows[i].created
    decreases |log|
  {
    if log == [] {
    } else {
      GoneStep(db, log[0].0, log[0].1, i);
      GoneRun(Apply(db, log[0].0, log[0].1), log[1..], i);
    }
  }

  lemma {:induction false} WaitsRun(db: Db, log: seq<(Op, nat)>, now: nat, i: Id)
    requires i in db.rows && Ownerless(db.rows[i])
    requires forall k :: 0 <= k < |log| ==> now <= log[k].1
    ensures i in Run(db, log).rows && Waits(db.rows[i], Run(db, log).rows[i], now)
    decreases |log|
  {
    if log == [] {
    } else {
      var db1 := Apply(db, log[0].0, log[0].1);
      WaitsStep(db, log[0].0, log[0].1, now, i);
      if Ownerless(db1.rows[i]) {
        WaitsRun(db1, log[1..], now, i);
      } else {
        WaitsNotPrepared(db, log[0].0, log[0].1, i);
        GoneRun(db1, log[1..], i);
      }
    }
  }

  // ---------------------------------------------------------------- rounds

  // One worker round: the page it read at `now`, and everything the ledger does until the next.
  datatype Round = Round(now: nat, page: seq<Id>, log: seq<(Op, nat)>)

  // Bound, finished or deferred since `db`.
  predicate Handled(db: Db, db': Db, i: Id)
    requires i in db.rows && i in db'.rows
  {
    !Ownerless(db'.rows[i]) || db'.rows[i].attempts > db.rows[i].attempts
  }

  // A round handles every delivery it was given, its clock does not run back, and nothing new
  // is authorized meanwhile.
  ghost predicate Serves(db: Db, limit: nat, rd: Round) {
    var db' := Run(db, rd.log);
    && IsPage(db, Eligible(db, rd.now), limit, rd.page)
    && (forall k :: 0 <= k < |rd.log| ==> rd.now <= rd.log[k].1)
    && (forall i :: i in rd.page ==> i in db'.rows && Handled(db, db', i))
    && Waiting(db') <= Waiting(db)
  }

  ghost predicate Schedule(db: Db, limit: nat, rounds: seq<Round>)
    decreases |rounds|
  {
    rounds == [] ||
    (&& Serves(db, limit, rounds[0])
     && (|rounds| > 1 ==> rounds[0].now <= rounds[1].now)
     && Schedule(Run(db, rounds[0].log), limit, rounds[1..]))
  }

  function After(db: Db, rounds: seq<Round>, k: nat): Db
    requires k <= |rounds|
    decreases k
  {
    if k == 0 then db else After(Run(db, rounds[0].log), rounds[1..], k - 1)
  }

  // How many waiting deliveries are ahead of this one.
  function Ahead(db: Db, id: Id): set<Id>
    requires id in db.rows
  {
    set i | i in Waiting(db) && Sooner(db, i, id)
  }

  lemma Fewer(a: set<Id>, b: set<Id>)
    requires a <= b
    ensures |a| <= |b|
  {
    assert b == a + (b - a);
  }

  function Items(page: seq<Id>): set<Id> {
    set i | i in page
  }

  lemma {:induction false} PageSize(db: Db, page: seq<Id>)
    requires forall i :: i in page ==> i in db.rows
    requires InOrder(db, page)
    ensures |Items(page)| == |page|
  {
    if page == [] {
    } else {
      var n := |page| - 1;
      var front := page[..n];
      PageSize(db, front);
      assert page[n] !in front;
      assert page == front + [page[n]];
      assert Items(page) == Items(front) + {page[n]};
    }
  }

  // Nobody moves in front of a due delivery that stays where it is.
  lemma AheadShrinks(db: Db, limit: nat, rd: Round, id: Id, i: Id)
    requires Serves(db, limit, rd) && id in Eligible(db, rd.now)
    requires id in Run(db, rd.log).rows && !Handled(db, Run(db, rd.log), id)
    requires i in Ahead(Run(db, rd.log), id)
    ensures i in Ahead(db, id) && i !in rd.page
  {
    WaitsRun(db, rd.log, rd.now, id);
    WaitsRun(db, rd.log, rd.now, i);
  }

  lemma FullPageAhead(db: Db, due: set<Id>, limit: nat, page: seq<Id>, id: Id)
    requires due <= Waiting(db) && IsPage(db, due, limit, page) && id in due && id !in page
    ensures |Items(page)| == limit && Items(page) <= Ahead(db, id)
  {
    PageSize(db, page);
  }

  /** A due delivery that a round leaves unhandled has at least a full page fewer ahead of it. */
  lemma RoundAdvances(db: Db, limit: nat, rd: Round, id: Id)
    requires Serves(db, limit, rd) && id in Eligible(db, rd.now)
    requires id in Run(db, rd.log).rows && !Handled(db, Run(db, rd.log), id)
    ensures |Ahead(Run(db, rd.log), id)| + limit <= |Ahead(db, id)|
  {
    var ahead, ahead', served := Ahead(db, id), Ahead(Run(db, rd.log), id), Items(rd.page);
    FullPageAhead(db, Eligible(db, rd.now), limit, rd.page, id);
    forall i | i in ahead' ensures i in ahead && i !in served {
      AheadShrinks(db, limit, rd, id, i);
    }
    Fewer(ahead' + served, ahead);
  }

  // The first round of a schedule either deals with a due delivery or brings it a page closer.
  lemma FirstRound(db: Db, limit: nat, rounds: seq<Round>, id: Id)
    requires Schedule(db, limit, rounds) && rounds != [] && id in Eligible(db, rounds[0].now)
    requires id !in rounds[0].page
    ensures var db1 := Run(db, rounds[0].log);
            && id in db1.rows
            && (!Handled(db, db1, id) ==>
                  && |Ahead(db1, id)| + limit <= |Ahead(db, id)|
                  && db1.rows[id].attempts == db.rows[id].attempts
                  && (|rounds| > 1 ==> id in Eligible(db1, rounds[1].now)))
  {
    WaitsRun(db, rounds[0].log, rounds[0].now, id);
    if !Handled(db, Run(db, rounds[0].log), id) {
      RoundAdvances(db, limit, rounds[0], id);
    }
  }

  lemma LimitTimes(limit: nat, n: nat, ahead: nat, ahead1: nat)
    requires ahead1 + limit <= ahead
    ensures ahead < limit * n ==> n > 1 && ahead1 < limit * (n - 1)
    ensures forall k: nat :: limit * k <= ahead1 ==> limit * (k + 1) <= ahead
  {
  }

  /** No starvation: a due delivery with p others ahead of it is offered in round k for some k with
      k * limit <= p, counting from zero, unless something else bound, finished or deferred it. */
  lemma {:induction false} StarvationFree(db: Db, limit: nat, rounds: seq<Round>, id: Id) returns (k: nat)
    requires 1 <= limit && Schedule(db, limit, rounds)
    requires rounds != [] && id in Eligible(db, rounds[0].now)
    requires |Ahead(db, id)| < limit * |rounds|
    ensures k < |rounds| && limit * k <= |Ahead(db, id)|
    ensures id in rounds[k].page
            || (id in After(db, rounds, k + 1).rows && Handled(db, After(db, rounds, k + 1), id))
    decreases |rounds|
  {
    k := 0;
    var db1 := Run(db, rounds[0].log);
    if id !in rounds[0].page {
      FirstRound(db, limit, rounds, id);
      if Handled(db, db1, id) {
        assert After(db, rounds, 1) == db1;
      } else {
        LimitTimes(limit, |rounds|, |Ahead(db, id)|, |Ahead(db1, id)|);
        var k1 := StarvationFree(db1, limit, rounds[1..], id);
        k := k1 + 1;
      }
    }
  }
}
