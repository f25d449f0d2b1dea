/**
 Choosing which idle chats to evict: expired ones and, over the limit, the least recently used.
 */
module ClaudeManager {
  import opened Wrappers

  datatype Chat = Chat(id: string, used: nat)

  ghost predicate ByUse(chats: seq<Chat>) {
    forall i, j :: 0 <= i < j < |chats| ==> chats[i].used <= chats[j].used
  }

  ghost predicate DistinctIds(chats: seq<Chat>) {
    forall i, j :: 0 <= i < j < |chats| ==> chats[i].id != chats[j].id
  }

  function Ids(chats: seq<Chat>): set<string> {
    set i | 0 <= i < |chats| :: chats[i].id
  }

  lemma {:induction false} IdsCount(chats: seq<Chat>)
    requires DistinctIds(chats)
    ensures |Ids(chats)| == |chats|
  {
    if chats == [] {
    } else {
      var n := |chats| - 1;
      IdsCount(chats[..n]);
      assert Ids(chats) == Ids(chats[..n]) + {chats[n].id};
    }
  }

  function Max(a: int, b: int): int {
    if a >= b then a else b
  }

  predicate Expired(c: Chat, now: nat, ttl: Option<nat>) {
    ttl.Some? && now - c.used >= ttl.value
  }

  // The chats idle for too long; `n` is how many, all of them first in the list.
  method SelectExpired(idle: seq<Chat>, now: nat, ttl: Option<nat>) returns (selected: set<string>, ghost n: nat)
    requires ByUse(idle)
    ensures n <= |idle| && selected == Ids(idle[..n])
    ensures forall i :: 0 <= i < |idle| ==> (Expired(idle[i], now, ttl) <==> i < n)
  {
    selected, n := {}, 0;
    var i := 0;
    assert idle[..0] == [];
    while i < |idle|
      invariant 0 <= n <= i <= |idle|
      invariant selected == Ids(idle[..n])
      invariant forall k :: 0 <= k < i ==> (Expired(idle[k], now, ttl) <==> k < n)
    {
      if Expired(idle[i], now, ttl) {
        assert n < i ==> !Expired(idle[n], now, ttl);
        assert idle[..i + 1] == idle[..i] + [idle[i]];
        selected := selected + {idle[i].id};
        n := i + 1;
      }
      i := i + 1;
    }
  }

  lemma TakeOne(idle: seq<Chat>, n: nat, i: nat)
    requires DistinctIds(idle) && n <= |idle| && i < |idle| && i <= n
    ensures idle[i].id in Ids(idle[..n]) <==> i < n
    ensures i == n ==> Ids(idle[..n + 1]) == Ids(idle[..n]) + {idle[i].id}
    ensures i < n ==> Ids(idle[..n]) == Ids(idle[..n]) + {idle[i].id}
  {
  }

  lemma PrefixCount(idle: seq<Chat>, n: nat)
    requires DistinctIds(idle) && n <= |idle|
    ensures |Ids(idle[..n])| == n
  {
    IdsCount(idle[..n]);
  }

  // Adds the least recently used chats until enough are selected.
  method SelectOverflow(idle: seq<Chat>, selected0: set<string>, ghost n0: nat, overflow: nat) returns (selected: set<string>, ghost n: nat)
    requires DistinctIds(idle) && n0 <= |idle| && selected0 == Ids(idle[..n0])
    ensures n0 <= n <= |idle| && selected == Ids(idle[..n]) && |selected| == n
    ensures n >= overflow || n == |idle|
    ensures n > n0 ==> n <= overflow
  {
    selected, n := selected0, n0;
    PrefixCount(idle, n);
    var i := 0;
    while i < |idle| && |selected| < overflow
      invariant 0 <= i <= |idle| && n0 <= n <= |idle| && i <= n
      invariant selected == Ids(idle[..n]) && |selected| == n
      invariant n > n0 ==> n <= overflow
    {
      TakeOne(idle, n, i);
      selected := selected + {idle[i].id};
      if i == n {
        n := n + 1;
      }
      PrefixCount(idle, n);
      i := i + 1;
    }
  }

  /** `idle` are the chats that are neither active, pinned nor excluded, least recently used first;
      `total` counts all supervisors.  The selection is a prefix of `idle`: it holds every expired
      chat and otherwise only as many as the limit asks for, and leaves at most as many supervisors
      as the limit or the busy ones, whichever is more. */
  method SelectIdle(idle: seq<Chat>, total: nat, limit: nat, now: nat, ttl: Option<nat>) returns (selected: set<string>, ghost n: nat)
    requires ByUse(idle) && DistinctIds(idle) && |idle| <= total
    ensures n <= |idle| && selected == Ids(idle[..n]) && |selected| == n
    ensures forall i :: 0 <= i < |idle| && Expired(idle[i], now, ttl) ==> i < n
    ensures n > 0 && !Expired(idle[n - 1], now, ttl) ==> n <= total - limit
    ensures total - |selected| <= Max(limit, total - |idle|)
  {
    var overflow := if total > limit then total - limit else 0;
    selected, n := SelectExpired(idle, now, ttl);
    selected, n := SelectOverflow(idle, selected, n, overflow);
  }
}
