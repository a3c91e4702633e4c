/** The Relay's table of requests in flight (`PendingRequests`): registration, completion by the
    response that carries the key, and the guard that withdraws a request when it ends. */
module Requests {

  /** `waiters` records history: the key of every registration ever made, by token. `delivered`
      lists the values handed to waiters, and `ended` the waiters whose guard was dropped. */
  datatype Table<K, V> = Table(
    entries: map<K, nat>,
    waiters: seq<K>,
    delivered: seq<(nat, V)>,
    ended: set<nat>)

  function Empty<K, V>(): Table<K, V> {
    Table(map[], [], [], {})
  }

  /** A duplicate key changes nothing; otherwise a new token guards the entry. */
  function Registered<K, V>(t: Table<K, V>, key: K): Table<K, V> {
    if key in t.entries then t
    else t.(entries := t.entries[key := |t.waiters|], waiters := t.waiters + [key])
  }

  function Completed<K, V>(t: Table<K, V>, key: K, value: V): Table<K, V> {
    if key in t.entries then t.(entries := t.entries - {key}, delivered := t.delivered + [(t.entries[key], value)])
    else t
  }

  /** The guard of a request is dropped: by its answer, a timeout, or cancellation. */
  function Dropped<K, V>(t: Table<K, V>, token: nat): Table<K, V>
    requires token < |t.waiters|
  {
    var key := t.waiters[token];
    t.(entries := if key in t.entries && t.entries[key] == token then t.entries - {key} else t.entries,
       ended := t.ended + {token})
  }

  datatype Action<K, V> = Register(key: K) | Complete(key: K, value: V) | Drop(token: nat)

  function Apply<K, V>(t: Table<K, V>, a: Action<K, V>): Table<K, V> {
    match a
    case Register(key) => Registered(t, key)
    case Complete(key, value) => Completed(t, key, value)
    case Drop(token) => if token < |t.waiters| && token !in t.ended then Dropped(t, token) else t
  }

  function Run<K, V>(t: Table<K, V>, trace: seq<Action<K, V>>): Table<K, V>
    decreases |trace|
  {
    if trace == [] then t else Run(Apply(t, trace[0]), trace[1..])
  }

  ghost predicate WasDelivered<K, V>(t: Table<K, V>, token: nat) {
    exists i :: 0 <= i < |t.delivered| && t.delivered[i].0 == token
  }

  /** An entry belongs to the waiter registered under its key, who is still waiting. */
  ghost predicate EntryOk<K, V>(t: Table<K, V>, key: K) {
    key in t.entries ==>
      var token := t.entries[key];
      token < |t.waiters| && t.waiters[token] == key && token !in t.ended && !WasDelivered(t, token)
  }

  /** Registered, and neither answered nor ended. */
  ghost predicate Live<K, V>(t: Table<K, V>, token: nat) {
    token < |t.waiters| && token !in t.ended && !WasDelivered(t, token)
  }

  /** A waiter that is still waiting owns the entry of its key. */
  ghost predicate WaiterOk<K, V>(t: Table<K, V>, token: nat) {
    Live(t, token) ==> t.waiters[token] in t.entries && t.entries[t.waiters[token]] == token
  }

  ghost predicate Inv<K(!new), V>(t: Table<K, V>) {
    && (forall key :: EntryOk(t, key))
    && (forall token: nat :: WaiterOk(t, token))
    && (forall i | 0 <= i < |t.delivered| :: t.delivered[i].0 < |t.waiters|)
    && (forall i, j | 0 <= i < j < |t.delivered| :: t.delivered[i].0 != t.delivered[j].0)
    && (forall token | token in t.ended :: token < |t.waiters|)
  }

  lemma RegisterKeeps<K(!new), V>(t: Table<K, V>, key: K)
    requires Inv(t)
    ensures Inv(Registered(t, key))
  {
    var t' := Registered(t, key);
    forall k ensures EntryOk(t', k) {
      assert EntryOk(t, k);
    }
    forall token: nat ensures WaiterOk(t', token) {
      assert WaiterOk(t, token);
      assert Live(t', token) && token < |t.waiters| ==> Live(t, token);
    }
  }

  lemma CompleteKeepsWaiters<K(!new), V>(t: Table<K, V>, key: K, value: V)
    requires Inv(t)
    ensures forall token: nat :: WaiterOk(Completed(t, key, value), token)
  {
    var t' := Completed(t, key, value);
    forall token: nat ensures WaiterOk(t', token) {
      assert WaiterOk(t, token);
      if Live(t', token) && key in t.entries {
        forall i | 0 <= i < |t.delivered| ensures t.delivered[i].0 != token {
          assert t'.delivered[i] == t.delivered[i];
        }
        assert t'.delivered[|t.delivered|].0 == t.entries[key];
      }
    }
  }

  lemma CompleteKeeps<K(!new), V>(t: Table<K, V>, key: K, value: V)
    requires Inv(t)
    ensures Inv(Completed(t, key, value))
  {
    var t' := Completed(t, key, value);
    assert EntryOk(t, key);
    forall k ensures EntryOk(t', k) {
      assert EntryOk(t, k);
    }
    CompleteKeepsWaiters(t, key, value);
    forall i, j | 0 <= i < j < |t'.delivered| ensures t'.delivered[i].0 != t'.delivered[j].0 {
      if j == |t.delivered| {
        assert t'.delivered[i] == t.delivered[i];
      }
    }
  }

  lemma DropKeeps<K(!new), V>(t: Table<K, V>, token: nat)
    requires Inv(t) && token < |t.waiters|
    ensures Inv(Dropped(t, token))
    ensures forall k | k in Dropped(t, token).entries :: Dropped(t, token).entries[k] != token
    ensures forall k | k in t.entries && t.entries[k] != token ::
              k in Dropped(t, token).entries && Dropped(t, token).entries[k] == t.entries[k]
  {
    var t' := Dropped(t, token);
    forall k ensures EntryOk(t', k) && (k in t'.entries ==> t'.entries[k] != token) {
      assert EntryOk(t, k);
    }
    forall other: nat ensures WaiterOk(t', other) {
      assert WaiterOk(t, other);
      assert Live(t', other) ==> Live(t, other);
    }
  }

  lemma {:induction false} RunKeeps<K(!new), V>(t: Table<K, V>, trace: seq<Action<K, V>>)
    requires Inv(t)
    ensures Inv(Run(t, trace))
    decreases |trace|
  {
    if trace != [] {
      match trace[0] {
        case Register(key) => RegisterKeeps(t, key);
        case Complete(key, value) => CompleteKeeps(t, key, value);
        case Drop(token) => if token < |t.waiters| && token !in t.ended { DropKeeps(t, token); }
      }
      RunKeeps(Apply(t, trace[0]), trace[1..]);
    }
  }

  /** Under every interleaving: of all registrations ever made under a key at most one is still
      waiting, and the table holds exactly the waiters that are; a waiter gets at most one value; a
      request that ended has left no entry behind. */
  lemma Correlated<K(!new), V>(trace: seq<Action<K, V>>)
    ensures var t := Run(Empty<K, V>(), trace);
            && (forall a: nat, b: nat | Live(t, a) && Live(t, b) && t.waiters[a] == t.waiters[b] :: a == b)
            && (forall token: nat | Live(t, token) ::
                  t.waiters[token] in t.entries && t.entries[t.waiters[token]] == token)
            && (forall key | key in t.entries :: Live(t, t.entries[key]) && t.waiters[t.entries[key]] == key)
            && (forall i, j | 0 <= i < j < |t.delivered| :: t.delivered[i].0 != t.delivered[j].0)
            && (forall token | token in t.ended :: forall key | key in t.entries :: t.entries[key] != token)
  {
    RunKeeps(Empty<K, V>(), trace);
    var t := Run(Empty<K, V>(), trace);
    forall token: nat | Live(t, token) ensures t.waiters[token] in t.entries && t.entries[t.waiters[token]] == token {
      assert WaiterOk(t, token);
    }
    forall key | key in t.entries ensures Live(t, t.entries[key]) && t.waiters[t.entries[key]] == key {
      assert EntryOk(t, key);
    }
  }

  /** A value goes to the waiter registered under the key it answers, and to no one else. */
  lemma CompletionReachesItsWaiter<K(!new), V>(trace: seq<Action<K, V>>, key: K, value: V)
    ensures var t := Run(Empty<K, V>(), trace);
            var t' := Completed(t, key, value);
            if key in t.entries then
              && |t'.delivered| == |t.delivered| + 1
              && t'.delivered[|t.delivered|].1 == value
              && t'.delivered[|t.delivered|].0 < |t.waiters|
              && t.waiters[t'.delivered[|t.delivered|].0] == key
              && key !in t'.entries
            else t' == t
  {
    RunKeeps(Empty<K, V>(), trace);
    assert EntryOk(Run(Empty<K, V>(), trace), key);
  }

  /** The mutex-guarded table. */
  class PendingRequests<K(==), V> {
    var entries: map<K, nat>
    var waiters: seq<K>
    var delivered: seq<(nat, V)>
    var ended: set<nat>

    function Model(): Table<K, V>
      reads this
    {
      Table(entries, waiters, delivered, ended)
    }

    constructor ()
      ensures Model() == Empty()
    {
      entries, waiters, delivered, ended := map[], [], [], {};
    }

    method Register(key: K) returns (ok: bool, token: nat)
      modifies this`entries, this`waiters
      ensures Model() == Registered(old(Model()), key)
      ensures ok == (key !in old(entries))
      ensures ok ==> token == |old(waiters)| && key in entries && entries[key] == token
    {
      token := |waiters|;
      ok := key !in entries;
      if ok {
        waiters := waiters + [key];
        entries := entries[key := token];
      }
    }

    method Complete(key: K, value: V) returns (found: bool)
      modifies this`entries, this`delivered
      ensures Model() == Completed(old(Model()), key, value)
      ensures found == (key in old(entries))
    {
      found := key in entries;
      if found {
        delivered := delivered + [(entries[key], value)];
        entries := entries - {key};
      }
    }

    method DropGuard(token: nat)
      requires token < |waiters|
      modifies this`entries, this`ended
      ensures Model() == Dropped(old(Model()), token)
    {
      var key := waiters[token];
      if key in entries && entries[key] == token {
        entries := entries - {key};
      }
      ended := ended + {token};
    }
  }
}
