/**
 * The server's channel registry as a value: a map from id to entry where
 * registration inserts only if the id is absent, unregistration deletes by
 * id, and the server's event loop replays register and unregister events in
 * the order they arrive.
 */
module Registry {
  import opened Wrappers

  /** An event on the server's loop: register an entry under `key`, or delete `key`. */
  datatype Event<T> = Register(key: string, item: T) | Unregister(key: string)

  /** Lookup by id: the stored entry, or None when the id is not a key. */
  function Find<T>(m: map<string, T>, k: string): (r: Option<T>)
    ensures r.Some? <==> k in m
    ensures r.Some? ==> r.value == m[k]
  {
    if k in m then Some(m[k]) else None
  }

  /** Insert-if-absent: an entry already stored under `k` is kept. */
  function Insert<T>(m: map<string, T>, k: string, v: T): (r: map<string, T>)
    ensures k in r
    ensures k in m ==> r[k] == m[k]
    ensures k !in m ==> r[k] == v
    ensures forall j :: j != k ==> (j in r <==> j in m)
    ensures forall j :: j != k && j in r ==> r[j] == m[j]
  {
    if k in m then m else m[k := v]
  }

  /** Delete by id; nothing happens when `k` is absent. */
  function Delete<T>(m: map<string, T>, k: string): (r: map<string, T>)
    ensures k !in r
    ensures forall j :: j != k ==> (j in r <==> j in m)
    ensures forall j :: j != k && j in r ==> r[j] == m[j]
  {
    m - {k}
  }

  function Apply<T>(m: map<string, T>, e: Event<T>): map<string, T>
  {
    match e
    case Register(k, v) => Insert(m, k, v)
    case Unregister(k) => Delete(m, k)
  }

  /** The registry after handling `evs` one at a time, first to last. */
  function Replay<T>(m: map<string, T>, evs: seq<Event<T>>): map<string, T>
  {
    if evs == [] then m else Apply(Replay(m, evs[..|evs| - 1]), evs[|evs| - 1])
  }

  /** The last event of `evs` about key `k`, if any. */
  function LastFor<T>(evs: seq<Event<T>>, k: string): (r: Option<Event<T>>)
    ensures r.Some? ==> r.value.key == k
    ensures r.Some? ==> exists i :: 0 <= i < |evs| && evs[i] == r.value && forall j :: i < j < |evs| ==> evs[j].key != k
    ensures r.None? ==> forall i :: 0 <= i < |evs| ==> evs[i].key != k
  {
    if evs == [] then None
    else if evs[|evs| - 1].key == k then Some(evs[|evs| - 1])
    else LastFor(evs[..|evs| - 1], k)
  }

  /**
   * After a replay, an id is registered exactly when its last event is a
   * register, or, when no event names it, when it was registered before.
   */
  lemma {:induction false} ReplayMembership<T>(m: map<string, T>, evs: seq<Event<T>>, k: string)
    ensures k in Replay(m, evs) <==>
      match LastFor(evs, k)
      case None => k in m
      case Some(e) => e.Register?
  {
    if evs != [] {
      ReplayMembership(m, evs[..|evs| - 1], k);
    }
  }

  /** An id that no event names keeps its original entry, or stays absent. */
  lemma {:induction false} ReplayUntouched<T>(m: map<string, T>, evs: seq<Event<T>>, k: string)
    requires forall i :: 0 <= i < |evs| ==> evs[i].key != k
    ensures k in Replay(m, evs) <==> k in m
    ensures k in m ==> Replay(m, evs)[k] == m[k]
  {
    if evs != [] {
      ReplayUntouched(m, evs[..|evs| - 1], k);
    }
  }

  /** Registering twice keeps the first entry, so the second register changes nothing. */
  lemma InsertTwice<T>(m: map<string, T>, k: string, v: T, w: T)
    ensures Insert(Insert(m, k, v), k, w) == Insert(m, k, v)
  {
  }
}
