/** The idempotency table: one record per key, reserved before an effect and completed after it.

    A reference is either open or done. Open are the references with the reserved "pending:" prefix and the
    empty one: both are `Pending`, told apart by the token. A completion may itself bring an open reference;
    then it can be overwritten. */
module Idempotency {
  import opened Common

  datatype Ref<+P, +R> = Pending(token: P) | Done(result: R)
  datatype Record<+H, +P, +R> = Record(hash: H, ref: Ref<P, R>)
  datatype IdempotencyError = HashConflict | NoReservation

  function ReserveTx<K(==), H(==), P, R>(m: map<K, Record<H, P, R>>, key: K, hash: H, ref: Ref<P, R>)
    : Tx<map<K, Record<H, P, R>>, Record<H, P, R>, IdempotencyError>
  {
    if key !in m then Commit(m[key := Record(hash, ref)], Record(hash, ref))
    else if m[key].hash != hash then Raise(HashConflict)
    else Commit(m, m[key])
  }

  function CompleteTx<K(==), H(==), P, R>(m: map<K, Record<H, P, R>>, key: K, hash: H, ref: Ref<P, R>)
    : Tx<map<K, Record<H, P, R>>, Record<H, P, R>, IdempotencyError>
  {
    if key !in m then Raise(NoReservation)
    else if m[key].hash != hash then Raise(HashConflict)
    else if m[key].ref.Done? then Commit(m, m[key])
    else Commit(m[key := Record(hash, ref)], Record(hash, ref))
  }

  /** What any number of reservations and completions may do to the table: records stay, a hash
      is written once, a done result is written once. */
  ghost predicate Extends<K, H, P, R>(before: map<K, Record<H, P, R>>, after: map<K, Record<H, P, R>>)
  {
    forall k | k in before ::
      && k in after
      && after[k].hash == before[k].hash
      && (before[k].ref.Done? ==> after[k] == before[k])
  }

  datatype Request<+K, +H, +P, +R> =
    | ReserveCall(key: K, hash: H, ref: Ref<P, R>)
    | CompleteCall(key: K, hash: H, ref: Ref<P, R>)

  function Apply<K(==), H(==), P, R>(m: map<K, Record<H, P, R>>, call: Request<K, H, P, R>): map<K, Record<H, P, R>>
  {
    var tx := if call.ReserveCall? then ReserveTx(m, call.key, call.hash, call.ref)
              else CompleteTx(m, call.key, call.hash, call.ref);
    if tx.Commit? then tx.db else m
  }

  function ApplyAll<K(==), H(==), P, R>(m: map<K, Record<H, P, R>>, calls: seq<Request<K, H, P, R>>)
    : map<K, Record<H, P, R>>
    decreases |calls|
  {
    if calls == [] then m else ApplyAll(Apply(m, calls[0]), calls[1..])
  }

  /** Write-once over every history: whatever calls follow, hashes and done results never change. */
  lemma {:induction false} HistoryExtends<K, H, P, R>(m: map<K, Record<H, P, R>>, calls: seq<Request<K, H, P, R>>)
    ensures Extends(m, ApplyAll(m, calls))
    decreases |calls|
  {
    if calls != [] {
      HistoryExtends(Apply(m, calls[0]), calls[1..]);
    }
  }

  /** A completion is final exactly when what it answers is done: then every later one is answered with the
      same record, whatever happened in between. Otherwise the next one overwrites it. */
  lemma CompletionIsFinalIff<K, H, P, R>(m: map<K, Record<H, P, R>>, key: K, hash: H, first: Ref<P, R>, second: R,
                                         between: seq<Request<K, H, P, R>>)
    requires CompleteTx(m, key, hash, first).Commit?
    ensures var tx := CompleteTx(m, key, hash, first);
            var next := CompleteTx(tx.db, key, hash, Done(second));
            var later := CompleteTx(ApplyAll(tx.db, between), key, hash, Done(second));
            && next.Commit? && later.Commit? && later.answer.ref.Done?
            && (tx.answer.ref.Done? <==> next.answer == tx.answer)
            && (tx.answer.ref.Done? ==> later.answer == tx.answer)
            && (!tx.answer.ref.Done? ==> next.answer == Record(hash, Done(second)))
  {
    HistoryExtends(CompleteTx(m, key, hash, first).db, between);
  }

  /** The life of a key: the first reservation is written, and every later one with its hash is answered from it; one
      with another hash is a conflict, and so is such a completion. A completion needs a reservation, and writes
      unless the result is there. */
  lemma LifeOfAKey<K, H, P, R>(m: map<K, Record<H, P, R>>, key: K, hash: H, ref: Ref<P, R>, other: H, later: Ref<P, R>)
    requires key !in m
    ensures CompleteTx(m, key, hash, later) == Raise(NoReservation)
    ensures ReserveTx(m, key, hash, ref) == Commit(m[key := Record(hash, ref)], Record(hash, ref))
    ensures var reserved := m[key := Record(hash, ref)];
            && ReserveTx(reserved, key, hash, later) == Commit(reserved, Record(hash, ref))
            && (other != hash ==>
                  && ReserveTx(reserved, key, other, later) == Raise(HashConflict)
                  && CompleteTx(reserved, key, other, later) == Raise(HashConflict))
            && CompleteTx(reserved, key, hash, later)
               == if ref.Done? then Commit(reserved, Record(hash, ref))
                  else Commit(m[key := Record(hash, later)], Record(hash, later))
  {
    assert m[key := Record(hash, ref)][key := Record(hash, later)] == m[key := Record(hash, later)];
  }

  /** The in-memory reference store. */
  class IdempotencyStore<K(==), H(==), P, R> {
    var records: map<K, Record<H, P, R>>

    constructor ()
      ensures records == map[]
    {
      records := map[];
    }

    method Reserve(key: K, hash: H, ref: Ref<P, R>)
      returns (tx: Tx<map<K, Record<H, P, R>>, Record<H, P, R>, IdempotencyError>)
      modifies this
      ensures tx == ReserveTx(old(records), key, hash, ref)
      ensures records == if tx.Commit? then tx.db else old(records)
    {
      if key in records {
        var existing := records[key];
        if existing.hash != hash {
          return Raise(HashConflict);
        }
        return Commit(records, existing);
      }
      var record := Record(hash, ref);
      records := records[key := record];
      tx := Commit(records, record);
    }

    method Complete(key: K, hash: H, ref: Ref<P, R>)
      returns (tx: Tx<map<K, Record<H, P, R>>, Record<H, P, R>, IdempotencyError>)
      modifies this
      ensures tx == CompleteTx(old(records), key, hash, ref)
      ensures records == if tx.Commit? then tx.db else old(records)
    {
      if key !in records {
        return Raise(NoReservation);
      }
      var existing := records[key];
      if existing.hash != hash {
        return Raise(HashConflict);
      }
      if existing.ref.Done? {
        return Commit(records, existing);
      }
      var record := Record(hash, ref);
      records := records[key := record];
      tx := Commit(records, record);
    }
  }
}
