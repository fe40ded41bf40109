/** Replay protection of signed node requests (service.go, store.go): a nonce row lives until the
    request's acceptance window closes, and a row that is still there makes the insert conflict. */
module Nonces {
  datatype RequestType = Register | Heartbeat

  /** The unique index on `node_request_nonces`. */
  datatype Key = Key(tenant: string, nodeKey: string, kind: RequestType, nonce: string)

  /** Times are in nanoseconds, `signedAt` in seconds as the request carries it. */
  datatype Request = Request(key: Key, signedAt: int)

  /** A request as it reaches the service; `genuine` is the outcome of all its other checks. */
  datatype Delivery = Delivery(now: int, request: Request, genuine: bool)

  datatype Verdict = Accepted | OutsideSkew | NotGenuine | Replayed

  const SECOND := 1_000_000_000

  function SignedTime(r: Request): int { r.signedAt * SECOND }

  /** `validateSignedAt`. */
  predicate InWindow(skew: int, now: int, r: Request) {
    r.signedAt > 0 && now - SignedTime(r) <= skew && SignedTime(r) - now <= skew
  }

  /** `DELETE ... WHERE expires_at < NOW()`. */
  function Purged(rows: map<Key, int>, now: int): map<Key, int> { map k | k in rows && rows[k] >= now :: rows[k] }

  class NonceStore {
    var rows: map<Key, int>  // expiry of each consumed nonce

    constructor ()
      ensures rows == map[]
    {
      rows := map[];
    }

    /** `ConsumeNodeNonce`: false is the conflict on the unique index. */
    method ConsumeNodeNonce(now: int, key: Key, expiresAt: int) returns (ok: bool)
      modifies this
      ensures ok <==> key !in old(rows) || old(rows)[key] < now
      ensures rows == if ok then Purged(old(rows), now)[key := expiresAt] else Purged(old(rows), now)
    {
      rows := Purged(rows, now);
      if key in rows { return false; }
      rows := rows[key := expiresAt];
      ok := true;
    }
  }

  /** One request against the rows, the row expiring `horizon` after the signature. */
  function Handle(skew: int, horizon: int, rows: map<Key, int>, d: Delivery): (map<Key, int>, Verdict) {
    if !InWindow(skew, d.now, d.request) then (rows, OutsideSkew)
    else if !d.genuine then (rows, NotGenuine)
    else if d.request.key in Purged(rows, d.now) then (Purged(rows, d.now), Replayed)
    else (Purged(rows, d.now)[d.request.key := SignedTime(d.request) + horizon], Accepted)
  }

  class Gate {
    const maxSkew: int
    const store: NonceStore

    constructor (skew: int)
      ensures fresh(store) && store.rows == map[] && maxSkew == skew
    {
      maxSkew := skew;
      store := new NonceStore();
    }

    /** The checks of `RegisterNode` and `NodeHeartbeat` around `consumeNodeNonce`. */
    method Receive(d: Delivery) returns (v: Verdict)
      modifies store
      ensures (store.rows, v) == Handle(maxSkew, maxSkew, old(store.rows), d)
    {
      if !InWindow(maxSkew, d.now, d.request) { return OutsideSkew; }
      if !d.genuine { return NotGenuine; }
      var ok := store.ConsumeNodeNonce(d.now, d.request.key, SignedTime(d.request) + maxSkew);
      v := if ok then Accepted else Replayed;
    }
  }

  // ----- Whole runs -----

  /** The clock never goes back. */
  ghost predicate Monotone(run: seq<Delivery>) { forall i, j :: 0 <= i <= j < |run| ==> run[i].now <= run[j].now }

  function RowsAfter(skew: int, horizon: int, run: seq<Delivery>, k: nat): map<Key, int>
    requires k <= |run|
  {
    if k == 0 then map[] else Handle(skew, horizon, RowsAfter(skew, horizon, run, k - 1), run[k - 1]).0
  }

  function VerdictOf(skew: int, horizon: int, run: seq<Delivery>, k: nat): Verdict
    requires k < |run|
  {
    Handle(skew, horizon, RowsAfter(skew, horizon, run, k), run[k]).1
  }

  /** A consumed nonce stays until the clock passes its expiry. */
  lemma {:induction false} StillConsumed(skew: int, horizon: int, run: seq<Delivery>, i: nat, k: nat)
    requires Monotone(run) && i < k <= |run| && VerdictOf(skew, horizon, run, i) == Accepted
    requires forall j :: i < j < k ==> run[j].now <= SignedTime(run[i].request) + horizon
    ensures run[i].request.key in RowsAfter(skew, horizon, run, k)
    ensures RowsAfter(skew, horizon, run, k)[run[i].request.key] == SignedTime(run[i].request) + horizon
    decreases k
  {
    if k > i + 1 {
      StillConsumed(skew, horizon, run, i, k - 1);
    }
  }

  /** A nonce is accepted again only after its row has expired. */
  lemma AcceptedAgain(skew: int, horizon: int, run: seq<Delivery>, i: nat, j: nat)
    requires Monotone(run) && i < j < |run| && run[i].request.key == run[j].request.key
    requires VerdictOf(skew, horizon, run, i) == Accepted && VerdictOf(skew, horizon, run, j) == Accepted
    ensures run[j].now > SignedTime(run[i].request) + horizon
  {
    if run[j].now <= SignedTime(run[i].request) + horizon {
      StillConsumed(skew, horizon, run, i, j);
    }
  }

  /** Every row comes from an accepted request. */
  lemma {:induction false} RowsComeFrom(skew: int, horizon: int, run: seq<Delivery>, k: nat, key: Key) returns (i: nat)
    requires k <= |run| && key in RowsAfter(skew, horizon, run, k)
    ensures i < k && run[i].request.key == key && VerdictOf(skew, horizon, run, i) == Accepted
    ensures RowsAfter(skew, horizon, run, k)[key] == SignedTime(run[i].request) + horizon
    decreases k
  {
    if VerdictOf(skew, horizon, run, k - 1) == Accepted && run[k - 1].request.key == key {
      i := k - 1;
    } else {
      i := RowsComeFrom(skew, horizon, run, k - 1, key);
    }
  }

  /** The row of an accepted request is still there, and has not expired. */
  ghost predicate Remembered(skew: int, horizon: int, run: seq<Delivery>, k: nat)
    requires k < |run|
  {
    exists i :: 0 <= i < k && run[i].request.key == run[k].request.key && VerdictOf(skew, horizon, run, i) == Accepted
      && run[k].now <= run[i].request.signedAt * 1_000_000_000 + horizon
  }

  /** What becomes of each request of a run: it must be signed, within `skew` of the clock to either side, it must pass
      the other checks, and no accepted request with its key may be remembered. */
  lemma AnsweredExactlyAs(skew: int, horizon: int, run: seq<Delivery>, k: nat)
    requires Monotone(run) && k < |run|
    ensures var d := run[k];
      var age := d.now - d.request.signedAt * 1_000_000_000;
      VerdictOf(skew, horizon, run, k)
      == if d.request.signedAt <= 0 || age > skew || age < -skew then OutsideSkew
         else if !d.genuine then NotGenuine
         else if Remembered(skew, horizon, run, k) then Replayed
         else Accepted
  {
    var key, rows := run[k].request.key, RowsAfter(skew, horizon, run, k);
    if Remembered(skew, horizon, run, k) {
      var i :| 0 <= i < k && run[i].request.key == key && VerdictOf(skew, horizon, run, i) == Accepted
        && run[k].now <= run[i].request.signedAt * 1_000_000_000 + horizon;
      StillConsumed(skew, horizon, run, i, k);
    } else if key in rows && rows[key] >= run[k].now {
      var i := RowsComeFrom(skew, horizon, run, k, key);
    }
  }

  /** In no run is the same signed request accepted twice: the row outlives the acceptance window. */
  lemma NoReplay(skew: int, run: seq<Delivery>, i: nat, j: nat)
    requires Monotone(run) && i < j < |run| && run[i].request == run[j].request
    ensures VerdictOf(skew, skew, run, i) == Accepted ==> VerdictOf(skew, skew, run, j) != Accepted
  {
    if VerdictOf(skew, skew, run, i) == Accepted && VerdictOf(skew, skew, run, j) == Accepted {
      AcceptedAgain(skew, skew, run, i, j);
    }
  }

  ghost predicate SomeReplay(skew: int, horizon: int) {
    exists run: seq<Delivery>, i: nat, j: nat ::
      Monotone(run) && i < j < |run| && run[i].request == run[j].request
      && VerdictOf(skew, horizon, run, i) == Accepted && VerdictOf(skew, horizon, run, j) == Accepted
  }

  /** How long rows must be kept: a replay is possible exactly when they expire before the window closes. */
  lemma ReplayableExactlyWhen(skew: int, horizon: int)
    requires skew >= 0
    ensures SomeReplay(skew, horizon) <==> horizon < skew
  {
    if horizon < skew {
      var r := Request(Key("t", "k", Register, "nonce-01"), 1);
      var run := [Delivery(SignedTime(r), r, true), Delivery(SignedTime(r) + skew, r, true)];
      var rows := RowsAfter(skew, horizon, run, 1);
      assert RowsAfter(skew, horizon, run, 0) == map[];
      assert VerdictOf(skew, horizon, run, 0) == Accepted;
      assert rows == map[r.key := SignedTime(r) + horizon];
      assert VerdictOf(skew, horizon, run, 1) == Accepted;
      assert Monotone(run);
    } else if SomeReplay(skew, horizon) {
      var run: seq<Delivery>, i: nat, j: nat :|
        Monotone(run) && i < j < |run| && run[i].request == run[j].request
        && VerdictOf(skew, horizon, run, i) == Accepted && VerdictOf(skew, horizon, run, j) == Accepted;
      AcceptedAgain(skew, horizon, run, i, j);
    }
  }
}
