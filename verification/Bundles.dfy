/** Sending a bundle (`bundle.py`): consecutive transaction nonces, signing in order, recording every transaction. */
module Bundles {
  import opened Words
  import opened ProofOfWork
  import opened Submission

  /** A signed mine transaction; its hash is a function of it. */
  datatype Tx = Tx(txNonce: nat, powNonce: uint256)

  /** Nothing to send, an exception on the way, or the transactions of the payload in order. */
  datatype Sending = Empty | Raises | Sent(txs: seq<Tx>)

  function TxAt(start: nat, sols: seq<Solution>, i: nat): Tx
    requires i < |sols|
  {
    Tx(start + i, sols[i].nonce)
  }

  function Txs(start: nat, sols: seq<Solution>): seq<Tx> {
    if sols == [] then []
    else Txs(start, sols[..|sols| - 1]) + [TxAt(start, sols, |sols| - 1)]
  }

  function RecordAll(b: Book, start: nat, sols: seq<Solution>, hash: Tx -> bytes32): Book {
    if sols == [] then b
    else
      var last := |sols| - 1;
      PendingRecorded(RecordAll(b, start, sols[..last], hash), hash(TxAt(start, sols, last)),
                      sols[last].nonce, sols[last].epoch)
  }

  /** `signed` is how many transactions can be built and signed before one raises. */
  function SendBundle(b: Book, sols: seq<Solution>, rpc: Option<nat>, signed: nat, hash: Tx -> bytes32)
    : (Book, Sending)
  {
    if sols == [] then (b, Empty)
    else
      match Reserve(b, |sols|, rpc)
      case (b1, Assigned(start)) =>
        if signed < |sols| then (b1, Raises) else (RecordAll(b1, start, sols, hash), Sent(Txs(start, sols)))
      case (b1, _) => (b1, Raises)
  }

  /** Build and sign one transaction for each solution, at consecutive transaction nonces. */
  method SignAll(start: nat, sols: seq<Solution>, signed: nat) returns (ok: bool, txs: seq<Tx>)
    ensures ok <==> signed >= |sols|
    ensures ok ==> txs == Txs(start, sols)
  {
    txs := [];
    var i := 0;
    while i < |sols|
      invariant 0 <= i <= |sols| && i <= signed
      invariant txs == Txs(start, sols[..i])
    {
      if i >= signed { return false, txs; }
      assert sols[..i + 1][..i] == sols[..i];
      txs := txs + [Tx(start + i, sols[i].nonce)];
      i := i + 1;
    }
    assert sols[..i] == sols;
    ok := true;
  }

  method Send(submitter: Submitter, sols: seq<Solution>, rpc: Option<nat>, signed: nat, hash: Tx -> bytes32)
    returns (result: Sending)
    modifies submitter
    ensures (submitter.Now(), result) == SendBundle(old(submitter.Now()), sols, rpc, signed, hash)
  {
    hide PendingRecorded, Txs;
    if sols == [] { return Empty; }
    var verdict := submitter.ReserveTxNonces(|sols|, rpc);
    if !verdict.Assigned? { return Raises; }
    var start := verdict.txNonce;
    var ok, txs := SignAll(start, sols, signed);
    if !ok { return Raises; }
    TxsAt(start, sols, 0);
    ghost var reserved := submitter.Now();
    var i := 0;
    assert sols[..i] == [];
    while i < |sols|
      invariant 0 <= i <= |sols|
      invariant submitter.Now() == RecordAll(reserved, start, sols[..i], hash)
    {
      assert sols[..i + 1][..i] == sols[..i];
      TxsAt(start, sols, i);
      submitter.RecordPending(hash(txs[i]), sols[i].nonce, sols[i].epoch);
      i := i + 1;
    }
    assert sols[..i] == sols;
    return Sent(txs);
  }

  lemma {:induction false} TxsAt(start: nat, sols: seq<Solution>, i: nat)
    requires i < |sols|
    ensures |Txs(start, sols)| == |sols| && Txs(start, sols)[i] == Tx(start + i, sols[i].nonce)
  {
    var last := |sols| - 1;
    if i < last { TxsAt(start, sols[..last], i); }
    else if last > 0 { TxsAt(start, sols[..last], last - 1); }
  }

  /** What recording the first transactions has done. */
  ghost predicate Recorded(b: Book, b': Book, start: nat, sols: seq<Solution>, hash: Tx -> bytes32) {
    && b'.sent == b.sent + |sols| && b'.txNonce == b.txNonce
    && |b'.pending| == |b.pending| + |sols| && b.pending <= b'.pending
    && (forall i | 0 <= i < |sols| ::
          b'.pending[|b.pending| + i] == Pending(hash(Tx(start + i, sols[i].nonce)), sols[i].nonce, sols[i].epoch))
    && (b'.confirmed, b'.reverted, b'.skipped, b'.errors, b'.hashEarned)
       == (b.confirmed, b.reverted, b.skipped, b.errors, b.hashEarned)
  }

  lemma {:induction false} RecordAllEffect(b: Book, start: nat, sols: seq<Solution>, hash: Tx -> bytes32)
    ensures Recorded(b, RecordAll(b, start, sols, hash), start, sols, hash)
  {
    hide Marked;
    if sols != [] { RecordAllEffect(b, start, sols[..|sols| - 1], hash); }
  }

  function Nonces(sols: seq<Solution>): set<uint256> {
    set i | 0 <= i < |sols| :: sols[i].nonce
  }

  function MarkAll(used: map<nat, set<uint256>>, sols: seq<Solution>): map<nat, set<uint256>> {
    if sols == [] then used
    else
      var last := |sols| - 1;
      Marked(MarkAll(used, sols[..last]), sols[last].epoch, sols[last].nonce)
  }

  lemma {:induction false} RecordAllMarks(b: Book, start: nat, sols: seq<Solution>, hash: Tx -> bytes32)
    ensures RecordAll(b, start, sols, hash).used == MarkAll(b.used, sols)
  {
    hide Marked;
    if sols != [] { RecordAllMarks(b, start, sols[..|sols| - 1], hash); }
  }

  /** A bundle of one epoch puts exactly its nonces into that epoch's used-set and drops all epochs before the last. */
  lemma {:induction false} MarkAllEffect(used: map<nat, set<uint256>>, sols: seq<Solution>, epoch: nat, e: nat)
    requires sols != [] && forall i | 0 <= i < |sols| :: sols[i].epoch == epoch
    ensures UsedIn(MarkAll(used, sols), e)
            == if e + 1 < epoch then {} else if e == epoch then UsedIn(used, e) + Nonces(sols) else UsedIn(used, e)
  {
    var last := |sols| - 1;
    MarkEffect(MarkAll(used, sols[..last]), epoch, sols[last].nonce, e);
    assert Nonces(sols) == Nonces(sols[..last]) + {sols[last].nonce};
    hide Marked, UsedIn;
    if last > 0 {
      MarkAllEffect(used, sols[..last], epoch, e);
    } else {
      assert sols[..last] == [] && Nonces(sols[..last]) == {};
    }
  }

  /** A bundle that is sent: its i-th transaction mines the i-th solution and carries the i-th nonce from the counter
      on, the counter moves past them all, and every transaction is pending in order. */
  lemma BundleOrder(b: Book, sols: seq<Solution>, rpc: Option<nat>, signed: nat, hash: Tx -> bytes32)
    requires SendBundle(b, sols, rpc, signed, hash).1.Sent?
    ensures var (b', sending) := SendBundle(b, sols, rpc, signed, hash);
      Counter(b, rpc).Some? && var start := Counter(b, rpc).value;
      && |sending.txs| == |sols| && (forall i | 0 <= i < |sols| :: sending.txs[i] == Tx(start + i, sols[i].nonce))
      && b'.txNonce == Some(start + |sols|)
      && Recorded(b.(txNonce := b'.txNonce), b', start, sols, hash)
  {
    var start := Counter(b, rpc).value;
    RecordAllEffect(Reserve(b, |sols|, rpc).0, start, sols, hash);
    hide RecordAll, Recorded;
    forall i | 0 <= i < |sols|
      ensures |Txs(start, sols)| == |sols| && Txs(start, sols)[i] == Tx(start + i, sols[i].nonce) {
      TxsAt(start, sols, i);
    }
    TxsAt(start, sols, 0);
    hide Txs;
  }

  /** A bundle that is not sent records nothing: an empty one changes nothing, and one that raises moves the counter
      past what it reserved, if it could reserve. */
  lemma UnsentBundle(b: Book, sols: seq<Solution>, rpc: Option<nat>, signed: nat, hash: Tx -> bytes32)
    ensures var (b', sending) := SendBundle(b, sols, rpc, signed, hash);
      && (sending.Empty? <==> sols == [])
      && (sending.Sent? <==> sols != [] && Counter(b, rpc).Some? && signed >= |sols|)
      && (sending.Empty? ==> b' == b)
      && (sending.Raises? ==>
            b' == if Counter(b, rpc).Some? then b.(txNonce := Some(Counter(b, rpc).value + |sols|)) else b)
  {
    hide RecordAll, Txs;
  }

  // ---------- a run of bundles

  /** One bundle to send, with what the node answers and how far signing gets. */
  datatype Attempt = Attempt(sols: seq<Solution>, rpc: Option<nat>, signed: nat)

  function Attempted(b: Book, a: Attempt, hash: Tx -> bytes32): (Book, Sending) {
    SendBundle(b, a.sols, a.rpc, a.signed, hash)
  }

  /** The books after the bundles so far. */
  function BookAfter(b: Book, attempts: seq<Attempt>, hash: Tx -> bytes32): Book {
    if attempts == [] then b
    else Attempted(BookAfter(b, attempts[..|attempts| - 1], hash), attempts[|attempts| - 1], hash).0
  }

  /** The transactions of bundle k, which are also the ones it records. */
  function SentBy(b: Book, attempts: seq<Attempt>, hash: Tx -> bytes32, k: nat): seq<Tx>
    requires k < |attempts|
  {
    match Attempted(BookAfter(b, attempts[..k], hash), attempts[k], hash).1
    case Sent(txs) => txs
    case _ => []
  }

  lemma RecordingKeepsCounter(b: Book, start: nat, sols: seq<Solution>, hash: Tx -> bytes32)
    ensures RecordAll(b, start, sols, hash).txNonce == b.txNonce
  {
    RecordAllEffect(b, start, sols, hash);
    hide RecordAll;
  }

  /** The counter moves past whatever was reserved, sent or not. */
  lemma AttemptEffect(b: Book, a: Attempt, hash: Tx -> bytes32)
    ensures var b' := Attempted(b, a, hash).0;
      b'.txNonce == if a.sols != [] && Counter(b, a.rpc).Some? then Some(Counter(b, a.rpc).value + |a.sols|)
              else b.txNonce
    ensures var r := Attempted(b, a, hash).1;
      r.Sent? ==> Counter(b, a.rpc).Some? && |r.txs| == |a.sols|
                  && forall i | 0 <= i < |a.sols| :: r.txs[i].txNonce == Counter(b, a.rpc).value + i
  {
    hide RecordAll, Txs;
    if a.sols != [] && Counter(b, a.rpc).Some? {
      var start := Counter(b, a.rpc).value;
      RecordingKeepsCounter(Reserve(b, |a.sols|, a.rpc).0, start, a.sols, hash);
      forall i | 0 <= i < |a.sols|
        ensures |Txs(start, a.sols)| == |a.sols| && Txs(start, a.sols)[i].txNonce == start + i {
        TxsAt(start, a.sols, i);
      }
      TxsAt(start, a.sols, 0);
    }
  }

  lemma {:induction false} CounterGrows(b: Book, attempts: seq<Attempt>, hash: Tx -> bytes32, k: nat, m: nat)
    requires k <= m <= |attempts| && BookAfter(b, attempts[..k], hash).txNonce.Some?
    ensures BookAfter(b, attempts[..m], hash).txNonce.Some?
    ensures BookAfter(b, attempts[..k], hash).txNonce.value <= BookAfter(b, attempts[..m], hash).txNonce.value
  {
    hide Attempted;
    if k < m {
      CounterGrows(b, attempts, hash, k, m - 1);
      NextAttempt(b, attempts, hash, m - 1);
      AttemptEffect(BookAfter(b, attempts[..m - 1], hash), attempts[m - 1], hash);
    }
  }

  lemma NextAttempt(b: Book, attempts: seq<Attempt>, hash: Tx -> bytes32, k: nat)
    requires k < |attempts|
    ensures BookAfter(b, attempts[..k + 1], hash) == Attempted(BookAfter(b, attempts[..k], hash), attempts[k], hash).0
  {
    hide Attempted;
    assert attempts[..k + 1][..k] == attempts[..k];
  }

  /** A bundle that raises while signing keeps its reservation: over any run of bundles, before it and after it, no
      transaction that is sent or recorded has one of its nonces. */
  lemma FailedBundleLeavesGap(b: Book, attempts: seq<Attempt>, hash: Tx -> bytes32, k: nat, j: nat, i: nat)
    requires k < |attempts| && j < |attempts| && i < |SentBy(b, attempts, hash, j)|
    requires attempts[k].signed < |attempts[k].sols|
    requires Counter(BookAfter(b, attempts[..k], hash), attempts[k].rpc).Some?
    ensures var start := Counter(BookAfter(b, attempts[..k], hash), attempts[k].rpc).value;
      var n := SentBy(b, attempts, hash, j)[i].txNonce;
      n < start || start + |attempts[k].sols| <= n
  {
    var before := BookAfter(b, attempts[..j], hash);
    AttemptEffect(before, attempts[j], hash);
    AttemptEffect(BookAfter(b, attempts[..k], hash), attempts[k], hash);
    NextAttempt(b, attempts, hash, j);
    NextAttempt(b, attempts, hash, k);
    if j < k {
      CounterGrows(b, attempts, hash, j + 1, k);
    } else if k < j {
      CounterGrows(b, attempts, hash, k + 1, j);
    }
    hide BookAfter;
  }

  /** Some bundle of the run sends a transaction with this nonce. */
  ghost predicate GoesOut(b: Book, attempts: seq<Attempt>, hash: Tx -> bytes32, n: nat) {
    exists j, i :: 0 <= j < |attempts| && 0 <= i < |SentBy(b, attempts, hash, j)|
      && SentBy(b, attempts, hash, j)[i].txNonce == n
  }

  /** Exactly when every transaction nonce a bundle reserves goes out, with that bundle or any other of the run: when
      all of its own transactions can be signed. */
  lemma ReservedAllSentExactly(b: Book, attempts: seq<Attempt>, hash: Tx -> bytes32, k: nat)
    requires k < |attempts| && attempts[k].sols != []
    requires Counter(BookAfter(b, attempts[..k], hash), attempts[k].rpc).Some?
    ensures var start := Counter(BookAfter(b, attempts[..k], hash), attempts[k].rpc).value;
      attempts[k].signed >= |attempts[k].sols|
      <==> forall n: nat | start <= n < start + |attempts[k].sols| :: GoesOut(b, attempts, hash, n)
  {
    hide BookAfter, Counter;
    var start := Counter(BookAfter(b, attempts[..k], hash), attempts[k].rpc).value;
    if attempts[k].signed >= |attempts[k].sols| {
      hide GoesOut;
      forall n: nat | start <= n < start + |attempts[k].sols| ensures GoesOut(b, attempts, hash, n) {
        OwnTransaction(b, attempts, hash, k, n - start);
      }
    } else if GoesOut(b, attempts, hash, start) {
      var j, i :| 0 <= j < |attempts| && 0 <= i < |SentBy(b, attempts, hash, j)|
        && SentBy(b, attempts, hash, j)[i].txNonce == start;
      hide SentBy;
      FailedBundleLeavesGap(b, attempts, hash, k, j, i);
      assert false;
    }
  }

  lemma OwnTransaction(b: Book, attempts: seq<Attempt>, hash: Tx -> bytes32, k: nat, i: nat)
    requires k < |attempts| && i < |attempts[k].sols| <= attempts[k].signed
    requires Counter(BookAfter(b, attempts[..k], hash), attempts[k].rpc).Some?
    ensures GoesOut(b, attempts, hash, Counter(BookAfter(b, attempts[..k], hash), attempts[k].rpc).value + i)
  {
    hide BookAfter, RecordAll;
    AttemptEffect(BookAfter(b, attempts[..k], hash), attempts[k], hash);
    assert SentBy(b, attempts, hash, k)[i].txNonce
           == Counter(BookAfter(b, attempts[..k], hash), attempts[k].rpc).value + i;
  }
}
