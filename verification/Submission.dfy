/** The submitter of mine transactions (`submit.py`): its books, and one operation per critical section.
    What the node answers, and whether it answers at all, is a parameter. */
module Submission {
  import opened Words
  import opened ProofOfWork

  datatype Option<T> = None | Some(value: T)

  datatype Pending = Pending(txHash: bytes32, nonce: uint256, epoch: nat)

  /** The answer to a receipt query: the call raises (with the age of the transaction past the limit or not),
      or there is no receipt yet, or a receipt of success with the rewards it logs, or one of failure. */
  datatype Receipt = Raised(expired: bool) | NotYet | Success(reward: nat) | Failure

  datatype Config = Config(hasAddress: bool, dryRun: bool, maxPendingPerEpoch: int)

  datatype Book = Book(txNonce: Option<nat>, used: map<nat, set<uint256>>, pending: seq<Pending>,
                       sent: nat, confirmed: nat, reverted: nat, skipped: nat, errors: nat, hashEarned: nat)

  /** How a critical section of submit ends: the thread goes on, stops with a result, or an exception passes through. */
  datatype Verdict = Proceed | Assigned(txNonce: nat) | Skipped | Duplicate | EpochCap | RpcError

  // ---------- the used-set

  function UsedIn(used: map<nat, set<uint256>>, epoch: nat): set<uint256> {
    if epoch in used then used[epoch] else {}
  }

  /** Marking a nonce also drops every epoch older than the one before. */
  function Marked(used: map<nat, set<uint256>>, epoch: nat, nonce: uint256): map<nat, set<uint256>> {
    var grown := used[epoch := UsedIn(used, epoch) + {nonce}];
    map e | e in grown && epoch <= e + 1 :: grown[e]
  }

  lemma MarkEffect(used: map<nat, set<uint256>>, epoch: nat, nonce: uint256, e: nat)
    ensures UsedIn(Marked(used, epoch, nonce), e)
            == if e + 1 < epoch then {} else if e == epoch then UsedIn(used, e) + {nonce} else UsedIn(used, e)
  {
  }

  // ---------- the operations on values

  function Synced(b: Book, count: nat): Book {
    b.(txNonce := Some(count))
  }

  /** The counter, read from the node when it is unset. */
  function Counter(b: Book, rpc: Option<nat>): Option<nat> {
    if b.txNonce.Some? then b.txNonce else rpc
  }

  function Admit(cfg: Config, b: Book, sol: Solution): (Book, Verdict) {
    if !cfg.hasAddress then (b.(skipped := b.skipped + 1), Skipped)
    else if sol.nonce in UsedIn(b.used, sol.epoch) then (b, Duplicate)
    else if |UsedIn(b.used, sol.epoch)| >= cfg.maxPendingPerEpoch then (b, EpochCap)
    else (b, Proceed)
  }

  function Assign(cfg: Config, b: Book, sol: Solution, rpc: Option<nat>): (Book, Verdict) {
    if sol.nonce in UsedIn(b.used, sol.epoch) then (b, Duplicate)
    else if cfg.dryRun then
      (b.(used := Marked(b.used, sol.epoch, sol.nonce)), Assigned(if b.txNonce.Some? then b.txNonce.value else 0))
    else
      match Counter(b, rpc)
      case None => (b, RpcError)
      case Some(n) => (b.(txNonce := Some(n + 1), used := Marked(b.used, sol.epoch, sol.nonce)), Assigned(n))
  }

  function SkipCounted(b: Book): Book {
    b.(skipped := b.skipped + 1)
  }

  function SendRecorded(b: Book, sol: Solution, txHash: bytes32): Book {
    b.(pending := b.pending + [Pending(txHash, sol.nonce, sol.epoch)], sent := b.sent + 1)
  }

  /** A send that raises: a nonce hiccup resyncs the counter, which may raise in turn; anything else is an error. */
  function SendFailed(b: Book, hiccup: bool, rpc: Option<nat>): Book {
    if !hiccup then b.(errors := b.errors + 1)
    else match rpc
      case None => b
      case Some(n) => Synced(b, n)
  }

  function Reserve(b: Book, n: nat, rpc: Option<nat>): (Book, Verdict) {
    match Counter(b, rpc)
    case None => (b, RpcError)
    case Some(start) => (b.(txNonce := Some(start + n)), Assigned(start))
  }

  function PendingRecorded(b: Book, txHash: bytes32, nonce: uint256, epoch: nat): Book {
    b.(pending := b.pending + [Pending(txHash, nonce, epoch)], used := Marked(b.used, epoch, nonce), sent := b.sent + 1)
  }

  // ---------- receipts

  function StaysPending(r: Receipt): bool {
    r.NotYet? || r == Raised(false)
  }

  /** One turn of the sweep: the counters for one receipt. */
  function Tallied(b: Book, r: Receipt): Book {
    match r
    case Success(reward) => b.(confirmed := b.confirmed + 1, hashEarned := b.hashEarned + reward)
    case Failure => b.(reverted := b.reverted + 1)
    case _ => b
  }

  function Tally(b: Book, receipts: seq<Receipt>): Book {
    if receipts == [] then b else Tallied(Tally(b, receipts[..|receipts| - 1]), receipts[|receipts| - 1])
  }

  function Still(pending: seq<Pending>, receipts: seq<Receipt>): seq<Pending>
    requires |pending| == |receipts|
  {
    if pending == [] then []
    else
      var last := |pending| - 1;
      Still(pending[..last], receipts[..last]) + if StaysPending(receipts[last]) then [pending[last]] else []
  }

  function Swept(b: Book, receipts: seq<Receipt>): Book
    requires |receipts| == |b.pending|
  {
    Tally(b, receipts).(pending := Still(b.pending, receipts))
  }

  // ---------- what a sweep does

  /** The accounts a receipt can put a transaction into. */
  datatype Account = Confirmed | Reverted | Expired | Kept

  function AccountOf(r: Receipt): Account {
    match r
    case Success(_) => Account.Confirmed
    case Failure => Account.Reverted
    case NotYet => Account.Kept
    case Raised(expired) => if expired then Account.Expired else Account.Kept
  }

  function Count(receipts: seq<Receipt>, account: Account): nat {
    if receipts == [] then 0
    else Count(receipts[..|receipts| - 1], account) + if AccountOf(receipts[|receipts| - 1]) == account then 1 else 0
  }

  function Rewards(receipts: seq<Receipt>): nat {
    if receipts == [] then 0
    else
      var r := receipts[|receipts| - 1];
      Rewards(receipts[..|receipts| - 1]) + if r.Success? then r.reward else 0
  }

  /** A sweep moves each pending transaction into exactly one account; only receipts of success earn. */
  lemma {:induction false} SweepConserves(b: Book, receipts: seq<Receipt>)
    requires |receipts| == |b.pending|
    ensures var b' := Swept(b, receipts);
      && b'.confirmed == b.confirmed + Count(receipts, Account.Confirmed)
      && b'.reverted == b.reverted + Count(receipts, Account.Reverted)
      && |b'.pending| == Count(receipts, Account.Kept)
      && |b'.pending| + Count(receipts, Account.Expired) + b'.confirmed + b'.reverted
         == |b.pending| + b.confirmed + b.reverted
      && b'.hashEarned == b.hashEarned + Rewards(receipts)
      && b'.sent == b.sent
    decreases |receipts|
  {
    if receipts != [] {
      var last := |receipts| - 1;
      SweepConserves(b.(pending := b.pending[..last]), receipts[..last]);
      TallyIgnoresPending(b, b.pending[..last], receipts[..last]);
    }
  }

  lemma {:induction false} TallyIgnoresPending(b: Book, pending: seq<Pending>, receipts: seq<Receipt>)
    ensures Tally(b.(pending := pending), receipts) == Tally(b, receipts).(pending := pending)
  {
    if receipts != [] { TallyIgnoresPending(b, pending, receipts[..|receipts| - 1]); }
  }

  /** `list` is what the receipts leave of `pending`: each transaction they keep, at the place it has among those, and
      no other. */
  ghost predicate KeptInOrder(pending: seq<Pending>, receipts: seq<Receipt>, list: seq<Pending>)
    requires |pending| == |receipts|
  {
    && |list| == Count(receipts, Account.Kept)
    && forall i | 0 <= i < |receipts| && AccountOf(receipts[i]) == Account.Kept :: ListedAt(pending, receipts, list, i)
  }

  predicate ListedAt(pending: seq<Pending>, receipts: seq<Receipt>, list: seq<Pending>, i: nat)
    requires i < |pending| == |receipts|
  {
    var place := Count(receipts[..i], Account.Kept);
    place < |list| && list[place] == pending[i]
  }

  /** One more receipt. */
  lemma KeptInOrderGrows(pending: seq<Pending>, receipts: seq<Receipt>, list: seq<Pending>, p: Pending, r: Receipt)
    requires |pending| == |receipts| && KeptInOrder(pending, receipts, list)
    ensures KeptInOrder(pending + [p], receipts + [r],
                        if AccountOf(r) == Account.Kept then list + [p] else list)
  {
    var longer, more := receipts + [r], pending + [p];
    var list' := if AccountOf(r) == Account.Kept then list + [p] else list;
    assert longer[..|receipts|] == receipts;
    forall i | 0 <= i < |longer| && AccountOf(longer[i]) == Account.Kept ensures ListedAt(more, longer, list', i) {
      assert longer[..i] == receipts[..i];
      if i < |receipts| { assert ListedAt(pending, receipts, list, i); }
    }
  }

  lemma NothingKept()
    ensures KeptInOrder([], [], [])
  {
  }

  /** A sweep leaves the transactions its receipts keep, in order. */
  lemma {:induction false} StillKeepsInOrder(pending: seq<Pending>, receipts: seq<Receipt>)
    requires |pending| == |receipts|
    ensures KeptInOrder(pending, receipts, Still(pending, receipts))
  {
    hide KeptInOrder;
    if pending == [] {
      assert receipts == [] && Still(pending, receipts) == [];
      NothingKept();
    } else {
      var last := |pending| - 1;
      StillKeepsInOrder(pending[..last], receipts[..last]);
      KeptInOrderGrows(pending[..last], receipts[..last], Still(pending[..last], receipts[..last]), pending[last],
                       receipts[last]);
      assert pending == pending[..last] + [pending[last]] && receipts == receipts[..last] + [receipts[last]];
      var init := Still(pending[..last], receipts[..last]);
      assert Still(pending, receipts)
             == if AccountOf(receipts[last]) == Account.Kept then init + [pending[last]] else init;
    }
  }

  class Submitter {
    const cfg: Config
    var txNonce: Option<nat>
    var used: map<nat, set<uint256>>
    var pending: seq<Pending>
    var sent: nat
    var confirmed: nat
    var reverted: nat
    var skipped: nat
    var errors: nat
    var hashEarned: nat

    function Now(): Book
      reads this
    {
      Book(txNonce, used, pending, sent, confirmed, reverted, skipped, errors, hashEarned)
    }

    constructor (cfg: Config)
      ensures this.cfg == cfg && Now() == Book(None, map[], [], 0, 0, 0, 0, 0, 0)
    {
      this.cfg := cfg;
      txNonce, used, pending := None, map[], [];
      sent, confirmed, reverted, skipped, errors, hashEarned := 0, 0, 0, 0, 0, 0;
    }

    method SyncTxNonce(count: nat)
      modifies `txNonce
      ensures Now() == Synced(old(Now()), count)
    {
      txNonce := Some(count);
    }

    method NextTxNonce(rpc: Option<nat>) returns (n: Option<nat>)
      modifies `txNonce
      ensures n == Counter(old(Now()), rpc)
      ensures txNonce == if n.Some? then Some(n.value + 1) else None
    {
      if txNonce.None? {
        if rpc.None? { return None; }
        SyncTxNonce(rpc.value);
      }
      n := txNonce;
      txNonce := Some(n.value + 1);
    }

    method AlreadyUsed(epoch: nat, nonce: uint256) returns (b: bool)
      ensures b <==> nonce in UsedIn(used, epoch)
    {
      b := epoch in used && nonce in used[epoch];
    }

    method EpochCount(epoch: nat) returns (n: nat)
      ensures n == |UsedIn(used, epoch)|
    {
      n := if epoch in used then |used[epoch]| else 0;
    }

    method MarkUsed(epoch: nat, nonce: uint256)
      modifies `used
      ensures used == Marked(old(used), epoch, nonce)
    {
      used := used[epoch := UsedIn(used, epoch) + {nonce}];
      ghost var grown := used;
      var stale := set e | e in used && e + 1 < epoch;
      while stale != {}
        invariant stale <= grown.Keys && used == grown - (set e | e in grown && e + 1 < epoch && e !in stale)
        invariant forall e | e in stale :: e + 1 < epoch
        decreases |stale|
      {
        var e :| e in stale;
        used := used - {e};
        stale := stale - {e};
      }
    }

    /** The first critical section of submit. */
    method CheckEligible(sol: Solution) returns (verdict: Verdict)
      modifies `skipped
      ensures (Now(), verdict) == Admit(cfg, old(Now()), sol)
    {
      if !cfg.hasAddress {
        skipped := skipped + 1;
        return Skipped;
      }
      var duplicate := AlreadyUsed(sol.epoch, sol.nonce);
      if duplicate { return Duplicate; }
      var count := EpochCount(sol.epoch);
      if count >= cfg.maxPendingPerEpoch { return EpochCap; }
      return Proceed;
    }

    /** The second critical section of submit. */
    method AssignTxNonce(sol: Solution, rpc: Option<nat>) returns (verdict: Verdict)
      modifies `txNonce, `used
      ensures (Now(), verdict) == Assign(cfg, old(Now()), sol, rpc)
    {
      hide Marked;
      var duplicate := AlreadyUsed(sol.epoch, sol.nonce);
      if duplicate { return Duplicate; }
      var n: nat;
      if cfg.dryRun {
        n := if txNonce.Some? then txNonce.value else 0;
      } else {
        var next := NextTxNonce(rpc);
        if next.None? { return RpcError; }
        n := next.value;
      }
      MarkUsed(sol.epoch, sol.nonce);
      return Assigned(n);
    }

    method RecordSkip()
      modifies `skipped
      ensures Now() == SkipCounted(old(Now()))
    {
      skipped := skipped + 1;
    }

    method RecordSent(sol: Solution, txHash: bytes32)
      modifies `pending, `sent
      ensures Now() == SendRecorded(old(Now()), sol, txHash)
    {
      pending := pending + [Pending(txHash, sol.nonce, sol.epoch)];
      sent := sent + 1;
    }

    method RecordFailure(hiccup: bool, rpc: Option<nat>)
      modifies `txNonce, `errors
      ensures Now() == SendFailed(old(Now()), hiccup, rpc)
    {
      if hiccup {
        if rpc.Some? { SyncTxNonce(rpc.value); }
      } else {
        errors := errors + 1;
      }
    }

    method RecordPending(txHash: bytes32, nonce: uint256, epoch: nat)
      modifies `pending, `used, `sent
      ensures Now() == PendingRecorded(old(Now()), txHash, nonce, epoch)
    {
      hide Marked;
      pending := pending + [Pending(txHash, nonce, epoch)];
      MarkUsed(epoch, nonce);
      sent := sent + 1;
    }

    method ReserveTxNonces(n: nat, rpc: Option<nat>) returns (verdict: Verdict)
      modifies `txNonce
      ensures (Now(), verdict) == Reserve(old(Now()), n, rpc)
    {
      if txNonce.None? {
        if rpc.None? { return RpcError; }
        SyncTxNonce(rpc.value);
      }
      var start := txNonce.value;
      txNonce := Some(start + n);
      return Assigned(start);
    }

    /** A sweep with nothing recorded meanwhile; `receipts` are the answers, one for each pending transaction. */
    method PollReceipts(receipts: seq<Receipt>)
      requires |receipts| == |pending|
      modifies `pending, `confirmed, `reverted, `hashEarned
      ensures Now() == Swept(old(Now()), receipts)
      ensures KeptInOrder(old(pending), receipts, pending)
      ensures confirmed == old(confirmed) + Count(receipts, Account.Confirmed)
      ensures reverted == old(reverted) + Count(receipts, Account.Reverted)
      ensures hashEarned == old(hashEarned) + Rewards(receipts)
    {
      hide KeptInOrder, Count, Rewards;
      SweepConserves(Now(), receipts);
      StillKeepsInOrder(pending, receipts);
      if pending == [] { return; }
      var still: seq<Pending> := [];
      var i := 0;
      while i < |pending|
        invariant 0 <= i <= |pending| && pending == old(pending)
        invariant still == Still(pending[..i], receipts[..i])
        invariant Now() == Tally(old(Now()), receipts[..i])
      {
        var rcpt := receipts[i];
        assert receipts[..i + 1][..i] == receipts[..i] && pending[..i + 1][..i] == pending[..i];
        if rcpt.Raised? {
          if !rcpt.expired { still := still + [pending[i]]; }
        } else if rcpt.NotYet? {
          still := still + [pending[i]];
        } else if rcpt.Success? {
          confirmed := confirmed + 1;
          if rcpt.reward > 0 { hashEarned := hashEarned + rcpt.reward; }
        } else {
          reverted := reverted + 1;
        }
        i := i + 1;
      }
      assert receipts[..i] == receipts && pending[..i] == pending;
      pending := still;
    }
  }
}
