/** The record of mints: every proof is paid once, every block and every epoch is capped, and the storage's
    counters are exactly what the record says. */
module Ledger {
  import opened Words
  import opened Totals
  import opened HashContract
  import opened ContractRuns
  import opened Emission
  import opened Retargeting

  function Key(d: Deployment, m: Mint): bytes32 {
    ProofKey(d, m.miner, m.nonce, m.epoch)
  }

  /** How many mints of the record are in block b. */
  function CountBlock(mints: seq<Mint>, b: nat): nat {
    if mints == [] then 0
    else
      var last := |mints| - 1;
      CountBlock(mints[..last], b) + if mints[last].number == b then 1 else 0
  }

  function CountEpoch(mints: seq<Mint>, e: nat): nat {
    if mints == [] then 0
    else
      var last := |mints| - 1;
      CountEpoch(mints[..last], e) + if mints[last].epoch == e then 1 else 0
  }

  ghost predicate KeysRecorded(d: Deployment, h: History) {
    && |h.store.usedProofs| == |h.mints|
    && (forall i | 0 <= i < |h.mints| :: Key(d, h.mints[i]) in h.store.usedProofs)
    && (forall k | k in h.store.usedProofs :: exists i :: 0 <= i < |h.mints| && Key(d, h.mints[i]) == k)
    && (forall i, j | 0 <= i < j < |h.mints| :: Key(d, h.mints[i]) != Key(d, h.mints[j]))
  }

  ghost predicate CountsRecorded(h: History) {
    && h.store.totalMints == |h.mints| && Total(h.store.mintsInBlock) == |h.mints|
    && (forall b: nat :: Get(h.store.mintsInBlock, b) == CountBlock(h.mints, b))
    && (forall i | 0 <= i < |h.mints| :: h.mints[i].epoch == Epoch(h.mints[i].number))
  }

  /** The i-th mint was paid the i-th reward of the schedule. */
  ghost predicate RewardsRecorded(h: History) {
    forall i | 0 <= i < |h.mints| :: h.mints[i].reward == RewardOfMint(i + 1)
  }

  // ---------- kept by every step

  lemma KeyAppended(d: Deployment, h: History, h': History, m: Mint)
    requires KeysRecorded(d, h) && h'.mints == h.mints + [m]
    requires Key(d, m) !in h.store.usedProofs && h'.store.usedProofs == h.store.usedProofs + {Key(d, m)}
    ensures KeysRecorded(d, h')
  {
    hide Key;
    forall k | k in h'.store.usedProofs ensures exists i :: 0 <= i < |h'.mints| && Key(d, h'.mints[i]) == k {
      if k == Key(d, m) {
        assert h'.mints[|h.mints|] == m;
      } else {
        var i :| 0 <= i < |h.mints| && Key(d, h.mints[i]) == k;
        assert h'.mints[i] == h.mints[i];
      }
    }
  }

  lemma KeysRecordedKept(d: Deployment, h: History, tx: Tx)
    requires KeysRecorded(d, h)
    ensures KeysRecorded(d, Step(d, h, tx))
  {
    hide Execute, ChangeOf, Step, Moved, ProofKey;
    match ChangeOf(d, h, tx)
    case Nothing => NothingChanges(d, h, tx);
    case Bought => BoughtStep(d, h, tx);
    case Seeded => SeededStep(d, h, tx);
    case Mining =>
      MiningStep(d, h, tx);
      hide Mine, PaymentFacts, RetargetFacts, KeysRecorded, Epoch;
      KeyAppended(d, h, Step(d, h, tx), Step(d, h, tx).mints[|h.mints|]);
    case Sent => SentStep(d, h, tx);
  }

  lemma BlockAppended(mints: seq<Mint>, m: Mint, b: nat)
    ensures CountBlock(mints + [m], b) == CountBlock(mints, b) + if m.number == b then 1 else 0
  {
    assert (mints + [m])[..|mints|] == mints;
  }

  lemma CountAppended(h: History, h': History, m: Mint)
    requires CountsRecorded(h) && h'.mints == h.mints + [m] && m.epoch == Epoch(m.number)
    requires h'.store.totalMints == h.store.totalMints + 1
    requires h'.store.mintsInBlock == h.store.mintsInBlock[m.number := Get(h.store.mintsInBlock, m.number) + 1]
    ensures CountsRecorded(h')
  {
    TotalUpdate(h.store.mintsInBlock, m.number, Get(h.store.mintsInBlock, m.number) + 1);
    forall b: nat ensures Get(h'.store.mintsInBlock, b) == CountBlock(h'.mints, b) {
      BlockAppended(h.mints, m, b);
    }
    hide Total, Get, CountBlock, Epoch;
  }

  lemma CountsRecordedKept(d: Deployment, h: History, tx: Tx)
    requires CountsRecorded(h)
    ensures CountsRecorded(Step(d, h, tx))
  {
    hide Execute, ChangeOf, Step, Moved, Total, CountBlock, Epoch;
    match ChangeOf(d, h, tx)
    case Nothing => NothingChanges(d, h, tx);
    case Bought => BoughtStep(d, h, tx);
    case Seeded => SeededStep(d, h, tx);
    case Mining =>
      MiningStep(d, h, tx);
      hide Mine, PaymentFacts, RetargetFacts, CountsRecorded;
      CountAppended(h, Step(d, h, tx), Step(d, h, tx).mints[|h.mints|]);
    case Sent => SentStep(d, h, tx);
  }

  lemma RewardsRecordedKept(d: Deployment, h: History, tx: Tx)
    requires RewardsRecorded(h) && OnSchedule(h.store) && h.store.totalMints == |h.mints|
    ensures RewardsRecorded(Step(d, h, tx))
  {
    hide Execute, ChangeOf, Step, Moved, RewardOfMint, OnSchedule;
    match ChangeOf(d, h, tx)
    case Nothing => NothingChanges(d, h, tx);
    case Bought => BoughtStep(d, h, tx);
    case Seeded => SeededStep(d, h, tx);
    case Mining =>
      MiningStep(d, h, tx);
      MinePaysSchedule(d, h, tx);
      hide Mine, PaymentFacts, RetargetFacts, CountFacts;
    case Sent => SentStep(d, h, tx);
  }

  /** Every history. */
  lemma {:induction false} RecordOfEveryRun(d: Deployment, txs: seq<Tx>)
    ensures var h := After(d, txs); KeysRecorded(d, h) && CountsRecorded(h) && RewardsRecorded(h)
  {
    hide Step, OnSchedule, HalvingsOnSchedule;
    if txs != [] {
      var last := |txs| - 1;
      RecordOfEveryRun(d, txs[..last]);
      EmissionOfEveryRun(d, txs[..last]);
      KeysRecordedKept(d, After(d, txs[..last]), txs[last]);
      CountsRecordedKept(d, After(d, txs[..last]), txs[last]);
      assert After(d, txs[..last]).store.totalMints == |After(d, txs[..last]).mints|;
      RewardsRecordedKept(d, After(d, txs[..last]), txs[last]);
      hide KeysRecorded, CountsRecorded, RewardsRecorded;
    }
  }

  /** No miner is paid twice for a nonce in an epoch, whatever the hash function. */
  lemma PaidAtMostOnce(d: Deployment, txs: seq<Tx>, i: nat, j: nat)
    requires i < j < |After(d, txs).mints|
    ensures var m, n := After(d, txs).mints[i], After(d, txs).mints[j];
      m.miner != n.miner || m.nonce != n.nonce || m.epoch != n.epoch
  {
    RecordOfEveryRun(d, txs);
    hide After, CountsRecorded, RewardsRecorded;
  }

  // ---------- an epoch holds at most a thousand mints

  function SumBlocks(mints: seq<Mint>, start: nat, n: nat): nat {
    if n == 0 then 0 else SumBlocks(mints, start, n - 1) + CountBlock(mints, start + n - 1)
  }

  lemma {:induction false} SumAppended(mints: seq<Mint>, m: Mint, start: nat, n: nat)
    ensures SumBlocks(mints + [m], start, n)
            == SumBlocks(mints, start, n) + if start <= m.number < start + n then 1 else 0
  {
    if n > 0 {
      SumAppended(mints, m, start, n - 1);
      BlockAppended(mints, m, start + n - 1);
      hide CountBlock;
    }
  }

  lemma {:induction false} SumOfNone(start: nat, n: nat)
    ensures SumBlocks([], start, n) == 0
  {
    if n > 0 { SumOfNone(start, n - 1); }
  }

  lemma EpochBlocks(b: nat, e: nat)
    ensures Epoch(b) == e <==> 100 * e <= b < 100 * e + 100
  {
  }

  lemma {:induction false} EpochIsItsBlocks(mints: seq<Mint>, e: nat)
    requires forall i | 0 <= i < |mints| :: mints[i].epoch == Epoch(mints[i].number)
    ensures CountEpoch(mints, e) == SumBlocks(mints, EPOCH_BLOCKS * e, EPOCH_BLOCKS)
  {
    if mints == [] {
      SumOfNone(EPOCH_BLOCKS * e, EPOCH_BLOCKS);
    } else {
      var last := |mints| - 1;
      EpochIsItsBlocks(mints[..last], e);
      assert mints == mints[..last] + [mints[last]];
      SumAppended(mints[..last], mints[last], EPOCH_BLOCKS * e, EPOCH_BLOCKS);
      EpochBlocks(mints[last].number, e);
      hide SumBlocks, Epoch;
    }
  }

  lemma {:induction false} SumCapped(mints: seq<Mint>, start: nat, n: nat)
    requires forall b: nat :: CountBlock(mints, b) <= MAX_MINTS_PER_BLOCK
    ensures SumBlocks(mints, start, n) <= MAX_MINTS_PER_BLOCK * n
  {
    hide CountBlock;
    if n > 0 { SumCapped(mints, start, n - 1); }
  }

  /** Over every run, no block holds more than ten mints and no epoch more than a thousand. */
  lemma CapsOfEveryRun(d: Deployment, txs: seq<Tx>, b: nat, e: nat)
    requires Admitted(d, txs)
    ensures CountBlock(After(d, txs).mints, b) <= 10
    ensures CountEpoch(After(d, txs).mints, e) <= 1_000
  {
    RecordOfEveryRun(d, txs);
    RetargetsOfEveryRun(d, txs);
    var h := After(d, txs);
    hide After, KeysRecorded, RewardsRecorded, WindowFits, OnInterval, DifficultyBounded, RetargetsOnRecord,
      CountBlock, Get;
    forall c: nat ensures CountBlock(h.mints, c) <= MAX_MINTS_PER_BLOCK {
      assert Get(h.store.mintsInBlock, c) == CountBlock(h.mints, c);
    }
    EpochIsItsBlocks(h.mints, e);
    hide CountEpoch, SumBlocks;
    SumCapped(h.mints, EPOCH_BLOCKS * e, EPOCH_BLOCKS);
  }

  // ---------- which proofs are used

  lemma BigEndianInjective(a: nat, b: nat)
    requires a < TWO256 && b < TWO256 && ToBigEndian(a, 32) == ToBigEndian(b, 32)
    ensures a == b
  {
    hide ToBigEndian, BigEndian;
    Pow256Values();
    BigEndianRoundTrip(a, 32);
    BigEndianRoundTrip(b, 32);
  }

  /** abi.encode(miner, nonce, epoch) determines its three words. */
  lemma ProofPreimageInjective(m1: address, n1: uint256, e1: nat, m2: address, n2: uint256, e2: nat)
    requires e1 < TWO256 && e2 < TWO256 && ProofPreimage(m1, n1, e1) == ProofPreimage(m2, n2, e2)
    ensures m1 == m2 && n1 == n2 && e1 == e2
  {
    hide ToBigEndian;
    var p, q := ProofPreimage(m1, n1, e1), ProofPreimage(m2, n2, e2);
    assert p[..32] == ToBigEndian(m1, 32) && q[..32] == ToBigEndian(m2, 32);
    assert p[32..64] == ToBigEndian(n1, 32) && q[32..64] == ToBigEndian(n2, 32);
    assert p[64..] == ToBigEndian(e1, 32) && q[64..] == ToBigEndian(e2, 32);
    BigEndianInjective(m1, m2);
    BigEndianInjective(n1, n2);
    BigEndianInjective(e1, e2);
  }

  /** The hash tells this proof's encoding apart from those of the recorded mints. */
  ghost predicate NoCollision(d: Deployment, mints: seq<Mint>, p: seq<byte>) {
    forall i | 0 <= i < |mints| ::
      d.keccak(ProofPreimage(mints[i].miner, mints[i].nonce, mints[i].epoch)) == d.keccak(p)
      ==> ProofPreimage(mints[i].miner, mints[i].nonce, mints[i].epoch) == p
  }

  /** Unless the hash collides on encodings of the record, a proof is used exactly when its own (miner, nonce, epoch)
      is on record: no mint blocks another. */
  lemma UsedExactlyWhenPaid(d: Deployment, txs: seq<Tx>, miner: address, nonce: uint256, epoch: nat)
    requires epoch < TWO256 && NoCollision(d, After(d, txs).mints, ProofPreimage(miner, nonce, epoch))
    ensures ProofKey(d, miner, nonce, epoch) in After(d, txs).store.usedProofs
            <==> exists i :: 0 <= i < |After(d, txs).mints| && After(d, txs).mints[i].miner == miner
                             && After(d, txs).mints[i].nonce == nonce && After(d, txs).mints[i].epoch == epoch
  {
    RecordOfEveryRun(d, txs);
    var h := After(d, txs);
    hide After, RewardsRecorded, ProofPreimage;
    if ProofKey(d, miner, nonce, epoch) in h.store.usedProofs {
      var i :| 0 <= i < |h.mints| && Key(d, h.mints[i]) == ProofKey(d, miner, nonce, epoch);
      EpochInRange(h.mints[i].number);
      ProofPreimageInjective(miner, nonce, epoch, h.mints[i].miner, h.mints[i].nonce, h.mints[i].epoch);
    }
  }

  lemma EpochInRange(number: uint256)
    ensures Epoch(number) < TWO256
  {
  }
}
