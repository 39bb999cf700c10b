/** The token supply: the balances always add up, and the contract can always pay the next reward. */
module Supply {
  import opened Words
  import opened Totals
  import opened HashContract
  import opened ContractRuns
  import opened GenesisPrice
  import opened Emission

  ghost predicate BalancesAddUp(s: Storage) {
    Total(s.balances) == s.totalSupply
  }

  /** What has been issued in each phase. */
  ghost predicate Issued(s: Storage) {
    s.totalSupply == if s.genesisComplete then 2 * s.genesisMinted + MINING_SUPPLY else s.genesisMinted
  }

  /** What has not been mined yet is still the contract's own. */
  ghost predicate RewardsCovered(d: Deployment, s: Storage) {
    && (!s.genesisComplete ==> s.totalMiningMinted == 0)
    && (s.genesisComplete ==> Get(s.balances, d.self) + s.totalMiningMinted >= MINING_SUPPLY)
  }

  lemma MovedTotal(balances: map<address, nat>, from: address, to: address, amount: nat)
    requires amount <= Get(balances, from)
    ensures Total(Moved(balances, from, to, amount)) == Total(balances)
  {
    TotalUpdate(balances, from, Get(balances, from) - amount);
    var b := balances[from := Get(balances, from) - amount];
    TotalUpdate(b, to, Get(b, to) + amount);
    hide Total;
  }

  lemma BalancesAddUpKept(d: Deployment, h: History, tx: Tx)
    requires BalancesAddUp(h.store)
    ensures BalancesAddUp(Step(d, h, tx).store)
  {
    hide Total, Execute, ChangeOf, Step, Moved;
    var s := h.store;
    match ChangeOf(d, h, tx)
    case Nothing => NothingChanges(d, h, tx);
    case Bought =>
      BoughtStep(d, h, tx);
      TotalUpdate(s.balances, tx.env.sender, Get(s.balances, tx.env.sender) + tx.call.units * GENESIS_UNIT);
    case Seeded =>
      SeededStep(d, h, tx);
      var issued := s.genesisMinted + MINING_SUPPLY;
      TotalUpdate(s.balances, d.self, Get(s.balances, d.self) + issued);
      MovedTotal(s.balances[d.self := Get(s.balances, d.self) + issued], d.self, d.pool, tx.call.pool.amount);
    case Mining =>
      MiningStep(d, h, tx);
      hide RetargetFacts, Mine, RewardForEra;
      MovedTotal(s.balances, d.self, tx.env.sender, Step(d, h, tx).store.totalMiningMinted - s.totalMiningMinted);
    case Sent =>
      SentStep(d, h, tx);
      MovedTotal(s.balances, tx.env.sender, tx.call.to, tx.call.amount);
  }

  lemma IssuedKept(d: Deployment, h: History, tx: Tx)
    requires Issued(h.store)
    ensures Issued(Step(d, h, tx).store)
  {
    hide Execute, ChangeOf, Step, Moved;
    match ChangeOf(d, h, tx)
    case Nothing => NothingChanges(d, h, tx);
    case Bought => BoughtStep(d, h, tx);
    case Seeded => SeededStep(d, h, tx);
    case Mining => MiningStep(d, h, tx); hide RetargetFacts, PaymentFacts, Mine;
    case Sent => SentStep(d, h, tx);
  }

  lemma MovedFrom(balances: map<address, nat>, from: address, to: address, amount: nat)
    requires amount <= Get(balances, from)
    ensures Get(Moved(balances, from, to, amount), from) >= Get(balances, from) - amount
    ensures forall a: address | a != from :: Get(Moved(balances, from, to, amount), a) >= Get(balances, a)
  {
  }

  /** A transfer takes the amount from one account and adds it to the other, and touches no third. */
  lemma MovedExactly(balances: map<address, nat>, from: address, to: address, amount: nat, a: address)
    requires amount <= Get(balances, from)
    ensures Get(Moved(balances, from, to, amount), a)
            == Get(balances, a) - (if a == from then amount else 0) + (if a == to then amount else 0)
  {
  }

  /** A transfer fails for the zero address or for want of the amount, in this order, and otherwise moves just that. */
  lemma TransferExactly(s: Storage, env: Env, to: address, amount: nat, a: address)
    ensures var r := Transfer(s, env, to, amount);
      if to == 0 then r == Reverted(InvalidReceiver)
      else if Get(s.balances, env.sender) < amount then r == Reverted(InsufficientBalance)
      else
        && r.Committed? && r.events == [] && r.store == s.(balances := r.store.balances)
        && Get(r.store.balances, a)
           == Get(s.balances, a) - (if a == env.sender then amount else 0) + (if a == to then amount else 0)
  {
    hide Moved, Get;
    if amount <= Get(s.balances, env.sender) { MovedExactly(s.balances, env.sender, to, amount, a); }
  }

  /** A mint moves its reward, all of it and nothing else, from the contract to the sender. */
  lemma MinePaysSender(d: Deployment, h: History, tx: Tx, a: address)
    requires Admissible(d, h, tx) && ChangeOf(d, h, tx).Mining?
    ensures var s, s' := h.store, Step(d, h, tx).store;
      var reward := s'.totalMiningMinted - s.totalMiningMinted;
      && reward > 0 && s'.totalSupply == s.totalSupply
      && Get(s'.balances, a)
         == Get(s.balances, a) + (if a == tx.env.sender then reward else if a == d.self then -reward else 0)
  {
    hide Execute, ChangeOf, Step, Moved, RetargetFacts, Mine, RewardForEra, Get;
    MiningStep(d, h, tx);
    MovedExactly(h.store.balances, d.self, tx.env.sender,
                 Step(d, h, tx).store.totalMiningMinted - h.store.totalMiningMinted, a);
  }

  lemma RewardsCoveredKept(d: Deployment, h: History, tx: Tx)
    requires Admissible(d, h, tx) && RewardsCovered(d, h.store)
    ensures RewardsCovered(d, Step(d, h, tx).store)
  {
    hide Execute, ChangeOf, Step, Moved;
    var s := h.store;
    match ChangeOf(d, h, tx)
    case Nothing => NothingChanges(d, h, tx);
    case Bought => BoughtStep(d, h, tx);
    case Seeded =>
      SeededStep(d, h, tx);
      var held := s.balances[d.self := Get(s.balances, d.self) + s.genesisMinted + MINING_SUPPLY];
      MovedFrom(held, d.self, d.pool, tx.call.pool.amount);
    case Mining =>
      MiningStep(d, h, tx);
      hide RetargetFacts, Mine, RewardForEra;
      MovedFrom(s.balances, d.self, tx.env.sender, Step(d, h, tx).store.totalMiningMinted - s.totalMiningMinted);
    case Sent =>
      SentStep(d, h, tx);
      MovedFrom(s.balances, tx.env.sender, tx.call.to, tx.call.amount);
  }

  lemma {:induction false} SupplyOfEveryRun(d: Deployment, txs: seq<Tx>)
    requires Admitted(d, txs)
    ensures var s := After(d, txs).store;
      BalancesAddUp(s) && Issued(s) && s.totalSupply <= 21_000_000 * UNIT18 && RewardsCovered(d, s)
  {
    hide Step;
    SeedPriceOfEveryRun(d, txs);
    if txs != [] {
      var last := |txs| - 1;
      SupplyOfEveryRun(d, txs[..last]);
      BalancesAddUpKept(d, After(d, txs[..last]), txs[last]);
      IssuedKept(d, After(d, txs[..last]), txs[last]);
      RewardsCoveredKept(d, After(d, txs[..last]), txs[last]);
    }
    hide Total, After, Get;
  }
}
