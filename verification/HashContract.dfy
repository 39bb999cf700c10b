/** The state of the HASH256 contract (`Hash.sol`) and its transactions as functions: each one either
    reverts, leaving the storage as it was, or commits a new storage. */
module HashContract {
  import opened Words
  import opened SquareRoot
  import opened Totals

  const UNIT18: nat := 1_000_000_000_000_000_000

  const TOTAL_SUPPLY: nat := 21_000_000 * UNIT18
  const GENESIS_CAP: nat := 1_050_000 * UNIT18
  const MINING_SUPPLY: nat := 18_900_000 * UNIT18
  const GENESIS_PRICE: nat := 10_000_000_000_000_000
  const GENESIS_UNIT: nat := 1_000 * UNIT18
  const MAX_UNITS_PER_TX: nat := 5
  const ERA_MINTS: nat := 100_000
  const BASE_REWARD: nat := 100 * UNIT18
  const EPOCH_BLOCKS: nat := 100
  const ADJUSTMENT_INTERVAL: nat := 2_016
  const TARGET_BLOCKS_PER_MINT: nat := 5
  const TARGET_WINDOW: nat := ADJUSTMENT_INTERVAL * TARGET_BLOCKS_PER_MINT
  const MAX_MINTS_PER_BLOCK: nat := 10
  const PARTIAL_SEED_DELAY: nat := 1_800
  const INITIAL_DIFFICULTY: nat := 0xFFFF_FFFF_FFFF_FFFF_FFFF_FFFF_FFFF_FFFF_FFFF_FFFF_FFFF_FFFF_FFFF_FFFF

  const TWO96: nat := 0x1_0000_0000_0000_0000_0000_0000
  const TWO160: nat := 0x1_0000_0000_0000_0000_0000_0000_0000_0000_0000_0000

  type address = a: nat | a < TWO160

  /** What is fixed at deployment.  The hash function is left open. */
  datatype Deployment = Deployment(chainId: uint256, self: address, pool: address, controller: address,
                                   deployedAt: nat, keccak: seq<byte> -> bytes32)

  datatype Storage = Storage(
    genesisEthRaised: nat, genesisMinted: nat, genesisComplete: bool,
    totalMints: nat, totalMiningMinted: nat, currentDifficulty: nat,
    lastAdjustmentMint: nat, lastAdjustmentBlock: nat,
    mintsInBlock: map<nat, nat>, usedProofs: set<bytes32>,
    balances: map<address, nat>, totalSupply: nat)

  /** The transaction context: msg.sender, msg.value, block.number and block.timestamp. */
  datatype Env = Env(sender: address, value: nat, number: uint256, timestamp: nat)

  datatype Error =
    | GenesisAlreadyComplete | GenesisNotComplete | GenesisSoldOut | TxCapExceeded | InsufficientPayment
    | GenesisNotSoldOut | InsufficientWork | ProofAlreadyUsed | BlockCapReached | SupplyExhausted
    | EthTransferFailed | NotController | TooSoon | NothingToSeed
    | Panic            // checked arithmetic or a failed require
    | PoolFailed       // a call into the pool contracts reverts
    | InsufficientBalance | InvalidReceiver | NotPayable

  datatype Event =
    | GenesisMint(buyer: address, ethPaid: nat, hashOut: nat)
    | PoolSeeded(eth: nat, hash: nat, sqrtPriceX96: nat)
    | DifficultyAdjusted(from: nat, to: nat, blocksTaken: nat)
    | Halving(halvedEra: nat, newReward: nat)
    | Mined(miner: address, nonce: uint256, reward: nat, minedEra: nat)

  datatype Outcome = Reverted(error: Error) | Committed(store: Storage, events: seq<Event>)

  function InitialStorage(): Storage {
    Storage(0, 0, false, 0, 0, 0, 0, 0, map[], {}, map[], 0)
  }

  // ---------- the token

  /** The ERC-20 balance update of a transfer. */
  function Moved(balances: map<address, nat>, from: address, to: address, amount: nat): map<address, nat>
    requires amount <= Get(balances, from)
  {
    var b := balances[from := Get(balances, from) - amount];
    b[to := Get(b, to) + amount]
  }

  function Minted(s: Storage, to: address, amount: nat): Storage {
    s.(balances := s.balances[to := Get(s.balances, to) + amount], totalSupply := s.totalSupply + amount)
  }

  function Transfer(s: Storage, env: Env, to: address, amount: nat): Outcome {
    if to == 0 then Reverted(InvalidReceiver)
    else if amount > Get(s.balances, env.sender) then Reverted(InsufficientBalance)
    else Committed(s.(balances := Moved(s.balances, env.sender, to, amount)), [])
  }

  // ---------- genesis

  /** mintGenesis; `refundAccepted` is the result of the call that returns the excess payment. */
  function MintGenesis(s: Storage, env: Env, units: nat, refundAccepted: bool): Outcome {
    if s.genesisComplete then Reverted(GenesisAlreadyComplete)
    else if units == 0 || units > MAX_UNITS_PER_TX then Reverted(TxCapExceeded)
    else
      var hashAmount, cost := units * GENESIS_UNIT, units * GENESIS_PRICE;
      if env.value < cost then Reverted(InsufficientPayment)
      else if s.genesisMinted + hashAmount > GENESIS_CAP then Reverted(GenesisSoldOut)
      else if env.value > cost && !refundAccepted then Reverted(EthTransferFailed)
      else
        var s1 := s.(genesisMinted := s.genesisMinted + hashAmount, genesisEthRaised := s.genesisEthRaised + cost);
        Committed(Minted(s1, env.sender, hashAmount), [GenesisMint(env.sender, cost, hashAmount)])
  }

  /** _sqrtPriceX96FromAmounts; shifts drop what leaves 256 bits, `NoPrice` is a failed require or an overflow. */
  datatype Price = NoPrice | Price(sqrtPriceX96: nat)

  function SqrtPriceX96(amount0: nat, amount1: nat): Price {
    if amount0 == 0 then NoPrice
    else
      var priceX96 := (amount1 * TWO96 % TWO256) / amount0;
      var ratioX192 := priceX96 * TWO96 % TWO256;
      if ratioX192 == TWO256 - 1 then NoPrice
      else
        var s := FloorRoot(ratioX192);
        if s < TWO160 then Price(s) else NoPrice
  }

  /** What the pool contracts do with the seed position: revert, or take some of the tokens offered. */
  datatype PoolResult = PoolReverts | PoolTakes(amount: nat)

  /** _seedBody.  The position manager is given hashLP as its upper bound and reverts beyond it. */
  function SeedBody(d: Deployment, s: Storage, env: Env, pool: PoolResult): Outcome {
    var eth, hashLP := s.genesisEthRaised, s.genesisMinted;
    var s1 := Minted(s.(genesisComplete := true), d.self, hashLP + MINING_SUPPLY);
    match SqrtPriceX96(eth, hashLP)
    case NoPrice => Reverted(Panic)
    case Price(p) =>
      match pool
      case PoolReverts => Reverted(PoolFailed)
      case PoolTakes(amount) =>
        if amount > hashLP then Reverted(PoolFailed)
        else
          var s2 := s1.(currentDifficulty := INITIAL_DIFFICULTY, lastAdjustmentBlock := env.number,
                        lastAdjustmentMint := 0);
          Committed(s2.(balances := Moved(s2.balances, d.self, d.pool, amount)), [PoolSeeded(eth, hashLP, p)])
  }

  function SeedPool(d: Deployment, s: Storage, env: Env, pool: PoolResult): Outcome {
    if s.genesisComplete then Reverted(GenesisAlreadyComplete)
    else if s.genesisMinted < GENESIS_CAP then Reverted(GenesisNotSoldOut)
    else SeedBody(d, s, env, pool)
  }

  function PartialSeed(d: Deployment, s: Storage, env: Env, pool: PoolResult): Outcome {
    if env.sender != d.controller then Reverted(NotController)
    else if s.genesisComplete then Reverted(GenesisAlreadyComplete)
    else if env.timestamp < d.deployedAt + PARTIAL_SEED_DELAY then Reverted(TooSoon)
    else if s.genesisMinted == 0 then Reverted(NothingToSeed)
    else SeedBody(d, s, env, pool)
  }

  // ---------- mining

  function Epoch(number: nat): nat {
    number / EPOCH_BLOCKS
  }

  function ChallengePreimage(chainId: uint256, contract: address, miner: address, epoch: nat): seq<byte> {
    ToBigEndian(chainId, 32) + ToBigEndian(contract, 32) + ToBigEndian(miner, 32) + ToBigEndian(epoch, 32)
  }

  function Challenge(d: Deployment, miner: address, epoch: nat): bytes32 {
    d.keccak(ChallengePreimage(d.chainId, d.self, miner, epoch))
  }

  function WorkPreimage(challenge: bytes32, nonce: uint256): seq<byte> {
    challenge + ToBigEndian(nonce, 32)
  }

  /** The integer compared with the difficulty. */
  function Work(d: Deployment, challenge: bytes32, nonce: uint256): nat {
    BigEndian(d.keccak(WorkPreimage(challenge, nonce)))
  }

  function ProofPreimage(miner: address, nonce: uint256, epoch: nat): seq<byte> {
    ToBigEndian(miner, 32) + ToBigEndian(nonce, 32) + ToBigEndian(epoch, 32)
  }

  function ProofKey(d: Deployment, miner: address, nonce: uint256, epoch: nat): bytes32 {
    d.keccak(ProofPreimage(miner, nonce, epoch))
  }

  function ShiftRight(x: nat, n: nat): nat {
    if n == 0 then x else ShiftRight(x / 2, n - 1)
  }

  function RewardForEra(era: nat): nat {
    if era < 64 then ShiftRight(BASE_REWARD, era) else 0
  }

  function CurrentReward(s: Storage): nat {
    RewardForEra(s.totalMints / ERA_MINTS)
  }

  datatype Retarget = Overflow | Retargeted(next: nat)

  /** The arithmetic of _adjustDifficulty: mulDiv and the product of the difficulty by 4 revert when they leave 256
      bits. */
  function NextDifficulty(current: nat, taken: nat): Retarget {
    var scaled := if taken == 0 then current / 4 else current * taken / TARGET_WINDOW;
    if scaled >= TWO256 || current * 4 >= TWO256 then Overflow
    else
      var n1 := if scaled < current / 4 then current / 4 else scaled;
      var n2 := if n1 > current * 4 then current * 4 else n1;
      Retargeted(if n2 == 0 then 1 else n2)
  }

  /** The checks at the head of mine, up to and including the proof of work and its first use. */
  function MineChecks(d: Deployment, s: Storage, env: Env, nonce: uint256): (bool, Error) {
    if !s.genesisComplete then (false, GenesisNotComplete)
    else if s.totalMiningMinted >= MINING_SUPPLY then (false, SupplyExhausted)
    else if Get(s.mintsInBlock, env.number) >= MAX_MINTS_PER_BLOCK then (false, BlockCapReached)
    else if Work(d, Challenge(d, env.sender, Epoch(env.number)), nonce) >= s.currentDifficulty then
      (false, InsufficientWork)
    else if ProofKey(d, env.sender, nonce, Epoch(env.number)) in s.usedProofs then (false, ProofAlreadyUsed)
    else (true, Panic)
  }

  /** The storage after the proof and the mint have been counted. */
  function Counted(d: Deployment, s: Storage, env: Env, nonce: uint256): Storage {
    s.(usedProofs := s.usedProofs + {ProofKey(d, env.sender, nonce, Epoch(env.number))},
       mintsInBlock := s.mintsInBlock[env.number := Get(s.mintsInBlock, env.number) + 1],
       totalMints := s.totalMints + 1)
  }

  /** The storage after the retarget, if one is due. */
  function Adjusted(s: Storage, env: Env): Outcome {
    if s.totalMints < s.lastAdjustmentMint then Reverted(Panic)
    else if s.totalMints - s.lastAdjustmentMint < ADJUSTMENT_INTERVAL then Committed(s, [])
    else if env.number < s.lastAdjustmentBlock then Reverted(Panic)
    else
      var taken := env.number - s.lastAdjustmentBlock;
      match NextDifficulty(s.currentDifficulty, taken)
      case Overflow => Reverted(Panic)
      case Retargeted(next) =>
        Committed(s.(currentDifficulty := next, lastAdjustmentMint := s.totalMints, lastAdjustmentBlock := env.number),
                  [DifficultyAdjusted(s.currentDifficulty, next, taken)])
  }

  /** The reward is paid out of the contract's own balance. */
  function Paid(d: Deployment, s: Storage, env: Env, nonce: uint256): Outcome {
    var era := s.totalMints / ERA_MINTS;
    var left := if s.totalMiningMinted < MINING_SUPPLY then MINING_SUPPLY - s.totalMiningMinted else 0;
    var due := RewardForEra(era);
    var reward := if due > left then left else due;
    if reward == 0 then Reverted(SupplyExhausted)
    else if reward > Get(s.balances, d.self) then Reverted(InsufficientBalance)
    else
      var halving := if era > 0 && s.totalMints % ERA_MINTS == 0 then [Halving(era, reward)] else [];
      Committed(s.(totalMiningMinted := s.totalMiningMinted + reward,
                   balances := Moved(s.balances, d.self, env.sender, reward)),
                halving + [Mined(env.sender, nonce, reward, era)])
  }

  function Mine(d: Deployment, s: Storage, env: Env, nonce: uint256): Outcome {
    var (ok, error) := MineChecks(d, s, env, nonce);
    if !ok then Reverted(error)
    else
      match Adjusted(Counted(d, s, env, nonce), env)
      case Reverted(e) => Reverted(e)
      case Committed(s1, events1) =>
        match Paid(d, s1, env, nonce)
        case Reverted(e) => Reverted(e)
        case Committed(s2, events2) => Committed(s2, events1 + events2)
  }

  // ---------- transactions

  datatype Call =
    | Buy(units: nat, refundAccepted: bool)
    | Seed(pool: PoolResult)
    | SeedPartly(pool: PoolResult)
    | MineCall(nonce: uint256)
    | Send(to: address, amount: nat)

  /** Only mintGenesis is payable. */
  function Execute(d: Deployment, s: Storage, env: Env, call: Call): Outcome {
    if !call.Buy? && env.value > 0 then Reverted(NotPayable)
    else
      match call
      case Buy(units, refundAccepted) => MintGenesis(s, env, units, refundAccepted)
      case Seed(pool) => SeedPool(d, s, env, pool)
      case SeedPartly(pool) => PartialSeed(d, s, env, pool)
      case MineCall(nonce) => Mine(d, s, env, nonce)
      case Send(to, amount) => Transfer(s, env, to, amount)
  }
}
