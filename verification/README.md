# Verification of hash256-miner

HASH256 is a proof-of-work token whose contract (`reference/Hash.sol`) pays 18.9 million units to whoever finds nonces with a
small Keccak-256 digest. This repository's miner finds them on GPUs and submits them. The project models the three parts that
have to agree, and proves what each of them keeps and that they do agree.

**The search kernel and its host.** `Keccak` is FIPS 202 as written: step mappings on coordinates (section 3.2), round constants
from the shift register of section 3.2.5, the sponge of section 4 with pad10*1 at byte level (section 5.1), rate 136 and no
domain suffix. `KeccakKernel` is the kernel's permutation on an array, `SearchKernel` its work item with the host's encoding,
`Launch` the race of work items on the hit counter, one atomic step at a time, and the host's decoding. `Planes` writes a round
out lane by lane, and `KnownAnswer` works out the digest of the empty message with it.

**The contract.** `HashContract` gives the storage and each transaction as a function to a revert or a new storage with events;
`HashToken` is the same as an object updated in place, with the square root loop of `SquareRoot`, each method proved against
that function. `ContractRuns` has all runs: any transactions, from any senders but the contract itself, in blocks whose numbers
never go back. `Encodings` says what is hashed, word by word. `GenesisPrice`, `Emission`, `Supply`, `Retargeting`, `Ledger` prove
what every run keeps; `GenesisSale` and `MineOutcome` what a purchase, a seeding and a call of `mine` do in any reachable
state. `Pacing` builds runs at a steady pace, for any deployment under which a miner has
the nonces; one completes the emission, and `Halt` has those after which nothing is mined any more. The hash function is a
parameter; where a result needs it to tell encodings apart, that is asked of the encodings concerned and no others.

**The client.** `Submission` is the submitter's books and critical sections, `Interleaving` the submit threads, the block loop
and the receipt sweep interleaved at will, with `Overtaking`, `TxNonces`, `Receipts` and `Counters` about all interleavings.
`Pipeline` and `PipelineRuns` do the same for GPU workers, jobs, drain and bundle buffer, with `Batches` on where found nonces
go, `FarmEpochs` on the epochs of what is put into the queue and `RepeatedFinds` on nonces found again; `Bundles` and `BundleRounds` cover the sending of bundles. What nodes, builders and devices answer is arbitrary. `BundleExecution` and `EndToEnd` connect the client to the
contract.

Lanes are `bv64`; all other integers are unbounded, with wrap-around, truncation and overflow reverts written out. The whole
project can be verified with `dafny verify dfyconfig.toml`.

What the proofs turned up:

- The retarget multiplies in checked arithmetic before it clamps, so it can revert, and because windows only get longer it
  then reverts for ever and nothing is mined any more (`HaltedForever`). Where nothing else stands in the way a call of `mine`
  succeeds exactly unless that has happened (`MinesUnlessHalted`). It happens in two ways. From a difficulty of 2^254 on,
  four times the difficulty leaves 256 bits; that takes sixteen retargets, and 34271 mints at twenty blocks each get there
  (`HighDifficultyIsLate`, `HaltByDifficulty`). Below 2^254, the difficulty scaled by the window leaves 256 bits once a due
  window has lasted longer than a bound that depends on the difficulty and always exceeds the 40320 blocks at which the clamp
  would have taken over (`HaltsByPatience`, `HaltByDelay`). A halt needs 2015 mints of a window, and the first window can do
  (`HaltIsDue`, `FirstWindowCanHalt`).
- In the price of the pool neither the square root nor the check for 160 bits can fail, whatever the amounts; only an amount of
  zero has no price (`PriceExactly`).
- `currentReward` quotes the old reward before the mint that opens an era (`QuotedReward`).
- With W submit threads an epoch can hold up to W - 1 more solutions than `max_pending_per_epoch`, since the limit is only
  checked before the slow part of `submit`; the bound is reached for every W and every limit of at least one, so such
  a limit can be exceeded exactly with two threads or more (`EpochCapOfEveryRun`, `CapIsReached`, `LimitExceededExactly`).
- A transaction nonce is handed out as often as there are stretches between resyncs that hold it (`HandedOutPerStretch`), so
  the grant after a resync repeats one exactly when it reaches into an earlier stretch (`ResyncRepeatsExactly`). An answer
  between the last synced value and the counter always makes it one (`ResyncInsideRepeats`), and a single send that meets a
  nonce hiccup gets there (`HiccupRunRepeats`).
- In single-transaction mode a transaction recorded between the end of the sweep's loop and its assignment is forgotten
  (`LateAppendIsLost`, `LateRunLosesOne`); bundle mode never loses one.
- The transaction nonces a bundle reserves all go out exactly when all of its transactions can be signed: one that raises
  while signing leaves a gap that no other bundle fills (`ReservedAllSentExactly`, `FailedBundleLeavesGap`).
- The bundle buffer is compared with what was submitted, not with itself: a bundle repeats a nonce exactly when the buffer
  holds it twice within the bundle's reach (`BundleRepeatsExactly`, `FlushRepeatsExactly`), which it does whenever two batches
  find it before it is submitted (`FoundAgainIsBundledAgain`). On the chain the first one is paid while the block has room and
  the others revert (`BundleFillsBlock`).
- `GpuFarm`'s description says workers only submit results of the current epoch. A batch's generation is compared once, not at
  each put, so that is so exactly in the runs in which no job switch meets a worker with unput results of another epoch which
  puts before the next switch (`AllPutsCurrentExactly`), and there are runs in which one does (`StaleRunIsLate`). The code
  relies on the drain to drop such results (`SoundInEveryRun`).

## Model

| member | source | states |
|---|---|---|
| Words.BswapReverses | hashminer/kernels/keccak256.cl:30-34 | the three-step byte swap reverses the eight bytes of every word |
| Words.BytesOfLane | hashminer/gpu.py:113-117 | a lane assembled from eight bytes has those bytes, so different bytes never make the same lane |
| KeccakKernel.RoundConstantTable | hashminer/kernels/keccak256.cl:36-43 | every entry of RC is the round constant that the shift register of FIPS 202 section 3.2.5 generates |
| KeccakKernel.RotationTable | hashminer/kernels/keccak256.cl:45-46 | every entry of ROTC is the rho offset of its step, (t+1)(t+2)/2 mod 64 |
| KeccakKernel.ChaseLane | hashminer/kernels/keccak256.cl:61-68 | after i steps of the chase, each lane is either untouched or the rotated content of the lane before it on the cycle |
| KeccakKernel.ChaseTemporary | hashminer/kernels/keccak256.cl:61-68 | the single temporary always holds the original content of the lane just overwritten |
| KeccakKernel.PiFollowsTrajectory | hashminer/kernels/keccak256.cl:47-48 | PILN is the path on which pi sends each lane of the rho trajectory to the next one |
| KeccakKernel.ChaseIsRhoPi | hashminer/kernels/keccak256.cl:61-68 | the whole in-place chase is pi after rho for every state and every rotation, lane 0 included |
| KeccakKernel.ThetaLoops | hashminer/kernels/keccak256.cl:54-60 | the two loops over column parities leave theta of the state |
| KeccakKernel.RhoPiLoop | hashminer/kernels/keccak256.cl:61-68 | the loop over PILN and ROTC leaves pi of rho of the state |
| KeccakKernel.ChiLoops | hashminer/kernels/keccak256.cl:69-73 | the row loops with their copy of five lanes leave chi of the state |
| KeccakKernel.KeccakF1600 | hashminer/kernels/keccak256.cl:50-77 | for every state, the in-place permutation is 24 rounds of iota, chi, pi, rho, theta |
| KnownAnswer.EmptyMessage | tests/test_keccak_vectors.py:18-23 | Keccak-256 of the empty message is the known digest, byte for byte |
| Planes.RoundOf | hashminer/kernels/keccak256.cl:53-76 | the round written out lane by lane, every rotation a literal, is the round of the specification |
| SearchKernel.ChallengeRoundTrip | hashminer/gpu.py:113-117 | the four lanes are 64-bit words whose little-endian bytes are the challenge |
| SearchKernel.TargetRoundTrip | hashminer/gpu.py:120-124 | the four limbs put together most significant first are the target |
| SearchKernel.NonceRoundTrip | hashminer/gpu.py:127-128 | the four limbs of any base, put together as search_batch does, are the base mod 2^256 |
| SearchKernel.CarryChain | hashminer/kernels/keccak256.cl:91-96 | the four-limb add with rippling carry is addition mod 2^256 |
| SearchKernel.PreparedIsAbsorbed | hashminer/kernels/keccak256.cl:98-107 | the state the work item fills in is the zero state after absorbing the padded block of challenge and big-endian nonce |
| SearchKernel.PreparedDigest | hashminer/kernels/keccak256.cl:98-109 | permuting that state and reading 32 bytes gives Keccak-256 of challenge and nonce |
| SearchKernel.DigestValue | hashminer/kernels/keccak256.cl:111-124 | the byte-swapped lanes are the limbs of the digest read as a big-endian integer |
| SearchKernel.Lexicographic | hashminer/kernels/keccak256.cl:112-126 | comparing limbs from the top decides which 256-bit integer is smaller |
| SearchKernel.BelowTarget | hashminer/kernels/keccak256.cl:111-126 | the early-exit comparison answers whether the digest is strictly below the target |
| SearchKernel.KeccakPowSearch | hashminer/kernels/keccak256.cl:79-134 | a work item reports a hit exactly when its id is below n_total and its nonce is valid, and hands back that nonce's limbs |
| SearchKernel.SearchItem | hashminer/gpu.py:168-198 | from host encoding to host decoding: a hit exactly when int_be(Keccak-256(challenge, nonce)) is below the target, for nonce (base + gid) mod 2^256 |
| ProofOfWork.VerifiedExactly | hashminer/verify.py:33-42 | verify accepts exactly the valid nonces in range, and records challenge, nonce, epoch, digest and difficulty checked |
| ProofOfWork.BadChallengeExactly | hashminer/verify.py:35-36 | it raises exactly for a challenge that is not 32 bytes long |
| Launch.RunValid | hashminer/kernels/keccak256.cl:128-133 | in every interleaving of atomic steps each claimed slot belongs to one hit and holds only that item's limbs |
| Launch.CounterIsHitCount | hashminer/kernels/keccak256.cl:128 | when all items are done the counter is the number of hits and the claims are the hits, once each |
| Launch.SlotsWrittenOnce | hashminer/kernels/keccak256.cl:129-132 | exactly the words of the first min(hits, max_results) slots are written, each exactly once, with the claimant's limbs |
| Launch.Decode | hashminer/gpu.py:196-198 | each four words of the copied buffer decode to one nonce, in order |
| Launch.ReadBack | hashminer/gpu.py:189-203 | reading the counter and copying and decoding the filled slots gives the nonces of the first claimants |
| Launch.BatchResults | hashminer/gpu.py:168-204 | the launch is the fewest whole work-groups that hold n work items; for H solutions the list has min(H, max_results) pairwise distinct solutions, and all of them if they fit |
| Launch.CounterNeverWraps | hashminer/kernels/keccak256.cl:128 | at every moment of a batch the counter is at most n |
| Launch.GidsDistinct | hashminer/kernels/keccak256.cl:88-89 | the truncated ids of a launch are distinct exactly when it has at most 2^32 work items |
| Launch.ItemNoncesDistinct | hashminer/kernels/keccak256.cl:91-96 | different ids below 2^32 give different nonces, across the wrap too |
| Launch.SaltKept | hashminer/gpu.py:164-166 | a launch stays within its salt exactly when the low 192 bits leave room for it |
| Launch.SaltsDisjoint | hashminer/gpu.py:164-166 | such launches with different salts share no nonce |
| SquareRoot.Sqrt | reference/Hash.sol:480-489 | Newton's loop ends with the floor square root for every x but 2^256 - 1, which reverts, and nothing in between overflows |
| HashToken.Hash.constructor | reference/Hash.sol:86-96 | the storage starts out empty |
| HashToken.Hash.MintGenesis | reference/Hash.sol:146-165 | a sale updates raised, minted, balance and supply together, or fails with the first error that applies and restores everything |
| HashToken.Hash.SqrtPriceX96FromAmounts | reference/Hash.sol:469-478 | shifts drop what leaves 256 bits, the root is the floor root, and a zero amount or a root beyond 160 bits fails |
| HashToken.Hash.SeedPool | reference/Hash.sol:167-171 | only a sold-out, unfinished genesis is seeded; a failing pool restores everything |
| HashToken.Hash.PartialSeed | reference/Hash.sol:173-179 | only the controller, after the delay, with something sold |
| HashToken.Hash.SeedBody | reference/Hash.sol:181-242 | issues the liquidity and mining supply to the contract, sets the opening difficulty and window, and lets the pool take its deposit or fail |
| HashToken.Hash.AdjustDifficulty | reference/Hash.sol:397-415 | the retarget in place, reverting on each of its overflows |
| HashToken.Hash.Mine | reference/Hash.sol:349-382 | every check in order, the counters, the retarget, the reward and the events, with everything restored on a revert |
| HashToken.Hash.Transfer | reference/Hash.sol:43 | a transfer moves the amount or fails without effect |
| Supply.TransferExactly | reference/Hash.sol:43 | a transfer fails for the zero address, then for want of the amount, and otherwise moves just that between the two accounts |
| Encodings.ChallengeWords | reference/Hash.sol:384-391 | the preimage of the challenge is 128 bytes: chain id, contract, miner, epoch, in this order |
| Encodings.ProofWords | reference/Hash.sol:357 | the preimage of a proof's key is 96 bytes: miner, nonce, epoch |
| Encodings.WorkWords | reference/Hash.sol:354 | the preimage of the work is 64 bytes: the challenge, then the nonce |
| Encodings.EncodedWord | hashminer/constants.py:45-55 | decoding any word of the client's abi encoding gives the integer encoded there |
| Encodings.ContractEncodings | hashminer/constants.py:45-79 | the contract's encodings are the client's |
| GenesisSale.PurchaseInEveryRun | reference/Hash.sol:146-165 | in every run a purchase ends by the number of units sold before: exactly when it commits, which error otherwise, up to the sale of the last of the 1050 units |
| GenesisSale.SoldInEveryRun | reference/Hash.sol:153-154 | in every run genesisMinted and genesisEthRaised are 1000 tokens and 10^16 wei for each unit sold |
| GenesisSale.SaleCanComplete | reference/Hash.sol:146-171 | there is a run that sells exactly to the cap, after which the next purchase is sold out and seedPool goes through if the pool takes its deposit |
| GenesisSale.SeedsByRuleInEveryRun | reference/Hash.sol:167-179 | in every run each route of seeding ends by its guards in order, told from the units sold |
| GenesisSale.SeedingOpens | reference/Hash.sol:181-213 | seeding opens mining at difficulty 2^224 - 1 and issues 2000 tokens for each unit sold and the mining supply, 21 million if all are sold |
| GenesisSale.OnlySalesArePayable | reference/Hash.sol:146-167 | every call but a purchase refuses to be paid |
| GenesisPrice.ShiftsAreExact | reference/Hash.sol:473-474 | for amounts in the sale's proportion the shifts lose no bits and the division is exact |
| GenesisPrice.PriceExactly | reference/Hash.sol:469-489 | for all amounts: the price is the root of the shifted quotient with what leaves 256 bits dropped, is below 2^128, and is missing only for an amount of zero |
| GenesisPrice.PriceIsConstant | reference/Hash.sol:469-478 | the price is floor(sqrt(100000 * 2^192)) for every amount raised, and fits 160 bits |
| GenesisPrice.SeedPriceOfEveryRun | reference/Hash.sol:146-197 | in every run genesisMinted is 100000 times genesisEthRaised and at most the cap, and the pool is seeded at most once, with what was sold, at that one price |
| GenesisPrice.SeedingInEveryRun | reference/Hash.sol:167-242 | in every run seedPool succeeds exactly when all is sold and partialSeed exactly for the controller after the delay with something sold, if the pool takes its deposit; the price never fails |
| Emission.RewardOfEra | reference/Hash.sol:368-369 | the reward of an era is the hundred tokens divided by 2^era, rounded down, up to era 63, and nothing after |
| Emission.MinedInClosedForm | reference/Hash.sol:368-375 | the sum of the rewards of the first n mints, era by era |
| Emission.SupplyEndsAtLastMint | reference/Hash.sol:371-373 | the supply ends exactly at mint 424015; before it a whole reward is always left |
| Emission.MinePaysSchedule | reference/Hash.sol:368-376 | a mint pays the reward of its number, never clamped, and currentReward afterwards equals what was just paid |
| Emission.QuotedReward | reference/Hash.sol:434-437 | currentReward before a mint is what it will be paid, exactly unless the mint opens an era |
| Emission.EmissionOfEveryRun | reference/Hash.sol:349-382 | in every run the total mined is a function of the number of mints alone, and the halving events are one for each era entered, in order, with its reward |
| Emission.CompletedRun | reference/Hash.sol:351-380 | the supply is exhausted exactly when 424015 mints were made, and then there were exactly four halvings |
| Supply.MinePaysSender | reference/Hash.sol:375-376 | a mint moves its reward from the contract to the sender, touches no third account and no supply |
| Supply.SupplyOfEveryRun | reference/Hash.sol:146-187 | in every run balances add up to totalSupply, which is what was sold, or twice that plus the mining supply, at most TOTAL_SUPPLY, and the contract holds all that is not mined yet |
| Retargeting.WindowLength | reference/Hash.sol:398-404 | a retarget comes at least 201 blocks after the last one or the seeding, so the branch for zero blocks is dead |
| Retargeting.RetargetDefined | reference/Hash.sol:402-407 | the retarget's arithmetic reverts exactly from 2^254 on or when the scaled value leaves 256 bits |
| Retargeting.RetargetExactly | reference/Hash.sol:402-408 | the next difficulty in closed form: a quarter up to 2520 blocks, four times from 40320 on, in between old * blocks / 10080 rounded down, never below 1 |
| Retargeting.RetargetBounded | reference/Hash.sol:406-408 | the next difficulty is positive and within a factor of four either way |
| Retargeting.RetargetMonotone | reference/Hash.sol:402-408 | a longer window never gives a smaller difficulty |
| Retargeting.RetargetDirection | reference/Hash.sol:402-408 | 10080 blocks keep the difficulty, fewer lower it unless it is 1, more never lower it |
| Retargeting.RetargetsOfEveryRun | reference/Hash.sol:361-415 | in every run retargets are at the multiples of 2016, as many as the events tell of, each after 201 blocks or more and to the value in closed form, no block exceeds ten mints, and after k retargets the difficulty is between the initial one divided and multiplied by 4^k |
| Retargeting.HaltedForever | reference/Hash.sol:398-407 | once a due retarget leaves 256 bits in either product, no later transaction mints |
| Retargeting.HaltsByPatience | reference/Hash.sol:402-406 | below 2^254 that is the case exactly from a window length on that depends on the difficulty and is always beyond the clamp's 40320 blocks |
| Retargeting.HaltIsDue | reference/Hash.sol:364-366 | it is only ever the case when all but one of an interval's mints are made |
| Retargeting.HighDifficultyIsLate | reference/Hash.sol:397-412 | no run reaches a difficulty of 2^254 before its sixteenth retarget, nor a halt by it before 34271 mints |
| Halt.HaltByDifficulty | reference/Hash.sol:397-412 | with the nonces at hand, 34271 mints at twenty blocks each end halted, for every deployment |
| Halt.HaltByDelay | reference/Hash.sol:398-404 | any run with a retarget due, followed by any transaction after the bound, ends halted |
| Halt.FirstWindowCanHalt | reference/Hash.sol:398-404 | so does a run of 2015 mints |
| Pacing.PacedAfter | reference/Hash.sol:349-415 | with the nonces at hand, at any pace of five to twenty blocks every mint succeeds, as far as the retargets are defined |
| Pacing.EmissionCanComplete | reference/Hash.sol:349-382 | at five blocks to a mint a run mines all of the supply and passes the four halvings |
| Pacing.EasyChainSupplies | reference/Hash.sol:354-358 | there is a hash under which a miner has all those nonces |
| Ledger.RecordOfEveryRun | reference/Hash.sol:357-363 | in every run used proofs, totalMints and the sum of mintsInBlock all equal the number of mints, block by block, the proofs are those of the mints, and the i-th mint was paid the i-th reward |
| Ledger.PaidAtMostOnce | reference/Hash.sol:357-359 | no (miner, nonce, epoch) is paid twice, whatever the hash |
| Ledger.CapsOfEveryRun | reference/Hash.sol:352 | no block holds more than ten mints and no epoch more than a thousand |
| Ledger.ProofPreimageInjective | hashminer/constants.py:77-79 | abi.encode of miner, nonce and epoch determines all three |
| Ledger.UsedExactlyWhenPaid | reference/Hash.sol:357-359 | unless the hash collides with an encoding on record, a proof is used exactly when its own (miner, nonce, epoch) was paid |
| MineOutcome.MineInEveryRun | reference/Hash.sol:349-382 | in every reachable state the outcome of mine follows from the record: exactly when it commits, which error otherwise, no failing transfer and no zero reward, and the one mint it records |
| MineOutcome.MinesUnlessHalted | reference/Hash.sol:349-407 | past the other checks a call mints exactly unless mining has halted by its block |
| Submission.Submitter.constructor | hashminer/submit.py:83-93 | empty books and no transaction nonce |
| Submission.Submitter.NextTxNonce | hashminer/submit.py:128-133 | hands out the counter, synced first if unset, and moves it by one |
| Submission.Submitter.MarkUsed | hashminer/submit.py:142-146 | the nonce joins its epoch and every epoch before the previous one is dropped |
| Submission.MarkEffect | hashminer/submit.py:142-146 | what a mark leaves of each epoch's used-set |
| Submission.Submitter.CheckEligible | hashminer/submit.py:151-159 | the first critical section: no address, duplicate, epoch cap, or go on |
| Submission.Submitter.AssignTxNonce | hashminer/submit.py:178-185 | the second critical section: duplicate re-check, transaction nonce, mark; a failing node changes nothing |
| Submission.Submitter.RecordSkip | hashminer/submit.py:164-175 | giving up on price or gas counts one skip and nothing else |
| Submission.Submitter.RecordFailure | hashminer/submit.py:203-212 | a nonce hiccup resyncs, anything else counts as an error |
| Submission.Submitter.RecordSent | hashminer/submit.py:214-217 | the transaction becomes pending and is counted |
| Submission.Submitter.RecordPending | hashminer/submit.py:222-227 | a bundled transaction becomes pending, is counted and its nonce marked |
| Submission.Submitter.ReserveTxNonces | hashminer/submit.py:229-236 | hands out n consecutive transaction nonces, synced first if unset |
| Submission.Submitter.PollReceipts | hashminer/submit.py:250-275 | the sweep's loop counts each receipt, earns the rewards and leaves the transactions that stay pending, each at its place |
| Submission.StillKeepsInOrder | hashminer/submit.py:254-275 | what a sweep leaves: exactly the transactions its receipts keep, in their order |
| Interleaving.EpochCapOfEveryRun | hashminer/submit.py:151-185 | with W threads, in every interleaving an epoch's used-set has at most max_pending_per_epoch + W - 1 entries |
| Overtaking.CapIsReached | hashminer/submit.py:151-185 | for every limit of at least one and any crew of threads, an interleaving fills an epoch to the limit plus the crew less one |
| Overtaking.LimitExceededExactly | hashminer/submit.py:151-185 | some interleaving exceeds the limit exactly when there are two threads or more and the limit is at least one |
| Interleaving.AssignedOnce | hashminer/submit.py:142-185 | in every interleaving submit assigns a marked (epoch, nonce) again only after a mark two or more epochs later |
| Interleaving.RefusedExactly | hashminer/submit.py:135-185 | in every run how both critical sections decide, from the marks: a solution is a duplicate exactly when its nonce was marked in its epoch and no mark two or more epochs later has come since, and the cap counts just those |
| Counters.CountersOfEveryRun | hashminer/submit.py:148-275 | in every run sent, confirmed, reverted, skipped and errors are the numbers of the steps they count |
| Counters.SolutionsOfEveryRun | hashminer/submit.py:148-220 | in every run each solution a submit thread takes on ends in exactly one way or is still worked on |
| TxNonces.TxNoncesFillInterval | hashminer/submit.py:123-133 | since the last sync, the nonces handed out to singles and bundles are exactly those from the synced value to the counter, each once |
| TxNonces.NeverRepeatedIfForward | hashminer/submit.py:203-209 | if no resync answers below the counter, no transaction nonce is handed out twice in any run |
| TxNonces.HandedOutPerStretch | hashminer/submit.py:123-133 | in every run a transaction nonce is handed out exactly as often as stretches between syncs hold it, and the grants since the last sync are the latest |
| TxNonces.RepeatsExactly | hashminer/submit.py:123-133 | a run repeats a transaction nonce exactly when two of its stretches overlap |
| TxNonces.ResyncRepeatsExactly | hashminer/submit.py:203-209 | the grant after a resync repeats one exactly when it reaches into a stretch between earlier syncs, the last one included |
| TxNonces.ResyncInsideRepeats | hashminer/submit.py:203-209 | after an answer between the last synced value and the counter, the next grant hands that transaction nonce out again |
| TxNonces.HiccupRunRepeats | hashminer/submit.py:123-209 | a thread whose first send meets a nonce hiccup and which goes on to a second solution: both get the same transaction nonce exactly when the node counts the same as before |
| Submission.SweepConserves | hashminer/submit.py:250-275 | a sweep puts each pending transaction into exactly one account and earns only from receipts of success |
| Receipts.ReplacedInOrder | hashminer/submit.py:254-275 | in every interleaving the list a sweep assigns holds exactly what its receipts keep of the transactions pending when its loop ended, in order |
| Receipts.ConservedExactlyWhenNoneLate | hashminer/submit.py:214-275 | in every interleaving sent = confirmed + reverted + pending + expired between sweeps exactly when nothing was ever appended in the sweep's last window |
| Receipts.BundleModeConserves | hashminer/miner.py:159-176 | in bundle mode that equation holds in every run, and hash_earned is the sum over confirmed receipts |
| Receipts.LateAppendIsLost | hashminer/submit.py:214-275 | in every run any append in that window, alone or among others, joins the list and is overwritten, and counts as sent but is in no account |
| Receipts.LateRunLosesOne | hashminer/submit.py:214-275 | a run of one thread and one sweep in which two transactions are sent and one is left |
| Bundles.Send | hashminer/bundle.py:74-121 | reserve, sign in order, record in order; nothing for an empty list, an exception where reserving or signing raises |
| Bundles.BundleOrder | hashminer/bundle.py:81-98 | the i-th transaction mines the i-th solution with the i-th transaction nonce, and all become pending in order |
| Bundles.UnsentBundle | hashminer/bundle.py:74-98 | a bundle that is not sent records nothing and at most moves the counter past what it reserved |
| Bundles.RecordAllMarks | hashminer/bundle.py:119-121 | recording a bundle marks its nonces in order |
| Bundles.MarkAllEffect | hashminer/bundle.py:119-121 | the used-set of a bundle's epoch gains exactly its nonces |
| Bundles.FailedBundleLeavesGap | hashminer/bundle.py:81-98 | over any run of bundles, no transaction sent or recorded has a nonce reserved by a bundle whose signing raised |
| Bundles.ReservedAllSentExactly | hashminer/bundle.py:81-98 | over any run of bundles, every transaction nonce a bundle reserves goes out in some transaction exactly when all of its own can be signed |
| BundleRounds.BundledOnce | hashminer/miner.py:208-225 | the same (epoch, nonce) goes out in two bundles only after a bundle two or more epochs later |
| Pipeline.GpuFarm.SetJob | hashminer/gpu.py:255-261 | the job is replaced and the generation moves on |
| Pipeline.GpuFarm.ClearJob | hashminer/gpu.py:263-267 | the job is taken away and the generation moves on |
| Pipeline.GpuFarm.Emit | hashminer/gpu.py:301-304 | results are put in order, and only if the generation is still the batch's |
| Pipeline.Miner.SetJob | hashminer/miner.py:92-97 | the job is replaced and reported changed exactly if any part of it differs |
| Pipeline.Miner.DrainOne | hashminer/miner.py:186-198 | a result is counted, then dropped or buffered after checking epoch and digest under the current job |
| Pipeline.Miner.TakeBundle | hashminer/miner.py:211-219 | the buffer is filtered and the bundle taken off its front |
| Pipeline.BundleIsFreshPrefix | hashminer/miner.py:211-219 | the bundle is an in-order prefix of the filtered buffer, of the epoch, unsubmitted, and nothing is lost; for every size, even a negative one, how long it is |
| Pipeline.BundleRepeatsExactly | hashminer/miner.py:213-219 | a bundle repeats a nonce exactly when the buffer holds it twice, unsubmitted and of the epoch, within the bundle's reach |
| PipelineRuns.EmittedUnderCurrentJob | hashminer/gpu.py:301-302 | a batch passes the check only while the farm's job is the one it was searched under |
| PipelineRuns.SeenIsHeld | hashminer/miner.py:89-98 | a state seen becomes the miner's job, and the farm is pointed at it exactly if it differs |
| PipelineRuns.FarmFollowsInEveryRun | hashminer/miner.py:89-98 | in every run consecutive jobs differ, and but for a switch under way the farm has the miner's job or none |
| Batches.BatchesOfEveryRun | hashminer/gpu.py:285-305 | in every run each batch begun has returned, failed or is searched, and each nonce that passed the check was put or waits to be |
| FarmEpochs.StalePutExactly | hashminer/gpu.py:301-304 | a step puts a result of another epoch than the farm's exactly when it is a put by a worker whose results do not match the farm's job |
| FarmEpochs.AllPutsCurrentExactly | hashminer/gpu.py:236-238 | in every run all results are put under the farm's current epoch exactly when no switch meets a worker with unput results of another epoch which puts before the next switch |
| FarmEpochs.StaleRunIsLate | hashminer/gpu.py:301-304 | for any two jobs of different epochs and any nonce, a run of seven steps puts the nonce with the first epoch while the farm has the second job |
| PipelineRuns.SoundInEveryRun | hashminer/miner.py:178-222 | in every interleaving each solution handed on was checked against the job read at that step, found = dropped + handed (+ 1 in hand), buffered = flushed + filtered out + remaining, and order is kept |
| PipelineRuns.FlushRepeatsExactly | hashminer/miner.py:196-219 | in every run that is said of what the last flush left and what was handed on since, and a bundle repeats a nonce only through something handed on since if the last flush left none twice |
| PipelineRuns.FlushedWasVerified | hashminer/miner.py:186-222 | whatever devices report, a flushed solution's digest is below the difficulty of a job the miner held, under its challenge and epoch |
| RepeatedFinds.FoundAgainIsBundledAgain | hashminer/miner.py:196-219 | for any job and any nonce valid for it, after k batches that found it the buffer holds it k times, and the bundle repeats it exactly when k and the size are two or more and it was not submitted |
| BundleExecution.BundleFillsBlock | reference/Hash.sol:349-382 | executed in one block, each of a bundle's verified solutions is paid its scheduled reward if it is the first with its nonce and the block has room, reverts with ProofAlreadyUsed if it is a repetition and the block has room, and with BlockCapReached otherwise |
| BundleExecution.DistinctFillsBlock | reference/Hash.sol:349-382 | with different nonces, exactly the first min(n, 10 - mintsInBlock) succeed and every later one reverts with BlockCapReached |
| BundleExecution.DuplicateNeverPaid | reference/Hash.sol:357-359 | a nonce that was paid is never paid again to the miner in that epoch, whatever transactions come in between |
| EndToEnd.ClientChallenge | hashminer/constants.py:45-55 | the client's challenge is the contract's |
| EndToEnd.ClientKey | hashminer/constants.py:77-79 | the client's proof key is the contract's |
| EndToEnd.ClientTest | hashminer/constants.py:58-74 | the client's test of a nonce is the contract's |
| EndToEnd.HitIsPaid | reference/Hash.sol:354-355 | where nothing else stands in the way, a nonce is paid exactly when it passes the client's test |
| EndToEnd.SearchForMine | hashminer/kernels/keccak256.cl:79-134 | there, a work item under the miner's challenge and the current difficulty reports a hit exactly when `mine` commits with its nonce |
| EndToEnd.FlushedIsVerifiedFor | hashminer/miner.py:89-97 | a flushed solution is verified for the miner in every block of its epoch |
| EndToEnd.FlushedBundleFillsBlock | hashminer/bundle.py:74-98 | what the pipeline flushes fills the block as above |

## Left out

- HashToken.Hash.SeedBody: the pool's initialisation, the liquidity check and the approvals are one result of the pool, and LiquidityAdded is not emitted, because liquidity is computed by libraries outside the repository.
- Uniswap V4: hooks, pool manager, liquidity maths, permit2 and fee claiming are foreign; seeding sees a pool that reverts or takes some tokens, and one that asks for more than hashLP reverts.
- Allowances: approve and transferFrom are not modelled; the contract's approvals to permit2 are taken to be used for the deposit only.
- Re-entry: the call that returns excess payment in mintGenesis could only reach token transfers, which have the same effect as transfers just before the sale.
- Ether balances are not modelled; a refund succeeds or fails as a parameter.
- RPC, HTTP, signing and the fan-out to builders: their answers and exceptions are parameters, and a transaction's hash is a function of the transaction.
- Gas and fee computation: a submission goes on or gives up at will.
- OpenCL devices, buffers, timing, batch adaptation, benchmarks, command line, configuration, logging.
- ValueError for a challenge that is not 32 bytes or a target beyond 256 bits in the host encoding: the types exclude both; verify models the length error.
- The submit path after the drain in single-transaction mode is `Interleaving`; `PipelineRuns` follows bundle mode, whose drain takes the same decisions.
- Receipts.BundleModeConserves: takes from the source that in bundle mode recording and sweeping are on one thread, so a bundle is never recorded during a sweep.
- BundleExecution.BundleFillsBlock: asks that no retarget falls among the paid mints and that the hash tells the bundle's proofs apart; a retarget may change the difficulty under the rest of the bundle.
- Cryptography: nothing is claimed about Keccak beyond which function it is.
