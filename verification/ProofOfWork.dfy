/** The proof of work in its plain form: `constants.py` and `verify.py`. */
module ProofOfWork {
  import opened Words
  import opened Keccak

  /** abi.encode(bytes32 challenge, uint256 nonce) */
  function PowPreimage(challenge: bytes32, nonce: uint256): (p: seq<byte>)
    ensures |p| == 64
  {
    challenge + ToBigEndian(nonce, 32)
  }

  function PowDigest(challenge: bytes32, nonce: uint256): bytes32 {
    Keccak256(PowPreimage(challenge, nonce))
  }

  predicate IsValidNonce(challenge: bytes32, nonce: uint256, difficulty: nat) {
    BigEndian(PowDigest(challenge, nonce)) < difficulty
  }

  /** A nonce that has been checked on the host, with the difficulty it was checked against. */
  datatype Solution = Solution(challenge: bytes32, nonce: uint256, epoch: nat, digest: bytes32, difficulty: nat)

  datatype Verification = BadChallenge | Rejected | Verified(solution: Solution)

  function Verify(challenge: seq<byte>, nonce: int, difficulty: nat, epoch: nat): Verification {
    if |challenge| != 32 then BadChallenge
    else if !(0 <= nonce < TWO256) then Rejected
    else
      var digest := PowDigest(challenge, nonce);
      if BigEndian(digest) < difficulty then Verified(Solution(challenge, nonce, epoch, digest, difficulty))
      else Rejected
  }

  /** A solution passes exactly when it is a valid nonce in range for the challenge, and it records what was checked. */
  lemma VerifiedExactly(challenge: bytes32, nonce: int, difficulty: nat, epoch: nat)
    ensures Verify(challenge, nonce, difficulty, epoch).Verified?
            <==> 0 <= nonce < TWO256 && IsValidNonce(challenge, nonce, difficulty)
    ensures Verify(challenge, nonce, difficulty, epoch).Verified? ==>
      var sol := Verify(challenge, nonce, difficulty, epoch).solution;
      && sol == Solution(challenge, nonce, epoch, PowDigest(challenge, nonce), difficulty)
      && BigEndian(sol.digest) < difficulty
  {
    hide PowDigest, BigEndian, TWO256;
  }

  /** The error is for challenges of another length only, whatever else is given. */
  lemma BadChallengeExactly(challenge: seq<byte>, nonce: int, difficulty: nat, epoch: nat)
    ensures Verify(challenge, nonce, difficulty, epoch).BadChallenge? <==> |challenge| != 32
  {
    hide PowDigest, BigEndian, TWO256;
  }
}
