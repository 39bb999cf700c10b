/** What the hashed encodings consist of, word by word. */
module Encodings {
  import opened Words
  import opened HashContract

  /** abi.encode of integers and addresses: one 32-byte word for each, in order. */
  function AbiEncode(words: seq<nat>): (p: seq<byte>)
    ensures |p| == 32 * |words|
  {
    if words == [] then []
    else AbiEncode(words[..|words| - 1]) + ToBigEndian(words[|words| - 1], 32)
  }

  /** The integer in word i of an encoding. */
  function WordAt(p: seq<byte>, i: nat): nat
    requires 32 * i + 32 <= |p|
  {
    BigEndian(p[32 * i..32 * i + 32])
  }

  lemma WordRoundTrip(n: nat)
    requires n < TWO256
    ensures BigEndian(ToBigEndian(n, 32)) == n
  {
    hide ToBigEndian, BigEndian;
    Pow256Values();
    BigEndianRoundTrip(n, 32);
  }

  lemma WordOfFront(p: seq<byte>, q: seq<byte>, i: nat)
    requires 32 * i + 32 <= |p|
    ensures WordAt(p + q, i) == WordAt(p, i)
  {
    assert (p + q)[32 * i..32 * i + 32] == p[32 * i..32 * i + 32];
  }

  lemma WordOfBack(p: seq<byte>, n: nat, i: nat)
    requires |p| == 32 * i && n < TWO256
    ensures WordAt(p + ToBigEndian(n, 32), i) == n
  {
    hide ToBigEndian, BigEndian;
    WordRoundTrip(n);
    assert (p + ToBigEndian(n, 32))[32 * i..32 * i + 32] == ToBigEndian(n, 32);
  }

  /** Decoding word i gives the i-th integer back. */
  lemma {:induction false} EncodedWord(words: seq<nat>, i: nat)
    requires i < |words| && words[i] < TWO256
    ensures WordAt(AbiEncode(words), i) == words[i]
  {
    hide ToBigEndian, WordAt;
    var last := |words| - 1;
    if i == last {
      WordOfBack(AbiEncode(words[..last]), words[last], i);
    } else {
      EncodedWord(words[..last], i);
      WordOfFront(AbiEncode(words[..last]), ToBigEndian(words[last], 32), i);
    }
  }

  /** The preimage of the challenge: chain, contract, miner and epoch, in this order and nothing else. */
  lemma ChallengeWords(chainId: uint256, contract: address, miner: address, epoch: nat)
    requires epoch < TWO256
    ensures var p := ChallengePreimage(chainId, contract, miner, epoch);
      && |p| == 128 && WordAt(p, 0) == chainId && WordAt(p, 1) == contract && WordAt(p, 2) == miner
      && WordAt(p, 3) == epoch
  {
    hide ToBigEndian, WordAt;
    var a, b, c := ToBigEndian(chainId, 32), ToBigEndian(contract, 32), ToBigEndian(miner, 32);
    var e := ToBigEndian(epoch, 32);
    WordOfBack([], chainId, 0);
    WordOfBack(a, contract, 1);
    WordOfBack(a + b, miner, 2);
    WordOfBack(a + b + c, epoch, 3);
    assert [] + a == a;
    WordOfFront(a, b, 0);
    WordOfFront(a + b, c, 0);
    WordOfFront(a + b, c, 1);
    WordOfFront(a + b + c, e, 0);
    WordOfFront(a + b + c, e, 1);
    WordOfFront(a + b + c, e, 2);
  }

  /** The preimage of a proof's key: miner, nonce and epoch. */
  lemma ProofWords(miner: address, nonce: uint256, epoch: nat)
    requires epoch < TWO256
    ensures var p := ProofPreimage(miner, nonce, epoch);
      && |p| == 96 && WordAt(p, 0) == miner && WordAt(p, 1) == nonce && WordAt(p, 2) == epoch
  {
    hide ToBigEndian, WordAt;
    var a, b, e := ToBigEndian(miner, 32), ToBigEndian(nonce, 32), ToBigEndian(epoch, 32);
    WordOfBack([], miner, 0);
    WordOfBack(a, nonce, 1);
    WordOfBack(a + b, epoch, 2);
    assert [] + a == a;
    WordOfFront(a, b, 0);
    WordOfFront(a + b, e, 0);
    WordOfFront(a + b, e, 1);
  }

  /** The preimage of the work: the challenge and the nonce. */
  lemma WorkWords(challenge: bytes32, nonce: uint256)
    ensures var p := WorkPreimage(challenge, nonce);
      |p| == 64 && p[..32] == challenge && WordAt(p, 1) == nonce
  {
    hide ToBigEndian, WordAt;
    WordOfBack(challenge, nonce, 1);
  }

  lemma {:induction false} EncodeAppend(words: seq<nat>, n: nat)
    ensures AbiEncode(words + [n]) == AbiEncode(words) + ToBigEndian(n, 32)
  {
    hide ToBigEndian;
    assert (words + [n])[..|words|] == words;
  }

  /** The contract's two encodings are abi.encode of those words. */
  lemma ContractEncodings(chainId: uint256, contract: address, miner: address, nonce: uint256, epoch: nat)
    ensures ChallengePreimage(chainId, contract, miner, epoch) == AbiEncode([chainId, contract, miner, epoch])
    ensures ProofPreimage(miner, nonce, epoch) == AbiEncode([miner, nonce, epoch])
  {
    hide ToBigEndian;
    EncodeAppend([], chainId); EncodeAppend([chainId], contract); EncodeAppend([chainId, contract], miner);
    EncodeAppend([chainId, contract, miner], epoch);
    EncodeAppend([], miner); EncodeAppend([miner], nonce); EncodeAppend([miner, nonce], epoch);
    assert [] + [chainId] == [chainId] && [chainId] + [contract] == [chainId, contract];
    assert [chainId, contract] + [miner] == [chainId, contract, miner];
    assert [chainId, contract, miner] + [epoch] == [chainId, contract, miner, epoch];
    assert [] + [miner] == [miner] && [miner] + [nonce] == [miner, nonce];
    assert [miner, nonce] + [epoch] == [miner, nonce, epoch];
    hide AbiEncode;
  }
}
