/** The rounds of the block loop in bundle mode: in each the buffer, whatever the drain has put there, is filtered by
    the used-set, a bundle is taken, and if the bundle goes out its nonces are marked. */
module BundleRounds {
  import opened Words
  import opened ProofOfWork
  import opened Submission
  import opened Pipeline
  import opened Bundles

  datatype Round = Round(epoch: nat, buffer: seq<Solution>, size: int, sent: bool)

  function BundleIn(used: map<nat, set<uint256>>, r: Round): seq<Solution> {
    Bundle(r.buffer, r.epoch, UsedIn(used, r.epoch), r.size)
  }

  function UsedAfter(rounds: seq<Round>): map<nat, set<uint256>> {
    if rounds == [] then map[]
    else
      var r, used := rounds[|rounds| - 1], UsedAfter(rounds[..|rounds| - 1]);
      if r.sent then MarkAll(used, BundleIn(used, r)) else used
  }

  /** The bundle of round k. */
  function BundleOf(rounds: seq<Round>, k: nat): seq<Solution>
    requires k < |rounds|
  {
    BundleIn(UsedAfter(rounds[..k]), rounds[k])
  }

  /** A bundle that drops epoch e from the used-set goes out in round k. */
  ghost predicate Prunes(rounds: seq<Round>, k: nat, e: nat)
    requires k < |rounds|
  {
    rounds[k].sent && BundleOf(rounds, k) != [] && rounds[k].epoch >= e + 2
  }

  ghost predicate Remembered(rounds: seq<Round>, k: nat, nonce: uint256, e: nat)
  {
    nonce in UsedIn(UsedAfter(rounds), e) || exists p :: k < p < |rounds| && Prunes(rounds, p, e)
  }

  lemma BundleElement(used: map<nat, set<uint256>>, r: Round, i: nat)
    requires i < |BundleIn(used, r)|
    ensures BundleIn(used, r)[i].epoch == r.epoch && BundleIn(used, r)[i].nonce !in UsedIn(used, r.epoch)
  {
    hide UsedIn, Fresh, Bundle;
    BundleIsFreshPrefix(r.buffer, r.epoch, UsedIn(used, r.epoch), r.size);
    assert BundleIn(used, r)[i] in BundleIn(used, r);
  }

  /** What one more round leaves of the used-set of an epoch. */
  lemma RoundEffect(rounds: seq<Round>, r: Round, e: nat)
    ensures var used, bundle := UsedAfter(rounds), BundleIn(UsedAfter(rounds), r);
      UsedIn(UsedAfter(rounds + [r]), e)
      == if !r.sent || bundle == [] then UsedIn(used, e)
         else if e + 1 < r.epoch then {} else if e == r.epoch then UsedIn(used, e) + Nonces(bundle) else UsedIn(used, e)
  {
    hide BundleIn, UsedIn, Nonces;
    assert (rounds + [r])[..|rounds|] == rounds;
    var used := UsedAfter(rounds);
    var bundle := BundleIn(used, r);
    if r.sent && bundle != [] {
      forall i | 0 <= i < |bundle| ensures bundle[i].epoch == r.epoch { BundleElement(used, r, i); }
      MarkAllEffect(used, bundle, r.epoch, e);
    }
  }

  lemma SameBundle(rounds: seq<Round>, r: Round, k: nat)
    requires k < |rounds|
    ensures BundleOf(rounds + [r], k) == BundleOf(rounds, k) && (rounds + [r])[k] == rounds[k]
  {
    hide BundleIn, UsedAfter;
    assert (rounds + [r])[..k] == rounds[..k];
  }

  lemma LastBundle(rounds: seq<Round>, r: Round)
    ensures BundleOf(rounds + [r], |rounds|) == BundleIn(UsedAfter(rounds), r)
  {
    hide BundleIn, UsedAfter;
    assert (rounds + [r])[..|rounds|] == rounds;
  }

  lemma RememberedKept(rounds: seq<Round>, r: Round, k: nat, nonce: uint256, e: nat)
    requires k < |rounds| && Remembered(rounds, k, nonce, e)
    ensures Remembered(rounds + [r], k, nonce, e)
  {
    hide UsedIn, UsedAfter, BundleOf, BundleIn, Nonces;
    var longer := rounds + [r];
    if nonce in UsedIn(UsedAfter(rounds), e) {
      RoundEffect(rounds, r, e);
      LastBundle(rounds, r);
      if e + 1 < r.epoch && r.sent && BundleIn(UsedAfter(rounds), r) != [] {
        assert Prunes(longer, |rounds|, e);
      }
    } else {
      var p :| k < p < |rounds| && Prunes(rounds, p, e);
      SameBundle(rounds, r, p);
      assert Prunes(longer, p, e);
    }
  }

  /** What went out in a bundle stays in the used-set until a bundle two epochs later goes out. */
  lemma {:induction false} SentIsRemembered(rounds: seq<Round>, k: nat, i: nat)
    requires k < |rounds| && rounds[k].sent && i < |BundleOf(rounds, k)|
    ensures Remembered(rounds, k, BundleOf(rounds, k)[i].nonce, BundleOf(rounds, k)[i].epoch)
  {
    hide UsedIn, BundleIn, UsedAfter, BundleOf, Remembered;
    var init, r := rounds[..|rounds| - 1], rounds[|rounds| - 1];
    assert rounds == init + [r];
    if k < |init| {
      SameBundle(init, r, k);
      SentIsRemembered(init, k, i);
      RememberedKept(init, r, k, BundleOf(rounds, k)[i].nonce, BundleOf(rounds, k)[i].epoch);
    } else {
      LastBundle(init, r);
      var bundle := BundleIn(UsedAfter(init), r);
      BundleElement(UsedAfter(init), r, i);
      RoundEffect(init, r, bundle[i].epoch);
      JustSent(rounds, k, bundle[i].nonce, bundle[i].epoch, bundle);
    }
  }

  lemma JustSent(rounds: seq<Round>, k: nat, nonce: uint256, e: nat, bundle: seq<Solution>)
    requires Nonces(bundle) <= UsedIn(UsedAfter(rounds), e) && exists i :: 0 <= i < |bundle| && bundle[i].nonce == nonce
    ensures Remembered(rounds, k, nonce, e)
  {
    hide UsedIn, UsedAfter;
  }

  lemma PrefixPrunes(rounds: seq<Round>, q: nat, p: nat, e: nat)
    requires p < q <= |rounds| && Prunes(rounds[..q], p, e)
    ensures Prunes(rounds, p, e)
  {
    hide BundleIn, UsedAfter;
    assert rounds[..q][..p] == rounds[..p];
  }

  /** The same nonce of the same epoch goes out in two bundles only if a bundle of an epoch two or more later has gone
      out in between. */
  lemma BundledOnce(rounds: seq<Round>, r: nat, q: nat, i: nat, j: nat)
    requires r < q < |rounds| && rounds[r].sent
    requires i < |BundleOf(rounds, r)| && j < |BundleOf(rounds, q)|
    requires BundleOf(rounds, r)[i].nonce == BundleOf(rounds, q)[j].nonce
    requires BundleOf(rounds, r)[i].epoch == BundleOf(rounds, q)[j].epoch
    ensures exists k :: r < k < q && Prunes(rounds, k, BundleOf(rounds, r)[i].epoch)
  {
    hide UsedIn, BundleIn, UsedAfter, Prunes;
    var before := rounds[..q];
    assert before[..r] == rounds[..r];
    SentIsRemembered(before, r, i);
    BundleElement(UsedAfter(before), rounds[q], j);
    var e := BundleOf(rounds, r)[i].epoch;
    var k :| r < k < q && Prunes(before, k, e);
    PrefixPrunes(rounds, q, k, e);
  }
}
