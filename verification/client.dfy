/**
 * The integrity gate of the training client (client/client.py,
 * `FlowerClient.fit`): before training, the received weights are digested
 * and compared with the tip of a freshly reopened ledger.
 *
 * Local training is TensorFlow and is not modelled: it is a parameter
 * `train` that maps the starting weights to the trained ones.
 */
module Client {

  import opened Optional
  import opened HashUtils
  import opened Ledger

  /**
   * What `fit` ends with: trained weights and the example count, a halt on a
   * hash mismatch (the source raises SystemExit), or no tip to compare with
   * (the source's `chain[-1]` raises IndexError on an empty stored list).
   */
  datatype FitResult = Trained(weights: Weights, numExamples: nat) | Rejected | LedgerEmpty

  /** The decision of lines 59-67: a tip whose index field is 0 admits anything. */
  predicate Admits(tip: Block, received: HexDigest)
  {
    tip.index == 0 || received == tip.modelHash
  }

  /** While the tip's index is 0, every parameter set passes, whatever its digest. */
  lemma GenesisTipAdmitsAll(tip: Block, received: HexDigest)
    requires tip.index == 0
    ensures Admits(tip, received)
  {
  }

  /** Past genesis, parameters pass exactly when their digest is the tip's model hash. */
  lemma CommittedTipAdmitsOnlyMatch(tip: Block, received: HexDigest)
    requires tip.index != 0
    ensures Admits(tip, received) <==> received == tip.modelHash
  {
  }

  /**
   * The decision reads the index FIELD, not the chain length: once a block
   * with round number 0 is appended, the gate again admits anything, however
   * long the chain is.
   */
  lemma ZeroRoundReopensGate(codec: Codec, chain: seq<Block>, modelHash: string,
                             metadata: Option<Metadata>, now: Clock, received: HexDigest)
    ensures |Extend(codec, chain, 0, modelHash, metadata, now)| == |chain| + 1
    ensures Admits(Last(Extend(codec, chain, 0, modelHash, metadata, now)), received)
  {
  }

  /**
   * Server commit followed by client gate: after the server appends round
   * `rnd` (not 0) with the digest of `committed` and saves, a client that
   * reopens the file admits `received` exactly when its digest equals the
   * committed digest.
   */
  lemma CommittedWeightsAdmitted(codec: Codec, chain: seq<Block>, rnd: int, committed: Weights,
                                 metadata: Option<Metadata>, commitTime: Clock,
                                 loadTime: Clock, received: Weights)
    requires AllSealed(codec, chain) && rnd != 0
    ensures var stored := Extend(codec, chain, rnd, Digest(codec.sha256, committed), metadata, commitTime);
      var reopened := OpenChain(codec, Document(Records(stored)), loadTime);
      && reopened != []
      && (Admits(Last(reopened), Digest(codec.sha256, received))
          <==> Digest(codec.sha256, received) == Digest(codec.sha256, committed))
  {
    var stored := Extend(codec, chain, rnd, Digest(codec.sha256, committed), metadata, commitTime);
    assert AllSealed(codec, stored) by {
      forall i | 0 <= i < |stored| ensures Sealed(codec, stored[i]) {
        if i < |chain| { assert stored[i] == stored[..|chain|][i] == chain[i]; }
      }
    }
    ReloadRoundTrip(codec, stored, loadTime);
  }

  /**
   * Whoever can write the ledger file opens the gate without knowing any
   * digest: setting the stored tip's `index` to 0 reloads into a chain that
   * is still linked and sealed, and whose tip admits every parameter set.
   */
  lemma ZeroIndexForgeryOpensGate(codec: Codec, chain: seq<Block>, now: Clock, received: HexDigest)
    requires AllSealed(codec, chain) && Linked(chain) && chain != []
    ensures var loaded := OpenChain(codec, Document(Records(chain)[|chain| - 1 := ToRecord(Last(chain)).(index := Some(0))]), now);
      && |loaded| == |chain| && Linked(loaded) && AllSealed(codec, loaded)
      && Admits(Last(loaded), received)
  {
    TamperedTipGoesUnnoticed(codec, chain, ToRecord(Last(chain)).(index := Some(0)), now);
  }

  /** `FlowerClient`: the local model's weights and the ledger it audits against. */
  class FlowerClient {
    const codec: Codec
    const file: LedgerFile
    const numExamples: nat
    var weights: Weights
    var verifier: Blockchain

    constructor (codec: Codec, file: LedgerFile, weights: Weights, numExamples: nat, now: Clock)
      modifies file
      ensures this.codec == codec && this.file == file
      ensures this.weights == weights && this.numExamples == numExamples
      ensures fresh(verifier) && verifier.file == file && verifier.codec == codec
      ensures verifier.chain == OpenChain(codec, old(file.doc), now)
      ensures file.doc == if Reinitialises(old(file.doc)) then Document(Records(verifier.chain)) else old(file.doc)
    {
      this.codec := codec;
      this.file := file;
      this.weights := weights;
      this.numExamples := numExamples;
      verifier := new Blockchain(codec, file, now);
    }

    /**
     * `fit`: digest the parameters, reopen the ledger, compare with its tip;
     * only admitted parameters are set as the model's weights and trained on.
     */
    method Fit(parameters: Weights, train: Weights -> Weights, now: Clock) returns (r: FitResult)
      modifies this, file
      ensures fresh(verifier) && verifier.file == file && verifier.codec == codec
      ensures verifier.chain == OpenChain(codec, old(file.doc), now)
      ensures verifier.chain == [] ==> r == LedgerEmpty
      ensures verifier.chain != [] && !Admits(Last(verifier.chain), Digest(codec.sha256, parameters))
              ==> r == Rejected
      ensures verifier.chain != [] && Admits(Last(verifier.chain), Digest(codec.sha256, parameters))
              ==> r == Trained(train(parameters), numExamples)
      ensures weights == if r.Trained? then train(parameters) else old(weights)
      ensures file.doc == if Reinitialises(old(file.doc)) then Document(Records(verifier.chain)) else old(file.doc)
    {
      var receivedHash := HashModelWeights(codec.sha256, parameters);
      verifier := new Blockchain(codec, file, now);
      if verifier.chain == [] {
        return LedgerEmpty;
      }
      var latest := verifier.chain[|verifier.chain| - 1];
      if latest.index != 0 && receivedHash != latest.modelHash {
        return Rejected;
      }
      weights := parameters;
      weights := train(weights);
      r := Trained(weights, numExamples);
    }
  }

}
