/**
 * The server's commit step (server/strategy.py, `SecureFedAvg.aggregate_fit`):
 * whatever federated averaging returns is passed through, and a non-empty
 * result is first committed to the ledger as one new block.
 *
 * Federated averaging itself is not modelled: its result is the input
 * `aggregated`, with the parameters already converted to weight arrays.
 */
module Strategy {

  import opened Optional
  import opened HashUtils
  import opened Ledger

  /** The metadata of a committed round. */
  function CommitMetadata(clientCount: nat, failureCount: nat): Metadata
  {
    map["client_count" := IntVal(clientCount), "failure_count" := IntVal(failureCount)]
  }

  class SecureFedAvg {
    /** The module-level `server_blockchain`. */
    const ledger: Blockchain

    constructor (ledger: Blockchain)
      ensures this.ledger == ledger
    {
      this.ledger := ledger;
    }

    /**
     * `aggregate_fit`: no result, no block; otherwise exactly one block with
     * index `rnd`, the digest of the aggregated weights and the client and
     * failure counts, persisted before anything else happens. The result is
     * returned unchanged.
     */
    method AggregateFit<R, F, M>(rnd: int, results: seq<R>, failures: seq<F>,
                                 aggregated: Option<(Weights, M)>, now: Clock)
      returns (r: Option<(Weights, M)>)
      requires ledger.Valid()
      modifies ledger, ledger.file
      ensures r == aggregated && ledger.Valid()
      ensures aggregated.None? ==> ledger.chain == old(ledger.chain) && ledger.file.doc == old(ledger.file.doc)
      ensures aggregated.Some? ==>
        && ledger.chain == Extend(ledger.codec, old(ledger.chain), rnd, Digest(ledger.codec.sha256, aggregated.value.0),
                                  Some(CommitMetadata(|results|, |failures|)), now)
        && ledger.file.doc == Document(Records(ledger.chain))
      ensures aggregated.Some? && Linked(old(ledger.chain)) ==> Linked(ledger.chain)
    {
      if aggregated.Some? {
        var weights := aggregated.value.0;
        var modelHash := HashModelWeights(ledger.codec.sha256, weights);
        var metadata := CommitMetadata(|results|, |failures|);
        ledger.AddBlock(rnd, modelHash, Some(metadata), now);
      }
      r := aggregated;
    }
  }

}
