# NeuroFed integrity core in Dafny

This project models the trust machinery of NeuroFed, a federated-learning
system for health records, and proves properties of the model:

- **the weight digest** (`HashUtils`): SHA-256 over the raw bytes of every weight array, in list order;
- **the hash ledger** (`Ledger`): blocks that recompute their own hash from
  index, timestamp, model hash, previous hash and metadata, and a `Blockchain`
  object that grows an append-only chain of them and rewrites the ledger file
  after every change;
- **the integrity gate** of the training client (`Client`): the received
  weights are digested and compared with the tip of a freshly reopened ledger
  before any training;
- **the commit step** of the server (`Strategy`): the federated-averaging result
  is committed as one new block, then returned unchanged;
- **the trust filter** (`TrustRules`): hard physiological bounds, then a
  statistical anomaly test, splitting a dataset into accepted rows (with trust
  weights) and rejected rows (with reasons).

SHA-256, the UTF-8 encoding of the block-hash input, and Python's `str()` of a
float timestamp and of a metadata dictionary are not modelled. They are the
fields of a `Codec` value that every ledger operation takes, so every proof
holds for any hash function and any rendering. The type `HexDigest` requires a
digest to be 64 lower-case hexadecimal characters. Clock readings (`now`) are
parameters. The ledger file is a `LedgerFile` object holding a `Store`: absent,
unparseable, or a list of records. Local training is a parameter `train`. The
Mahalanobis p-value is a parameter `pValue` that scores a row against a fitted
profile with a probability in [0, 1].

The linkage the ledger is meant to keep is the predicate `Ledger.Linked`: the
first block's `prev_hash` is `"0"` and every other block's `prev_hash` is its
predecessor's hash. The source never checks it. The model proves that genesis
and `add_block` establish and keep it. It also proves what a reload does to a
tampered file:

- a forged inner block (any of index, timestamp, model hash, previous hash or
  metadata) breaks the linkage, provided the forgery changes that block's
  recomputed hash (the model does not assume the hash function is collision
  resistant);
- a forged tip block that keeps its previous hash goes unnoticed, whatever
  else is changed. In particular, setting the stored tip's index to 0 makes
  the client gate admit every parameter set, without knowing any digest.

Three behaviours of the code are modelled as they are:

- Nothing in the code checks the round number: `add_block` stores any round
  number it is given, not necessarily the tip's index plus one.
- Nothing in the code checks a loaded chain: there is no operation that
  reports broken links or mismatched hashes.
- A stored empty list loads as an empty chain, not as genesis. On such a
  chain the client's `chain[-1]` fails; the model returns `LedgerEmpty`.

## Model

| member | source | states |
|---|---|---|
| `HashUtils.HashModelWeights` | blockchain/hash_utils.py:4-9 | the loop that feeds each array into one accumulator returns SHA-256 of the concatenation of all arrays' bytes in list order, so equal inputs give equal digests |
| `HashUtils.RegroupingKeepsDigest` | blockchain/hash_utils.py:7-8 | only the concatenated bytes matter: splitting an array in two, or joining two neighbours, anywhere in the list leaves the digest unchanged |
| `HashUtils.EmptyWeightsDigest` | blockchain/hash_utils.py:6-9 | an empty weight list digests as SHA-256 of the empty input |
| `Ledger.NewBlock` | blockchain/blockchain.py:8-22 | a constructed block is sealed: its hash is the hash of its own five fields. Index, model hash and previous hash are kept as given. A missing or zero timestamp becomes the current time, and missing metadata becomes `{}` |
| `Ledger.StoredHashIgnored` | blockchain/blockchain.py:8-17 | a stored `hash`, or any extra key of a stored record other than `self`, has no effect on the block loaded from it, and the loaded block is sealed. An extra key `self` makes the record unloadable, since it clashes with the positional `self` |
| `Ledger.Genesis` | blockchain/blockchain.py:33-34 | the genesis block has index 0, model hash `GENESIS_ROOT`, previous hash `"0"`, metadata `{"info": "Network Start"}`, the current time, and is sealed |
| `Ledger.GenesisLinked` | blockchain/blockchain.py:33-35 | the one-block genesis chain is linked and sealed |
| `Ledger.Extend` | blockchain/blockchain.py:38-44 | `add_block` adds exactly one block at the end and leaves the earlier blocks unchanged. The new block is sealed, has the round number as its index with no check, has the given model hash, and links to the tip's hash, or to `"0"` on an empty chain |
| `Ledger.ExtendKeepsLinked` | blockchain/blockchain.py:42-44 | one `add_block` keeps a linked, sealed chain linked and sealed |
| `Ledger.GrowKeepsLinked` | blockchain/blockchain.py:38-44 | any run of `add_block` calls on a linked, sealed chain (genesis, say) yields a linked, sealed chain. It has one more block per call, keeps the old chain as its prefix, and each new block records its call's round number and model hash |
| `Ledger.OpenChain` | blockchain/blockchain.py:25-61 | opening always yields a sealed chain. A missing, unparseable or unloadable file (some record lacks a required key or has a key `self`) yields exactly the genesis chain. A loadable file yields one block per stored record, in order: block i has record i's index, model hash and previous hash, its metadata or `{}`, and its timestamp unless that is missing or zero, in which case the load-time clock |
| `Ledger.OpenAsWritten` | blockchain/blockchain.py:25-61 | opening as the code is written raises exactly when some stored record lacks a required key or has a key `self`. A missing or unparseable file yields the genesis chain. A loadable file loads block i from record i as `OpenChain` does, with every block sealed |
| `Ledger.ReloadRoundTrip` | blockchain/blockchain.py:47-57 | reloading a saved chain of sealed blocks gives back the same blocks with the same hashes, whatever the clock reads at load time |
| `Ledger.TamperedRecordBreaksLink` | blockchain/blockchain.py:52-57 | replacing a stored block that is not the tip by any loadable record (a forged index, timestamp, model hash, previous hash or metadata) whose recomputed hash differs leaves the reloaded chain unlinked |
| `Ledger.TamperedTipGoesUnnoticed` | blockchain/blockchain.py:52-57 | replacing the stored tip by any loadable record with the same previous hash reloads into a chain that is still linked and sealed, keeps every earlier block, and ends in the block built from the forged record |
| `Ledger.MissingKeyRaises` | blockchain/blockchain.py:57-58 | as written, a stored record without `index` makes opening raise instead of resetting |
| `Ledger.SelfKeyRaises` | blockchain/blockchain.py:52-58 | as written, a stored record with an extra key `self`, which clashes with the positional `self` of `Block.__init__`, makes opening raise instead of resetting |
| `Ledger.OpenCorrectsOnlyTypeErrors` | blockchain/blockchain.py:52-61 | the code as written raises exactly when some stored record lacks a required key or has a key `self`. In every other case it opens the same chain as the corrected `OpenChain` |
| `Ledger.Blockchain.constructor` | blockchain/blockchain.py:25-31 | the new ledger holds `OpenChain` of the file, with every block sealed. The file is rewritten with the genesis chain exactly when it was missing, unparseable or unloadable, and is left untouched otherwise |
| `Ledger.Blockchain.CreateGenesis` | blockchain/blockchain.py:33-36 | appends the genesis block and persists the whole chain |
| `Ledger.Blockchain.AddBlock` | blockchain/blockchain.py:38-45 | the chain becomes `Extend` of the old chain. Every block stays sealed, a linked chain stays linked, and the whole chain is persisted |
| `Ledger.Blockchain.Save` | blockchain/blockchain.py:47-50 | the file holds one record per block with all six attributes, hash included |
| `Ledger.Blockchain.LoadFromDisk` | blockchain/blockchain.py:52-61 | a loadable file loads with hashes recomputed and the file untouched. Anything else discards the stored chain and leaves exactly the persisted genesis chain |
| `Client.GenesisTipAdmitsAll` | client/client.py:59-60 | while the tip's index is 0, any parameters are admitted whatever their digest |
| `Client.CommittedTipAdmitsOnlyMatch` | client/client.py:61-67 | past genesis, parameters are admitted if and only if their digest equals the tip's model hash |
| `Client.ZeroRoundReopensGate` | client/client.py:59-60 | the gate reads the tip's index field, not the chain length: after a block with round number 0 is appended, anything is admitted again |
| `Client.CommittedWeightsAdmitted` | client/client.py:50-63 | suppose the server commits round `rnd` (not 0) with the digest of its weights and saves. A client that then reopens the file admits received weights if and only if their digest equals the committed one |
| `Client.ZeroIndexForgeryOpensGate` | client/client.py:53-63 | setting the stored tip's index to 0 reloads into a chain that is still linked and sealed, and whose tip admits every parameter set |
| `Client.FlowerClient.constructor` | client/client.py:32-39 | the client keeps its model weights and example count and opens the ledger. A missing, unparseable or unloadable ledger file is rewritten with the genesis chain; any other file is left untouched |
| `Client.FlowerClient.Fit` | client/client.py:44-79 | the gate compares against a freshly reopened ledger. An empty ledger gives `LedgerEmpty`. A non-admitted digest gives `Rejected` with the model weights unchanged. Otherwise training starts from exactly the received parameters, and the trained weights are reported with the example count. Reopening rewrites a missing, unparseable or unloadable ledger file with the genesis chain and leaves any other file untouched |
| `Strategy.SecureFedAvg.AggregateFit` | server/strategy.py:26-62 | with no aggregate result the ledger and file are unchanged. Otherwise exactly one block is appended and persisted, with index `rnd`, the digest of the aggregated weights, and metadata `{"client_count": len(results), "failure_count": len(failures)}`. A linked ledger stays linked, and the result is returned unchanged |
| `TrustRules.SymbolicCheck` | client/trust_rules.py:18-22 | `"Invalid Age"` if and only if the age is outside [0, 120], checked first. Then `"Lethal HR"` if and only if the heart rate is below 30 or above 220. Otherwise no violation, so the bounds themselves pass |
| `TrustRules.TrustScore` | client/trust_rules.py:48 | the trust weight always lies in [0.1, 1.0]. It is 0.1 up to p = 0.02, then 5·p, then 1.0 from p = 0.2 on |
| `TrustRules.TrustScoreMonotone` | client/trust_rules.py:48 | a larger p-value never gets a smaller trust weight |
| `TrustRules.SymbolicRejectionSkipsStatistics` | client/trust_rules.py:33-36 | a row failing a symbolic rule is rejected with that rule's reason, whatever the statistical profile and p-value oracle say |
| `TrustRules.StatisticalStage` | client/trust_rules.py:43-48 | a row passing the rules is rejected as an anomaly carrying its p-value if and only if p < 0.001. Otherwise it is accepted with trust `TrustScore(p)` |
| `TrustRules.FilterPartitions` | client/trust_rules.py:29-50 | every input row ends up in exactly one of the accepted and rejected lists, both lists keep input order, and there is one trust score per accepted row |
| `TrustRules.FilterClassifies` | client/trust_rules.py:31-50 | each accepted row passed both stages, and its trust score at the same position is its `TrustScore`, in [0.1, 1.0]. Each rejected row carries its classification's reason |
| `TrustRules.ResearchTrustLayer.constructor` | client/trust_rules.py:6-9 | a new layer has no profile and no rejections |
| `TrustRules.ResearchTrustLayer.FitDistribution` | client/trust_rules.py:11-16 | the profile becomes the one fitted on the given dataset |
| `TrustRules.ResearchTrustLayer.FilterData` | client/trust_rules.py:24-50 | the profile is fitted on the whole dataset only when none exists and is reused afterwards. The rejection list is reset on every call. The outputs are exactly `Filter` of the rows under that profile, and the returned rejections are the stored ones |

## Left out

- SHA-256 internals, UTF-8 encoding, and `str()` of floats and dictionaries are the `Codec` parameters. The model proves nothing that needs collision resistance. Metadata is a `map`, so the key order that `str(dict)` depends on is not modelled.
- `Ledger.OpenChain`, `Ledger.Blockchain.LoadFromDisk`, `Ledger.Blockchain.constructor`, `Client.FlowerClient.constructor` and `Client.FlowerClient.Fit` use the corrected handling of a stored record that `Block(**b)` rejects, one lacking a required key or having a key `self` (see Findings): they rewrite the file with the genesis chain, where the source raises TypeError (blockchain/blockchain.py:57-58, reached from client/client.py:39 and 53). `Ledger.OpenAsWritten` models the code as written.
- JSON parsing and writing are not modelled: a parsed file is a list of typed records, and saving writes the records of the chain. Some stored documents are not modelled: JSON `null` in `index`, `model_hash` or `prev_hash`, metadata values other than integers and strings, a top-level value that is not a list, and list elements that are not objects. In the source, a top-level empty object or empty string loads as an empty chain with no error, like an empty list. A top-level number, boolean, `null`, non-empty object or non-empty string, and any list element that is not an object, raise an uncaught TypeError. Invalid UTF-8 in the file is not modelled either.
- The clock is a positive parameter. A load uses one clock reading for every record without a timestamp; the source reads the clock once per block.
- Federated averaging and `parameters_to_ndarrays`: the aggregate is an input, already as weight arrays.
- The model-file save in `server/strategy.py:46-57` (TensorFlow) and its error handler are left out. The commit is complete when `AggregateFit` returns, and nothing after it can undo it.
- Training, evaluation, `get_parameters`, `build_model`, `model/model.py` and `model_test.py` (TensorFlow): training is the `train` parameter.
- `server/server.py`, `start_client`, the Flower transport, and `server/model_loader.py`: process start-up, networking, and model-file loading around the same single hash comparison as the client gate.
- `print_chain` and all console output.
- Several processes using the ledger file at once: the source has no locking.
- `_fit_distribution` and the Mahalanobis/chi-square computation (floating-point linear algebra): the profile is named by the dataset it was fitted on, and the p-value is the `pValue` parameter.
- NaN ages, heart rates and p-values, and rows missing the `age` or `heart_rate` column, are not modelled. Values are mathematical reals.
- Weight arrays are given by their raw bytes; shape and dtype do not enter the digest in the source either.
- The `SystemExit` raised on a hash mismatch is the result value `Rejected`.

## Findings

| source | as written | input that shows it | evidently intended | confidence | as-written member | corrected member |
|---|---|---|---|---|---|---|
| blockchain/blockchain.py:57-58 | `Block(**b)` with a missing required key (`index`, `model_hash` or `prev_hash`), or with a key `self`, raises TypeError. `except (json.JSONDecodeError, KeyError)` does not catch it, so opening the ledger fails | a stored list `[{"model_hash": "m", "prev_hash": "0"}]`, or `[{"index": 1, "model_hash": "m", "prev_hash": "0", "self": 0}]` | treat the record as corrupt or incompatible and reset to the genesis chain, as the handler's message says | not executed; high (a missing keyword argument, and a second value for `self`, are TypeErrors in Python, and nothing in the loop raises KeyError) | `Ledger.MissingKeyRaises`, `Ledger.SelfKeyRaises` | `Ledger.OpenChain` |
