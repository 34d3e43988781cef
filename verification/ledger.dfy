/**
 * The hash ledger (blockchain/blockchain.py): blocks that always recompute
 * their own hash, and an append-only chain of them persisted as one JSON
 * document that is rewritten whole on every change.
 *
 * What cannot be modelled exactly is a parameter: the `Codec` bundles
 * SHA-256, the UTF-8 encoding of the hash input, and Python's `str()` of a
 * float timestamp and of a metadata dictionary. Clock readings are passed in
 * as `now`. The JSON file is a `LedgerFile` object whose content is a `Store`.
 */
module Ledger {

  import opened Optional
  import opened HashUtils

  /** The JSON values the source puts into block metadata. */
  datatype Value = IntVal(i: int) | StrVal(s: string)

  type Metadata = map<string, Value>

  /** A reading of `time.time()`: seconds since the epoch, always positive. */
  type Clock = t: real | t > 0.0 witness 1.0

  /** A block timestamp: a falsy (zero) timestamp never survives construction. */
  type Stamp = t: real | t != 0.0 witness 1.0

  datatype Codec = Codec(
    sha256: Sha256,
    encode: string -> seq<Byte>,
    showTime: real -> string,
    showMeta: Metadata -> string)

  datatype Block = Block(
    index: int,
    timestamp: Stamp,
    modelHash: string,
    prevHash: string,
    metadata: Metadata,
    hash: HexDigest)

  function DigitChar(d: nat): char
    requires d < 10
  {
    "0123456789"[d]
  }

  /** Python's `str()` of a non-negative integer. */
  function NatText(n: nat): string
  {
    if n < 10 then [DigitChar(n)] else NatText(n / 10) + [DigitChar(n % 10)]
  }

  /** Python's `str()` of an integer. */
  function IntText(i: int): string
  {
    if i < 0 then "-" + NatText(-i) else NatText(i)
  }

  /** The f-string that `compute_hash` hashes: the five fields, no separators. */
  function HashInput(codec: Codec, index: int, timestamp: real, modelHash: string,
                     prevHash: string, metadata: Metadata): string
  {
    IntText(index) + codec.showTime(timestamp) + modelHash + prevHash + codec.showMeta(metadata)
  }

  function ComputeHash(codec: Codec, index: int, timestamp: real, modelHash: string,
                       prevHash: string, metadata: Metadata): HexDigest
  {
    codec.sha256(codec.encode(HashInput(codec, index, timestamp, modelHash, prevHash, metadata)))
  }

  /** A block whose `hash` is the hash of its own five fields. */
  predicate Sealed(codec: Codec, b: Block)
  {
    b.hash == ComputeHash(codec, b.index, b.timestamp, b.modelHash, b.prevHash, b.metadata)
  }

  predicate AllSealed(codec: Codec, chain: seq<Block>)
  {
    forall i :: 0 <= i < |chain| ==> Sealed(codec, chain[i])
  }

  /**
   * `Block.__init__`: a falsy timestamp becomes the current time, a missing
   * metadata becomes `{}`, and the hash is always computed here; no stored
   * hash is ever an input.
   */
  function NewBlock(codec: Codec, index: int, modelHash: string, prevHash: string,
                    metadata: Option<Metadata>, timestamp: Option<real>, now: Clock): (b: Block)
    ensures Sealed(codec, b)
    ensures b.index == index && b.modelHash == modelHash && b.prevHash == prevHash
    ensures timestamp == None || timestamp == Some(0.0) ==> b.timestamp == now
    ensures timestamp.Some? && timestamp.value != 0.0 ==> b.timestamp == timestamp.value
    ensures metadata == None ==> b.metadata == map[]
    ensures metadata.Some? ==> b.metadata == metadata.value
  {
    var ts: Stamp := if timestamp.Some? && timestamp.value != 0.0 then timestamp.value else now;
    var meta := if metadata.Some? then metadata.value else map[];
    Block(index, ts, modelHash, prevHash, meta, ComputeHash(codec, index, ts, modelHash, prevHash, meta))
  }

  /** The block `_create_genesis` builds. */
  function Genesis(codec: Codec, now: Clock): (g: Block)
    ensures Sealed(codec, g) && g.timestamp == now
    ensures g.index == 0 && g.modelHash == "GENESIS_ROOT" && g.prevHash == "0"
    ensures g.metadata == map["info" := StrVal("Network Start")]
  {
    NewBlock(codec, 0, "GENESIS_ROOT", "0", Some(map["info" := StrVal("Network Start")]), None, now)
  }

  function Last(chain: seq<Block>): Block
    requires chain != []
  {
    chain[|chain| - 1]
  }

  /** What `add_block` links a new block to: the tip's hash, or "0" when empty. */
  function TipHash(chain: seq<Block>): string
  {
    if chain != [] then Last(chain).hash else "0"
  }

  /** The chain after `add_block(roundNo, modelHash, metadata)`. */
  function Extend(codec: Codec, chain: seq<Block>, roundNo: int, modelHash: string,
                  metadata: Option<Metadata>, now: Clock): (c: seq<Block>)
    ensures |c| == |chain| + 1 && c[..|chain|] == chain
    ensures Sealed(codec, Last(c)) && Last(c).timestamp == now
    ensures Last(c).index == roundNo && Last(c).modelHash == modelHash
    ensures Last(c).prevHash == TipHash(chain)
    ensures Last(c).metadata == if metadata.Some? then metadata.value else map[]
  {
    chain + [NewBlock(codec, roundNo, modelHash, TipHash(chain), metadata, None, now)]
  }

  /**
   * The linkage the chain is meant to keep: the first block points at the
   * sentinel "0" and every later block at its predecessor's hash. The source
   * has no operation that checks it.
   */
  predicate Linked(chain: seq<Block>)
  {
    && (chain != [] ==> chain[0].prevHash == "0")
    && forall i :: 0 < i < |chain| ==> chain[i].prevHash == chain[i - 1].hash
  }

  lemma GenesisLinked(codec: Codec, now: Clock)
    ensures Linked([Genesis(codec, now)]) && AllSealed(codec, [Genesis(codec, now)])
  {
  }

  /** One `add_block` keeps a linked, sealed chain linked and sealed. */
  lemma ExtendKeepsLinked(codec: Codec, chain: seq<Block>, roundNo: int, modelHash: string,
                          metadata: Option<Metadata>, now: Clock)
    requires Linked(chain) && AllSealed(codec, chain)
    ensures Linked(Extend(codec, chain, roundNo, modelHash, metadata, now))
    ensures AllSealed(codec, Extend(codec, chain, roundNo, modelHash, metadata, now))
  {
    var c := Extend(codec, chain, roundNo, modelHash, metadata, now);
    forall i | 0 <= i < |chain| ensures c[i] == chain[i] {
      assert c[..|chain|][i] == c[i];
    }
  }

  /** The arguments of one `add_block` call. */
  datatype Commit = Commit(roundNo: int, modelHash: string, metadata: Option<Metadata>, now: Clock)

  /** The chain after a run of `add_block` calls, in order. */
  function Grow(codec: Codec, chain: seq<Block>, commits: seq<Commit>): seq<Block>
    decreases |commits|
  {
    if commits == [] then chain
    else
      var c := commits[|commits| - 1];
      Extend(codec, Grow(codec, chain, commits[..|commits| - 1]), c.roundNo, c.modelHash, c.metadata, c.now)
  }

  /**
   * Any chain built from a linked, sealed chain (genesis, say) by `add_block`
   * calls is linked and sealed, holds one block per call, keeps the old
   * blocks as its prefix, and records each call's round number and model
   * hash unchanged, whatever the round numbers are.
   */
  lemma {:induction false} GrowKeepsLinked(codec: Codec, chain: seq<Block>, commits: seq<Commit>)
    requires Linked(chain) && AllSealed(codec, chain)
    ensures var g := Grow(codec, chain, commits);
      && Linked(g) && AllSealed(codec, g)
      && |g| == |chain| + |commits| && g[..|chain|] == chain
      && forall k :: 0 <= k < |commits| ==>
           g[|chain| + k].index == commits[k].roundNo && g[|chain| + k].modelHash == commits[k].modelHash
    decreases |commits|
  {
    if commits != [] {
      var init := commits[..|commits| - 1];
      var c := commits[|commits| - 1];
      GrowKeepsLinked(codec, chain, init);
      var g0 := Grow(codec, chain, init);
      var g := Grow(codec, chain, commits);
      assert g == Extend(codec, g0, c.roundNo, c.modelHash, c.metadata, c.now);
      ExtendKeepsLinked(codec, g0, c.roundNo, c.modelHash, c.metadata, c.now);
      assert g[..|g0|] == g0;
      assert g[..|chain|] == g0[..|chain|];
      forall k | 0 <= k < |commits|
        ensures g[|chain| + k].index == commits[k].roundNo && g[|chain| + k].modelHash == commits[k].modelHash
      {
        if k < |init| {
          assert g[|chain| + k] == g[..|g0|][|chain| + k] == g0[|chain| + k];
          assert commits[k] == init[k];
        }
      }
    }
  }

  // ---------------------------------------------------------------------
  // Persistence

  /**
   * One JSON object of the stored list. `Block(**b)` takes index, model_hash
   * and prev_hash as required arguments, metadata and timestamp as optional
   * ones (absent and `null` alike). Its `**kwargs` swallows `hash` and any
   * other key except `self`, which clashes with the positional `self`.
   */
  datatype Record = Record(
    index: Option<int>,
    timestamp: Option<real>,
    modelHash: Option<string>,
    prevHash: Option<string>,
    metadata: Option<Metadata>,
    hash: Option<string>,
    extra: map<string, Value>)

  /** The ledger file: missing, not parseable as JSON, or a list of objects. */
  datatype Store = Absent | Unparseable | Document(records: seq<Record>)

  /** `b.__dict__`: all six attributes, the hash included. */
  function ToRecord(b: Block): Record
  {
    Record(Some(b.index), Some(b.timestamp as real), Some(b.modelHash), Some(b.prevHash),
           Some(b.metadata), Some(b.hash), map[])
  }

  /** The list `save` dumps. */
  function Records(chain: seq<Block>): seq<Record>
  {
    seq(|chain|, i requires 0 <= i < |chain| => ToRecord(chain[i]))
  }

  /**
   * `Block(**b)` accepts the record: it carries every argument
   * `Block.__init__` requires, and no key `self` (which would raise
   * TypeError, "got multiple values for argument 'self'").
   */
  predicate Loadable(r: Record)
  {
    r.index.Some? && r.modelHash.Some? && r.prevHash.Some? && "self" !in r.extra
  }

  predicate AllLoadable(rs: seq<Record>)
  {
    forall i :: 0 <= i < |rs| ==> Loadable(rs[i])
  }

  /** `Block(**b)`. */
  function FromRecord(codec: Codec, r: Record, now: Clock): Block
    requires Loadable(r)
  {
    NewBlock(codec, r.index.value, r.modelHash.value, r.prevHash.value, r.metadata, r.timestamp, now)
  }

  /** `[Block(**b) for b in data]`. */
  function Blocks(codec: Codec, rs: seq<Record>, now: Clock): seq<Block>
    requires AllLoadable(rs)
  {
    seq(|rs|, i requires 0 <= i < |rs| => FromRecord(codec, rs[i], now))
  }

  /**
   * A stored `hash` has no effect on the block loaded from a record, and
   * neither has any extra key other than `self`, which makes the record
   * unloadable.
   */
  lemma StoredHashIgnored(codec: Codec, r: Record, storedHash: Option<string>,
                          extra: map<string, Value>, now: Clock)
    requires Loadable(r)
    ensures Loadable(r.(hash := storedHash, extra := extra)) <==> "self" !in extra
    ensures "self" !in extra ==>
      FromRecord(codec, r.(hash := storedHash, extra := extra), now) == FromRecord(codec, r, now)
    ensures Sealed(codec, FromRecord(codec, r, now))
  {
  }

  /**
   * Block i carries the fields of record i: index, model hash and previous
   * hash as stored, metadata as stored or `{}`, and the stored timestamp
   * unless it is missing or zero, in which case the load-time clock.
   */
  predicate LoadedFrom(chain: seq<Block>, rs: seq<Record>, now: Clock)
    requires AllLoadable(rs)
  {
    && |chain| == |rs|
    && forall i :: 0 <= i < |rs| ==>
         && chain[i].index == rs[i].index.value
         && chain[i].modelHash == rs[i].modelHash.value
         && chain[i].prevHash == rs[i].prevHash.value
         && chain[i].metadata == (if rs[i].metadata.Some? then rs[i].metadata.value else map[])
         && chain[i].timestamp as real
            == (if rs[i].timestamp.Some? && rs[i].timestamp.value != 0.0 then rs[i].timestamp.value else now)
  }

  /** A store the constructor replaces by a fresh genesis chain. */
  predicate Reinitialises(doc: Store)
  {
    doc.Absent? || doc.Unparseable? || (doc.Document? && !AllLoadable(doc.records))
  }

  /**
   * The chain `Blockchain()` ends up with. A record that `Block(**b)` does
   * not accept is treated like unparseable JSON, as the handler at
   * blockchain/blockchain.py:58-61 evidently intends (see OpenAsWritten).
   */
  function OpenChain(codec: Codec, doc: Store, now: Clock): (chain: seq<Block>)
    ensures AllSealed(codec, chain)
    ensures Reinitialises(doc) ==> chain == [Genesis(codec, now)]
    ensures doc.Document? && AllLoadable(doc.records) ==> LoadedFrom(chain, doc.records, now)
  {
    if doc.Document? && AllLoadable(doc.records) then Blocks(codec, doc.records, now)
    else [Genesis(codec, now)]
  }

  /** What opening the ledger does as the source is written. */
  datatype Opened = Loaded(chain: seq<Block>) | Raised

  /**
   * `Blockchain()` as written: `Block(**b)` with a missing required key or
   * a key `self` raises TypeError, which `except (json.JSONDecodeError, KeyError)` does
   * not catch, so the constructor fails instead of resetting.
   */
  function OpenAsWritten(codec: Codec, doc: Store, now: Clock): (r: Opened)
    ensures r == Raised <==> doc.Document? && !AllLoadable(doc.records)
    ensures r.Loaded? ==> AllSealed(codec, r.chain)
    ensures doc.Absent? || doc.Unparseable? ==> r == Loaded([Genesis(codec, now)])
    ensures doc.Document? && AllLoadable(doc.records) ==> r.Loaded? && LoadedFrom(r.chain, doc.records, now)
  {
    match doc
    case Absent => Loaded([Genesis(codec, now)])
    case Unparseable => Loaded([Genesis(codec, now)])
    case Document(rs) => if AllLoadable(rs) then Loaded(Blocks(codec, rs, now)) else Raised
  }

  /** The input that shows the discrepancy: a stored record without `index`. */
  lemma MissingKeyRaises(codec: Codec, now: Clock)
    ensures OpenAsWritten(codec, Document([Record(None, None, Some("m"), Some("0"), None, None, map[])]), now) == Raised
  {
    var r := Record(None, None, Some("m"), Some("0"), None, None, map[]);
    assert !Loadable([r][0]);
  }

  /** The second input that shows it: a stored record with an extra key `self`. */
  lemma SelfKeyRaises(codec: Codec, now: Clock)
    ensures OpenAsWritten(codec, Document([Record(Some(1), None, Some("m"), Some("0"), None, None,
                                                  map["self" := IntVal(0)])]), now) == Raised
  {
    var r := Record(Some(1), None, Some("m"), Some("0"), None, None, map["self" := IntVal(0)]);
    assert !Loadable([r][0]);
  }

  /** The correction changes nothing except the failing cases. */
  lemma OpenCorrectsOnlyTypeErrors(codec: Codec, doc: Store, now: Clock)
    ensures OpenAsWritten(codec, doc, now) == Raised <==> doc.Document? && !AllLoadable(doc.records)
    ensures OpenAsWritten(codec, doc, now) != Raised ==> OpenAsWritten(codec, doc, now) == Loaded(OpenChain(codec, doc, now))
  {
  }

  /**
   * Reloading a saved chain of sealed blocks gives back the same blocks and
   * hashes, whatever the clock reads at load time.
   */
  lemma {:induction false} ReloadRoundTrip(codec: Codec, chain: seq<Block>, now: Clock)
    requires AllSealed(codec, chain)
    ensures OpenChain(codec, Document(Records(chain)), now) == chain
  {
    var rs := Records(chain);
    assert AllLoadable(rs) by {
      forall i | 0 <= i < |rs| ensures Loadable(rs[i]) {
        assert rs[i] == ToRecord(chain[i]);
      }
    }
    var loaded := Blocks(codec, rs, now);
    forall i | 0 <= i < |chain| ensures loaded[i] == chain[i] {
      assert rs[i] == ToRecord(chain[i]);
      assert Sealed(codec, chain[i]);
    }
  }

  /**
   * Tamper evidence, where the source offers it: replacing a stored block
   * that is not the tip by any loadable record whose recomputed hash differs
   * (a forged index, timestamp, model hash, previous hash or metadata) yields
   * a loaded chain that is no longer linked.
   */
  lemma TamperedRecordBreaksLink(codec: Codec, chain: seq<Block>, j: nat, forged: Record, now: Clock)
    requires AllSealed(codec, chain) && Linked(chain)
    requires j + 1 < |chain| && Loadable(forged)
    requires FromRecord(codec, forged, now).hash != chain[j].hash
    ensures !Linked(OpenChain(codec, Document(Records(chain)[j := forged]), now))
  {
    var rs := Records(chain)[j := forged];
    assert rs[j + 1] == ToRecord(chain[j + 1]);
    assert AllLoadable(rs) by {
      forall i | 0 <= i < |rs| ensures Loadable(rs[i]) {
        if i != j { assert rs[i] == ToRecord(chain[i]); }
      }
    }
    var loaded := OpenChain(codec, Document(rs), now);
    assert loaded[j] == FromRecord(codec, rs[j], now);
    assert loaded[j + 1] == FromRecord(codec, rs[j + 1], now);
    assert loaded[j + 1].prevHash == chain[j + 1].prevHash == chain[j].hash;
  }

  /**
   * What the source does not detect: replacing the LAST stored block by any
   * loadable record with the same previous hash (a forged index, timestamp,
   * model hash or metadata) loads into a chain that is still linked and
   * sealed, keeps every earlier block, and ends in the forged block, which is
   * what the client gate trusts.
   */
  lemma TamperedTipGoesUnnoticed(codec: Codec, chain: seq<Block>, forged: Record, now: Clock)
    requires AllSealed(codec, chain) && Linked(chain) && chain != []
    requires Loadable(forged) && forged.prevHash == Some(Last(chain).prevHash)
    ensures var loaded := OpenChain(codec, Document(Records(chain)[|chain| - 1 := forged]), now);
      && |loaded| == |chain| && Linked(loaded) && AllSealed(codec, loaded)
      && loaded[..|chain| - 1] == chain[..|chain| - 1]
      && Last(loaded) == FromRecord(codec, forged, now)
  {
    var n := |chain| - 1;
    var rs := Records(chain)[n := forged];
    assert AllLoadable(rs) by {
      forall i | 0 <= i < |rs| ensures Loadable(rs[i]) {
        if i != n { assert rs[i] == ToRecord(chain[i]); }
      }
    }
    var loaded := OpenChain(codec, Document(rs), now);
    forall i | 0 <= i < n ensures loaded[i] == chain[i] {
      assert rs[i] == ToRecord(chain[i]);
      assert Sealed(codec, chain[i]);
    }
    assert loaded[n] == FromRecord(codec, rs[n], now);
    assert loaded[n].prevHash == chain[n].prevHash;
    assert Linked(loaded) by {
      if n == 0 {
        assert loaded[0].prevHash == chain[0].prevHash;
      }
      forall i | 0 < i < |loaded| ensures loaded[i].prevHash == loaded[i - 1].hash {
        if i < n { assert loaded[i] == chain[i]; }
      }
    }
    assert loaded[..n] == chain[..n];
  }

  // ---------------------------------------------------------------------
  // The stateful objects

  /** The ledger file on disk, shared by whoever opens it. */
  class LedgerFile {
    var doc: Store

    constructor (doc: Store)
      ensures this.doc == doc
    {
      this.doc := doc;
    }
  }

  /** `Blockchain`: the in-memory chain and the file it is persisted to. */
  class Blockchain {
    const codec: Codec
    const file: LedgerFile
    var chain: seq<Block>

    /** Every block in memory carries the hash of its own fields. */
    ghost predicate Valid()
      reads this
    {
      AllSealed(codec, chain)
    }

    /**
     * `Blockchain(file_path)`: a missing file gets a persisted genesis chain;
     * an existing one is loaded (or, if corrupt, reset to genesis).
     */
    constructor (codec: Codec, file: LedgerFile, now: Clock)
      modifies file
      ensures this.codec == codec && this.file == file && Valid()
      ensures chain == OpenChain(codec, old(file.doc), now)
      ensures file.doc == if Reinitialises(old(file.doc)) then Document(Records(chain)) else old(file.doc)
    {
      this.codec := codec;
      this.file := file;
      chain := [];
      new;
      if file.doc.Absent? {
        CreateGenesis(now);
      } else {
        LoadFromDisk(now);
      }
    }

    /** `_create_genesis`: append the genesis block and persist the chain. */
    method CreateGenesis(now: Clock)
      requires Valid()
      modifies this, file
      ensures Valid()
      ensures chain == old(chain) + [Genesis(codec, now)]
      ensures file.doc == Document(Records(chain))
    {
      chain := chain + [Genesis(codec, now)];
      Save();
    }

    /**
     * `add_block`: link a new block to the tip (or "0"), with the round
     * number stored as given, append it and persist the whole chain.
     */
    method AddBlock(roundNo: int, modelHash: string, metadata: Option<Metadata>, now: Clock)
      requires Valid()
      modifies this, file
      ensures Valid()
      ensures chain == Extend(codec, old(chain), roundNo, modelHash, metadata, now)
      ensures Linked(old(chain)) ==> Linked(chain)
      ensures file.doc == Document(Records(chain))
    {
      var meta: Metadata := if metadata.None? then map[] else metadata.value;
      var prevHash := if chain != [] then chain[|chain| - 1].hash else "0";
      var block := NewBlock(codec, roundNo, modelHash, prevHash, Some(meta), None, now);
      chain := chain + [block];
      Save();
      if Linked(old(chain)) {
        ExtendKeepsLinked(codec, old(chain), roundNo, modelHash, metadata, now);
      }
    }

    /** `save`: rewrite the whole file with the current chain. */
    method Save()
      modifies file
      ensures file.doc == Document(Records(chain))
    {
      file.doc := Document(Records(chain));
    }

    /** `_load_from_disk`, with a record `Block(**b)` rejects handled like a parse failure. */
    method LoadFromDisk(now: Clock)
      requires Valid() && chain == [] && !file.doc.Absent?
      modifies this, file
      ensures Valid()
      ensures chain == OpenChain(codec, old(file.doc), now)
      ensures file.doc == if Reinitialises(old(file.doc)) then Document(Records(chain)) else old(file.doc)
    {
      var doc := file.doc;
      if doc.Document? && AllLoadable(doc.records) {
        chain := Blocks(codec, doc.records, now);
      } else {
        chain := [];
        CreateGenesis(now);
      }
    }
  }

}
