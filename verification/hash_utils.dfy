/**
 * The weight digest (blockchain/hash_utils.py): SHA-256 over the raw bytes of
 * every weight array, fed one array at a time into a single accumulator.
 *
 * SHA-256 itself is not modelled: it is a parameter `sha` of type `Sha256`,
 * a total function from byte strings to 64-character lower-case hex strings,
 * so every property below holds whatever the hash function is.
 */
module HashUtils {

  /** One byte of an array's raw memory, as `ndarray.tobytes()` yields it. */
  newtype Byte = b: int | 0 <= b < 256

  predicate IsHexChar(c: char) {
    '0' <= c <= '9' || 'a' <= c <= 'f'
  }

  /** The shape of `hexdigest()` for SHA-256: 64 lower-case hex characters. */
  predicate IsHexDigest(s: string) {
    |s| == 64 && forall i :: 0 <= i < |s| ==> IsHexChar(s[i])
  }

  type HexDigest = s: string | IsHexDigest(s)
    witness seq(64, _ => '0')

  /** SHA-256 over a byte string, finalised to its hex digest. */
  type Sha256 = seq<Byte> -> HexDigest

  /** A model's weights: its arrays, in the order the runtime exposes them,
      each given by its raw bytes (shape and dtype are not part of the digest). */
  type Weights = seq<seq<Byte>>

  /** The bytes of all arrays, one after the other, in list order. */
  function Concat(ws: Weights): seq<Byte>
  {
    if ws == [] then [] else Concat(ws[..|ws| - 1]) + ws[|ws| - 1]
  }

  /** The digest the source promises: SHA-256 of the concatenated bytes. */
  function Digest(sha: Sha256, ws: Weights): HexDigest
  {
    sha(Concat(ws))
  }

  /** Concatenation distributes over splitting the list of arrays. */
  lemma {:induction false} ConcatAppend(a: Weights, b: Weights)
    ensures Concat(a + b) == Concat(a) + Concat(b)
    decreases |b|
  {
    if b == [] {
      assert a + b == a;
    } else {
      var b' := b[..|b| - 1];
      assert (a + b)[..|a + b| - 1] == a + b';
      ConcatAppend(a, b');
    }
  }

  /**
   * Only the concatenated bytes matter: cutting one array in two (or joining
   * two neighbours) anywhere in the list leaves the digest unchanged.
   */
  lemma RegroupingKeepsDigest(sha: Sha256, pre: Weights, x: seq<Byte>, y: seq<Byte>, post: Weights)
    ensures Digest(sha, pre + [x + y] + post) == Digest(sha, pre + [x, y] + post)
  {
    ConcatAppend(pre + [x + y], post);
    ConcatAppend(pre, [x + y]);
    ConcatAppend(pre + [x, y], post);
    ConcatAppend(pre, [x, y]);
    assert Concat([x, y]) == Concat([x]) + y;
    assert [x][..0] == [];
    assert Concat([x]) == x;
    assert Concat([x + y]) == x + y by { assert [x + y][..0] == []; }
  }

  /** An empty weight list hashes as the empty byte string. */
  lemma EmptyWeightsDigest(sha: Sha256)
    ensures Digest(sha, []) == sha([])
  {
  }

  /**
   * `hash_model_weights`: one accumulator, updated once per array in list
   * order, then finalised. Equal inputs give equal digests, since the result
   * is determined by `sha` and the concatenated bytes.
   */
  method HashModelWeights(sha: Sha256, weights: Weights) returns (hex: HexDigest)
    ensures hex == sha(Concat(weights))
  {
    var fed: seq<Byte> := [];
    for i := 0 to |weights|
      invariant fed == Concat(weights[..i])
    {
      assert weights[..i + 1][..i] == weights[..i];
      fed := fed + weights[i];
    }
    assert weights[..|weights|] == weights;
    hex := sha(fed);
  }

}
