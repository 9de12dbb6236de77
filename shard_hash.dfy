/**
 * `hash_crc32` (nc_crc32.c), the hash twemproxy uses to place a key on a
 * shard: the libmemcached-compatible CRC-32 variant, patched with the
 * two-letter country override.
 *
 * A listed country code gets its group's value; any other key gets bits 16
 * to 30 of the inverted CRC-32 register, so the result is always at most
 * 32767.
 */
module ShardHash {
  import opened Crc32Hash
  import opened CountryOverride
  import Folds

  /**
   * The generic path (lines 326-333): the register loop, then
   * `((~crc) >> 16) & 0x7fff`, which keeps only fifteen bits.
   */
  function GenericHash(key: seq<bv8>): (h: bv32)
    ensures h <= 0x7FFF
  {
    ((!Register(InitialRegister, key)) >> 16) & 0x7FFF
  }

  /** The 32-bit return value of the override's group values, 0 to 17. */
  const ValueWords: seq<bv32> := [0, 1, 2, 3, 4, 5, 6, 7, 8, 9, 10, 11, 12, 13, 14, 15, 16, 17]

  /** An override value as the `uint32_t` that `hash_crc32` returns: the same number. */
  function ValueWord(v: nat): (w: bv32)
    requires v <= 17
    ensures w <= 17 && w as int == v
  {
    ValueWords[v]
  }

  /** What `hash_crc32` returns: the override's value if it has one, the generic hash otherwise. */
  function ShardHash(key: seq<bv8>): bv32
  {
    OverrideAtMost17(key);
    match Override(key)
    case Some(v) => ValueWord(v)
    case None => GenericHash(key)
  }

  /**
   * `hash_crc32`: a two-byte key is looked up in the override first; any key
   * the override does not catch goes through the register loop, run with an
   * index `x` from 0 up to the key's length, and gets the masked result.
   * Each pass is the table step of `hash_crc32a`; this loop writes the two
   * operands of its XOR the other way round, which `SwappedStep` shows
   * changes nothing.
   */
  method HashCrc32(key: seq<bv8>) returns (h: bv32)
    ensures h == ShardHash(key)
  {
    if |key| == 2 {
      OverrideAtMost17(key);
      var found := FirstMatch(key, Groups);
      if found.Some? {
        return ValueWord(found.value);
      }
    }
    assert Override(key) == None;
    var crc: bv32 := 0xFFFF_FFFF;
    for x := 0 to |key|
      invariant crc == Register(InitialRegister, key[..x])
    {
      Folds.FoldLeftGrows(Step, InitialRegister, key, x);
      crc := Step(crc, key[x]);
    }
    assert key[..|key|] == key;
    h := ((!crc) >> 16) & 0x7FFF;
  }

  /** Every result is at most 32767: bits 15 to 31 are always clear. */
  lemma ShardHashBounded(key: seq<bv8>)
    ensures ShardHash(key) <= 0x7FFF
  {
    OverrideAtMost17(key);
  }

  /** An overridden key hashes to at most 17. */
  lemma OverriddenHashAtMost17(key: seq<bv8>)
    requires Override(key).Some?
    ensures ShardHash(key) <= 17
  {
    OverrideAtMost17(key);
  }

  /**
   * A key the override does not catch hashes to bits 16 to 30 of its
   * standard CRC-32: the loops of `hash_crc32` and `hash_crc32a` make the
   * same updates, and `~crc` is `crc ^ ~0U`.
   */
  lemma NotOverriddenIsCrc32(key: seq<bv8>)
    requires Override(key) == None
    ensures ShardHash(key) == (Crc32(key) >> 16) & 0x7FFF
  {
  }

  /** The override is consulted only for two-byte keys: "u" or "usa" always take the CRC path. */
  lemma OtherLengthsAreGeneric(key: seq<bv8>)
    requires |key| != 2
    ensures ShardHash(key) == (Crc32(key) >> 16) & 0x7FFF
  {
    NotOverriddenIsCrc32(key);
  }

  /** The empty key takes the generic path and hashes to 0. */
  lemma EmptyKeyHash()
    ensures ShardHash([]) == 0
  {
    EmptyKeyCrc32();
    OtherLengthsAreGeneric([]);
  }

  /** A listed code hashes to its group's value, whatever its CRC. */
  lemma ListedCodeHash(g: nat, i: nat)
    requires g < |Groups| && i < |Groups[g].codes|
    ensures ShardHash(Bytes(Groups[g].codes[i])) == ValueWord(Groups[g].value)
  {
    ListedCodeWins(g, i);
  }

  /** A two-byte key the reference does not list, such as "US" or "zz", takes the generic path. */
  lemma UnlistedKeyHash(key: seq<bv8>)
    requires CodeValue(key) == None
    ensures ShardHash(key) == (Crc32(key) >> 16) & 0x7FFF
  {
    UnlistedKeyFallsThrough(key);
    NotOverriddenIsCrc32(key);
  }
}
