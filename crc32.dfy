/**
 * The byte-at-a-time CRC-32 register of nc_crc32.c and `hash_crc32a`, the
 * standard CRC-32 built on it.
 *
 * A key is a sequence of bytes. Both hash functions of the file keep a 32-bit
 * register, start it at all ones and feed it the key one byte at a time with
 * the same table step; they differ only in what they return at the end.
 */
module Crc32Hash {
  import opened Crc32Table
  import Folds

  /** `~0U` (and `UINT32_MAX`): the register before any byte has been fed. */
  const InitialRegister: bv32 := 0xFFFF_FFFF

  /**
   * One step of the loop: the byte is XOR-ed into the low end of the
   * register, the low byte selects a table entry, and the remaining three
   * bytes move down by eight places.
   */
  function Step(reg: bv32, b: bv8): bv32
  {
    CrcTable(((reg ^ b as bv32) & 0xFF) as bv8) ^ (reg >> 8)
  }

  /** The step as `hash_crc32` writes it, with the two operands of the final XOR swapped, is the same step. */
  lemma SwappedStep(reg: bv32, b: bv8)
    ensures (reg >> 8) ^ CrcTable(((reg ^ b as bv32) & 0xFF) as bv8) == Step(reg, b)
  {
  }

  /** The same step done bit-serially: the byte is XOR-ed in and the register is shifted eight times. */
  function SerialStep(reg: bv32, b: bv8): bv32
  {
    EightRounds(reg ^ b as bv32)
  }

  /** The table step and the bit-serial step agree on every register and every byte. */
  lemma StepIsSerialStep(reg: bv32, b: bv8)
    ensures Step(reg, b) == SerialStep(reg, b)
  {
    var x := reg ^ b as bv32;
    TableEntryIsEightRounds((x & 0xFF) as bv8);
    EightRoundsSplits(x);
  }

  /** The register after `key` has been fed to a register that held `start`, one byte at a time from the front. */
  function Register(start: bv32, key: seq<bv8>): bv32
  {
    Folds.FoldLeft(Step, start, key)
  }

  /** The bit-serial reference: the same register run directly from the definition of the code. */
  function SerialRegister(start: bv32, key: seq<bv8>): bv32
  {
    Folds.FoldFromFront(SerialStep, start, key)
  }

  /** The standard CRC-32 of a key: the final register with every bit inverted. */
  function Crc32(key: seq<bv8>): bv32
  {
    Register(InitialRegister, key) ^ 0xFFFF_FFFF
  }

  /**
   * `hash_crc32a`: start at `~0U`, run `crc = tab[(crc ^ *p++) & 0xFF] ^ (crc >> 8)`
   * while the remaining length, tested and then decremented, is not zero,
   * and return `crc ^ ~0U`.
   */
  method HashCrc32a(key: seq<bv8>) returns (crc: bv32)
    ensures crc == Crc32(key)
  {
    var p := 0;
    var keyLength := |key|;
    crc := 0xFFFF_FFFF;
    while keyLength != 0
      invariant 0 <= p <= |key| && keyLength == |key| - p
      invariant crc == Register(InitialRegister, key[..p])
      decreases keyLength
    {
      keyLength := keyLength - 1;
      Folds.FoldLeftGrows(Step, InitialRegister, key, p);
      crc := Step(crc, key[p]);
      p := p + 1;
    }
    assert key[..p] == key;
    crc := crc ^ 0xFFFF_FFFF;
  }

  /**
   * The loop is a left fold: feeding `a + b` leaves the register where
   * feeding `b` to the register left by `a` leaves it.
   */
  lemma RegisterAppend(start: bv32, a: seq<bv8>, b: seq<bv8>)
    ensures Register(start, a + b) == Register(Register(start, a), b)
  {
    Folds.FoldLeftAppend(Step, start, a, b);
  }

  /** The table-driven register and the bit-serial reference agree on every start value and every key. */
  lemma RegisterIsSerial(start: bv32, key: seq<bv8>)
    ensures Register(start, key) == SerialRegister(start, key)
  {
    forall reg: bv32, b: bv8
      ensures Step(reg, b) == SerialStep(reg, b)
    {
      StepIsSerialStep(reg, b);
    }
    Folds.FoldsAgree(Step, SerialStep, start, key);
  }

  /** CRC-32 is the bit-serial register, started at all ones, with every bit inverted at the end. */
  lemma Crc32IsSerial(key: seq<bv8>)
    ensures Crc32(key) == SerialRegister(InitialRegister, key) ^ 0xFFFF_FFFF
  {
    RegisterIsSerial(InitialRegister, key);
  }

  /** The CRC-32 of the empty key is 0: the initial inversion and the final one cancel. */
  lemma EmptyKeyCrc32()
    ensures Crc32([]) == 0
  {
  }

  /** The standard check value: the CRC-32 of the ASCII digits "123456789" is 0xCBF43926. */
  lemma CheckValue()
    ensures Crc32([0x31, 0x32, 0x33, 0x34, 0x35, 0x36, 0x37, 0x38, 0x39]) == 0xCBF4_3926
  {
    Folds.FoldLeftNine(Step, InitialRegister, [0x31, 0x32, 0x33, 0x34, 0x35, 0x36, 0x37, 0x38, 0x39]);
    CheckKeyRegisters();
  }

  /** The register after each digit of "123456789". */
  lemma CheckKeyRegisters()
    ensures Step(0xFFFF_FFFF, 0x31) == 0x7C23_1048
    ensures Step(0x7C23_1048, 0x32) == 0xB0AC_BB32
    ensures Step(0xB0AC_BB32, 0x33) == 0x77B7_9C2D
    ensures Step(0x77B7_9C2D, 0x34) == 0x641C_1F5C
    ensures Step(0x641C_1F5C, 0x35) == 0x340A_C5E3
    ensures Step(0x340A_C5E3, 0x36) == 0xF68D_2C9E
    ensures Step(0xF68D_2C9E, 0x37) == 0xAFFC_9660
    ensures Step(0xAFFC_9660, 0x38) == 0x651F_2550
    ensures Step(0x651F_2550, 0x39) == 0x340B_C6D9
  {
  }
}
