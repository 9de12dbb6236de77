/**
 * The 256-entry lookup table shared by both hash functions of nc_crc32.c
 * (`crc32tab`), and the bit-serial shift register it tabulates.
 *
 * The table is the reflected CRC-32 table of IEEE 802.3 (clause 3.2.9), the
 * same frame check sequence as ITU-T V.42: entry i is what the 32-bit shift
 * register holds after the eight low bits of i have been shifted through it,
 * each shift XOR-ing in the reversed generator polynomial 0xEDB88320 when a
 * one falls out of the low end.
 */
module Crc32Table {

  /** The generator polynomial x^32 + x^26 + ... + 1, bit-reversed. */
  const Polynomial: bv32 := 0xEDB8_8320

  /**
   * The bit-serial register after eight shifts. In each shift the low bit
   * falls out and the register moves down one place; when the bit that fell
   * out was set, the polynomial is XOR-ed in (`-(r & 1)` is all ones exactly
   * when the low bit of r is set, and zero otherwise).
   */
  function EightRounds(reg: bv32): bv32 {
    var r1 := (reg >> 1) ^ (Polynomial & -(reg & 1));
    var r2 := (r1 >> 1) ^ (Polynomial & -(r1 & 1));
    var r3 := (r2 >> 1) ^ (Polynomial & -(r2 & 1));
    var r4 := (r3 >> 1) ^ (Polynomial & -(r3 & 1));
    var r5 := (r4 >> 1) ^ (Polynomial & -(r4 & 1));
    var r6 := (r5 >> 1) ^ (Polynomial & -(r5 & 1));
    var r7 := (r6 >> 1) ^ (Polynomial & -(r6 & 1));
    var r8 := (r7 >> 1) ^ (Polynomial & -(r7 & 1));
    r8
  }

  /**
   * `crc32tab`, the 256 constants of the source in order, written as sixteen
   * rows of sixteen: entry i sits in row i / 16, column i % 16.
   */
  const CrcRows: seq<seq<bv32>> := [
    // entries 0..15
    [
      0x00000000, 0x77073096, 0xee0e612c, 0x990951ba,
      0x076dc419, 0x706af48f, 0xe963a535, 0x9e6495a3,
      0x0edb8832, 0x79dcb8a4, 0xe0d5e91e, 0x97d2d988,
      0x09b64c2b, 0x7eb17cbd, 0xe7b82d07, 0x90bf1d91
    ],
    // entries 16..31
    [
      0x1db71064, 0x6ab020f2, 0xf3b97148, 0x84be41de,
      0x1adad47d, 0x6ddde4eb, 0xf4d4b551, 0x83d385c7,
      0x136c9856, 0x646ba8c0, 0xfd62f97a, 0x8a65c9ec,
      0x14015c4f, 0x63066cd9, 0xfa0f3d63, 0x8d080df5
    ],
    // entries 32..47
    [
      0x3b6e20c8, 0x4c69105e, 0xd56041e4, 0xa2677172,
      0x3c03e4d1, 0x4b04d447, 0xd20d85fd, 0xa50ab56b,
      0x35b5a8fa, 0x42b2986c, 0xdbbbc9d6, 0xacbcf940,
      0x32d86ce3, 0x45df5c75, 0xdcd60dcf, 0xabd13d59
    ],
    // entries 48..63
    [
      0x26d930ac, 0x51de003a, 0xc8d75180, 0xbfd06116,
      0x21b4f4b5, 0x56b3c423, 0xcfba9599, 0xb8bda50f,
      0x2802b89e, 0x5f058808, 0xc60cd9b2, 0xb10be924,
      0x2f6f7c87, 0x58684c11, 0xc1611dab, 0xb6662d3d
    ],
    // entries 64..79
    [
      0x76dc4190, 0x01db7106, 0x98d220bc, 0xefd5102a,
      0x71b18589, 0x06b6b51f, 0x9fbfe4a5, 0xe8b8d433,
      0x7807c9a2, 0x0f00f934, 0x9609a88e, 0xe10e9818,
      0x7f6a0dbb, 0x086d3d2d, 0x91646c97, 0xe6635c01
    ],
    // entries 80..95
    [
      0x6b6b51f4, 0x1c6c6162, 0x856530d8, 0xf262004e,
      0x6c0695ed, 0x1b01a57b, 0x8208f4c1, 0xf50fc457,
      0x65b0d9c6, 0x12b7e950, 0x8bbeb8ea, 0xfcb9887c,
      0x62dd1ddf, 0x15da2d49, 0x8cd37cf3, 0xfbd44c65
    ],
    // entries 96..111
    [
      0x4db26158, 0x3ab551ce, 0xa3bc0074, 0xd4bb30e2,
      0x4adfa541, 0x3dd895d7, 0xa4d1c46d, 0xd3d6f4fb,
      0x4369e96a, 0x346ed9fc, 0xad678846, 0xda60b8d0,
      0x44042d73, 0x33031de5, 0xaa0a4c5f, 0xdd0d7cc9
    ],
    // entries 112..127
    [
      0x5005713c, 0x270241aa, 0xbe0b1010, 0xc90c2086,
      0x5768b525, 0x206f85b3, 0xb966d409, 0xce61e49f,
      0x5edef90e, 0x29d9c998, 0xb0d09822, 0xc7d7a8b4,
      0x59b33d17, 0x2eb40d81, 0xb7bd5c3b, 0xc0ba6cad
    ],
    // entries 128..143
    [
      0xedb88320, 0x9abfb3b6, 0x03b6e20c, 0x74b1d29a,
      0xead54739, 0x9dd277af, 0x04db2615, 0x73dc1683,
      0xe3630b12, 0x94643b84, 0x0d6d6a3e, 0x7a6a5aa8,
      0xe40ecf0b, 0x9309ff9d, 0x0a00ae27, 0x7d079eb1
    ],
    // entries 144..159
    [
      0xf00f9344, 0x8708a3d2, 0x1e01f268, 0x6906c2fe,
      0xf762575d, 0x806567cb, 0x196c3671, 0x6e6b06e7,
      0xfed41b76, 0x89d32be0, 0x10da7a5a, 0x67dd4acc,
      0xf9b9df6f, 0x8ebeeff9, 0x17b7be43, 0x60b08ed5
    ],
    // entries 160..175
    [
      0xd6d6a3e8, 0xa1d1937e, 0x38d8c2c4, 0x4fdff252,
      0xd1bb67f1, 0xa6bc5767, 0x3fb506dd, 0x48b2364b,
      0xd80d2bda, 0xaf0a1b4c, 0x36034af6, 0x41047a60,
      0xdf60efc3, 0xa867df55, 0x316e8eef, 0x4669be79
    ],
    // entries 176..191
    [
      0xcb61b38c, 0xbc66831a, 0x256fd2a0, 0x5268e236,
      0xcc0c7795, 0xbb0b4703, 0x220216b9, 0x5505262f,
      0xc5ba3bbe, 0xb2bd0b28, 0x2bb45a92, 0x5cb36a04,
      0xc2d7ffa7, 0xb5d0cf31, 0x2cd99e8b, 0x5bdeae1d
    ],
    // entries 192..207
    [
      0x9b64c2b0, 0xec63f226, 0x756aa39c, 0x026d930a,
      0x9c0906a9, 0xeb0e363f, 0x72076785, 0x05005713,
      0x95bf4a82, 0xe2b87a14, 0x7bb12bae, 0x0cb61b38,
      0x92d28e9b, 0xe5d5be0d, 0x7cdcefb7, 0x0bdbdf21
    ],
    // entries 208..223
    [
      0x86d3d2d4, 0xf1d4e242, 0x68ddb3f8, 0x1fda836e,
      0x81be16cd, 0xf6b9265b, 0x6fb077e1, 0x18b74777,
      0x88085ae6, 0xff0f6a70, 0x66063bca, 0x11010b5c,
      0x8f659eff, 0xf862ae69, 0x616bffd3, 0x166ccf45
    ],
    // entries 224..239
    [
      0xa00ae278, 0xd70dd2ee, 0x4e048354, 0x3903b3c2,
      0xa7672661, 0xd06016f7, 0x4969474d, 0x3e6e77db,
      0xaed16a4a, 0xd9d65adc, 0x40df0b66, 0x37d83bf0,
      0xa9bcae53, 0xdebb9ec5, 0x47b2cf7f, 0x30b5ffe9
    ],
    // entries 240..255
    [
      0xbdbdf21c, 0xcabac28a, 0x53b39330, 0x24b4a3a6,
      0xbad03605, 0xcdd70693, 0x54de5729, 0x23d967bf,
      0xb3667a2e, 0xc4614ab8, 0x5d681b02, 0x2a6f2b94,
      0xb40bbe37, 0xc30c8ea1, 0x5a05df1b, 0x2d02ef8d
    ]
  ]

  /** `crc32tab[i]`. */
  function CrcTable(i: bv8): bv32
  {
    RowsShape();
    CrcRows[i >> 4][i & 0xF]
  }

  /** Sixteen rows of sixteen entries each. */
  lemma RowsShape()
    ensures |CrcRows| == 16
    ensures forall r | 0 <= r < 16 :: |CrcRows[r]| == 16
  {
  }

  /** Every entry of the literal table is its index pushed through eight shifts of the register. */
  lemma TableEntryIsEightRounds(i: bv8)
    ensures CrcTable(i) == EightRounds(i as bv32)
  {
    // Each helper covers two rows, so every proof obligation stays small.
    if i < 32 { Entries0To31(i); }
    else if i < 64 { Entries32To63(i); }
    else if i < 96 { Entries64To95(i); }
    else if i < 128 { Entries96To127(i); }
    else if i < 160 { Entries128To159(i); }
    else if i < 192 { Entries160To191(i); }
    else if i < 224 { Entries192To223(i); }
    else { Entries224To255(i); }
  }

  lemma Entries0To31(i: bv8)
    requires i < 32
    ensures CrcTable(i) == EightRounds(i as bv32)
  {
    if i < 16 { }
  }

  lemma Entries32To63(i: bv8)
    requires 32 <= i && i < 64
    ensures CrcTable(i) == EightRounds(i as bv32)
  {
    if i < 48 { }
  }

  lemma Entries64To95(i: bv8)
    requires 64 <= i && i < 96
    ensures CrcTable(i) == EightRounds(i as bv32)
  {
    if i < 80 { }
  }

  lemma Entries96To127(i: bv8)
    requires 96 <= i && i < 128
    ensures CrcTable(i) == EightRounds(i as bv32)
  {
    if i < 112 { }
  }

  lemma Entries128To159(i: bv8)
    requires 128 <= i && i < 160
    ensures CrcTable(i) == EightRounds(i as bv32)
  {
    if i < 144 { }
  }

  lemma Entries160To191(i: bv8)
    requires 160 <= i && i < 192
    ensures CrcTable(i) == EightRounds(i as bv32)
  {
    if i < 176 { }
  }

  lemma Entries192To223(i: bv8)
    requires 192 <= i && i < 224
    ensures CrcTable(i) == EightRounds(i as bv32)
  {
    if i < 208 { }
  }

  lemma Entries224To255(i: bv8)
    requires 224 <= i
    ensures CrcTable(i) == EightRounds(i as bv32)
  {
    if i < 240 { }
  }

  /** The two entries usually quoted: index 0 holds 0, index 128 holds the polynomial itself. */
  lemma TableLandmarks()
    ensures CrcTable(0) == 0 && CrcTable(128) == Polynomial
  {
    TableEntryIsEightRounds(0);
    TableEntryIsEightRounds(128);
  }

  /**
   * The fact that makes a byte-wise table possible: eight shifts of a 32-bit
   * register depend on its low byte only through the table, while its three
   * high bytes simply move down by eight places.
   */
  lemma EightRoundsSplits(reg: bv32)
    ensures EightRounds(reg) == EightRounds(reg & 0xFF) ^ (reg >> 8)
  {
    EightRoundsUnfolds(reg);
    EightRoundsUnfolds(reg & 0xFF);
    UnfoldedRoundsSplit(reg);
  }

  /** EightRounds applied to one register, spelled out so that the next lemma can be stated without calls. */
  lemma EightRoundsUnfolds(reg: bv32)
    ensures
      var r1 := (reg >> 1) ^ (Polynomial & -(reg & 1));
      var r2 := (r1 >> 1) ^ (Polynomial & -(r1 & 1));
      var r3 := (r2 >> 1) ^ (Polynomial & -(r2 & 1));
      var r4 := (r3 >> 1) ^ (Polynomial & -(r3 & 1));
      var r5 := (r4 >> 1) ^ (Polynomial & -(r4 & 1));
      var r6 := (r5 >> 1) ^ (Polynomial & -(r5 & 1));
      var r7 := (r6 >> 1) ^ (Polynomial & -(r6 & 1));
      var r8 := (r7 >> 1) ^ (Polynomial & -(r7 & 1));
      EightRounds(reg) == r8
  {
  }

  /**
   * The split of EightRoundsSplits on the spelled-out rounds: a pure bit-vector
   * fact with no function calls, which the prover settles directly.
   */
  lemma UnfoldedRoundsSplit(reg: bv32)
    ensures
      var a1 := (reg >> 1) ^ (Polynomial & -(reg & 1));
      var a2 := (a1 >> 1) ^ (Polynomial & -(a1 & 1));
      var a3 := (a2 >> 1) ^ (Polynomial & -(a2 & 1));
      var a4 := (a3 >> 1) ^ (Polynomial & -(a3 & 1));
      var a5 := (a4 >> 1) ^ (Polynomial & -(a4 & 1));
      var a6 := (a5 >> 1) ^ (Polynomial & -(a5 & 1));
      var a7 := (a6 >> 1) ^ (Polynomial & -(a6 & 1));
      var a8 := (a7 >> 1) ^ (Polynomial & -(a7 & 1));
      var lo := reg & 0xFF;
      var b1 := (lo >> 1) ^ (Polynomial & -(lo & 1));
      var b2 := (b1 >> 1) ^ (Polynomial & -(b1 & 1));
      var b3 := (b2 >> 1) ^ (Polynomial & -(b2 & 1));
      var b4 := (b3 >> 1) ^ (Polynomial & -(b3 & 1));
      var b5 := (b4 >> 1) ^ (Polynomial & -(b4 & 1));
      var b6 := (b5 >> 1) ^ (Polynomial & -(b5 & 1));
      var b7 := (b6 >> 1) ^ (Polynomial & -(b6 & 1));
      var b8 := (b7 >> 1) ^ (Polynomial & -(b7 & 1));
      a8 == b8 ^ (reg >> 8)
  {
  }
}
