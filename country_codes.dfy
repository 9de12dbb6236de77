/**
 * The two-letter country override at the head of `hash_crc32` (nc_crc32.c).
 *
 * The file declares 165 two-letter country codes as C strings and, when a
 * key is exactly two bytes long, compares it with them in eighteen `if`
 * statements, each an `||` chain of `strncmp(key, code, 2) == 0` tests that
 * returns a fixed value from 0 to 17. This module models the comparisons
 * as the source makes them and the first-match lookup they add up to, and
 * proves that lookup against an alphabetical reference listing of the codes.
 */
module CountryOverride {
  datatype Option<T> = None | Some(value: T)

  /** A two-letter C string such as `"us"`: its two bytes; the terminating NUL follows them. */
  datatype Code = Code(first: bv8, second: bv8)

  /** The bytes of a code before its terminating NUL. */
  function Bytes(code: Code): seq<bv8>
  {
    [code.first, code.second]
  }

  // The country codes, in the order the source declares them.

  const CountryUS: Code := Code(0x75, 0x73) // "us"
  const CountryBO: Code := Code(0x62, 0x6F) // "bo"
  const CountrySK: Code := Code(0x73, 0x6B) // "sk"
  const CountrySN: Code := Code(0x73, 0x6E) // "sn"
  const CountryTW: Code := Code(0x74, 0x77) // "tw"
  const CountryMG: Code := Code(0x6D, 0x67) // "mg"
  const CountryYE: Code := Code(0x79, 0x65) // "ye"
  const CountryXK: Code := Code(0x78, 0x6B) // "xk"
  const CountryNE: Code := Code(0x6E, 0x65) // "ne"
  const CountryTT: Code := Code(0x74, 0x74) // "tt"
  const CountryLR: Code := Code(0x6C, 0x72) // "lr"
  const CountryFR: Code := Code(0x66, 0x72) // "fr"
  const CountryCZ: Code := Code(0x63, 0x7A) // "cz"
  const CountryDZ: Code := Code(0x64, 0x7A) // "dz"
  const CountryGT: Code := Code(0x67, 0x74) // "gt"
  const CountryPH: Code := Code(0x70, 0x68) // "ph"
  const CountryCM: Code := Code(0x63, 0x6D) // "cm"
  const CountryCU: Code := Code(0x63, 0x75) // "cu"
  const CountryKW: Code := Code(0x6B, 0x77) // "kw"
  const CountryLB: Code := Code(0x6C, 0x62) // "lb"
  const CountryJM: Code := Code(0x6A, 0x6D) // "jm"
  const CountryMQ: Code := Code(0x6D, 0x71) // "mq"
  const CountryBI: Code := Code(0x62, 0x69) // "bi"
  const CountryME: Code := Code(0x6D, 0x65) // "me"
  const CountryBR: Code := Code(0x62, 0x72) // "br"
  const CountryTR: Code := Code(0x74, 0x72) // "tr"
  const CountryRO: Code := Code(0x72, 0x6F) // "ro"
  const CountryBE: Code := Code(0x62, 0x65) // "be"
  const CountryZA: Code := Code(0x7A, 0x61) // "za"
  const CountryNG: Code := Code(0x6E, 0x67) // "ng"
  const CountryPK: Code := Code(0x70, 0x6B) // "pk"
  const CountryKE: Code := Code(0x6B, 0x65) // "ke"
  const CountryJO: Code := Code(0x6A, 0x6F) // "jo"
  const CountryBD: Code := Code(0x62, 0x64) // "bd"
  const CountryKZ: Code := Code(0x6B, 0x7A) // "kz"
  const CountryIS: Code := Code(0x69, 0x73) // "is"
  const CountryGN: Code := Code(0x67, 0x6E) // "gn"
  const CountryMW: Code := Code(0x6D, 0x77) // "mw"
  const CountryMT: Code := Code(0x6D, 0x74) // "mt"
  const CountryCL: Code := Code(0x63, 0x6C) // "cl"
  const CountryGB: Code := Code(0x67, 0x62) // "gb"
  const CountryNL: Code := Code(0x6E, 0x6C) // "nl"
  const CountryNO: Code := Code(0x6E, 0x6F) // "no"
  const CountryIQ: Code := Code(0x69, 0x71) // "iq"
  const CountryGR: Code := Code(0x67, 0x72) // "gr"
  const CountryHK: Code := Code(0x68, 0x6B) // "hk"
  const CountryBF: Code := Code(0x62, 0x66) // "bf"
  const CountryTG: Code := Code(0x74, 0x67) // "tg"
  const CountryET: Code := Code(0x65, 0x74) // "et"
  const CountryRW: Code := Code(0x72, 0x77) // "rw"
  const CountryMU: Code := Code(0x6D, 0x75) // "mu"
  const CountryKG: Code := Code(0x6B, 0x67) // "kg"
  const CountryIN: Code := Code(0x69, 0x6E) // "in"
  const CountryCN: Code := Code(0x63, 0x6E) // "cn"
  const CountryBG: Code := Code(0x62, 0x67) // "bg"
  const CountryRU: Code := Code(0x72, 0x75) // "ru"
  const CountryJP: Code := Code(0x6A, 0x70) // "jp"
  const CountryPR: Code := Code(0x70, 0x72) // "pr"
  const CountryAE: Code := Code(0x61, 0x65) // "ae"
  const CountryQA: Code := Code(0x71, 0x61) // "qa"
  const CountrySD: Code := Code(0x73, 0x64) // "sd"
  const CountryGP: Code := Code(0x67, 0x70) // "gp"
  const CountryPG: Code := Code(0x70, 0x67) // "pg"
  const CountrySR: Code := Code(0x73, 0x72) // "sr"
  const CountryIT: Code := Code(0x69, 0x74) // "it"
  const CountryID: Code := Code(0x69, 0x64) // "id"
  const CountryPL: Code := Code(0x70, 0x6C) // "pl"
  const CountryMA: Code := Code(0x6D, 0x61) // "ma"
  const CountryTH: Code := Code(0x74, 0x68) // "th"
  const CountryAT: Code := Code(0x61, 0x74) // "at"
  const CountryAO: Code := Code(0x61, 0x6F) // "ao"
  const CountrySY: Code := Code(0x73, 0x79) // "sy"
  const CountryHT: Code := Code(0x68, 0x74) // "ht"
  const CountryLY: Code := Code(0x6C, 0x79) // "ly"
  const CountryGA: Code := Code(0x67, 0x61) // "ga"
  const CountryGE: Code := Code(0x67, 0x65) // "ge"
  const CountryBW: Code := Code(0x62, 0x77) // "bw"
  const CountryMN: Code := Code(0x6D, 0x6E) // "mn"
  const CountryVE: Code := Code(0x76, 0x65) // "ve"
  const CountrySA: Code := Code(0x73, 0x61) // "sa"
  const CountryEG: Code := Code(0x65, 0x67) // "eg"
  const CountryCH: Code := Code(0x63, 0x68) // "ch"
  const CountryAU: Code := Code(0x61, 0x75) // "au"
  const CountrySV: Code := Code(0x73, 0x76) // "sv"
  const CountrySG: Code := Code(0x73, 0x67) // "sg"
  const CountryLK: Code := Code(0x6C, 0x6B) // "lk"
  const CountryZW: Code := Code(0x7A, 0x77) // "zw"
  const CountryCY: Code := Code(0x63, 0x79) // "cy"
  const CountryGM: Code := Code(0x67, 0x6D) // "gm"
  const CountryMR: Code := Code(0x6D, 0x72) // "mr"
  const CountryLA: Code := Code(0x6C, 0x61) // "la"
  const CountryPE: Code := Code(0x70, 0x65) // "pe"
  const CountryDE: Code := Code(0x64, 0x65) // "de"
  const CountryDO: Code := Code(0x64, 0x6F) // "do"
  const CountrySI: Code := Code(0x73, 0x69) // "si"
  const CountryFI: Code := Code(0x66, 0x69) // "fi"
  const CountryNI: Code := Code(0x6E, 0x69) // "ni"
  const CountryAL: Code := Code(0x61, 0x6C) // "al"
  const CountryCD: Code := Code(0x63, 0x64) // "cd"
  const CountryTZ: Code := Code(0x74, 0x7A) // "tz"
  const CountryZM: Code := Code(0x7A, 0x6D) // "zm"
  const CountryKH: Code := Code(0x6B, 0x68) // "kh"
  const CountryRE: Code := Code(0x72, 0x65) // "re"
  const CountryTD: Code := Code(0x74, 0x64) // "td"
  const CountryAR: Code := Code(0x61, 0x72) // "ar"
  const CountryUY: Code := Code(0x75, 0x79) // "uy"
  const CountryUA: Code := Code(0x75, 0x61) // "ua"
  const CountryHR: Code := Code(0x68, 0x72) // "hr"
  const CountryEE: Code := Code(0x65, 0x65) // "ee"
  const CountryBJ: Code := Code(0x62, 0x6A) // "bj"
  const CountryMM: Code := Code(0x6D, 0x6D) // "mm"
  const CountryLU: Code := Code(0x6C, 0x75) // "lu"
  const CountryNP: Code := Code(0x6E, 0x70) // "np"
  const CountryDJ: Code := Code(0x64, 0x6A) // "dj"
  const CountryMX: Code := Code(0x6D, 0x78) // "mx"
  const CountryVN: Code := Code(0x76, 0x6E) // "vn"
  const CountryEC: Code := Code(0x65, 0x63) // "ec"
  const CountrySE: Code := Code(0x73, 0x65) // "se"
  const CountryDK: Code := Code(0x64, 0x6B) // "dk"
  const CountryRS: Code := Code(0x72, 0x73) // "rs"
  const CountryHN: Code := Code(0x68, 0x6E) // "hn"
  const CountryLV: Code := Code(0x6C, 0x76) // "lv"
  const CountryPS: Code := Code(0x70, 0x73) // "ps"
  const CountryML: Code := Code(0x6D, 0x6C) // "ml"
  const CountryMD: Code := Code(0x6D, 0x64) // "md"
  const CountryCV: Code := Code(0x63, 0x76) // "cv"
  const CountryNC: Code := Code(0x6E, 0x63) // "nc"
  const CountryUZ: Code := Code(0x75, 0x7A) // "uz"
  const CountryAN: Code := Code(0x61, 0x6E) // "an"
  const CountryES: Code := Code(0x65, 0x73) // "es"
  const CountryCA: Code := Code(0x63, 0x61) // "ca"
  const CountryTN: Code := Code(0x74, 0x6E) // "tn"
  const CountryPY: Code := Code(0x70, 0x79) // "py"
  const CountryPA: Code := Code(0x70, 0x61) // "pa"
  const CountryMZ: Code := Code(0x6D, 0x7A) // "mz"
  const CountryMK: Code := Code(0x6D, 0x6B) // "mk"
  const CountryNZ: Code := Code(0x6E, 0x7A) // "nz"
  const CountryAF: Code := Code(0x61, 0x66) // "af"
  const CountryCG: Code := Code(0x63, 0x67) // "cg"
  const CountryFJ: Code := Code(0x66, 0x6A) // "fj"
  const CountryPF: Code := Code(0x70, 0x66) // "pf"
  const CountryCO: Code := Code(0x63, 0x6F) // "co"
  const CountryLT: Code := Code(0x6C, 0x74) // "lt"
  const CountryIL: Code := Code(0x69, 0x6C) // "il"
  const CountryIR: Code := Code(0x69, 0x72) // "ir"
  const CountryGH: Code := Code(0x67, 0x68) // "gh"
  const CountryIE: Code := Code(0x69, 0x65) // "ie"
  const CountryBY: Code := Code(0x62, 0x79) // "by"
  const CountryNA: Code := Code(0x6E, 0x61) // "na"
  const CountryGF: Code := Code(0x67, 0x66) // "gf"
  const CountryAM: Code := Code(0x61, 0x6D) // "am"
  const CountryGQ: Code := Code(0x67, 0x71) // "gq"
  const CountryPT: Code := Code(0x70, 0x74) // "pt"
  const CountryHU: Code := Code(0x68, 0x75) // "hu"
  const CountryMY: Code := Code(0x6D, 0x79) // "my"
  const CountryCR: Code := Code(0x63, 0x72) // "cr"
  const CountryCI: Code := Code(0x63, 0x69) // "ci"
  const CountryKR: Code := Code(0x6B, 0x72) // "kr"
  const CountryBA: Code := Code(0x62, 0x61) // "ba"
  const CountryOM: Code := Code(0x6F, 0x6D) // "om"
  const CountryUG: Code := Code(0x75, 0x67) // "ug"
  const CountryAZ: Code := Code(0x61, 0x7A) // "az"
  const CountryBH: Code := Code(0x62, 0x68) // "bh"
  const CountryMO: Code := Code(0x6D, 0x6F) // "mo"
  const CountrySL: Code := Code(0x73, 0x6C) // "sl"

  /** One `if` of the override: the codes its `||` chain tests, in order, and the value it returns. */
  datatype Group = Group(codes: seq<Code>, value: nat)

  const Group0: Group := Group([CountryUS, CountryBO, CountrySK, CountrySN, CountryTW, CountryMG, CountryYE,
                                CountryXK, CountryNE, CountryTT, CountryLR], 0)
  const Group1: Group := Group([CountryFR, CountryCZ, CountryDZ, CountryGT, CountryPH, CountryCM, CountryCU,
                                CountryKW, CountryLB, CountryJM, CountryMQ, CountryBI, CountryME], 1)
  const Group2: Group := Group([CountryBR], 2)
  const Group3: Group := Group([CountryTR], 3)
  const Group4: Group := Group([CountryRO, CountryBE, CountryZA, CountryNG, CountryPK, CountryKE, CountryJO,
                                CountryBD, CountryKZ, CountryIS, CountryGN, CountryMW, CountryMT], 4)
  const Group5: Group := Group([CountryCL, CountryGB, CountryNL, CountryNO, CountryIQ, CountryGR, CountryHK,
                                CountryBF, CountryTG, CountryET, CountryRW, CountryMU, CountryKG], 5)
  const Group6: Group := Group([CountryIN], 6)
  const Group7: Group := Group([CountryCN, CountryBG, CountryRU, CountryJP, CountryPR, CountryAE, CountryQA,
                                CountrySD, CountryGP, CountryPG, CountrySR], 7)
  const Group8: Group := Group([CountryIT], 8)
  const Group9: Group := Group([CountryID, CountryPL, CountryMA, CountryTH, CountryAT, CountryAO, CountrySY,
                                CountryHT, CountryLY, CountryGA, CountryGE, CountryBW, CountryMN], 9)
  const Group10: Group := Group([CountryVE, CountrySA, CountryEG, CountryCH, CountryAU, CountrySV, CountrySG,
                                CountryLK, CountryZW, CountryCY, CountryGM, CountryMR, CountryLA], 10)
  const Group11: Group := Group([CountryPE, CountryDE, CountryDO, CountrySI, CountryFI, CountryNI, CountryAL,
                                CountryCD, CountryTZ, CountryZM, CountryKH, CountryRE, CountryTD], 11)
  const Group12: Group := Group([CountryAR, CountryUY, CountryUA, CountryHR, CountryEE, CountryBJ, CountryMM,
                                CountryLU, CountryNP, CountryDJ], 12)
  const Group13: Group := Group([CountryMX], 13)
  const Group14: Group := Group([CountryVN, CountryEC, CountrySE, CountryDK, CountryRS, CountryHN, CountryLV,
                                CountryPS, CountryML, CountryMD, CountryCV, CountryNC, CountryUZ, CountryAN], 14)
  const Group15: Group := Group([CountryES, CountryCA, CountryTN, CountryPY, CountryPA, CountryMZ, CountryMK,
                                CountryNZ, CountryAF, CountryCG, CountryFJ, CountryPF], 15)
  const Group16: Group := Group([CountryCO, CountryLT, CountryIL, CountryIR, CountryGH, CountryIE, CountryBY,
                                CountryNA, CountryGF, CountryAM, CountryGQ], 16)
  const Group17: Group := Group([CountryPT, CountryHU, CountryMY, CountryCR, CountryCI, CountryKR, CountryBA,
                                CountryOM, CountryUG, CountryAZ, CountryBH, CountryMO, CountrySL], 17)

  /** The eighteen `if` statements of the override, in source order. */
  const Groups: seq<Group> := [Group0, Group1, Group2, Group3, Group4, Group5, Group6, Group7, Group8,
                               Group9, Group10, Group11, Group12, Group13, Group14, Group15, Group16, Group17]

  /** Byte `i` of a C string whose bytes before the terminating NUL are `s`. */
  function ByteAt(s: seq<bv8>, i: nat): bv8
  {
    if i < |s| then s[i] else 0
  }

  /**
   * `strncmp(a, b, n)`: compares the two strings as unsigned bytes, position
   * by position, for at most `n` positions, and stops early at a NUL both
   * share. The result is the difference at the first position that differs,
   * and 0 when there is none.
   */
  function Strncmp(a: seq<bv8>, b: seq<bv8>, n: nat): int
  {
    StrncmpFrom(a, b, 0, n)
  }

  /** `strncmp` from position `i` on. */
  function StrncmpFrom(a: seq<bv8>, b: seq<bv8>, i: nat, n: nat): int
    decreases n - i
  {
    if n <= i then 0
    else if ByteAt(a, i) != ByteAt(b, i) then ByteAt(a, i) as int - ByteAt(b, i) as int
    else if ByteAt(a, i) == 0 then 0
    else StrncmpFrom(a, b, i + 1, n)
  }

  /**
   * Against a string with no NUL among its first `n` bytes, `strncmp` from
   * position `i` reports 0 exactly when the other string has the same bytes
   * at every position from `i` up to `n`.
   */
  lemma {:induction false} StrncmpFromZero(a: seq<bv8>, b: seq<bv8>, i: nat, n: nat)
    requires i <= n <= |b|
    requires forall j | i <= j < n :: b[j] != 0
    ensures StrncmpFrom(a, b, i, n) == 0 <==> forall j | i <= j < n :: ByteAt(a, j) == b[j]
    decreases n - i
  {
    if i < n {
      StrncmpFromZero(a, b, i + 1, n);
    }
  }

  /** A listed code: both of its bytes are lower-case ASCII letters, so neither is NUL. */
  predicate IsCode(code: Code)
  {
    0x61 <= code.first <= 0x7A && 0x61 <= code.second <= 0x7A
  }

  /** The code a two-byte key spells. */
  function KeyCode(key: seq<bv8>): (c: Code)
    requires |key| == 2
    ensures Bytes(c) == key
  {
    Code(key[0], key[1])
  }

  /**
   * `strncmp(key, code, 2) == 0` for a two-byte key and a listed code is
   * exact, case-sensitive equality of the two bytes.
   */
  lemma StrncmpMatchesCode(key: seq<bv8>, code: Code)
    requires |key| == 2 && IsCode(code)
    ensures Strncmp(key, Bytes(code), 2) == 0 <==> KeyCode(key) == code
  {
    StrncmpFromZero(key, Bytes(code), 0, 2);
  }

  /** The `||` chain of one `if`: the key is compared with each code in turn until one compares equal. */
  function MatchesAny(key: seq<bv8>, codes: seq<Code>): bool
  {
    |codes| > 0 && (Strncmp(key, Bytes(codes[0]), 2) == 0 || MatchesAny(key, codes[1..]))
  }

  /** The `if` statements in order: the value of the first whose chain matches, or none. */
  function FirstMatch(key: seq<bv8>, groups: seq<Group>): Option<nat>
  {
    if |groups| == 0 then None
    else if MatchesAny(key, groups[0].codes) then Some(groups[0].value)
    else FirstMatch(key, groups[1..])
  }

  /** The override of `hash_crc32`: consulted only for a key of exactly two bytes. */
  function Override(key: seq<bv8>): Option<nat>
  {
    if |key| == 2 then FirstMatch(key, Groups) else None
  }

  /** The value the reference lists for a two-byte key, read as two characters. */
  function CodeValue(key: seq<bv8>): Option<nat>
  {
    if |key| == 2 then Listed(key[0] as int as char, key[1] as int as char) else None
  }

  /**
   * The reference: every listed code with the value the override gives it,
   * arranged alphabetically by first and then second letter instead of by
   * group. Any other pair of characters is not listed.
   */
  function Listed(first: char, second: char): Option<nat>
  {
    match first
    case 'a' =>
      (match second
       case 'e' => Some(7) case 'f' => Some(15) case 'l' => Some(11) case 'm' => Some(16) case 'n' => Some(14)
       case 'o' => Some(9) case 'r' => Some(12) case 't' => Some(9) case 'u' => Some(10) case 'z' => Some(17)
       case _ => None)
    case 'b' =>
      (match second
       case 'a' => Some(17) case 'd' => Some(4) case 'e' => Some(4) case 'f' => Some(5) case 'g' => Some(7)
       case 'h' => Some(17) case 'i' => Some(1) case 'j' => Some(12) case 'o' => Some(0) case 'r' => Some(2)
       case 'w' => Some(9) case 'y' => Some(16)
       case _ => None)
    case 'c' =>
      (match second
       case 'a' => Some(15) case 'd' => Some(11) case 'g' => Some(15) case 'h' => Some(10) case 'i' => Some(17)
       case 'l' => Some(5) case 'm' => Some(1) case 'n' => Some(7) case 'o' => Some(16) case 'r' => Some(17)
       case 'u' => Some(1) case 'v' => Some(14) case 'y' => Some(10) case 'z' => Some(1)
       case _ => None)
    case 'd' =>
      (match second
       case 'e' => Some(11) case 'j' => Some(12) case 'k' => Some(14) case 'o' => Some(11) case 'z' => Some(1)
       case _ => None)
    case 'e' =>
      (match second
       case 'c' => Some(14) case 'e' => Some(12) case 'g' => Some(10) case 's' => Some(15) case 't' => Some(5)
       case _ => None)
    case 'f' =>
      (match second
       case 'i' => Some(11) case 'j' => Some(15) case 'r' => Some(1)
       case _ => None)
    case 'g' =>
      (match second
       case 'a' => Some(9) case 'b' => Some(5) case 'e' => Some(9) case 'f' => Some(16) case 'h' => Some(16)
       case 'm' => Some(10) case 'n' => Some(4) case 'p' => Some(7) case 'q' => Some(16) case 'r' => Some(5)
       case 't' => Some(1)
       case _ => None)
    case 'h' =>
      (match second
       case 'k' => Some(5) case 'n' => Some(14) case 'r' => Some(12) case 't' => Some(9) case 'u' => Some(17)
       case _ => None)
    case 'i' =>
      (match second
       case 'd' => Some(9) case 'e' => Some(16) case 'l' => Some(16) case 'n' => Some(6) case 'q' => Some(5)
       case 'r' => Some(16) case 's' => Some(4) case 't' => Some(8)
       case _ => None)
    case 'j' =>
      (match second
       case 'm' => Some(1) case 'o' => Some(4) case 'p' => Some(7)
       case _ => None)
    case 'k' =>
      (match second
       case 'e' => Some(4) case 'g' => Some(5) case 'h' => Some(11) case 'r' => Some(17) case 'w' => Some(1)
       case 'z' => Some(4)
       case _ => None)
    case 'l' =>
      (match second
       case 'a' => Some(10) case 'b' => Some(1) case 'k' => Some(10) case 'r' => Some(0) case 't' => Some(16)
       case 'u' => Some(12) case 'v' => Some(14) case 'y' => Some(9)
       case _ => None)
    case 'm' =>
      (match second
       case 'a' => Some(9) case 'd' => Some(14) case 'e' => Some(1) case 'g' => Some(0) case 'k' => Some(15)
       case 'l' => Some(14) case 'm' => Some(12) case 'n' => Some(9) case 'o' => Some(17) case 'q' => Some(1)
       case 'r' => Some(10) case 't' => Some(4) case 'u' => Some(5) case 'w' => Some(4) case 'x' => Some(13)
       case 'y' => Some(17) case 'z' => Some(15)
       case _ => None)
    case 'n' =>
      (match second
       case 'a' => Some(16) case 'c' => Some(14) case 'e' => Some(0) case 'g' => Some(4) case 'i' => Some(11)
       case 'l' => Some(5) case 'o' => Some(5) case 'p' => Some(12) case 'z' => Some(15)
       case _ => None)
    case 'o' =>
      (match second
       case 'm' => Some(17)
       case _ => None)
    case 'p' =>
      (match second
       case 'a' => Some(15) case 'e' => Some(11) case 'f' => Some(15) case 'g' => Some(7) case 'h' => Some(1)
       case 'k' => Some(4) case 'l' => Some(9) case 'r' => Some(7) case 's' => Some(14) case 't' => Some(17)
       case 'y' => Some(15)
       case _ => None)
    case 'q' =>
      (match second
       case 'a' => Some(7)
       case _ => None)
    case 'r' =>
      (match second
       case 'e' => Some(11) case 'o' => Some(4) case 's' => Some(14) case 'u' => Some(7) case 'w' => Some(5)
       case _ => None)
    case 's' =>
      (match second
       case 'a' => Some(10) case 'd' => Some(7) case 'e' => Some(14) case 'g' => Some(10) case 'i' => Some(11)
       case 'k' => Some(0) case 'l' => Some(17) case 'n' => Some(0) case 'r' => Some(7) case 'v' => Some(10)
       case 'y' => Some(9)
       case _ => None)
    case 't' =>
      (match second
       case 'd' => Some(11) case 'g' => Some(5) case 'h' => Some(9) case 'n' => Some(15) case 'r' => Some(3)
       case 't' => Some(0) case 'w' => Some(0) case 'z' => Some(11)
       case _ => None)
    case 'u' =>
      (match second
       case 'a' => Some(12) case 'g' => Some(17) case 's' => Some(0) case 'y' => Some(12) case 'z' => Some(14)
       case _ => None)
    case 'v' =>
      (match second
       case 'e' => Some(10) case 'n' => Some(14)
       case _ => None)
    case 'x' =>
      (match second
       case 'k' => Some(0)
       case _ => None)
    case 'y' =>
      (match second
       case 'e' => Some(0)
       case _ => None)
    case 'z' =>
      (match second
       case 'a' => Some(4) case 'm' => Some(11) case 'w' => Some(10)
       case _ => None)
    case _ => None
  }

  /** Every code of the group is a listed code and the reference gives it the group's value. */
  predicate GroupListed(group: Group)
  {
    forall i | 0 <= i < |group.codes| :: IsCode(group.codes[i]) && CodeValue(Bytes(group.codes[i])) == Some(group.value)
  }

  /** Every group agrees with the reference. */
  predicate AllListed(groups: seq<Group>)
  {
    forall g | 0 <= g < |groups| :: GroupListed(groups[g])
  }

  /** The code is one of the codes of some group. */
  predicate InSomeGroup(code: Code, groups: seq<Group>)
  {
    exists g | 0 <= g < |groups| :: code in groups[g].codes
  }

  /** Group 0: each of its codes is a listed code with the value 0 in the reference. */
  lemma Group0Listed()
    ensures forall i | 0 <= i < |Group0.codes| :: IsCode(Group0.codes[i]) && CodeValue(Bytes(Group0.codes[i])) == Some(0)
  {
    assert IsCode(CountryUS) && CodeValue(Bytes(CountryUS)) == Some(0);
    assert IsCode(CountryBO) && CodeValue(Bytes(CountryBO)) == Some(0);
    assert IsCode(CountrySK) && CodeValue(Bytes(CountrySK)) == Some(0);
    assert IsCode(CountrySN) && CodeValue(Bytes(CountrySN)) == Some(0);
    assert IsCode(CountryTW) && CodeValue(Bytes(CountryTW)) == Some(0);
    assert IsCode(CountryMG) && CodeValue(Bytes(CountryMG)) == Some(0);
    assert IsCode(CountryYE) && CodeValue(Bytes(CountryYE)) == Some(0);
    assert IsCode(CountryXK) && CodeValue(Bytes(CountryXK)) == Some(0);
    assert IsCode(CountryNE) && CodeValue(Bytes(CountryNE)) == Some(0);
    assert IsCode(CountryTT) && CodeValue(Bytes(CountryTT)) == Some(0);
    assert IsCode(CountryLR) && CodeValue(Bytes(CountryLR)) == Some(0);
  }

  /** Group 1: each of its codes is a listed code with the value 1 in the reference. */
  lemma Group1Listed()
    ensures forall i | 0 <= i < |Group1.codes| :: IsCode(Group1.codes[i]) && CodeValue(Bytes(Group1.codes[i])) == Some(1)
  {
    assert IsCode(CountryFR) && CodeValue(Bytes(CountryFR)) == Some(1);
    assert IsCode(CountryCZ) && CodeValue(Bytes(CountryCZ)) == Some(1);
    assert IsCode(CountryDZ) && CodeValue(Bytes(CountryDZ)) == Some(1);
    assert IsCode(CountryGT) && CodeValue(Bytes(CountryGT)) == Some(1);
    assert IsCode(CountryPH) && CodeValue(Bytes(CountryPH)) == Some(1);
    assert IsCode(CountryCM) && CodeValue(Bytes(CountryCM)) == Some(1);
    assert IsCode(CountryCU) && CodeValue(Bytes(CountryCU)) == Some(1);
    assert IsCode(CountryKW) && CodeValue(Bytes(CountryKW)) == Some(1);
    assert IsCode(CountryLB) && CodeValue(Bytes(CountryLB)) == Some(1);
    assert IsCode(CountryJM) && CodeValue(Bytes(CountryJM)) == Some(1);
    assert IsCode(CountryMQ) && CodeValue(Bytes(CountryMQ)) == Some(1);
    assert IsCode(CountryBI) && CodeValue(Bytes(CountryBI)) == Some(1);
    assert IsCode(CountryME) && CodeValue(Bytes(CountryME)) == Some(1);
  }

  /** Group 2: each of its codes is a listed code with the value 2 in the reference. */
  lemma Group2Listed()
    ensures forall i | 0 <= i < |Group2.codes| :: IsCode(Group2.codes[i]) && CodeValue(Bytes(Group2.codes[i])) == Some(2)
  {
    assert IsCode(CountryBR) && CodeValue(Bytes(CountryBR)) == Some(2);
  }

  /** Group 3: each of its codes is a listed code with the value 3 in the reference. */
  lemma Group3Listed()
    ensures forall i | 0 <= i < |Group3.codes| :: IsCode(Group3.codes[i]) && CodeValue(Bytes(Group3.codes[i])) == Some(3)
  {
    assert IsCode(CountryTR) && CodeValue(Bytes(CountryTR)) == Some(3);
  }

  /** Group 4: each of its codes is a listed code with the value 4 in the reference. */
  lemma Group4Listed()
    ensures forall i | 0 <= i < |Group4.codes| :: IsCode(Group4.codes[i]) && CodeValue(Bytes(Group4.codes[i])) == Some(4)
  {
    assert IsCode(CountryRO) && CodeValue(Bytes(CountryRO)) == Some(4);
    assert IsCode(CountryBE) && CodeValue(Bytes(CountryBE)) == Some(4);
    assert IsCode(CountryZA) && CodeValue(Bytes(CountryZA)) == Some(4);
    assert IsCode(CountryNG) && CodeValue(Bytes(CountryNG)) == Some(4);
    assert IsCode(CountryPK) && CodeValue(Bytes(CountryPK)) == Some(4);
    assert IsCode(CountryKE) && CodeValue(Bytes(CountryKE)) == Some(4);
    assert IsCode(CountryJO) && CodeValue(Bytes(CountryJO)) == Some(4);
    assert IsCode(CountryBD) && CodeValue(Bytes(CountryBD)) == Some(4);
    assert IsCode(CountryKZ) && CodeValue(Bytes(CountryKZ)) == Some(4);
    assert IsCode(CountryIS) && CodeValue(Bytes(CountryIS)) == Some(4);
    assert IsCode(CountryGN) && CodeValue(Bytes(CountryGN)) == Some(4);
    assert IsCode(CountryMW) && CodeValue(Bytes(CountryMW)) == Some(4);
    assert IsCode(CountryMT) && CodeValue(Bytes(CountryMT)) == Some(4);
  }

  /** Group 5: each of its codes is a listed code with the value 5 in the reference. */
  lemma Group5Listed()
    ensures forall i | 0 <= i < |Group5.codes| :: IsCode(Group5.codes[i]) && CodeValue(Bytes(Group5.codes[i])) == Some(5)
  {
    assert IsCode(CountryCL) && CodeValue(Bytes(CountryCL)) == Some(5);
    assert IsCode(CountryGB) && CodeValue(Bytes(CountryGB)) == Some(5);
    assert IsCode(CountryNL) && CodeValue(Bytes(CountryNL)) == Some(5);
    assert IsCode(CountryNO) && CodeValue(Bytes(CountryNO)) == Some(5);
    assert IsCode(CountryIQ) && CodeValue(Bytes(CountryIQ)) == Some(5);
    assert IsCode(CountryGR) && CodeValue(Bytes(CountryGR)) == Some(5);
    assert IsCode(CountryHK) && CodeValue(Bytes(CountryHK)) == Some(5);
    assert IsCode(CountryBF) && CodeValue(Bytes(CountryBF)) == Some(5);
    assert IsCode(CountryTG) && CodeValue(Bytes(CountryTG)) == Some(5);
    assert IsCode(CountryET) && CodeValue(Bytes(CountryET)) == Some(5);
    assert IsCode(CountryRW) && CodeValue(Bytes(CountryRW)) == Some(5);
    assert IsCode(CountryMU) && CodeValue(Bytes(CountryMU)) == Some(5);
    assert IsCode(CountryKG) && CodeValue(Bytes(CountryKG)) == Some(5);
  }

  /** Group 6: each of its codes is a listed code with the value 6 in the reference. */
  lemma Group6Listed()
    ensures forall i | 0 <= i < |Group6.codes| :: IsCode(Group6.codes[i]) && CodeValue(Bytes(Group6.codes[i])) == Some(6)
  {
    assert IsCode(CountryIN) && CodeValue(Bytes(CountryIN)) == Some(6);
  }

  /** Group 7: each of its codes is a listed code with the value 7 in the reference. */
  lemma Group7Listed()
    ensures forall i | 0 <= i < |Group7.codes| :: IsCode(Group7.codes[i]) && CodeValue(Bytes(Group7.codes[i])) == Some(7)
  {
    assert IsCode(CountryCN) && CodeValue(Bytes(CountryCN)) == Some(7);
    assert IsCode(CountryBG) && CodeValue(Bytes(CountryBG)) == Some(7);
    assert IsCode(CountryRU) && CodeValue(Bytes(CountryRU)) == Some(7);
    assert IsCode(CountryJP) && CodeValue(Bytes(CountryJP)) == Some(7);
    assert IsCode(CountryPR) && CodeValue(Bytes(CountryPR)) == Some(7);
    assert IsCode(CountryAE) && CodeValue(Bytes(CountryAE)) == Some(7);
    assert IsCode(CountryQA) && CodeValue(Bytes(CountryQA)) == Some(7);
    assert IsCode(CountrySD) && CodeValue(Bytes(CountrySD)) == Some(7);
    assert IsCode(CountryGP) && CodeValue(Bytes(CountryGP)) == Some(7);
    assert IsCode(CountryPG) && CodeValue(Bytes(CountryPG)) == Some(7);
    assert IsCode(CountrySR) && CodeValue(Bytes(CountrySR)) == Some(7);
  }

  /** Group 8: each of its codes is a listed code with the value 8 in the reference. */
  lemma Group8Listed()
    ensures forall i | 0 <= i < |Group8.codes| :: IsCode(Group8.codes[i]) && CodeValue(Bytes(Group8.codes[i])) == Some(8)
  {
    assert IsCode(CountryIT) && CodeValue(Bytes(CountryIT)) == Some(8);
  }

  /** Group 9: each of its codes is a listed code with the value 9 in the reference. */
  lemma Group9Listed()
    ensures forall i | 0 <= i < |Group9.codes| :: IsCode(Group9.codes[i]) && CodeValue(Bytes(Group9.codes[i])) == Some(9)
  {
    assert IsCode(CountryID) && CodeValue(Bytes(CountryID)) == Some(9);
    assert IsCode(CountryPL) && CodeValue(Bytes(CountryPL)) == Some(9);
    assert IsCode(CountryMA) && CodeValue(Bytes(CountryMA)) == Some(9);
    assert IsCode(CountryTH) && CodeValue(Bytes(CountryTH)) == Some(9);
    assert IsCode(CountryAT) && CodeValue(Bytes(CountryAT)) == Some(9);
    assert IsCode(CountryAO) && CodeValue(Bytes(CountryAO)) == Some(9);
    assert IsCode(CountrySY) && CodeValue(Bytes(CountrySY)) == Some(9);
    assert IsCode(CountryHT) && CodeValue(Bytes(CountryHT)) == Some(9);
    assert IsCode(CountryLY) && CodeValue(Bytes(CountryLY)) == Some(9);
    assert IsCode(CountryGA) && CodeValue(Bytes(CountryGA)) == Some(9);
    assert IsCode(CountryGE) && CodeValue(Bytes(CountryGE)) == Some(9);
    assert IsCode(CountryBW) && CodeValue(Bytes(CountryBW)) == Some(9);
    assert IsCode(CountryMN) && CodeValue(Bytes(CountryMN)) == Some(9);
  }

  /** Group 10: each of its codes is a listed code with the value 10 in the reference. */
  lemma Group10Listed()
    ensures forall i | 0 <= i < |Group10.codes| :: IsCode(Group10.codes[i]) && CodeValue(Bytes(Group10.codes[i])) == Some(10)
  {
    assert IsCode(CountryVE) && CodeValue(Bytes(CountryVE)) == Some(10);
    assert IsCode(CountrySA) && CodeValue(Bytes(CountrySA)) == Some(10);
    assert IsCode(CountryEG) && CodeValue(Bytes(CountryEG)) == Some(10);
    assert IsCode(CountryCH) && CodeValue(Bytes(CountryCH)) == Some(10);
    assert IsCode(CountryAU) && CodeValue(Bytes(CountryAU)) == Some(10);
    assert IsCode(CountrySV) && CodeValue(Bytes(CountrySV)) == Some(10);
    assert IsCode(CountrySG) && CodeValue(Bytes(CountrySG)) == Some(10);
    assert IsCode(CountryLK) && CodeValue(Bytes(CountryLK)) == Some(10);
    assert IsCode(CountryZW) && CodeValue(Bytes(CountryZW)) == Some(10);
    assert IsCode(CountryCY) && CodeValue(Bytes(CountryCY)) == Some(10);
    assert IsCode(CountryGM) && CodeValue(Bytes(CountryGM)) == Some(10);
    assert IsCode(CountryMR) && CodeValue(Bytes(CountryMR)) == Some(10);
    assert IsCode(CountryLA) && CodeValue(Bytes(CountryLA)) == Some(10);
  }

  /** Group 11: each of its codes is a listed code with the value 11 in the reference. */
  lemma Group11Listed()
    ensures forall i | 0 <= i < |Group11.codes| :: IsCode(Group11.codes[i]) && CodeValue(Bytes(Group11.codes[i])) == Some(11)
  {
    assert IsCode(CountryPE) && CodeValue(Bytes(CountryPE)) == Some(11);
    assert IsCode(CountryDE) && CodeValue(Bytes(CountryDE)) == Some(11);
    assert IsCode(CountryDO) && CodeValue(Bytes(CountryDO)) == Some(11);
    assert IsCode(CountrySI) && CodeValue(Bytes(CountrySI)) == Some(11);
    assert IsCode(CountryFI) && CodeValue(Bytes(CountryFI)) == Some(11);
    assert IsCode(CountryNI) && CodeValue(Bytes(CountryNI)) == Some(11);
    assert IsCode(CountryAL) && CodeValue(Bytes(CountryAL)) == Some(11);
    assert IsCode(CountryCD) && CodeValue(Bytes(CountryCD)) == Some(11);
    assert IsCode(CountryTZ) && CodeValue(Bytes(CountryTZ)) == Some(11);
    assert IsCode(CountryZM) && CodeValue(Bytes(CountryZM)) == Some(11);
    assert IsCode(CountryKH) && CodeValue(Bytes(CountryKH)) == Some(11);
    assert IsCode(CountryRE) && CodeValue(Bytes(CountryRE)) == Some(11);
    assert IsCode(CountryTD) && CodeValue(Bytes(CountryTD)) == Some(11);
  }

  /** Group 12: each of its codes is a listed code with the value 12 in the reference. */
  lemma Group12Listed()
    ensures forall i | 0 <= i < |Group12.codes| :: IsCode(Group12.codes[i]) && CodeValue(Bytes(Group12.codes[i])) == Some(12)
  {
    assert IsCode(CountryAR) && CodeValue(Bytes(CountryAR)) == Some(12);
    assert IsCode(CountryUY) && CodeValue(Bytes(CountryUY)) == Some(12);
    assert IsCode(CountryUA) && CodeValue(Bytes(CountryUA)) == Some(12);
    assert IsCode(CountryHR) && CodeValue(Bytes(CountryHR)) == Some(12);
    assert IsCode(CountryEE) && CodeValue(Bytes(CountryEE)) == Some(12);
    assert IsCode(CountryBJ) && CodeValue(Bytes(CountryBJ)) == Some(12);
    assert IsCode(CountryMM) && CodeValue(Bytes(CountryMM)) == Some(12);
    assert IsCode(CountryLU) && CodeValue(Bytes(CountryLU)) == Some(12);
    assert IsCode(CountryNP) && CodeValue(Bytes(CountryNP)) == Some(12);
    assert IsCode(CountryDJ) && CodeValue(Bytes(CountryDJ)) == Some(12);
  }

  /** Group 13: each of its codes is a listed code with the value 13 in the reference. */
  lemma Group13Listed()
    ensures forall i | 0 <= i < |Group13.codes| :: IsCode(Group13.codes[i]) && CodeValue(Bytes(Group13.codes[i])) == Some(13)
  {
    assert IsCode(CountryMX) && CodeValue(Bytes(CountryMX)) == Some(13);
  }

  /** Group 14: each of its codes is a listed code with the value 14 in the reference. */
  lemma Group14Listed()
    ensures forall i | 0 <= i < |Group14.codes| :: IsCode(Group14.codes[i]) && CodeValue(Bytes(Group14.codes[i])) == Some(14)
  {
    assert IsCode(CountryVN) && CodeValue(Bytes(CountryVN)) == Some(14);
    assert IsCode(CountryEC) && CodeValue(Bytes(CountryEC)) == Some(14);
    assert IsCode(CountrySE) && CodeValue(Bytes(CountrySE)) == Some(14);
    assert IsCode(CountryDK) && CodeValue(Bytes(CountryDK)) == Some(14);
    assert IsCode(CountryRS) && CodeValue(Bytes(CountryRS)) == Some(14);
    assert IsCode(CountryHN) && CodeValue(Bytes(CountryHN)) == Some(14);
    assert IsCode(CountryLV) && CodeValue(Bytes(CountryLV)) == Some(14);
    assert IsCode(CountryPS) && CodeValue(Bytes(CountryPS)) == Some(14);
    assert IsCode(CountryML) && CodeValue(Bytes(CountryML)) == Some(14);
    assert IsCode(CountryMD) && CodeValue(Bytes(CountryMD)) == Some(14);
    assert IsCode(CountryCV) && CodeValue(Bytes(CountryCV)) == Some(14);
    assert IsCode(CountryNC) && CodeValue(Bytes(CountryNC)) == Some(14);
    assert IsCode(CountryUZ) && CodeValue(Bytes(CountryUZ)) == Some(14);
    assert IsCode(CountryAN) && CodeValue(Bytes(CountryAN)) == Some(14);
  }

  /** Group 15: each of its codes is a listed code with the value 15 in the reference. */
  lemma Group15Listed()
    ensures forall i | 0 <= i < |Group15.codes| :: IsCode(Group15.codes[i]) && CodeValue(Bytes(Group15.codes[i])) == Some(15)
  {
    assert IsCode(CountryES) && CodeValue(Bytes(CountryES)) == Some(15);
    assert IsCode(CountryCA) && CodeValue(Bytes(CountryCA)) == Some(15);
    assert IsCode(CountryTN) && CodeValue(Bytes(CountryTN)) == Some(15);
    assert IsCode(CountryPY) && CodeValue(Bytes(CountryPY)) == Some(15);
    assert IsCode(CountryPA) && CodeValue(Bytes(CountryPA)) == Some(15);
    assert IsCode(CountryMZ) && CodeValue(Bytes(CountryMZ)) == Some(15);
    assert IsCode(CountryMK) && CodeValue(Bytes(CountryMK)) == Some(15);
    assert IsCode(CountryNZ) && CodeValue(Bytes(CountryNZ)) == Some(15);
    assert IsCode(CountryAF) && CodeValue(Bytes(CountryAF)) == Some(15);
    assert IsCode(CountryCG) && CodeValue(Bytes(CountryCG)) == Some(15);
    assert IsCode(CountryFJ) && CodeValue(Bytes(CountryFJ)) == Some(15);
    assert IsCode(CountryPF) && CodeValue(Bytes(CountryPF)) == Some(15);
  }

  /** Group 16: each of its codes is a listed code with the value 16 in the reference. */
  lemma Group16Listed()
    ensures forall i | 0 <= i < |Group16.codes| :: IsCode(Group16.codes[i]) && CodeValue(Bytes(Group16.codes[i])) == Some(16)
  {
    assert IsCode(CountryCO) && CodeValue(Bytes(CountryCO)) == Some(16);
    assert IsCode(CountryLT) && CodeValue(Bytes(CountryLT)) == Some(16);
    assert IsCode(CountryIL) && CodeValue(Bytes(CountryIL)) == Some(16);
    assert IsCode(CountryIR) && CodeValue(Bytes(CountryIR)) == Some(16);
    assert IsCode(CountryGH) && CodeValue(Bytes(CountryGH)) == Some(16);
    assert IsCode(CountryIE) && CodeValue(Bytes(CountryIE)) == Some(16);
    assert IsCode(CountryBY) && CodeValue(Bytes(CountryBY)) == Some(16);
    assert IsCode(CountryNA) && CodeValue(Bytes(CountryNA)) == Some(16);
    assert IsCode(CountryGF) && CodeValue(Bytes(CountryGF)) == Some(16);
    assert IsCode(CountryAM) && CodeValue(Bytes(CountryAM)) == Some(16);
    assert IsCode(CountryGQ) && CodeValue(Bytes(CountryGQ)) == Some(16);
  }

  /** Group 17: each of its codes is a listed code with the value 17 in the reference. */
  lemma Group17Listed()
    ensures forall i | 0 <= i < |Group17.codes| :: IsCode(Group17.codes[i]) && CodeValue(Bytes(Group17.codes[i])) == Some(17)
  {
    assert IsCode(CountryPT) && CodeValue(Bytes(CountryPT)) == Some(17);
    assert IsCode(CountryHU) && CodeValue(Bytes(CountryHU)) == Some(17);
    assert IsCode(CountryMY) && CodeValue(Bytes(CountryMY)) == Some(17);
    assert IsCode(CountryCR) && CodeValue(Bytes(CountryCR)) == Some(17);
    assert IsCode(CountryCI) && CodeValue(Bytes(CountryCI)) == Some(17);
    assert IsCode(CountryKR) && CodeValue(Bytes(CountryKR)) == Some(17);
    assert IsCode(CountryBA) && CodeValue(Bytes(CountryBA)) == Some(17);
    assert IsCode(CountryOM) && CodeValue(Bytes(CountryOM)) == Some(17);
    assert IsCode(CountryUG) && CodeValue(Bytes(CountryUG)) == Some(17);
    assert IsCode(CountryAZ) && CodeValue(Bytes(CountryAZ)) == Some(17);
    assert IsCode(CountryBH) && CodeValue(Bytes(CountryBH)) == Some(17);
    assert IsCode(CountryMO) && CodeValue(Bytes(CountryMO)) == Some(17);
    assert IsCode(CountrySL) && CodeValue(Bytes(CountrySL)) == Some(17);
  }

  /** Each `if` returns its own position in the chain, 0 to 17. */
  lemma GroupValues()
    ensures |Groups| == 18
    ensures forall g | 0 <= g < |Groups| :: Groups[g].value == g
  {
  }

  /** Every group of the override agrees with the reference. */
  lemma GroupsAgreeWithReference()
    ensures AllListed(Groups)
  {
    Group0Listed();
    Group1Listed();
    Group2Listed();
    Group3Listed();
    Group4Listed();
    Group5Listed();
    Group6Listed();
    Group7Listed();
    Group8Listed();
    Group9Listed();
    Group10Listed();
    Group11Listed();
    Group12Listed();
    Group13Listed();
    Group14Listed();
    Group15Listed();
    Group16Listed();
    Group17Listed();
  }

  /** One `||` chain compares equal exactly when the key spells one of its codes. */
  lemma {:induction false} MatchesAnyIsMembership(key: seq<bv8>, codes: seq<Code>)
    requires |key| == 2
    requires forall i | 0 <= i < |codes| :: IsCode(codes[i])
    ensures MatchesAny(key, codes) <==> KeyCode(key) in codes
  {
    if |codes| > 0 {
      StrncmpMatchesCode(key, codes[0]);
      MatchesAnyIsMembership(key, codes[1..]);
      assert codes == [codes[0]] + codes[1..];
    }
  }

  /**
   * When every group agrees with the reference, the chain of `if`
   * statements finds a value exactly for the keys that spell a code of some
   * group, and that value is the reference's. The reference gives each code
   * one value, so a code in two groups would have to have one value in
   * both: the order in which the groups are tried cannot change the result.
   */
  lemma {:induction false} FirstMatchIsReference(key: seq<bv8>, groups: seq<Group>)
    requires |key| == 2 && AllListed(groups)
    ensures FirstMatch(key, groups).Some? <==> InSomeGroup(KeyCode(key), groups)
    ensures InSomeGroup(KeyCode(key), groups) ==> FirstMatch(key, groups) == CodeValue(key)
  {
    if |groups| > 0 {
      var code := KeyCode(key);
      assert GroupListed(groups[0]);
      MatchesAnyIsMembership(key, groups[0].codes);
      assert AllListed(groups[1..]) by {
        forall g | 0 <= g < |groups[1..]|
          ensures GroupListed(groups[1..][g])
        {
          assert groups[1..][g] == groups[g + 1];
        }
      }
      FirstMatchIsReference(key, groups[1..]);
      if code in groups[0].codes {
        var i :| 0 <= i < |groups[0].codes| && groups[0].codes[i] == code;
      } else {
        if InSomeGroup(code, groups) {
          var g :| 0 <= g < |groups| && code in groups[g].codes;
          assert code in groups[1..][g - 1].codes;
        }
        if InSomeGroup(code, groups[1..]) {
          var g :| 0 <= g < |groups[1..]| && code in groups[1..][g].codes;
          assert code in groups[g + 1].codes;
        }
      }
    }
  }

  /** Whatever the chain of `if` statements returns is the value of one of its groups. */
  lemma {:induction false} FirstMatchReturnsGroupValue(key: seq<bv8>, groups: seq<Group>)
    ensures FirstMatch(key, groups).Some? ==>
      exists g | 0 <= g < |groups| :: groups[g].value == FirstMatch(key, groups).value
  {
    if |groups| > 0 && !MatchesAny(key, groups[0].codes) {
      FirstMatchReturnsGroupValue(key, groups[1..]);
      if FirstMatch(key, groups[1..]).Some? {
        var g :| 0 <= g < |groups[1..]| && groups[1..][g].value == FirstMatch(key, groups[1..]).value;
        assert groups[g + 1].value == FirstMatch(key, groups).value;
      }
    }
  }

  /**
   * The override returns a value exactly for a two-byte key that spells one
   * of the listed codes, and the value is the one the reference lists for it.
   */
  lemma OverrideIsReference(key: seq<bv8>)
    ensures Override(key).Some? <==> |key| == 2 && InSomeGroup(KeyCode(key), Groups)
    ensures Override(key).Some? ==> Override(key) == CodeValue(key)
  {
    if |key| == 2 {
      GroupsAgreeWithReference();
      FirstMatchIsReference(key, Groups);
    }
  }

  /** Every listed code is overridden to the value of its own group, wherever the chain tests it. */
  lemma ListedCodeWins(g: nat, i: nat)
    requires g < |Groups| && i < |Groups[g].codes|
    ensures Override(Bytes(Groups[g].codes[i])) == Some(Groups[g].value)
  {
    var key := Bytes(Groups[g].codes[i]);
    GroupsAgreeWithReference();
    assert GroupListed(Groups[g]);
    assert KeyCode(key) == Groups[g].codes[i];
    assert KeyCode(key) in Groups[g].codes;
    OverrideIsReference(key);
  }

  /** No code is tested by two different `if` statements: the groups are pairwise disjoint. */
  lemma GroupsDisjoint(g1: nat, i1: nat, g2: nat, i2: nat)
    requires g1 < |Groups| && i1 < |Groups[g1].codes|
    requires g2 < |Groups| && i2 < |Groups[g2].codes|
    requires Groups[g1].codes[i1] == Groups[g2].codes[i2]
    ensures g1 == g2
  {
    GroupsAgreeWithReference();
    GroupValues();
    assert GroupListed(Groups[g1]) && GroupListed(Groups[g2]);
  }

  /** The override never returns more than 17. */
  lemma OverrideAtMost17(key: seq<bv8>)
    ensures Override(key).Some? ==> Override(key).value <= 17
  {
    if |key| == 2 {
      FirstMatchReturnsGroupValue(key, Groups);
      GroupValues();
    }
  }

  /** A key the reference does not list is not overridden. */
  lemma UnlistedKeyFallsThrough(key: seq<bv8>)
    requires CodeValue(key) == None
    ensures Override(key) == None
  {
    OverrideIsReference(key);
  }

  /** Matching is exact and case-sensitive: "US" and "zz" are not overridden. */
  lemma UnlistedKeys()
    ensures Override([0x55, 0x53]) == None
    ensures Override([0x7A, 0x7A]) == None
  {
    var upper: seq<bv8> := [0x55, 0x53];
    var zz: seq<bv8> := [0x7A, 0x7A];
    assert CodeValue(upper) == None;
    assert CodeValue(zz) == None;
    UnlistedKeyFallsThrough(upper);
    UnlistedKeyFallsThrough(zz);
  }

  /** The first three `if` statements: "us", "fr" and "br". */
  lemma FirstGroupExamples()
    ensures Override(Bytes(CountryUS)) == Some(0)
    ensures Override(Bytes(CountryFR)) == Some(1)
    ensures Override(Bytes(CountryBR)) == Some(2)
  {
    ListedCodeWins(0, 0);
    ListedCodeWins(1, 0);
    ListedCodeWins(2, 0);
  }

  /** "tr", "in", and "ro", which returns 4 although the log line beside its `return` prints 5. */
  lemma MiddleGroupExamples()
    ensures Override(Bytes(CountryTR)) == Some(3)
    ensures Override(Bytes(CountryRO)) == Some(4)
    ensures Override(Bytes(CountryIN)) == Some(6)
  {
    ListedCodeWins(3, 0);
    ListedCodeWins(4, 0);
    ListedCodeWins(6, 0);
  }

  /** "it", "mx", and "sl", the last code of the last `if` statement. */
  lemma LastGroupExamples()
    ensures Override(Bytes(CountryIT)) == Some(8)
    ensures Override(Bytes(CountryMX)) == Some(13)
    ensures Override(Bytes(CountrySL)) == Some(17)
  {
    ListedCodeWins(8, 0);
    ListedCodeWins(13, 0);
    ListedCodeWins(17, 12);
  }

  /** Every code the reference lists with first letter 'a' is tested by some `if`. */
  lemma ReferenceCodesInA(key: seq<bv8>)
    requires |key| == 2 && key[0] == 0x61 && CodeValue(key).Some?
    ensures InSomeGroup(KeyCode(key), Groups)
  {
    if key[1] == 0x65 { assert Groups[7].codes[5] == KeyCode(key); }
    else if key[1] == 0x66 { assert Groups[15].codes[8] == KeyCode(key); }
    else if key[1] == 0x6C { assert Groups[11].codes[6] == KeyCode(key); }
    else if key[1] == 0x6D { assert Groups[16].codes[9] == KeyCode(key); }
    else if key[1] == 0x6E { assert Groups[14].codes[13] == KeyCode(key); }
    else if key[1] == 0x6F { assert Groups[9].codes[5] == KeyCode(key); }
    else if key[1] == 0x72 { assert Groups[12].codes[0] == KeyCode(key); }
    else if key[1] == 0x74 { assert Groups[9].codes[4] == KeyCode(key); }
    else if key[1] == 0x75 { assert Groups[10].codes[4] == KeyCode(key); }
    else if key[1] == 0x7A { assert Groups[17].codes[9] == KeyCode(key); }
    else { assert false; }
  }

  /** Every code the reference lists with first letter 'b' is tested by some `if`. */
  lemma ReferenceCodesInB(key: seq<bv8>)
    requires |key| == 2 && key[0] == 0x62 && CodeValue(key).Some?
    ensures InSomeGroup(KeyCode(key), Groups)
  {
    if key[1] == 0x61 { assert Groups[17].codes[6] == KeyCode(key); }
    else if key[1] == 0x64 { assert Groups[4].codes[7] == KeyCode(key); }
    else if key[1] == 0x65 { assert Groups[4].codes[1] == KeyCode(key); }
    else if key[1] == 0x66 { assert Groups[5].codes[7] == KeyCode(key); }
    else if key[1] == 0x67 { assert Groups[7].codes[1] == KeyCode(key); }
    else if key[1] == 0x68 { assert Groups[17].codes[10] == KeyCode(key); }
    else if key[1] == 0x69 { assert Groups[1].codes[11] == KeyCode(key); }
    else if key[1] == 0x6A { assert Groups[12].codes[5] == KeyCode(key); }
    else if key[1] == 0x6F { assert Groups[0].codes[1] == KeyCode(key); }
    else if key[1] == 0x72 { assert Groups[2].codes[0] == KeyCode(key); }
    else if key[1] == 0x77 { assert Groups[9].codes[11] == KeyCode(key); }
    else if key[1] == 0x79 { assert Groups[16].codes[6] == KeyCode(key); }
    else { assert false; }
  }

  /** Every code the reference lists with first letter 'c' is tested by some `if`. */
  lemma ReferenceCodesInC(key: seq<bv8>)
    requires |key| == 2 && key[0] == 0x63 && CodeValue(key).Some?
    ensures InSomeGroup(KeyCode(key), Groups)
  {
    if key[1] == 0x61 { assert Groups[15].codes[1] == KeyCode(key); }
    else if key[1] == 0x64 { assert Groups[11].codes[7] == KeyCode(key); }
    else if key[1] == 0x67 { assert Groups[15].codes[9] == KeyCode(key); }
    else if key[1] == 0x68 { assert Groups[10].codes[3] == KeyCode(key); }
    else if key[1] == 0x69 { assert Groups[17].codes[4] == KeyCode(key); }
    else if key[1] == 0x6C { assert Groups[5].codes[0] == KeyCode(key); }
    else if key[1] == 0x6D { assert Groups[1].codes[5] == KeyCode(key); }
    else if key[1] == 0x6E { assert Groups[7].codes[0] == KeyCode(key); }
    else if key[1] == 0x6F { assert Groups[16].codes[0] == KeyCode(key); }
    else if key[1] == 0x72 { assert Groups[17].codes[3] == KeyCode(key); }
    else if key[1] == 0x75 { assert Groups[1].codes[6] == KeyCode(key); }
    else if key[1] == 0x76 { assert Groups[14].codes[10] == KeyCode(key); }
    else if key[1] == 0x79 { assert Groups[10].codes[9] == KeyCode(key); }
    else if key[1] == 0x7A { assert Groups[1].codes[1] == KeyCode(key); }
    else { assert false; }
  }

  /** Every code the reference lists with first letter 'd' is tested by some `if`. */
  lemma ReferenceCodesInD(key: seq<bv8>)
    requires |key| == 2 && key[0] == 0x64 && CodeValue(key).Some?
    ensures InSomeGroup(KeyCode(key), Groups)
  {
    if key[1] == 0x65 { assert Groups[11].codes[1] == KeyCode(key); }
    else if key[1] == 0x6A { assert Groups[12].codes[9] == KeyCode(key); }
    else if key[1] == 0x6B { assert Groups[14].codes[3] == KeyCode(key); }
    else if key[1] == 0x6F { assert Groups[11].codes[2] == KeyCode(key); }
    else if key[1] == 0x7A { assert Groups[1].codes[2] == KeyCode(key); }
    else { assert false; }
  }

  /** Every code the reference lists with first letter 'e' is tested by some `if`. */
  lemma ReferenceCodesInE(key: seq<bv8>)
    requires |key| == 2 && key[0] == 0x65 && CodeValue(key).Some?
    ensures InSomeGroup(KeyCode(key), Groups)
  {
    if key[1] == 0x63 { assert Groups[14].codes[1] == KeyCode(key); }
    else if key[1] == 0x65 { assert Groups[12].codes[4] == KeyCode(key); }
    else if key[1] == 0x67 { assert Groups[10].codes[2] == KeyCode(key); }
    else if key[1] == 0x73 { assert Groups[15].codes[0] == KeyCode(key); }
    else if key[1] == 0x74 { assert Groups[5].codes[9] == KeyCode(key); }
    else { assert false; }
  }

  /** Every code the reference lists with first letter 'f' is tested by some `if`. */
  lemma ReferenceCodesInF(key: seq<bv8>)
    requires |key| == 2 && key[0] == 0x66 && CodeValue(key).Some?
    ensures InSomeGroup(KeyCode(key), Groups)
  {
    if key[1] == 0x69 { assert Groups[11].codes[4] == KeyCode(key); }
    else if key[1] == 0x6A { assert Groups[15].codes[10] == KeyCode(key); }
    else if key[1] == 0x72 { assert Groups[1].codes[0] == KeyCode(key); }
    else { assert false; }
  }

  /** Every code the reference lists with first letter 'g' is tested by some `if`. */
  lemma ReferenceCodesInG(key: seq<bv8>)
    requires |key| == 2 && key[0] == 0x67 && CodeValue(key).Some?
    ensures InSomeGroup(KeyCode(key), Groups)
  {
    if key[1] == 0x61 { assert Groups[9].codes[9] == KeyCode(key); }
    else if key[1] == 0x62 { assert Groups[5].codes[1] == KeyCode(key); }
    else if key[1] == 0x65 { assert Groups[9].codes[10] == KeyCode(key); }
    else if key[1] == 0x66 { assert Groups[16].codes[8] == KeyCode(key); }
    else if key[1] == 0x68 { assert Groups[16].codes[4] == KeyCode(key); }
    else if key[1] == 0x6D { assert Groups[10].codes[10] == KeyCode(key); }
    else if key[1] == 0x6E { assert Groups[4].codes[10] == KeyCode(key); }
    else if key[1] == 0x70 { assert Groups[7].codes[8] == KeyCode(key); }
    else if key[1] == 0x71 { assert Groups[16].codes[10] == KeyCode(key); }
    else if key[1] == 0x72 { assert Groups[5].codes[5] == KeyCode(key); }
    else if key[1] == 0x74 { assert Groups[1].codes[3] == KeyCode(key); }
    else { assert false; }
  }

  /** Every code the reference lists with first letter 'h' is tested by some `if`. */
  lemma ReferenceCodesInH(key: seq<bv8>)
    requires |key| == 2 && key[0] == 0x68 && CodeValue(key).Some?
    ensures InSomeGroup(KeyCode(key), Groups)
  {
    if key[1] == 0x6B { assert Groups[5].codes[6] == KeyCode(key); }
    else if key[1] == 0x6E { assert Groups[14].codes[5] == KeyCode(key); }
    else if key[1] == 0x72 { assert Groups[12].codes[3] == KeyCode(key); }
    else if key[1] == 0x74 { assert Groups[9].codes[7] == KeyCode(key); }
    else if key[1] == 0x75 { assert Groups[17].codes[1] == KeyCode(key); }
    else { assert false; }
  }

  /** Every code the reference lists with first letter 'i' is tested by some `if`. */
  lemma ReferenceCodesInI(key: seq<bv8>)
    requires |key| == 2 && key[0] == 0x69 && CodeValue(key).Some?
    ensures InSomeGroup(KeyCode(key), Groups)
  {
    if key[1] == 0x64 { assert Groups[9].codes[0] == KeyCode(key); }
    else if key[1] == 0x65 { assert Groups[16].codes[5] == KeyCode(key); }
    else if key[1] == 0x6C { assert Groups[16].codes[2] == KeyCode(key); }
    else if key[1] == 0x6E { assert Groups[6].codes[0] == KeyCode(key); }
    else if key[1] == 0x71 { assert Groups[5].codes[4] == KeyCode(key); }
    else if key[1] == 0x72 { assert Groups[16].codes[3] == KeyCode(key); }
    else if key[1] == 0x73 { assert Groups[4].codes[9] == KeyCode(key); }
    else if key[1] == 0x74 { assert Groups[8].codes[0] == KeyCode(key); }
    else { assert false; }
  }

  /** Every code the reference lists with first letter 'j' is tested by some `if`. */
  lemma ReferenceCodesInJ(key: seq<bv8>)
    requires |key| == 2 && key[0] == 0x6A && CodeValue(key).Some?
    ensures InSomeGroup(KeyCode(key), Groups)
  {
    if key[1] == 0x6D { assert Groups[1].codes[9] == KeyCode(key); }
    else if key[1] == 0x6F { assert Groups[4].codes[6] == KeyCode(key); }
    else if key[1] == 0x70 { assert Groups[7].codes[3] == KeyCode(key); }
    else { assert false; }
  }

  /** Every code the reference lists with first letter 'k' is tested by some `if`. */
  lemma ReferenceCodesInK(key: seq<bv8>)
    requires |key| == 2 && key[0] == 0x6B && CodeValue(key).Some?
    ensures InSomeGroup(KeyCode(key), Groups)
  {
    if key[1] == 0x65 { assert Groups[4].codes[5] == KeyCode(key); }
    else if key[1] == 0x67 { assert Groups[5].codes[12] == KeyCode(key); }
    else if key[1] == 0x68 { assert Groups[11].codes[10] == KeyCode(key); }
    else if key[1] == 0x72 { assert Groups[17].codes[5] == KeyCode(key); }
    else if key[1] == 0x77 { assert Groups[1].codes[7] == KeyCode(key); }
    else if key[1] == 0x7A { assert Groups[4].codes[8] == KeyCode(key); }
    else { assert false; }
  }

  /** Every code the reference lists with first letter 'l' is tested by some `if`. */
  lemma ReferenceCodesInL(key: seq<bv8>)
    requires |key| == 2 && key[0] == 0x6C && CodeValue(key).Some?
    ensures InSomeGroup(KeyCode(key), Groups)
  {
    if key[1] == 0x61 { assert Groups[10].codes[12] == KeyCode(key); }
    else if key[1] == 0x62 { assert Groups[1].codes[8] == KeyCode(key); }
    else if key[1] == 0x6B { assert Groups[10].codes[7] == KeyCode(key); }
    else if key[1] == 0x72 { assert Groups[0].codes[10] == KeyCode(key); }
    else if key[1] == 0x74 { assert Groups[16].codes[1] == KeyCode(key); }
    else if key[1] == 0x75 { assert Groups[12].codes[7] == KeyCode(key); }
    else if key[1] == 0x76 { assert Groups[14].codes[6] == KeyCode(key); }
    else if key[1] == 0x79 { assert Groups[9].codes[8] == KeyCode(key); }
    else { assert false; }
  }

  /** Every code the reference lists with first letter 'm' is tested by some `if`. */
  lemma ReferenceCodesInM(key: seq<bv8>)
    requires |key| == 2 && key[0] == 0x6D && CodeValue(key).Some?
    ensures InSomeGroup(KeyCode(key), Groups)
  {
    if key[1] == 0x61 { assert Groups[9].codes[2] == KeyCode(key); }
    else if key[1] == 0x64 { assert Groups[14].codes[9] == KeyCode(key); }
    else if key[1] == 0x65 { assert Groups[1].codes[12] == KeyCode(key); }
    else if key[1] == 0x67 { assert Groups[0].codes[5] == KeyCode(key); }
    else if key[1] == 0x6B { assert Groups[15].codes[6] == KeyCode(key); }
    else if key[1] == 0x6C { assert Groups[14].codes[8] == KeyCode(key); }
    else if key[1] == 0x6D { assert Groups[12].codes[6] == KeyCode(key); }
    else if key[1] == 0x6E { assert Groups[9].codes[12] == KeyCode(key); }
    else if key[1] == 0x6F { assert Groups[17].codes[11] == KeyCode(key); }
    else if key[1] == 0x71 { assert Groups[1].codes[10] == KeyCode(key); }
    else if key[1] == 0x72 { assert Groups[10].codes[11] == KeyCode(key); }
    else if key[1] == 0x74 { assert Groups[4].codes[12] == KeyCode(key); }
    else if key[1] == 0x75 { assert Groups[5].codes[11] == KeyCode(key); }
    else if key[1] == 0x77 { assert Groups[4].codes[11] == KeyCode(key); }
    else if key[1] == 0x78 { assert Groups[13].codes[0] == KeyCode(key); }
    else if key[1] == 0x79 { assert Groups[17].codes[2] == KeyCode(key); }
    else if key[1] == 0x7A { assert Groups[15].codes[5] == KeyCode(key); }
    else { assert false; }
  }

  /** Every code the reference lists with first letter 'n' is tested by some `if`. */
  lemma ReferenceCodesInN(key: seq<bv8>)
    requires |key| == 2 && key[0] == 0x6E && CodeValue(key).Some?
    ensures InSomeGroup(KeyCode(key), Groups)
  {
    if key[1] == 0x61 { assert Groups[16].codes[7] == KeyCode(key); }
    else if key[1] == 0x63 { assert Groups[14].codes[11] == KeyCode(key); }
    else if key[1] == 0x65 { assert Groups[0].codes[8] == KeyCode(key); }
    else if key[1] == 0x67 { assert Groups[4].codes[3] == KeyCode(key); }
    else if key[1] == 0x69 { assert Groups[11].codes[5] == KeyCode(key); }
    else if key[1] == 0x6C { assert Groups[5].codes[2] == KeyCode(key); }
    else if key[1] == 0x6F { assert Groups[5].codes[3] == KeyCode(key); }
    else if key[1] == 0x70 { assert Groups[12].codes[8] == KeyCode(key); }
    else if key[1] == 0x7A { assert Groups[15].codes[7] == KeyCode(key); }
    else { assert false; }
  }

  /** Every code the reference lists with first letter 'o' is tested by some `if`. */
  lemma ReferenceCodesInO(key: seq<bv8>)
    requires |key| == 2 && key[0] == 0x6F && CodeValue(key).Some?
    ensures InSomeGroup(KeyCode(key), Groups)
  {
    if key[1] == 0x6D { assert Groups[17].codes[7] == KeyCode(key); }
    else { assert false; }
  }

  /** Every code the reference lists with first letter 'p' is tested by some `if`. */
  lemma ReferenceCodesInP(key: seq<bv8>)
    requires |key| == 2 && key[0] == 0x70 && CodeValue(key).Some?
    ensures InSomeGroup(KeyCode(key), Groups)
  {
    if key[1] == 0x61 { assert Groups[15].codes[4] == KeyCode(key); }
    else if key[1] == 0x65 { assert Groups[11].codes[0] == KeyCode(key); }
    else if key[1] == 0x66 { assert Groups[15].codes[11] == KeyCode(key); }
    else if key[1] == 0x67 { assert Groups[7].codes[9] == KeyCode(key); }
    else if key[1] == 0x68 { assert Groups[1].codes[4] == KeyCode(key); }
    else if key[1] == 0x6B { assert Groups[4].codes[4] == KeyCode(key); }
    else if key[1] == 0x6C { assert Groups[9].codes[1] == KeyCode(key); }
    else if key[1] == 0x72 { assert Groups[7].codes[4] == KeyCode(key); }
    else if key[1] == 0x73 { assert Groups[14].codes[7] == KeyCode(key); }
    else if key[1] == 0x74 { assert Groups[17].codes[0] == KeyCode(key); }
    else if key[1] == 0x79 { assert Groups[15].codes[3] == KeyCode(key); }
    else { assert false; }
  }

  /** Every code the reference lists with first letter 'q' is tested by some `if`. */
  lemma ReferenceCodesInQ(key: seq<bv8>)
    requires |key| == 2 && key[0] == 0x71 && CodeValue(key).Some?
    ensures InSomeGroup(KeyCode(key), Groups)
  {
    if key[1] == 0x61 { assert Groups[7].codes[6] == KeyCode(key); }
    else { assert false; }
  }

  /** Every code the reference lists with first letter 'r' is tested by some `if`. */
  lemma ReferenceCodesInR(key: seq<bv8>)
    requires |key| == 2 && key[0] == 0x72 && CodeValue(key).Some?
    ensures InSomeGroup(KeyCode(key), Groups)
  {
    if key[1] == 0x65 { assert Groups[11].codes[11] == KeyCode(key); }
    else if key[1] == 0x6F { assert Groups[4].codes[0] == KeyCode(key); }
    else if key[1] == 0x73 { assert Groups[14].codes[4] == KeyCode(key); }
    else if key[1] == 0x75 { assert Groups[7].codes[2] == KeyCode(key); }
    else if key[1] == 0x77 { assert Groups[5].codes[10] == KeyCode(key); }
    else { assert false; }
  }

  /** Every code the reference lists with first letter 's' is tested by some `if`. */
  lemma ReferenceCodesInS(key: seq<bv8>)
    requires |key| == 2 && key[0] == 0x73 && CodeValue(key).Some?
    ensures InSomeGroup(KeyCode(key), Groups)
  {
    if key[1] == 0x61 { assert Groups[10].codes[1] == KeyCode(key); }
    else if key[1] == 0x64 { assert Groups[7].codes[7] == KeyCode(key); }
    else if key[1] == 0x65 { assert Groups[14].codes[2] == KeyCode(key); }
    else if key[1] == 0x67 { assert Groups[10].codes[6] == KeyCode(key); }
    else if key[1] == 0x69 { assert Groups[11].codes[3] == KeyCode(key); }
    else if key[1] == 0x6B { assert Groups[0].codes[2] == KeyCode(key); }
    else if key[1] == 0x6C { assert Groups[17].codes[12] == KeyCode(key); }
    else if key[1] == 0x6E { assert Groups[0].codes[3] == KeyCode(key); }
    else if key[1] == 0x72 { assert Groups[7].codes[10] == KeyCode(key); }
    else if key[1] == 0x76 { assert Groups[10].codes[5] == KeyCode(key); }
    else if key[1] == 0x79 { assert Groups[9].codes[6] == KeyCode(key); }
    else { assert false; }
  }

  /** Every code the reference lists with first letter 't' is tested by some `if`. */
  lemma ReferenceCodesInT(key: seq<bv8>)
    requires |key| == 2 && key[0] == 0x74 && CodeValue(key).Some?
    ensures InSomeGroup(KeyCode(key), Groups)
  {
    if key[1] == 0x64 { assert Groups[11].codes[12] == KeyCode(key); }
    else if key[1] == 0x67 { assert Groups[5].codes[8] == KeyCode(key); }
    else if key[1] == 0x68 { assert Groups[9].codes[3] == KeyCode(key); }
    else if key[1] == 0x6E { assert Groups[15].codes[2] == KeyCode(key); }
    else if key[1] == 0x72 { assert Groups[3].codes[0] == KeyCode(key); }
    else if key[1] == 0x74 { assert Groups[0].codes[9] == KeyCode(key); }
    else if key[1] == 0x77 { assert Groups[0].codes[4] == KeyCode(key); }
    else if key[1] == 0x7A { assert Groups[11].codes[8] == KeyCode(key); }
    else { assert false; }
  }

  /** Every code the reference lists with first letter 'u' is tested by some `if`. */
  lemma ReferenceCodesInU(key: seq<bv8>)
    requires |key| == 2 && key[0] == 0x75 && CodeValue(key).Some?
    ensures InSomeGroup(KeyCode(key), Groups)
  {
    if key[1] == 0x61 { assert Groups[12].codes[2] == KeyCode(key); }
    else if key[1] == 0x67 { assert Groups[17].codes[8] == KeyCode(key); }
    else if key[1] == 0x73 { assert Groups[0].codes[0] == KeyCode(key); }
    else if key[1] == 0x79 { assert Groups[12].codes[1] == KeyCode(key); }
    else if key[1] == 0x7A { assert Groups[14].codes[12] == KeyCode(key); }
    else { assert false; }
  }

  /** Every code the reference lists with first letter 'v' is tested by some `if`. */
  lemma ReferenceCodesInV(key: seq<bv8>)
    requires |key| == 2 && key[0] == 0x76 && CodeValue(key).Some?
    ensures InSomeGroup(KeyCode(key), Groups)
  {
    if key[1] == 0x65 { assert Groups[10].codes[0] == KeyCode(key); }
    else if key[1] == 0x6E { assert Groups[14].codes[0] == KeyCode(key); }
    else { assert false; }
  }

  /** Every code the reference lists with first letter 'x' is tested by some `if`. */
  lemma ReferenceCodesInX(key: seq<bv8>)
    requires |key| == 2 && key[0] == 0x78 && CodeValue(key).Some?
    ensures InSomeGroup(KeyCode(key), Groups)
  {
    if key[1] == 0x6B { assert Groups[0].codes[7] == KeyCode(key); }
    else { assert false; }
  }

  /** Every code the reference lists with first letter 'y' is tested by some `if`. */
  lemma ReferenceCodesInY(key: seq<bv8>)
    requires |key| == 2 && key[0] == 0x79 && CodeValue(key).Some?
    ensures InSomeGroup(KeyCode(key), Groups)
  {
    if key[1] == 0x65 { assert Groups[0].codes[6] == KeyCode(key); }
    else { assert false; }
  }

  /** Every code the reference lists with first letter 'z' is tested by some `if`. */
  lemma ReferenceCodesInZ(key: seq<bv8>)
    requires |key| == 2 && key[0] == 0x7A && CodeValue(key).Some?
    ensures InSomeGroup(KeyCode(key), Groups)
  {
    if key[1] == 0x61 { assert Groups[4].codes[2] == KeyCode(key); }
    else if key[1] == 0x6D { assert Groups[11].codes[9] == KeyCode(key); }
    else if key[1] == 0x77 { assert Groups[10].codes[8] == KeyCode(key); }
    else { assert false; }
  }

  /** Every code the reference lists is tested by some `if`. */
  lemma ReferenceCodesInGroups(key: seq<bv8>)
    requires |key| == 2 && CodeValue(key).Some?
    ensures InSomeGroup(KeyCode(key), Groups)
  {
    if key[0] == 0x61 { ReferenceCodesInA(key); }
    else if key[0] == 0x62 { ReferenceCodesInB(key); }
    else if key[0] == 0x63 { ReferenceCodesInC(key); }
    else if key[0] == 0x64 { ReferenceCodesInD(key); }
    else if key[0] == 0x65 { ReferenceCodesInE(key); }
    else if key[0] == 0x66 { ReferenceCodesInF(key); }
    else if key[0] == 0x67 { ReferenceCodesInG(key); }
    else if key[0] == 0x68 { ReferenceCodesInH(key); }
    else if key[0] == 0x69 { ReferenceCodesInI(key); }
    else if key[0] == 0x6A { ReferenceCodesInJ(key); }
    else if key[0] == 0x6B { ReferenceCodesInK(key); }
    else if key[0] == 0x6C { ReferenceCodesInL(key); }
    else if key[0] == 0x6D { ReferenceCodesInM(key); }
    else if key[0] == 0x6E { ReferenceCodesInN(key); }
    else if key[0] == 0x6F { ReferenceCodesInO(key); }
    else if key[0] == 0x70 { ReferenceCodesInP(key); }
    else if key[0] == 0x71 { ReferenceCodesInQ(key); }
    else if key[0] == 0x72 { ReferenceCodesInR(key); }
    else if key[0] == 0x73 { ReferenceCodesInS(key); }
    else if key[0] == 0x74 { ReferenceCodesInT(key); }
    else if key[0] == 0x75 { ReferenceCodesInU(key); }
    else if key[0] == 0x76 { ReferenceCodesInV(key); }
    else if key[0] == 0x78 { ReferenceCodesInX(key); }
    else if key[0] == 0x79 { ReferenceCodesInY(key); }
    else if key[0] == 0x7A { ReferenceCodesInZ(key); }
    else { assert false; }
  }

  /**
   * The chain of `if` statements and the reference are the same function:
   * every key gets from the override exactly what the reference lists for it.
   */
  lemma OverrideEqualsReference(key: seq<bv8>)
    ensures Override(key) == CodeValue(key)
  {
    if CodeValue(key).Some? {
      ReferenceCodesInGroups(key);
      OverrideIsReference(key);
    } else {
      UnlistedKeyFallsThrough(key);
    }
  }
}
