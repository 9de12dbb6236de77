# twemproxy's CRC-32 hashes, modelled in Dafny

This project models `src/hashkit/nc_crc32.c` from twemproxy, the memcached/redis proxy. The file has three parts:

- **`crc32tab`**: the 256-entry table of the reflected CRC-32 of IEEE 802.3, with polynomial 0xEDB88320.
- **`hash_crc32a`**: the standard CRC-32 of a key.
- **`hash_crc32`**: the libmemcached-compatible hash that the proxy uses to place a key on a shard. It starts with a two-letter country override. The file declares 165 codes, tested in eighteen `if` statements that return 0 to 17. Every other key gets bits 16 to 30 of the inverted CRC register.

The project has five modules:

- **`Crc32Table`** (`crc32_table.dfy`)
  - The literal table.
  - The bit-serial shift register it tabulates.
  - The proof that every entry is its index shifted eight times through that register.
  - The fact that eight shifts of a 32-bit register depend on its low byte only through the table.
- **`Folds`** (`folds.dfy`): left folds of a step over a byte sequence. Both loops of the file are such folds.
- **`Crc32Hash`** (`crc32.dfy`)
  - The table step.
  - The register a key leaves behind.
  - CRC-32 itself.
  - `hash_crc32a` as a method whose loop is proved against the register.
  - The agreement with the bit-serial definition, the empty key and the check value. The check value is proved through the nine intermediate registers, each of which the prover evaluates as a constant.
- **`CountryOverride`** (`country_codes.dfy`)
  - The 165 codes in declaration order.
  - The eighteen groups in source order.
  - `strncmp` over C strings.
  - The `||` chains and the first-match chain of `if` statements.
  - A reference: an alphabetical table giving each code its value. The chain is proved equal to that table on every key, in both directions: each code the chain tests is listed with the chain's value, and each listed code is tested by some `if`. This makes the groups disjoint and the chain's order irrelevant.
- **`ShardHash`** (`shard_hash.dfy`)
  - `hash_crc32` as a method, proved equal to the function `ShardHash`.
  - The bounds on the result, the link to `hash_crc32a` for keys the override does not catch, and the listed and unlisted two-letter keys.

Keys are `seq<bv8>` and registers are `bv32`, so the C `uint32_t` arithmetic (`~`, `>>`, `^`, `&`) is exact.

## Model

| member | source | states |
|---|---|---|
| Crc32Table.TableEntryIsEightRounds | src/hashkit/nc_crc32.c:27-92 | every entry `crc32tab[i]` equals `i` shifted eight times through the reflected register with polynomial 0xEDB88320 |
| Crc32Table.TableLandmarks | src/hashkit/nc_crc32.c:28-60 | `crc32tab[0]` is 0 and `crc32tab[128]` is the polynomial 0xEDB88320 |
| Crc32Table.EightRoundsSplits | src/hashkit/nc_crc32.c:344 | eight shifts of any register equal eight shifts of its low byte XOR the register moved down eight places; this is why a byte-wise table lookup is correct |
| Crc32Hash.StepIsSerialStep | src/hashkit/nc_crc32.c:344 | one table step `tab[(crc ^ b) & 0xFF] ^ (crc >> 8)` equals XOR-ing the byte in and shifting the register eight times, for every register and byte |
| Crc32Hash.SwappedStep | src/hashkit/nc_crc32.c:330 | the step of `hash_crc32`, `(crc >> 8) ^ tab[(crc ^ key[x]) & 0xff]`, is the step of `hash_crc32a` |
| Crc32Hash.HashCrc32a | src/hashkit/nc_crc32.c:336-348 | the loop feeds every byte of the key in order to a register that starts at `~0U`; the result is that register XOR `~0U`, i.e. the standard CRC-32 |
| Crc32Hash.RegisterAppend | src/hashkit/nc_crc32.c:343-345 | the register loop is a left fold: the register after `a + b` is the register after `b` started from the register after `a` |
| Crc32Hash.RegisterIsSerial | src/hashkit/nc_crc32.c:343-345 | for every start value and every key, the table-driven register equals the bit-serial register fed the same bytes |
| Crc32Hash.Crc32IsSerial | src/hashkit/nc_crc32.c:342-347 | `hash_crc32a` is the bit-serial CRC-32 register, started at all ones and inverted at the end |
| Crc32Hash.EmptyKeyCrc32 | src/hashkit/nc_crc32.c:342-347 | the CRC-32 of the empty key is 0x00000000 |
| Crc32Hash.CheckValue | src/hashkit/nc_crc32.c:336-348 | the CRC-32 of "123456789" is the standard check value 0xCBF43926 |
| Crc32Hash.CheckKeyRegisters | src/hashkit/nc_crc32.c:344 | the register after each digit of "123456789", starting from 0xFFFFFFFF |
| Folds.FoldLeftAppend | src/hashkit/nc_crc32.c:329-331 | a fold over `a + b` is the fold over `b` started where the fold over `a` ends |
| Folds.FoldsAgree | src/hashkit/nc_crc32.c:343-345 | two steps that agree everywhere give the same result over every key, whether the fold is written from the front or from the end |
| CountryOverride.StrncmpFromZero | src/hashkit/nc_crc32.c:268 | against a string with no NUL in the compared positions, `strncmp` returns 0 exactly when every compared byte is equal |
| CountryOverride.StrncmpMatchesCode | src/hashkit/nc_crc32.c:268 | for a two-byte key and a listed code, `strncmp(key, code, 2) == 0` holds exactly when the key's two bytes are the code's; the test is exact and case-sensitive |
| CountryOverride.MatchesAnyIsMembership | src/hashkit/nc_crc32.c:268-270 | one `\|\|` chain of `strncmp` tests succeeds exactly when the key spells one of its codes |
| CountryOverride.Group0Listed | src/hashkit/nc_crc32.c:268-270 | every code of the first `if` is a lower-case two-letter code that the reference gives the value 0 |
| CountryOverride.Group1Listed | src/hashkit/nc_crc32.c:271-273 | every code of the second `if` is a listed code with value 1 |
| CountryOverride.Group2Listed | src/hashkit/nc_crc32.c:274-276 | "br" is a listed code with value 2 |
| CountryOverride.Group3Listed | src/hashkit/nc_crc32.c:277-279 | "tr" is a listed code with value 3 |
| CountryOverride.Group4Listed | src/hashkit/nc_crc32.c:280-284 | every code of the fifth `if` is a listed code with value 4, the value returned, not the 5 that is logged |
| CountryOverride.Group5Listed | src/hashkit/nc_crc32.c:285-287 | every code of the sixth `if` is a listed code with value 5 |
| CountryOverride.Group6Listed | src/hashkit/nc_crc32.c:288-290 | "in" is a listed code with value 6 |
| CountryOverride.Group7Listed | src/hashkit/nc_crc32.c:291-293 | every code of the eighth `if` is a listed code with value 7 |
| CountryOverride.Group8Listed | src/hashkit/nc_crc32.c:294-296 | "it" is a listed code with value 8 |
| CountryOverride.Group9Listed | src/hashkit/nc_crc32.c:297-299 | every code of the tenth `if` is a listed code with value 9 |
| CountryOverride.Group10Listed | src/hashkit/nc_crc32.c:300-302 | every code of the eleventh `if` is a listed code with value 10 |
| CountryOverride.Group11Listed | src/hashkit/nc_crc32.c:303-305 | every code of the twelfth `if` is a listed code with value 11 |
| CountryOverride.Group12Listed | src/hashkit/nc_crc32.c:306-308 | every code of the thirteenth `if` is a listed code with value 12 |
| CountryOverride.Group13Listed | src/hashkit/nc_crc32.c:309-311 | "mx" is a listed code with value 13 |
| CountryOverride.Group14Listed | src/hashkit/nc_crc32.c:312-314 | every code of the fifteenth `if` is a listed code with value 14 |
| CountryOverride.Group15Listed | src/hashkit/nc_crc32.c:315-317 | every code of the sixteenth `if` is a listed code with value 15 |
| CountryOverride.Group16Listed | src/hashkit/nc_crc32.c:318-320 | every code of the seventeenth `if` is a listed code with value 16 |
| CountryOverride.Group17Listed | src/hashkit/nc_crc32.c:321-323 | every code of the last `if` is a listed code with value 17 |
| CountryOverride.GroupValues | src/hashkit/nc_crc32.c:268-323 | there are eighteen `if` statements, and the one at position g returns g |
| CountryOverride.GroupsAgreeWithReference | src/hashkit/nc_crc32.c:268-323 | every group of the chain agrees with the reference listing |
| CountryOverride.FirstMatchIsReference | src/hashkit/nc_crc32.c:268-323 | for groups that agree with the reference, the chain returns a value exactly when the key spells a code of some group, and that value is the reference's, whatever the order of the groups |
| CountryOverride.FirstMatchReturnsGroupValue | src/hashkit/nc_crc32.c:268-323 | whatever the chain returns is the value of one of its groups |
| CountryOverride.OverrideIsReference | src/hashkit/nc_crc32.c:267-323 | the override returns a value exactly for a two-byte key that spells one of the 165 codes, and the value is the reference's for that code |
| CountryOverride.ReferenceCodesInGroups | src/hashkit/nc_crc32.c:268-323 | every two-byte key the reference lists spells a code that one of the eighteen `if` statements tests |
| CountryOverride.OverrideEqualsReference | src/hashkit/nc_crc32.c:267-323 | for every key, the override returns exactly what the reference lists for it: the same value for each of the 165 codes, and nothing for any other key |
| CountryOverride.ListedCodeWins | src/hashkit/nc_crc32.c:268-323 | each listed code is overridden to the value of its own group |
| CountryOverride.GroupsDisjoint | src/hashkit/nc_crc32.c:268-323 | no code appears in two different `if` statements |
| CountryOverride.OverrideAtMost17 | src/hashkit/nc_crc32.c:268-323 | every override result is at most 17 |
| CountryOverride.UnlistedKeyFallsThrough | src/hashkit/nc_crc32.c:267-323 | a key the reference does not list is not overridden |
| CountryOverride.UnlistedKeys | src/hashkit/nc_crc32.c:267-323 | "US" (upper case) and "zz" are not overridden |
| CountryOverride.FirstGroupExamples | src/hashkit/nc_crc32.c:268-276 | "us" gives 0, "fr" gives 1 and "br" gives 2 |
| CountryOverride.MiddleGroupExamples | src/hashkit/nc_crc32.c:277-290 | "tr" gives 3, "ro" gives 4 (not the 5 that is logged) and "in" gives 6 |
| CountryOverride.LastGroupExamples | src/hashkit/nc_crc32.c:294-323 | "it" gives 8, "mx" gives 13 and "sl", the last code tested, gives 17 |
| ShardHash.GenericHash | src/hashkit/nc_crc32.c:326-333 | the generic path's result `((~crc) >> 16) & 0x7fff` is at most 0x7FFF |
| ShardHash.ValueWord | src/hashkit/nc_crc32.c:268-323 | an override value 0 to 17 is returned as the `uint32_t` with the same number |
| ShardHash.HashCrc32 | src/hashkit/nc_crc32.c:264-334 | tries the override only for a two-byte key, and returns its value when it matches; otherwise runs the register loop over the whole key and returns the masked inverted register |
| ShardHash.ShardHashBounded | src/hashkit/nc_crc32.c:264-334 | every result of `hash_crc32` is at most 32767 |
| ShardHash.OverriddenHashAtMost17 | src/hashkit/nc_crc32.c:268-323 | an overridden key hashes to at most 17 |
| ShardHash.NotOverriddenIsCrc32 | src/hashkit/nc_crc32.c:326-333 | for every key the override does not catch, `hash_crc32(k) == (hash_crc32a(k) >> 16) & 0x7fff` |
| ShardHash.OtherLengthsAreGeneric | src/hashkit/nc_crc32.c:267-333 | a key whose length is not 2 always takes the CRC path |
| ShardHash.EmptyKeyHash | src/hashkit/nc_crc32.c:326-333 | the empty key hashes to 0 |
| ShardHash.ListedCodeHash | src/hashkit/nc_crc32.c:264-323 | each listed code hashes to its group's value, whatever its CRC |
| ShardHash.UnlistedKeyHash | src/hashkit/nc_crc32.c:267-333 | a key the reference does not list, such as "US" or "zz", hashes to its masked CRC bits with no error |

## Left out

- The `log_debug` call beside `return 4` (lines 281-282) is logging I/O and has no effect on the result. Only the returned 4 is modelled.
- Pointers and the signedness of `char` (lines 330 and 339-344) are not modelled. The key is a byte sequence; the table index is masked with `0xff`, so a signed `char` gives the same result.
- `nc_core.h`, and the configuration that chooses between the hash functions, are not part of this model.
- The table is stored as sixteen rows of sixteen entries. `CrcTable(i)` reads row `i >> 4`, column `i & 0xF`, which is entry `i` of the flat C array.
- `CountryOverride.Strncmp`: `strncmp` is modelled as the difference of the first unequal unsigned bytes. C promises only the sign of that result, and the model uses only whether it is zero.
- `CountryOverride.Group`: override values are stored as mathematical naturals. `ShardHash.ValueWord` converts them to the returned `uint32_t`.
- `ShardHash.HashCrc32` applies the step in the operand order of `hash_crc32a`. `Crc32Hash.SwappedStep` proves that this order is the same as line 330's.
- The `||` chains are evaluated left to right, as in C. Because every test is a pure comparison, stopping early is not modelled separately from the boolean result.
