# A verified model of the mapsforge POI store's native layer

The POI library of mapsforge keeps its categories in a SQLite database that may be encrypted. This
project models the parts of that library whose correctness is hard to see, and proves what each
promises. `dafny verify dfyconfig.toml` checks all of it with Dafny 4.11.

| file | models |
|---|---|
| `Wrappers.dfy`, `Bytes.dfy`, `Field.dfy` | optional values; bytes, words and blocks; the field with 256 elements |
| `Tables.dfy` | the literal tables of `rijndael.c`, as decision trees over the bits of the index |
| `Aes.dfy`, `KeySchedule.dfy`, `Modes.dfy` | the cipher, the key schedule, chaining, codebook and padding as FIPS 197, SP 800-38A and RFC 5652 define them, and their inverses |
| `Rijndael.dfy`, `RijndaelApi.dfy` | `rijndael.c`: the object with its expanded key, and the calls over buffers |
| `CipherVector.dfy` | the example of Appendix B of FIPS 197, round by round |
| `Md5.dfy`, `Rc4.dfy`, `InitialVector.dfy` | `codec.c`: streaming MD5, RC4, the generator of the vectors |
| `DigestVectors.dfy` | two of the digests that RFC 1321 prints, in blocks of sixteen steps |
| `PageCipher.dfy`, `Codec.dfy` | `codec.c`: the cipher of a page, keys from passwords, the codec object |
| `Pager.dfy`, `RekeyRun.dfy`, `Rekey.dfy` | `codecext.c`: the pager as an environment, a change of key as a function of the pager's answers, and the database object that it is done on |
| `StringEncoder.dfy` | `StringEncoder.java` |
| `RowBuffer.dfy`, `Handles.dfy` | `sqlite3_jni.c`: the row table, and the connections and the lists of open blobs and backups |
| `Categories.dfy` | the tree of categories, its numbering, and the whitelist filter |

Each algorithm that the source runs in place is a method over the same arrays or objects, proved equal
to a function of the old contents; the properties are then lemmas about that function. A 32-bit XOR is
four byte XORs, so the byte order of the machine does not enter. Some code has outcomes that differ from
what its comments promise; the model follows the code and proves when the promise holds:

* The page loop of `sqlite3_rekey` counts its errors in a second variable `rc` from SQLite 3.6.0 on
  (`codecext.c:250`), so a page error does not stop the commit that the comment at line 290 makes depend
  on it. `Rekeyed` takes the version and the answers of the pager as parameters: with one `rc` every
  success preserves the database, with two `HiddenPageError` is a run that loses a page, and `KeptExactly`
  says for every run of an encryption or decryption whether it is safe.
* A failed decryption leaves the codec without a write key (`codecext.c:230` against 312-318). What is
  on the disk still reads correctly, but a page written afterwards does not: `AbandonedDecryption` is such
  a run, and `RekeyedReadsBack` says for every run whether that happens.
* Codebook padding writes a full block of padding (`rijndael.c:1160`) that the decryption rejects
  (`rijndael.c:1321`): `PadRoundTrip` holds if and only if the mode is chaining or the length is no
  multiple of 16.
* `RijndaelPadEncrypt` reports a wrong direction as "not initialized" (`rijndael.c:1145`).
* `open4` calls `sqlite3_open_v2` twice (`sqlite3_jni.c:726` and 734), and the second connection takes the
  place of the first: `Open` loses a connection each time the first call succeeds.
* `doclose` and `open4` close the connection before the blobs and backups that use it (`sqlite3_jni.c:538`),
  SQLite refuses that (`sqlite3.c:106290-106304`), and the refusal is not looked at: the connection is lost
  if and only if one of them is open (`CloseDatabase`, `Open`, `InUseMeans`).
* `StringEncoder.decode` documents one exception for malformed texts; it throws three others as well
  (`Decode`).
* `calculateCategoryIDs` documents the root's ID as its result; it returns one more.
* `setParent` does not take a category out of its old parent's list (`SetParent`).

In `Pager.dfy` the disk maps page numbers to images, the cache to plaintexts, and the journal to
records. What the pager does in each call (which pages it spills and drops, and whether it fails) is
chosen by an arbitrary function, so the results hold for every such choice. In `Handles.dfy`, allocation
and SQLite objects are sets: closing an object requires that it is open, and the invariant speaks of
everything allocated at the time. The tree of a category is a ghost value that says which objects form it.

Members that compute a function's value in several steps, and lemmas that only serve one proof, have no
row below.

## Model

| member | source | states |
|---|---|---|
| `Aes.SBoxesInverse` | mapsforge-poi/jni/rijndael.c:57-75 | `S` and `S5` undo each other on every byte, in both orders; with lines 622-688 this covers both literal tables |
| `Aes.SBoxMeaning` | mapsforge-poi/jni/rijndael.c:57-75 | every entry of `S` is the field inverse followed by the affine map, as section 5.1.1 of FIPS 197 defines it |
| `Aes.EncryptionTables` | mapsforge-poi/jni/rijndael.c:78-348 | row by row, `T1` to `T4` are MixColumn of the S-box value in row 0 to 3 of a column |
| `Aes.DecryptionTables` | mapsforge-poi/jni/rijndael.c:350-620 | row by row, `T5` to `T8` are InvMixColumn of the inverse S-box value |
| `Aes.KeyTables` | mapsforge-poi/jni/rijndael.c:690-960 | row by row, `U1` to `U4` are InvMixColumn of the byte |
| `Aes.MixColumnInverse` | mapsforge-poi/jni/rijndael.c:1470-1619 | the two column matrices the tables are built from are inverse to each other on every column |
| `Aes.InvCipherUndoesCipher` | mapsforge-poi/jni/rijndael.c:1545-1619 | the inverse cipher of section 5.3 of FIPS 197 undoes the cipher of section 5.1 for every block, every number of rounds and every schedule |
| `Aes.CipherUndoesInvCipher` | mapsforge-poi/jni/rijndael.c:1470-1543 | and the cipher undoes the inverse cipher |
| `Aes.EquivalentInverse` | mapsforge-poi/jni/rijndael.c:1452-1468 | running the rounds in the code's order under a schedule with InvMixColumn on its middle words is the inverse cipher (section 5.3.5) |
| `KeySchedule.RconIsPower` | mapsforge-poi/jni/rijndael.c:962-969 | the thirty literal round constants are the powers of x in the field |
| `KeySchedule.EncScheduleFollows` | mapsforge-poi/jni/rijndael.c:1405-1450 | byte by byte: the first Nk words are the key; byte j of a word at a multiple of Nk is byte j of the word Nk before, plus S of byte j+1 modulo 4 of the word just before, plus the round constant in byte 0; for eight words the middle one adds S of each byte; every other word adds the word just before |
| `KeySchedule.RecurrenceDetermines` | mapsforge-poi/jni/rijndael.c:1405-1450 | no other list of words does that |
| `CipherVector.AppendixB` | mapsforge-poi/jni/rijndael.c:1372-1543 | the example of Appendix B of FIPS 197, with every round key and every state in between: from the bytes of key and plaintext to those of the ciphertext |
| `CipherVector.AppendixBInverse` | mapsforge-poi/jni/rijndael.c:1452-1619 | and back |
| `KeySchedule.KeyedCipherInverse` | mapsforge-poi/jni/rijndael.c:1372-1619 | for each of the three key lengths, deciphering under the transformed expanded key undoes enciphering under the expanded key, and the reverse |
| `RijndaelObject.EncColumnMeaning` | mapsforge-poi/jni/rijndael.c:1475-1538 | four table look-ups and XORs are SubBytes and MixColumn of a column; the second byte of `T1` is the S-box |
| `RijndaelObject.DecColumnMeaning` | mapsforge-poi/jni/rijndael.c:1555-1614 | four `T5` to `T8` look-ups and XORs are InvSubBytes and InvMixColumn of a column |
| `RijndaelObject.KeyColumnMeaning` | mapsforge-poi/jni/rijndael.c:1457-1467 | four `U1` to `U4` look-ups and XORs are InvMixColumn of a key word |
| `RijndaelObject.Rijndael.Encrypt` | mapsforge-poi/jni/rijndael.c:1470-1543 | writes the cipher of section 5.1 of FIPS 197 of the block it read, and nothing else, also when both arrays are the same |
| `RijndaelObject.Rijndael.Decrypt` | mapsforge-poi/jni/rijndael.c:1545-1619 | writes the equivalent inverse cipher of the block it read, and nothing else, also in place |
| `RijndaelObject.Rijndael.KeySched` | mapsforge-poi/jni/rijndael.c:1372-1450 | the rolling loop ends, fills words 0 to 4(Nr+1)-1 with the recurrence of section 5.2 of FIPS 197, stated by bytes as in `EncScheduleFollows`, and leaves the spare rows alone; it uses 10, 8 or 7 round constants |
| `RijndaelObject.Rijndael.ScheduleByRow` | mapsforge-poi/jni/rijndael.c:1405-1410 | word i of the schedule is entry i mod 4 of row i/4 of the expanded key |
| `RijndaelObject.Rijndael.StoreColumns` | mapsforge-poi/jni/rijndael.c:1437-1448 | one flush of the rolling key continues the schedule where the last one stopped, across row boundaries, and stops at the last row |
| `RijndaelObject.Rijndael.AdvanceKey` | mapsforge-poi/jni/rijndael.c:1411-1436 | turns Nk words of the schedule into the next Nk, with the extra substitution for eight words |
| `RijndaelObject.Rijndael.KeyEncToDec` | mapsforge-poi/jni/rijndael.c:1452-1468 | turns the schedule, in place, into its decryption schedule: the first and last round keys kept, InvMixColumn on the others |
| `RijndaelApi.Init` | mapsforge-poi/jni/rijndael.c:983-1051 | each error code under its condition, in the order of the checks; on success mode, direction, rounds, vector and the schedule for the direction, and only then valid |
| `Modes.CbcRoundTrip` | mapsforge-poi/jni/rijndael.c:1075-1247 | chaining decryption undoes chaining encryption for every key length, vector and data of any length |
| `Modes.CbcRoundTripBack` | mapsforge-poi/jni/rijndael.c:1075-1247 | and the reverse |
| `Modes.EcbRoundTrip` | mapsforge-poi/jni/rijndael.c:1067-1218 | codebook decryption undoes codebook encryption |
| `Modes.CbcBlocks` | mapsforge-poi/jni/rijndael.c:1075-1092 | each ciphertext block is the cipher of its plaintext block XORed with the block before it: section 6.2 of NIST SP 800-38A |
| `Modes.EcbBlocks` | mapsforge-poi/jni/rijndael.c:1066-1073 | in codebook mode each block is the cipher of its own plaintext block |
| `RijndaelApi.BlockEncrypt` | mapsforge-poi/jni/rijndael.c:1053-1137 | return codes; the whole blocks become the codebook or chained encryption of what the input held, in place or not, and the rest of the buffer is kept; in chaining mode less than 128 bits still encrypts one block |
| `RijndaelApi.BlockDecrypt` | mapsforge-poi/jni/rijndael.c:1197-1292 | return codes; the whole blocks become the decryption of what the input held, in place or not, and the rest is kept |
| `RijndaelApi.PadEncrypt` | mapsforge-poi/jni/rijndael.c:1139-1195 | returns 16(n/16+1) and writes the encryption of the padded input, in place or not; a wrong direction is reported as not initialized, and CFB1 gives -1 |
| `RijndaelApi.PadDecrypt` | mapsforge-poi/jni/rijndael.c:1294-1364 | every error case; otherwise returns the length and writes the bytes of the unpadded decryption and nothing beyond, or rejects exactly the buffers that end in no padding; the output needs room for what is written only |
| `RijndaelApi.PadRoundTrip` | mapsforge-poi/jni/rijndael.c:1139-1364 | padded decryption returns exactly what was encrypted, in chaining mode for every length, and in codebook mode if and only if the length is no multiple of 16 (line 1321 rejects the full block of padding that line 1160 writes) |
| `Modes.UnpadExact` | mapsforge-poi/jni/rijndael.c:1349-1355 | in chaining mode a buffer is accepted if and only if it is the padding (section 6.3 of RFC 5652) of the bytes returned |
| `Modes.UnpadCodebook` | mapsforge-poi/jni/rijndael.c:1320-1326 | the codebook test accepts the padding if and only if it is shorter than a block |
| `Md5.ListingFollowsRfc` | mapsforge-poi/jni/codec.c:264-345 | the 64 steps take message words and rotations in the order of section 3.4 of RFC 1321 |
| `Md5.MixMeaning` | mapsforge-poi/jni/codec.c:249-253 | the four macros are the functions F, G, H and I of RFC 1321 |
| `Md5.StepIsRfcStep` | mapsforge-poi/jni/codec.c:256-257 | one step is a = b + ((a + f(b,c,d) + X[k] + T[i]) <<< s) of section 3.4 of RFC 1321, with the registers moved on by one |
| `Md5.FourSteps` | mapsforge-poi/jni/codec.c:269-339 | four steps in a row are [ABCD k s i], [DABC k s i], [CDAB k s i] and [BCDA k s i] on registers that stay where they are |
| `DigestVectors.DigestOfEmpty` | mapsforge-poi/jni/codec.c:112-357 | the digest that section A.5 of RFC 1321 prints for the empty message, through all 64 steps |
| `DigestVectors.DigestOfAbc` | mapsforge-poi/jni/codec.c:112-357 | and the one for abc: constants, byte order, padding and final addition are those of the standard |
| `Md5.CountAdvances` | mapsforge-poi/jni/codec.c:205-210 | the carry test on the low word keeps the two words equal to eight times the byte count modulo 2^64, for every length of call |
| `Md5.Context.Update` | mapsforge-poi/jni/codec.c:199-246 | however the data is cut into calls, the context depends on the concatenation only: the chaining words are the fold over its complete blocks, the pending block holds the tail, the count is exact |
| `Md5.FoldCompletes` | mapsforge-poi/jni/codec.c:216-231 | filling the pending block and compressing it is the fold over the longer data |
| `Md5.FoldWaits` | mapsforge-poi/jni/codec.c:220-225 | bytes that do not fill the pending block change neither the fold nor what is pending before them |
| `Md5.Context.Final` | mapsforge-poi/jni/codec.c:144-186 | the digest of all data seen, in the one-block and the two-block branch |
| `Md5.Context.Finish` | mapsforge-poi/jni/codec.c:149-182 | what is compressed in all is the message and then one bit, the least zeros and the 64-bit length of sections 3.1 and 3.2 of RFC 1321 |
| `Md5.OneLastBlock` | mapsforge-poi/jni/codec.c:171-182 | up to 55 pending bytes need one last block |
| `Md5.TwoLastBlocks` | mapsforge-poi/jni/codec.c:161-182 | more need two |
| `Md5.GetMD5Binary` | mapsforge-poi/jni/codec.c:396-403 | the digest of a buffer, which it may overwrite |
| `Rc4.Exchange` | mapsforge-poi/jni/codec.c:378-381 | swapping two entries keeps the state a permutation of 0 to 255 |
| `Rc4.SetUp` | mapsforge-poi/jni/codec.c:371-382 | key setup yields the state of the specification, which is a permutation |
| `Rc4.SetUpOne` | mapsforge-poi/jni/codec.c:378-381 | on the array: j moves by entry i and a byte of the key, those two entries are exchanged, the others kept |
| `Rc4.NextByte` | mapsforge-poi/jni/codec.c:386-391 | one byte of key stream, on the array: a moves by one, b by the entry there, the two entries are exchanged and the others kept, and the byte is the entry that their sum selects |
| `Rc4.KeyStream` | mapsforge-poi/jni/codec.c:371-393 | the whole cipher by such turns: 256 from the identity under the bytes of the key, repeated as needed, then one before each byte of text |
| `Rc4.CodecRC4` | mapsforge-poi/jni/codec.c:357-394 | the text combined with the key stream, in place or not, nothing beyond it changed |
| `Rc4.CipherTwice` | mapsforge-poi/jni/codec.c:357-394 | a second application with the same key restores texts of any length |
| `InitialVector.ModMultExact` | mapsforge-poi/jni/codec.c:413 | no intermediate leaves 32 bits, and the result is 40692 z modulo 2147483399, for positive and negative z |
| `InitialVector.ModMultStays` | mapsforge-poi/jni/codec.c:413-423 | from 1 to 2147483398 the generator stays in that range |
| `InitialVector.ModMultInjective` | mapsforge-poi/jni/codec.c:413-423 | two arguments give the same value if and only if they agree modulo 2147483399 |
| `InitialVector.InitKeyWords` | mapsforge-poi/jni/codec.c:416-428 | read back as little-endian numbers, the sixteen bytes are the successor of the page number times 40692 modulo 2147483399, and three times that again |
| `InitialVector.InitKeysDistinct` | mapsforge-poi/jni/codec.c:416-428 | two pages hash the same sixteen bytes if and only if their successors agree modulo 2147483399, so pages in one period never do |
| `InitialVector.GenerateInitialVector` | mapsforge-poi/jni/codec.c:415-430 | writes the digest of the four little-endian words of the generator |
| `CodecObject.CodecAES` | mapsforge-poi/jni/codec.c:432-486 | one page: key and vector derived from the database key and the page number, the whole blocks of the data enciphered or deciphered under them, in place or not; fewer than 16 bytes still encipher one block, and none is left alone |
| `PageCipher.SaltedKeyBytes` | mapsforge-poi/jni/codec.c:445-458 | what is digested for a page: sixteen bytes of key, the page number with its low byte first, then 73 41 6c 54 |
| `PageCipher.SaltedKeysDistinct` | mapsforge-poi/jni/codec.c:445-458 | it is the same for two keys and pages if and only if both are the same |
| `PageCipher.PageBlocks` | mapsforge-poi/jni/codec.c:460-486 | every block of an encrypted page, the first one included, is the cipher, under the schedule of that digest, of its plaintext block XORed with the block before or with the vector of the page |
| `PageCipher.PageRoundTrip` | mapsforge-poi/jni/codec.c:432-486 | for each key and page number, decryption and encryption of a page are inverse, both ways, for data of any length |
| `PageCipher.EncryptionChangesData` | mapsforge-poi/jni/codec.c:702-708 | for every key, page and page size of two blocks or more there is data that encryption changes |
| `PageCipher.DecryptionChangesData` | mapsforge-poi/jni/codec.c:710-714 | and an image that is not its own plaintext |
| `CodecObject.PadInto` | mapsforge-poi/jni/codec.c:597-613 | byte by byte: the first 32 bytes of the password at most, then the literal padding string from its start; a negative length counts as no password |
| `PageCipher.PadAlike` | mapsforge-poi/jni/codec.c:597-613 | two passwords are padded alike if and only if their first 32 bytes agree, or one fills them and is the other one with the padding typed behind it; shorter ones only if they are equal |
| `CodecObject.GenerateEncryptionKey` | mapsforge-poi/jni/codec.c:627-700 | computed in place, the key of a database is the function `DeriveKey` of the password, which `KeyChains` takes apart |
| `PageCipher.RoundKeyBytes` | mapsforge-poi/jni/codec.c:676-679 | byte j of the key of round i is byte j of the digest XOR i |
| `PageCipher.KeyChains` | mapsforge-poi/jni/codec.c:651-698 | step by step: 51 digests from the padding on, twenty rounds of RC4 over the padded password, byte j of the key of round i being byte j of the last digest XOR i, and 51 digests from the padded password and the result on |
| `PageCipher.OwnerKeyReversible` | mapsforge-poi/jni/codec.c:674-682 | the twenty rounds lose nothing: taken off in reverse order they give the padded password back |
| `CodecObject.Codec.CopyKey` | mapsforge-poi/jni/codec.c:577-595 | one key becomes the other, in the direction asked for, and nothing else changes |
| `CodecObject.Codec.Copy` | mapsforge-poi/jni/codec.c:561-575 | takes over flags, keys and B-tree of another codec and invalidates the cipher object |
| `CodecObject.Codec.Encrypt` | mapsforge-poi/jni/codec.c:702-708 | in place under the key chosen, keys and flags kept |
| `CodecObject.Codec.Decrypt` | mapsforge-poi/jni/codec.c:710-714 | in place under the read key, keys and flags kept |
| `CodecExt.Sqlite3Codec` | mapsforge-poi/jni/codecext.c:30-86 | by number: modes 0, 2 and 3 decipher in place under the read key; 6 and 7 leave the data alone and return the page buffer with an image that `PageDecrypt` under the write key and the read key turns back into it; any other number, or no codec, encryption or key, changes nothing and returns the data |
| `PagerModel.ModesByNumber` | mapsforge-poi/jni/codecext.c:56-83 | modes 0, 2 and 3 undo mode 7 and the reverse, and decryption under the write key undoes mode 6 |
| `PagerModel.JournalUndoesLoad` | mapsforge-poi/jni/codecext.c:67-83 | a record written in mode 7 is byte for byte the image its page was loaded from, whatever the write key is |
| `PagerModel.StepKeepsRestorable` | mapsforge-poi/jni/codecext.c:30-86 | loading, recording, writing, spilling or dropping pages keeps journal and disk such that rollback restores the start |
| `PagerModel.RunKeepsRestorable` | mapsforge-poi/jni/codecext.c:30-86 | so does every run of such actions |
| `PagerModel.RollbackRestoresDisk` | mapsforge-poi/jni/codecext.c:293-297 | after any run from an idle pager, playing the journal back restores the disk byte for byte and leaves the cache as the codec reads it |
| `PagerModel.WriteAdvances` | mapsforge-poi/jni/codecext.c:264-285 | rewriting the next page, with any spilling and dropping around it and any failure in it, keeps every page either at its old image, or coded for writing from its old plaintext, or dirty with that plaintext |
| `PagerModel.CommitWrites` | mapsforge-poi/jni/codecext.c:288-292 | a commit leaves every rewritten page coded for writing and every other page as it was; a failed one keeps the transaction intact |
| `PagerModel.RollbackRestores` | mapsforge-poi/jni/codecext.c:293-297 | rollback, wherever the transaction stopped, restores the disk |
| `RekeyRuns.LoopStopsAtFirstError` | mapsforge-poi/jni/codecext.c:264-285 | the page loop gets through all pages if and only if no call fails; otherwise it stops right after the first failing call, returns its code, and has got through exactly the pages before, two calls each |
| `RekeyRuns.VerdictMeaning` | mapsforge-poi/jni/codecext.c:241-297 | success is reported if and only if begin and commit succeed and, before version 3006000, every page call does too; from then on the page errors do not count |
| `RekeyRuns.LoopKeepsProgress` | mapsforge-poi/jni/codecext.c:264-285 | after any run of the loop, with any spilling, dropping and failing, each page is as before, or coded for writing from its old plaintext, or dirty with that plaintext |
| `RekeyRuns.TransactionKeeps` | mapsforge-poi/jni/codecext.c:241-297 | either all pages that the loop got through are rewritten and committed, or the disk is as before |
| `RekeyRuns.RekeyedKeeps` | mapsforge-poi/jni/codecext.c:177-347 | success: each page the loop got through, but the lock page, reads as before under the codec left behind, which holds the new key or is gone; failure: the disk is byte for byte what it was and reads as it did |
| `RekeyRuns.RekeyedReadsBack` | mapsforge-poi/jni/codecext.c:299-323 | the codec left behind reads back whatever it writes if and only if a key was given, or the change succeeded, or nothing was enciphered before: an abandoned decryption (line 230) is the one exception |
| `RekeyRuns.KeptBySuccess` | mapsforge-poi/jni/codecext.c:241-311 | a run that reports success preserves every idle database of its number and size of pages if and only if each page that the loop did not reach reads under the new codec as under the old one |
| `RekeyRuns.KeptExactly` | mapsforge-poi/jni/codecext.c:241-311 | a change between encrypted and plain preserves every idle database if and only if the version is below 3006000, or begin or commit fails, or no page call fails |
| `RekeyRuns.ChangedReading` | mapsforge-poi/jni/codecext.c:241-311 | for each page and each page size of 32 bytes or more there is an image that reads differently before and after such a change |
| `RekeyRuns.HiddenPageError` | mapsforge-poi/jni/codecext.c:250-292 | a run on one page whose get fails, begin and commit succeeding: from version 3006000 on it reports success and the page reads differently; before, it reports the error and nothing changes |
| `RekeyRuns.AbandonedDecryption` | mapsforge-poi/jni/codecext.c:226-231 | a decryption whose begin fails: the database reads as before, and the codec, which read back all it wrote, no longer does |
| `RekeyRuns.CommittedReads` | mapsforge-poi/jni/codecext.c:299-311 | what was written during the change is read back after it |
| `RekeyRuns.AbandonedReads` | mapsforge-poi/jni/codecext.c:312-323 | what was there before an abandoned change is read as during it |
| `RekeyRuns.ReadsBackAfter` | mapsforge-poi/jni/codecext.c:299-323 | a finished codec reads back whatever it writes if and only if the change was committed, or a write key was set, or there was no read key |
| `CodecExt.Database.RewritePages` | mapsforge-poi/jni/codecext.c:264-285 | the loop in place: return code, pages done, number of calls and the pager afterwards are those of the functions `Loop` and `LoopPager` |
| `CodecExt.Database.Transaction` | mapsforge-poi/jni/codecext.c:241-297 | in place: return code, pages done, number of calls and pager are those of `Verdict` and `Transacted` for the version |
| `CodecExt.Database.NewKeyMeans` | mapsforge-poi/jni/codecext.c:184-234 | no password, or one of length 0, asks for decryption; otherwise the key is the one that its bytes derive, none of them if the length is negative |
| `CodecExt.LockPage` | mapsforge-poi/jni/codecext.c:259 | the skipped page is the one that holds the byte at 2^30 |
| `CodecExt.AllButTheLockPage` | mapsforge-poi/jni/codecext.c:264-285 | so up to 2^30 bytes no page is skipped |
| `CodecExt.Database.Rekey` | mapsforge-poi/jni/codecext.c:177-347 | in place: the whole outcome (return code, pages done, number of calls, codec, pager) is that of the function `Rekeyed` for the version and the answers of the pager, with everything that `RekeyedKeeps` and `RekeyedReadsBack` say of it; after success with all pages done, each page that ends at or before byte 2^30, or begins behind it, reads as before, and so every page of a database of up to 2^30 bytes |
| `CodecExt.EncryptInVain` | mapsforge-poi/jni/codecext.c:177-347 | the call on a database object with one page: version 3006020 returns 0 after a hidden page error, and an image that decryption changes (`ChangedReading` gives one) is lost to the codec |
| `CodecExt.DecryptInVain` | mapsforge-poi/jni/codecext.c:177-347 | the call whose begin fails: the code is returned and the codec left behind does not read back what it writes |
| `CodecExt.Database.Attach` | mapsforge-poi/jni/codecext.c:100-159 | a key installs a codec with it as read and write key; no key and a negative length on an attached database copies the main codec if that is encrypted; otherwise nothing changes |
| `RekeyRuns.KeyedReadsBack` | mapsforge-poi/jni/codecext.c:100-159 | such a codec reads back whatever it writes |
| `StringEncoder.CountBytes` | mapsforge-poi/src/org/sqlite/android/StringEncoder.java:47-50 | one count for each byte value |
| `StringEncoder.CountsAreEscapes` | mapsforge-poi/src/org/sqlite/android/StringEncoder.java:58 | the sum of the three counts is the number of bytes that the shift makes escape |
| `StringEncoder.AveragingBound` | mapsforge-poi/src/org/sqlite/android/StringEncoder.java:54-68 | a number of escapes that none of the 254 shifts undercuts is at most 3n/254 |
| `StringEncoder.ChooseShift` | mapsforge-poi/src/org/sqlite/android/StringEncoder.java:52-68 | the first of the 254 shifts with the fewest escapes, in spite of the early exit, with its exact number; the placeholder is always replaced |
| `StringEncoder.BestLength` | mapsforge-poi/src/org/sqlite/android/StringEncoder.java:25-28 | the text is at most 1+257n/254 long, as its documentation says |
| `StringEncoder.Encode` | mapsforge-poi/src/org/sqlite/android/StringEncoder.java:41-91 | the shift and the escaped bytes; no zero, no quote, never of the X'..' form, within the length bound; "x" for null and empty |
| `StringEncoder.EscapedIsClean` | mapsforge-poi/src/org/sqlite/android/StringEncoder.java:74-89 | under every shift the output is free of zeros and quotes |
| `StringEncoder.EscapedByCode` | mapsforge-poi/src/org/sqlite/android/StringEncoder.java:73-89 | each byte adds its difference from the shift modulo 256, with 0, 1 and 39 written as 1 and 1, 2 or 3 |
| `StringEncoder.DecodeUndoesEncode` | mapsforge-poi/src/org/sqlite/android/StringEncoder.java:237-264 | decode returns the array, whichever shift encode chose |
| `StringEncoder.EscapingUndoesDecode` | mapsforge-poi/src/org/sqlite/android/StringEncoder.java:237-264 | the converse: a clean text that decode accepts is the escaping of the bytes it returns |
| `StringEncoder.EncodeThenDecode` | mapsforge-poi/src/org/sqlite/android/StringEncoder.java:41-265 | decode(encode(a)) is a for every array, and empty for null |
| `StringEncoder.Decode` | mapsforge-poi/src/org/sqlite/android/StringEncoder.java:106-265 | both forms, and the exact exception for each malformed text: no character, an even length in the X'..' form, a cut-off or unknown escape |
| `StringEncoder.ByteCopy` | mapsforge-poi/src/org/sqlite/android/StringEncoder.java:282-288 | copies the range and nothing else |
| `StringEncoder.DecodeUndoesBlobText` | mapsforge-poi/src/org/sqlite/android/StringEncoder.java:106-236 | decode undoes the X'..' form of every array |
| `StringEncoder.EncodeX` | mapsforge-poi/src/org/sqlite/android/StringEncoder.java:302-317 | writes the X'..' form of the array, which decodes to it |
| `StringEncoder.BlobPositions` | mapsforge-poi/src/org/sqlite/android/StringEncoder.java:302-317 | by position: X, a quote, the capital hexadecimal digits of each byte, high one first, and a quote |
| `StringEncoder.DigitPlaces` | mapsforge-poi/src/org/sqlite/android/StringEncoder.java:114-235 | the value of a digit is its place among the sixteen in either case; no other character has a value but zero |
| `RowBuffer.BlobBuffer` | mapsforge-poi/jni/sqlite3_jni.c:1595-1610 | the 2n+4 bytes allocated are filled exactly: prefix, digits, quote, closing zero |
| `RowBuffer.BlobBufferDecodes` | mapsforge-poi/jni/sqlite3_jni.c:1595-1610 | that text has no zero of its own and `StringEncoder.decode` turns it into the blob |
| `RowBuffer.BuildTable` | mapsforge-poi/jni/sqlite3_jni.c:1544-1616 | the 3n+4 cells: count, values, names and own buffers, each part closed by a null; an own buffer for each blob for which memory was found |
| `RowBuffer.FreeTab` | mapsforge-poi/jni/sqlite3_jni.c:1514-1532 | from the address of the second cell, frees the buffers the table owns, then the table, and nothing else |
| `RowBuffer.OwnedOnce` | mapsforge-poi/jni/sqlite3_jni.c:1514-1532 | none of them twice |
| `Categories.CalculateCategoryIDs` | mapsforge-poi/src/org/mapsforge/storage/poi/DoubleLinkedPoiCategory.java:155-164 | numbers the tree in post-order with consecutive IDs from k and returns k plus the number of its nodes, one more than the root's ID |
| `Categories.ListedOnce` | mapsforge-poi/src/org/mapsforge/storage/poi/DoubleLinkedPoiCategory.java:155-164 | the numbering reaches no category twice |
| `Categories.PostOrderCounts` | mapsforge-poi/src/org/mapsforge/storage/poi/DoubleLinkedPoiCategory.java:155-164 | and its length, and so the size of each interval, is the number of categories |
| `Categories.SubtreeIsInterval` | mapsforge-poi/src/org/mapsforge/storage/poi/DoubleLinkedPoiCategory.java:141-164 | a category is below w if and only if its ID lies in the interval of w's subtree size that ends with w's ID |
| `Categories.DocumentedOrder` | mapsforge-poi/src/org/mapsforge/storage/poi/DoubleLinkedPoiCategory.java:143-148 | IDs below a category are smaller than its own, and those under a left child smaller than those under a right one |
| `Categories.Category.constructor` | mapsforge-poi/src/org/mapsforge/storage/poi/DoubleLinkedPoiCategory.java:63-73 | the new category becomes the last child of its parent, and the tree stays a tree |
| `Categories.Category.SetParent` | mapsforge-poi/src/org/mapsforge/storage/poi/DoubleLinkedPoiCategory.java:171-175 | hangs a subtree below a category of any tree, its own included: everything forms one tree if and only if no old parent lists the subtree and the new one is not inside it; an old parent that lists it is in no tree any more |
| `Categories.GraftShaped` | mapsforge-poi/src/org/mapsforge/storage/poi/DoubleLinkedPoiCategory.java:63-99 | linking two roots yields the grafted tree |
| `Categories.ChildLists` | mapsforge-poi/src/org/mapsforge/storage/poi/DoubleLinkedPoiCategory.java:63-99 | in a tree each listed child names the lister as its parent, and is listed once |
| `Categories.WhitelistFilter.AddCategory` | mapsforge-poi/src/org/mapsforge/storage/poi/WhitelistPoiCategoryFilter.java:50-52 | appends to the list |
| `Categories.AcceptedBelowListed` | mapsforge-poi/src/org/mapsforge/storage/poi/WhitelistPoiCategoryFilter.java:55-67 | the walk up the parents accepts exactly the categories at or below a listed one |
| `Categories.AcceptedByInterval` | mapsforge-poi/src/org/mapsforge/storage/poi/WhitelistPoiCategoryFilter.java:55-67 | which in a numbered tree is a test of the ID against the intervals of the listed ones |
| `Handles.Unlink` | mapsforge-poi/jni/sqlite3_jni.c:1483-1493 | takes the child out of the list wherever it is, and leaves a list without it alone |
| `Handles.Library.Open` | mapsforge-poi/jni/sqlite3_jni.c:674-757 | a handle the Java object has is used again with its lists, after its connection was closed; otherwise a new one with empty lists. SQLite is asked to open twice, so a first connection that it opens is lost in every case; the exact set of open objects |
| `Handles.Library.OpenChild` | mapsforge-poi/jni/sqlite3_jni.c:2735-2800 | a new child at the head of the list of its database, whose connection it uses, or, on any failure, no change and nothing left open; for backups lines 2947-3015 |
| `Handles.Library.CloseNative` | mapsforge-poi/jni/sqlite3_jni.c:1494-1496 | its precondition is that the object is open, so no caller closes one twice |
| `Handles.Library.Finalize` | mapsforge-poi/jni/sqlite3_jni.c:1475-1502 | unlinks, closes and frees the child that the Java object refers to, if any; a second call does nothing; for backups lines 3018-3051 |
| `Handles.Library.CloseList` | mapsforge-poi/jni/sqlite3_jni.c:555-571 | empties a list: each child loses its handle and its open object but stays allocated |
| `Handles.Library.CloseDatabase` | mapsforge-poi/jni/sqlite3_jni.c:518-585 | all children of the handle and no others are closed and lose it, and it is freed; its connection is closed if and only if no open blob or backup used it when the call began, and lost otherwise; a second call does nothing |
| `Handles.Library.CloseConnection` | mapsforge-poi/jni/sqlite3_jni.c:536-539 | SQLite does not close a connection that an open blob or backup uses |
| `Handles.Library.InUseMeans` | mapsforge-poi/jni/sqlite3_jni.c:536-539 | those are blobs and backups of the same handle; no open blob or backup ever loses its connection |
| `Handles.Library.ListsAreExact` | mapsforge-poi/jni/sqlite3_jni.c:555-571 | at every moment each list is acyclic and holds exactly the open children of its handle, each once |
| `Handles.Library.NativesAreExact` | mapsforge-poi/jni/sqlite3_jni.c:518-585 | each open SQLite object is that of one child that still has its database, or the connection of one handle, or one of the lost connections: nothing else is leaked, and nothing is shared |
| `Handles.Library.NothingDangles` | mapsforge-poi/jni/sqlite3_jni.c:1475-1502 | no child refers to a freed handle and no Java object to a freed child or handle |
| `Handles.Run` | mapsforge-poi/jni/sqlite3_jni.c:518-3051 | all of this holds after every sequence of opening, closing and finalizing, on any of the Java objects, repeated or not |

## Left out

- RijndaelApi.BlockEncrypt: does not model the mode CFB1 (`rijndael.c:1093-1130`), whose pointers do not advance between blocks, so nothing spans more than one block; the same goes for `BlockDecrypt`.
- RijndaelApi.BlockEncrypt: requires buffers as long as the code touches, which the code leaves to its caller; so do the other calls over buffers.
- CodecObject.CodecAES: requires 0 <= page < 2^31-1, as SQLite's page numbers are positive and the code's `seed + 1` overflows beyond; the product `datalen*8` is not wrapped at 32 bits.
- CodecObject.GenerateEncryptionKey: models the default build; the AES-256 build uses SHA-256, and `sha2.c` is not part of this model.
- CodecObject.Codec.Copy: a B-tree is an object that knows its page size and nothing else.
- Md5.Context.Final: the wiping of the context at `codec.c:185` is not modelled; the context is used up. Machines that need `byteReverse` are left out.
- Md5.Context.Update: buffers longer than 2^32-1 bytes cannot be passed in one call; the code's parameter has 32 bits.
- InitialVector.GenerateInitialVector: excludes the seed 2^31-1, where the code's `seed + 1` overflows.
- CodecExt.Sqlite3Codec: requires a page size that is a positive multiple of 16; SQLite's are powers of two from 512.
- CodecExt.Database.Rekey: requires that no transaction is open and that cached pages agree with the disk; a rollback cannot fail, the change counter that SQLite keeps on page 1 is not modelled, and neither are the write-ahead log and crash recovery.
- CodecExt.Database.Rekey: the number of pages is fixed; the page count call at `codecext.c:251` does not fail.
- CodecExt.Database.Rekey: the keys of a new codec count as zeros; the code leaves them unset and does not look at them.
- RekeyRuns.KeptExactly: covers changes between encrypted and plain; for a change from one key to another `KeptBySuccess` reduces the question to whether the two ciphers agree on the unreached pages, which is not decided here.
- CodecExt.Database.Attach: freeing a codec that is replaced or not needed (`CodecTerm`, `sqlite3CodecFree`) is not modelled; one that was removed is no longer reachable.
- Categories.CalculateCategoryIDs: IDs do not wrap at 32 bits; a tree would need 2^31 categories.
- RowBuffer.BuildTable: the strings that SQLite owns are opaque, and the callback that receives the table is left out.
- Handles.Library.CloseDatabase: the lists of statements and functions are left out; `sqlite3_jni.c:531-534` finalizes a live statement twice, so the statement list does not have the properties of the other two.
- Handles.Library.CloseConnection: statements that are still open, and a blob that SQLite has expired, count for nothing here; the first would keep a connection open too when `open4` closes it, and the second no longer would.
- Handles.Library.OpenChild: the translation of names and the Java exceptions are left out; a failure changes nothing.
- Handles.Library.Open: a new handle whose open fails is never reachable again, so it does not appear.
- The strength of the ciphers: nothing is claimed about it.
- `PoiCategoryRangeQueryGenerator`: its intervals are built from siblings and do not match the subtree intervals of the numbering.
- SQLite itself, the translation of strings between Java and C, callbacks, and the persistence and category managers: foreign calls and I/O.
- Map geometry, the cache, tags and the other value classes, the Osmosis plug-in and the browser script: easy members, floating point or user interface.
