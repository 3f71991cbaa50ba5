# scs_ndir in Dafny

This project models the host side of the South Coast Science NDIR CO2 sensor
driver. The host talks to the sensor's microcontroller over SPI with
two-character commands. Each command is framed as:

- the name bytes, then up to two parameter groups;
- then a status byte;
- then exactly the return count of payload bytes.

Five driver classes share that protocol:

- `SPINDIRx1`, `SPINDIRv1` and `SPINDIRt1f1`, the newer drivers.
- The older `NDIR` in `src/scs_ndir/gas/ndir.py`.
- A legacy `NDIR` in `scs_ndir/gas/ndir.py`, which reads one byte at a time.

The model covers:

- the command tables, with their shared, mutable return counts;
- the transaction engine, with each dialect's rules for rejecting a status;
- the host lock and the power line;
- every getter and command-only operation;
- the recorder (`record_raw`) and its playback loop;
- the calibration record, in the EEPROM and as JSON;
- the older driver's sample window, dump, test command and EEPROM accessors;
- the legacy driver's byte packing and session;
- the option checks of the command-line handlers.

## Structure

| module | file | what it holds |
|---|---|---|
| Wrappers | wrappers.dfy | `Option`, `Result` |
| Bytes | bytes.dfy | little-endian uint16 / uint32 / int32 / int16 codecs; binary32 words and their NaN test |
| Commands | commands.dfy | the four command tables, `find`, `name_bytes`, and the `CommandTable` class with its `return_count` setter |
| Bus | bus.dfy | the SPI device (a trace of events and a queue of bytes to clock out), the host lock, the power line |
| Transact | transact.dfy | `_transact` / `_execute` as a method on the SPI device, proved against its specification |
| Fields | fields.dfy | field kinds, packing and unpacking of records, and the playback loop |
| Engine | engine.dfy | the world (link and command table), the specification of one call, and the `Engine` class running them |
| Operations | operations.dfy | the getters, status, lamp, reset, test command and recorder shared by the drivers |
| CalibRecord, Jsonable | calib_record.dfy, json.dfy | the calibration record's EEPROM layout and its JSON form |
| CalibStore | calib_store.dfy | `store_calib` / `retrieve_calib` as SPI traffic and as EEPROM contents |
| FlatCalib | flat_calib.dfy | the flat fifteen-field record of `src/scs_ndir/gas/ndir_calib.py` |
| Power | power.dfy | power switching, idempotent or not |
| SpiX1, SpiV1, SpiT1F1, NdirDriver, LegacyNdir | spi_x1.dfy, spi_v1.dfy, spi_t1f1.dfy, ndir_driver.dfy, legacy.dfy | each driver class's own operations |
| Cli | cli.dfy | the command-line option checks |

### Conventions

- **Times** are whole microseconds. Every constant in the sources is a whole
  number of them: 0.001 s is 1000 and 2.5 s is 2_500_000.
- **Each operation has a specification function** on a `World`: the link's
  trace and queue, plus the command table. The method that performs it is
  proved equal to that function.
- **The lock.** Public operations are wrapped by `Guard`: when the lock is
  contended nothing else happens, and the lock is released on every path.

## Model

| member | source | states |
|---|---|---|
| Bytes.DecodeU16 | src/scs_ndir/gas/spi_ndir_x1/spi_ndir_x1.py:592-599 | a uint16 is read low byte first: its low byte is byte 0 and its high byte byte 1 |
| Bytes.EncodeDecodeU16 | src/scs_ndir/gas/spi_ndir_x1/spi_ndir_x1.py:592-608 | every two bytes are the encoding of what they decode to |
| Bytes.EncodeUnsignedInt | src/scs_ndir/gas/spi_ndir_x1/spi_ndir_x1.py:602-608 | encoding succeeds exactly for 0..65535, giving two bytes that decode back to the value |
| Bytes.DecodeEncodeU32 | src/scs_ndir/gas/spi_ndir_x1/spi_ndir_x1.py:611-627 | every uint32 survives encoding then decoding |
| Bytes.EncodeDecodeU32 | src/scs_ndir/gas/spi_ndir_x1/spi_ndir_x1.py:611-627 | every four bytes are the encoding of what they decode to |
| Bytes.EncodeUnsignedLong | src/scs_ndir/gas/spi_ndir_x1/spi_ndir_x1.py:621-627 | encoding succeeds exactly for 0..2^32-1, giving four bytes that decode back |
| Bytes.DecodeI32 | src/scs_ndir/gas/spi_ndir_x1/spi_ndir_x1.py:500-502 | a `long` is in -2^31..2^31-1 and is negative exactly when byte 3's top bit is set |
| Bytes.DecodeEncodeI32 | src/scs_ndir/gas/spi_ndir_x1/spi_ndir_x1.py:500-502 | every int32 survives encoding then decoding |
| Bytes.EncodeDecodeI32 | src/scs_ndir/gas/spi_ndir_x1/spi_ndir_x1.py:500-502 | every four bytes are the encoding of the int32 they decode to |
| Bytes.DecodeI16 | scs_ndir/gas/ndir.py:41-44 | a signed 16-bit value is in -32768..32767 and is negative exactly when byte 1's top bit is set |
| Bytes.I16RoundTrip | scs_ndir/gas/ndir.py:41-44 | int16 encoding and decoding are inverse both ways |
| Bytes.EncodeFloat | src/scs_ndir/gas/spi_ndir_x1/spi_ndir_x1.py:640-646 | a binary32 word is sent as four bytes that decode back to it |
| Bytes.NaNByBytes | scs_ndir/gas/ndir.py:47-51 | a word is a NaN (exponent all ones, fraction non-zero) exactly when its four little-endian bytes show it |
| Commands.X1Entries | src/scs_ndir/gas/ndir/spi_ndir_x1/spi_ndir_x1_cmd.py:27-62 | the x1 table has 24 entries; `wr` executes in 2.5 s, `cl` in 2.2 s, `sm` in 2.0 s; `cw` responds in 0.004 s and executes in 0.010 s |
| Commands.V1Entries | src/scs_ndir/gas/spi_ndir_v1/spi_ndir_v1_cmd.py:29-64 | the v1 table has 24 entries; `wr` 2.5 s, `cl` 2.2 s; `cw` responds in 0.002 s and executes in 0.010 s |
| Commands.T1F1Entries | src/scs_ndir/gas/spi_ndir_t1_f1/spi_ndir_t1_f1_cmd.py:29-63 | the t1f1 table has 23 entries; `sb` returns 4 bytes and `sp` none |
| Commands.NdirEntries | src/scs_ndir/gas/ndir_cmd.py:27-61 | the ndir table has 24 entries; `sw` returns 600 bytes and `sd` 4; `ew` and `ez` respond in 0.005 s and execute in 0.010 s |
| Commands.EntriesDeclared | src/scs_ndir/gas/ndir_cmd.py:27-61 | in every table each name has two characters, and every entry except the open ones (`cr`/`rp`, or `er`/`rp`) has a fixed return count of at least 0 |
| Commands.StaticWellKeyed | src/scs_ndir/gas/spi_ndir_v1/spi_ndir_v1_cmd.py:29-64 | every key of every table is its entry's own name |
| Commands.DictEntries | src/scs_ndir/gas/ndir/spi_ndir_x1/spi_ndir_x1_cmd.py:27-62 | the dictionary holds exactly the listed entries, each under its name |
| Commands.NameBytes | src/scs_ndir/gas/ndir/spi_ndir_x1/spi_ndir_x1_cmd.py:102-103 | the name bytes are the code points of the first two characters; a shorter name or a code point over 255 cannot be sent |
| Commands.NameBytesRoundTrip | src/scs_ndir/gas/spi_ndir_v1/spi_ndir_v1_cmd.py:104-105 | a two-character name and its bytes determine each other |
| Commands.Lookup | src/scs_ndir/gas/spi_ndir_v1/spi_ndir_v1_cmd.py:67-72 | `find` returns the entry for a known name; it raises ValueError for an unknown name, and fails before `init` |
| Commands.CommandTable.constructor | src/scs_ndir/gas/spi_ndir_v1/spi_ndir_v1_cmd.py:22 | the table is `None` before `init` |
| Commands.CommandTable.Init | src/scs_ndir/gas/spi_ndir_v1/spi_ndir_v1_cmd.py:28-64 | `init` installs the family's static table |
| Commands.CommandTable.SetReturnCount | src/scs_ndir/gas/spi_ndir_v1/spi_ndir_v1_cmd.py:130-132 | the setter changes the shared entry's return count and nothing else |
| Commands.FindAfterInit | src/scs_ndir/gas/ndir_cmd.py:64-69 | once initialised, `find` succeeds exactly for the table's names, and returns an entry carrying that two-character name |
| Commands.T1F1LacksLampLevel | src/scs_ndir/gas/spi_ndir_t1_f1/spi_ndir_t1_f1_cmd.py:29-63 | t1f1's `find('ll')` and `find('sm')` raise |
| Commands.T1F1VariableTimes | src/scs_ndir/gas/spi_ndir_t1_f1/spi_ndir_t1_f1_cmd.py:52-55 | in t1f1 only `rs` and `sp` leave their execution time to the caller |
| Bus.HostLock.Obtain | src/scs_ndir/gas/spi_ndir_x1/spi_ndir_x1.py:59-62 | the lock is obtained exactly when no other process holds it |
| Bus.HostLock.Release | src/scs_ndir/gas/spi_ndir_x1/spi_ndir_x1.py:64-67 | releasing always leaves the lock free, and counts the release |
| Bus.Port.ReadBytes | src/scs_ndir/gas/spi_ndir_x1/spi_ndir_x1.py:681 | `read_bytes(n)` returns the next n queued bytes, logs the read and drains them |
| Bus.ReadsCompose | src/scs_ndir/gas/spi_ndir_x1/spi_ndir_x1.py:681-705 | reading a bytes and then b bytes clocks out what one read of a + b would |
| Transact.Classify | src/scs_ndir/gas/spi_ndir_x1/spi_ndir_x1.py:684-691 | the status byte is "None received", NACK, BUSY or accepted, each dialect by its own rules |
| Transact.X1V1Statuses | src/scs_ndir/gas/spi_ndir_v1/spi_ndir_v1.py:656-663 | x1 and v1 reject 0x00 and 0xff as no answer, 0x02 as NACK and 0x03 as BUSY; everything else passes |
| Transact.T1F1Statuses | src/scs_ndir/gas/spi_ndir_t1_f1/spi_ndir_t1_f1.py:656-660 | t1f1 rejects 0x00/0xff and 0x02 only; 0x03 passes as success |
| Transact.NdirStatuses | src/scs_ndir/gas/ndir.py:599-606 | the older driver rejects only 0x00 as no answer; 0xff passes |
| Transact.Frame | src/scs_ndir/gas/spi_ndir_x1/spi_ndir_x1.py:662-670 | the name bytes go first, and each parameter group that is present and non-empty adds one transfer |
| Transact.Transact | src/scs_ndir/gas/spi_ndir_x1/spi_ndir_x1.py:652-714 | `_transact` step by step on the device equals its specification: open, name, groups after the parameter delay, response wait, status read, payload read, close |
| Transact.SendsFrame | src/scs_ndir/gas/spi_ndir_x1/spi_ndir_x1.py:662-670 | with a sendable name, the transfers of a transaction are exactly the frame, whatever the answer |
| Transact.OneSession | src/scs_ndir/gas/spi_ndir_x1/spi_ndir_x1.py:656-714 | every transaction adds one session to the trace: opened first, closed last on every path, no open or close in between |
| Transact.ErrorStatusReadsNoPayload | src/scs_ndir/gas/spi_ndir_x1/spi_ndir_x1.py:684-691 | a rejected status raises the dialect's exception carrying the status, the command and both parameter groups; the status byte is the only read |
| Transact.NoCountNoPayload | src/scs_ndir/gas/spi_ndir_x1/spi_ndir_x1.py:697-698 | a return count below 1 gives None after the status byte, with no second read |
| Transact.ReadsExactlyCount | src/scs_ndir/gas/spi_ndir_x1/spi_ndir_x1.py:700-711 | a return count n of at least 1 reads exactly n bytes after the parameter delay; the lone byte for n = 1, else the n bytes |
| Transact.WritesAppend | src/scs_ndir/gas/spi_ndir_x1/spi_ndir_x1.py:732-735 | the transfers of two trace pieces are those of each, in order |
| Fields.Encode | src/scs_ndir/gas/spi_ndir_x1/spi_ndir_x1.py:602-646 | a value is encoded exactly when its kind accepts it, in that kind's width |
| Fields.EncodeThenDecode | src/scs_ndir/gas/spi_ndir_x1/spi_ndir_x1.py:592-646 | every value a `_calib_w_*` accepts is what the matching `_calib_r_*` decodes from its bytes |
| Fields.DecodeThenEncode | src/scs_ndir/gas/spi_ndir_x1/spi_ndir_x1.py:592-646 | every byte pattern of a kind's width is the encoding of what it decodes to |
| Fields.Unpack | src/scs_ndir/gas/spi_ndir_x1/spi_ndir_x1.py:359-374 | the fields of a layout are read one after another from the front; too few bytes cannot be sliced |
| Fields.UnpackAt | src/scs_ndir/gas/spi_ndir_x1/spi_ndir_x1.py:365-368 | field j is decoded from the bytes at its offset, as `response[a:b]` slices it |
| Fields.PackThenUnpack | src/scs_ndir/gas/spi_ndir_x1/spi_ndir_x1.py:359-374 | packed fields unpack to themselves, whatever follows them |
| Fields.UnpackThenPack | src/scs_ndir/gas/spi_ndir_x1/spi_ndir_x1.py:359-374 | unpacked fields pack back to the bytes they were read from |
| Fields.Pack | src/scs_ndir/gas/spi_ndir_x1/spi_ndir_x1.py:500-502 | a packed record is exactly as long as the layout's field widths add up to |
| Fields.RecordSizes | src/scs_ndir/gas/spi_ndir_x1/spi_ndir_x1.py:497-502 | an x1/t1f1 record (uint16, int32, int32) is 10 bytes; a v1/ndir record of three uint16 is 6 |
| Fields.Playback | src/scs_ndir/gas/spi_ndir_x1/spi_ndir_x1.py:495-504 | the loop over `range(0, return_count, stride)` appends one record per whole stride; its result is the records of the response |
| Fields.Records | src/scs_ndir/gas/spi_ndir_x1/spi_ndir_x1.py:497-504 | playback as a function: every record holds one value per field of the layout |
| Fields.RecordsLength | src/scs_ndir/gas/spi_ndir_x1/spi_ndir_x1.py:497 | a response of n whole strides yields n records |
| Fields.RecordsAt | src/scs_ndir/gas/spi_ndir_x1/spi_ndir_x1.py:497-502 | record k is the layout unpacked at offset k strides, as the loop's slice is |
| Fields.PlaybackOfPacked | src/scs_ndir/gas/spi_ndir_x1/spi_ndir_x1.py:495-504 | playing back packed records yields the records, in order |
| Engine.Sliced | src/scs_ndir/gas/spi_ndir_x1/spi_ndir_x1.py:359-374 | a getter's slices succeed exactly for a list holding at least the layout's bytes |
| Engine.SlicedInverts | src/scs_ndir/gas/spi_ndir_x1/spi_ndir_x1.py:359-374 | what a getter sliced packs back into the bytes it came from |
| Engine.Whole | src/scs_ndir/gas/spi_ndir_x1/spi_ndir_x1.py:514-525 | a whole-response getter succeeds exactly for a list of the field's width |
| Engine.WholeInverts | src/scs_ndir/gas/spi_ndir_x1/spi_ndir_x1.py:514-525 | what a whole-response getter decoded encodes back to the response |
| Engine.Truthy | src/scs_ndir/gas/spi_ndir_x1/spi_ndir_x1.py:169 | `bool(response)` is false for None, 0x00 and the empty list, and true otherwise |
| Engine.FetchSpec | src/scs_ndir/gas/spi_ndir_x1/spi_ndir_x1.py:592-599 | a `_calib_r_*` that succeeds returns a value of the kind it was asked for |
| Engine.OverridePersists | src/scs_ndir/gas/spi_ndir_t1_f1/spi_ndir_t1_f1_cmd.py:129-131 | after `find(name)` and a `return_count` override, and then any other command, `find(name)` returns the same entry with the new count, and every other name finds what it found before |
| Engine.Guard | src/scs_ndir/gas/spi_ndir_x1/spi_ndir_x1.py:102-116 | when `obtain_lock` raises, nothing is sent and the lock timeout is the result |
| Engine.FetchReadsWidth | src/scs_ndir/gas/spi_ndir_x1/spi_ndir_x1.py:592-599 | a successful read fetched exactly the field's width, and the width stays in the shared `cr` entry |
| Engine.StoredBytesFetchBack | src/scs_ndir/gas/spi_ndir_x1/spi_ndir_x1.py:602-608 | the bytes a write sends for a value are the bytes a read decodes back to that value |
| Engine.StoreRefusesBeforeSending | src/scs_ndir/gas/spi_ndir_x1/spi_ndir_x1.py:602-608 | a value the encoder refuses raises before anything is sent |
| Engine.SettleOnlyOnSuccess | src/scs_ndir/gas/spi_ndir_x1/spi_ndir_x1.py:602-608 | the execution-time sleep happens only after a transaction that succeeded |
| Engine.Engine.Run | src/scs_ndir/gas/spi_ndir_x1/spi_ndir_x1.py:167-168 | `find` then `_transact` equals its specification |
| Engine.Engine.RunCounted | src/scs_ndir/gas/spi_ndir_x1/spi_ndir_x1.py:492-495 | `find`, the return-count override on the shared entry, then `_transact` |
| Engine.Engine.RunSettled | src/scs_ndir/gas/spi_ndir_x1/spi_ndir_x1.py:602-608 | `_transact` followed by the execution-time sleep |
| Engine.Engine.Query | src/scs_ndir/gas/spi_ndir_x1/spi_ndir_x1.py:359-374 | a getter's command and its slicing |
| Engine.Engine.ReadWhole | src/scs_ndir/gas/spi_ndir_x1/spi_ndir_x1.py:514-525 | a getter decoding the whole response |
| Engine.Engine.Fetch | src/scs_ndir/gas/spi_ndir_x1/spi_ndir_x1.py:592-637 | `_calib_r_*` equals its specification |
| Engine.Engine.Store | src/scs_ndir/gas/spi_ndir_x1/spi_ndir_x1.py:602-646 | `_calib_w_*` equals its specification |
| Operations.Decoded | src/scs_ndir/gas/spi_ndir_x1/spi_ndir_x1.py:359-374 | a decoding that succeeds came from a list holding at least its bytes, and gives one value per field |
| Operations.DecodedInverts | src/scs_ndir/gas/spi_ndir_x1/spi_ndir_x1.py:359-374 | what a getter decodes packs back to the bytes it was decoded from |
| Operations.GetterReadsItsBytes | src/scs_ndir/gas/spi_ndir_x1/spi_ndir_x1.py:359-374 | with an accepted status and the decoder's byte count in the table, a getter returns the decoding of exactly the bytes clocked out after the status |
| Operations.GetterRejected | src/scs_ndir/gas/spi_ndir_x1/spi_ndir_x1.py:684-691 | a rejected status reaches the caller as the dialect's exception; nothing is decoded |
| Operations.X1GettersSized | src/scs_ndir/gas/ndir/spi_ndir_x1/spi_ndir_x1_cmd.py:27-62 | every x1 getter's command returns exactly the bytes its decoding consumes |
| Operations.V1GettersSized | src/scs_ndir/gas/spi_ndir_v1/spi_ndir_v1_cmd.py:29-64 | the same for v1 |
| Operations.T1F1GettersSized | src/scs_ndir/gas/spi_ndir_t1_f1/spi_ndir_t1_f1_cmd.py:29-63 | the same for t1f1 |
| Operations.NdirGettersSized | src/scs_ndir/gas/ndir_cmd.py:27-61 | the same for the older driver |
| Operations.FreshGetterDecodes | src/scs_ndir/gas/spi_ndir_t1_f1/spi_ndir_t1_f1.py:130-214 | on a fresh table every getter decodes the bytes after an accepted status, and they pack back to those bytes |
| Operations.Get | src/scs_ndir/gas/spi_ndir_x1/spi_ndir_x1.py:359-374 | a getter under the lock equals its specification; the lock is released once, on every path |
| Operations.RunSends | src/scs_ndir/gas/spi_ndir_x1/spi_ndir_x1.py:167-168 | one command writes exactly its frame and leaves the table as it was |
| Operations.FetchSends | src/scs_ndir/gas/spi_ndir_x1/spi_ndir_x1.py:592-599 | a read writes `cr` and then the address, whatever its outcome |
| Operations.SettledSends | src/scs_ndir/gas/spi_ndir_x1/spi_ndir_x1.py:602-608 | a write sends name, address and value bytes; the wait after it writes nothing |
| Operations.StatusSpec | src/scs_ndir/gas/spi_ndir_x1/spi_ndir_x1.py:162-186 | a successful status report carries a binary32 input voltage and a uint32 uptime |
| Operations.StatusSends | src/scs_ndir/gas/spi_ndir_x1/spi_ndir_x1.py:162-186 | `status()` sends `ws`, `iv` and `up` in that order, each a bare name; a rejected `ws` ends it before anything else is sent |
| Operations.GetStatus | src/scs_ndir/gas/spi_ndir_x1/spi_ndir_x1.py:162-186 | `status()` under the lock equals its specification |
| Operations.Discard | src/scs_ndir/gas/spi_ndir_x1/spi_ndir_x1.py:544-552 | an operation returning nothing keeps the world and any exception, and drops the response |
| Operations.Flag | src/scs_ndir/gas/spi_ndir_x1/spi_ndir_x1.py:315-325 | the parameter of `lamp_run` is the single byte 1 exactly when on and 0 exactly when off |
| Operations.LampRunSends | src/scs_ndir/gas/spi_ndir_x1/spi_ndir_x1.py:315-325 | `lamp_run(on)` writes `lr` and then the single byte 1 or 0 |
| Operations.LampLevelSends | src/scs_ndir/gas/spi_ndir_x1/spi_ndir_x1.py:328-341 | `lamp_level(v)` writes `ll` and then four bytes that decode back to v |
| Operations.SettleWaits | src/scs_ndir/gas/spi_ndir_x1/spi_ndir_x1.py:419-429 | a settled command writes its frame and, on success, ends by waiting its table execution time |
| Operations.Send | src/scs_ndir/gas/spi_ndir_x1/spi_ndir_x1.py:544-552 | a command sent for its effect, under the lock, equals its specification |
| Operations.Settle | src/scs_ndir/gas/spi_ndir_x1/spi_ndir_x1.py:299-312 | `reload_calib`, `measure_calibrate`, `sample_mode` under the lock equal their specification |
| Operations.LampLevel | src/scs_ndir/gas/spi_ndir_x1/spi_ndir_x1.py:328-341 | `lamp_level` under the lock equals its specification |
| Operations.ResetSequence | src/scs_ndir/gas/spi_ndir_x1/spi_ndir_x1.py:555-573 | a successful reset wrote `wr` then `wc` and nothing else, with a wait of `wr`'s execution time in between |
| Operations.Reset | src/scs_ndir/gas/spi_ndir_v1/spi_ndir_v1.py:534-549 | `reset` under one lock hold equals its specification |
| Operations.CustomBypassesTable | src/scs_ndir/gas/spi_ndir_x1/spi_ndir_x1.py:576-589 | the test command leaves the table untouched, writes its name alone, and waits the given time only after success |
| Operations.Custom | src/scs_ndir/gas/spi_ndir_x1/spi_ndir_x1.py:576-589 | `cmd(...)` under the lock equals its specification |
| Operations.RecordParams | src/scs_ndir/gas/spi_ndir_x1/spi_ndir_x1.py:473-480 | the `rs` block exists exactly when deferral, interval and count are all uint16, and is then their six bytes |
| Operations.RecordParamsRoundTrip | src/scs_ndir/gas/spi_ndir_x1/spi_ndir_x1.py:473-480 | the device reads the block back as the three values, in order |
| Operations.PlaybackOf | src/scs_ndir/gas/spi_ndir_x1/spi_ndir_x1.py:495-504 | a None response plays back no records; a lone byte cannot be sliced |
| Operations.PlaybackCount | src/scs_ndir/gas/spi_ndir_x1/spi_ndir_x1.py:491-504 | after an accepted `rp` with count strides, there are exactly count records, record k unpacked at offset k strides of the bytes after the status |
| Operations.PlaybackSends | src/scs_ndir/gas/spi_ndir_x1/spi_ndir_x1.py:491-495 | the playback writes `rp` alone, in a session of its own after what came before |
| Operations.Replay | src/scs_ndir/gas/spi_ndir_x1/spi_ndir_x1.py:491-504 | `rp` and the playback loop equal their specification |
| Operations.RecordsSplit | src/scs_ndir/gas/spi_ndir_v1/spi_ndir_v1.py:471-483 | bytes of count whole strides play back as count records, record k at offset k strides |
| Operations.PlaybackEmpty | src/scs_ndir/gas/spi_ndir_x1/spi_ndir_x1.py:491-497 | with a count of 0, `rp` answers None and nothing is played back |
| Operations.PlaybackBytes | src/scs_ndir/gas/spi_ndir_x1/spi_ndir_x1.py:491-495 | with count strides set, `rp` answers exactly the bytes clocked after the status |
| Operations.RecordSends | src/scs_ndir/gas/spi_ndir_x1/spi_ndir_x1.py:468-495 | a parameter outside uint16 raises before anything is sent; otherwise `rs` goes out with the block, and `rp` follows, bare, only after `rs` was accepted |
| Operations.CountedSendsName | src/scs_ndir/gas/spi_ndir_x1/spi_ndir_x1.py:492-495 | a counted command with no parameters writes its bare name |
| Operations.RecordWaits | src/scs_ndir/gas/spi_ndir_x1/spi_ndir_x1.py:485-489 | an accepted `rs` is followed by a sleep of its execution time plus `(interval*count + deferral)` ms (x1) or the deferral alone (ndir) |
| Operations.RecordPlaysBack | src/scs_ndir/gas/spi_ndir_x1/spi_ndir_x1.py:491-504 | after an accepted `rs`, the rest is the playback alone, and an accepted `rp` yields exactly count records |
| Operations.Record | src/scs_ndir/gas/spi_ndir_x1/spi_ndir_x1.py:468-511 | `record_raw` under the lock equals its specification |
| CalibRecord.RangeSlots | src/scs_ndir/gas/ndir/spi_ndir_t1_f1/ndir_calib.py:255-270 | a range block holds nine floats at indices 1..9 |
| CalibRecord.CalibOf | src/scs_ndir/gas/ndir/spi_ndir_t1_f1/ndir_calib.py:111-140 | a record built from seven common values and five ranges holds them, in slot order |
| CalibRecord.LayoutDistinct | src/scs_ndir/gas/ndir/spi_ndir_t1_f1/ndir_calib.py:43-60 | range blocks 1..5 differ from the common block 0 and from each other; the indices within a block are distinct |
| CalibRecord.CalibOfFields | src/scs_ndir/gas/ndir/spi_ndir_t1_f1/ndir_calib.py:111-140 | a record built from its fields gives those fields back, in slot order |
| CalibRecord.RangeFromJson | src/scs_ndir/gas/ndir/spi_ndir_t1_f1/ndir_calib.py:276-297 | a falsy range member is an absent range, a scalar is refused, and a non-empty object that parses builds a range |
| CalibRecord.CalibFromJson | src/scs_ndir/gas/ndir/spi_ndir_t1_f1/ndir_calib.py:80-105 | an empty or `None` document gives `None`, a scalar is refused, and a non-empty object that parses builds a record |
| CalibRecord.CalibAsJson | src/scs_ndir/gas/ndir/spi_ndir_t1_f1/ndir_calib.py:211-234 | `as_json` writes the twelve keys `construct_from_jdict` reads, in the same order |
| CalibRecord.RangeAsJson | src/scs_ndir/gas/ndir/spi_ndir_t1_f1/ndir_calib.py:370-390 | a range's `as_json` writes its nine keys in order |
| CalibRecord.RangeJsonRoundTrip | src/scs_ndir/gas/ndir/spi_ndir_t1_f1/ndir_calib.py:276-297 | a range survives its JSON form, and an absent range stays absent |
| CalibRecord.CalibJsonRoundTrip | src/scs_ndir/gas/ndir/spi_ndir_t1_f1/ndir_calib.py:80-105 | a record survives `as_json` then `construct_from_jdict` |
| CalibRecord.MembersRoundTrip | src/scs_ndir/gas/ndir/spi_ndir_t1_f1/ndir_calib.py:211-234 | the values `as_json` writes build the record back |
| CalibRecord.CalibReadsOnlyItsKeys | src/scs_ndir/gas/ndir/spi_ndir_t1_f1/ndir_calib.py:80-105 | two documents that agree on the twelve keys build the same record |
| CalibRecord.Default | src/scs_ndir/gas/ndir/spi_ndir_t1_f1/ndir_calib.py:72-76 | `default()` has only `range-iaq` present; the other four ranges are null |
| Jsonable.Get | src/scs_ndir/gas/ndir_calib.py:78 | `jdict.get(key)` is the last member under the key, or None |
| Jsonable.GetAt | src/scs_ndir/gas/ndir_calib.py:78-98 | in an object with distinct keys, each member is what `get` finds under its key |
| Jsonable.LookupsZip | src/scs_ndir/gas/ndir_calib.py:215-240 | reading back the keys an ordered dict was filled with gives its values |
| FlatCalib.IndicesArePositions | src/scs_ndir/gas/ndir_calib.py:44-62 | the fifteen indices are 0..14 and pairwise distinct |
| FlatCalib.FromJson | src/scs_ndir/gas/ndir_calib.py:74-101 | an empty or `None` document gives `None`, a scalar is refused, and a non-empty object that parses builds a record |
| FlatCalib.AsJson | src/scs_ndir/gas/ndir_calib.py:215-240 | `as_json` writes the fifteen keys `construct_from_jdict` reads, in the same order |
| FlatCalib.JsonRoundTrip | src/scs_ndir/gas/ndir_calib.py:74-101 | a record survives its JSON form; lamp period, deferrals and span are kept unconverted |
| FlatCalib.MembersRoundTrip | src/scs_ndir/gas/ndir_calib.py:114-119 | the values `as_json` writes build the record back |
| FlatCalib.ReadsOnlyItsKeys | src/scs_ndir/gas/ndir_calib.py:74-101 | two documents that agree on the fifteen keys build the same record |
| FlatCalib.TemplateTimings | src/scs_ndir/gas/ndir_calib.py:33-36 | the template has lamp period 1000, max deferral 200, min deferral 740 and span 1 |
| CalibStore.Address | src/scs_ndir/gas/spi_ndir_x1/spi_ndir_x1.py:596 | the address group is the block then the index |
| CalibStore.RangePlan | src/scs_ndir/gas/spi_ndir_x1/spi_ndir_x1.py:220-241 | an absent range is one write, `is_set` 0; a present one is `is_set` 1 then the nine coefficients |
| CalibStore.StoreComposes | src/scs_ndir/gas/spi_ndir_x1/spi_ndir_x1.py:192-216 | `store_calib` issues the whole plan: the common block, then the five ranges in block order |
| CalibStore.StoreWritesIssue | src/scs_ndir/gas/spi_ndir_x1/spi_ndir_x1.py:192-241 | the helpers `store_calib` calls, one after the other, issue the whole plan |
| CalibStore.IssueStopsAtUnfit | src/scs_ndir/gas/spi_ndir_x1/spi_ndir_x1.py:602-646 | a value its slot cannot encode stops the store there; it never succeeds |
| CalibStore.StorableIff | src/scs_ndir/gas/spi_ndir_x1/spi_ndir_x1.py:192-241 | a record is storable exactly when every write of its plan fits its slot |
| CalibStore.UnstorableNeverStored | src/scs_ndir/gas/spi_ndir_x1/spi_ndir_x1.py:192-241 | a record with a field its slot cannot encode makes `store_calib` raise part way |
| CalibStore.IssueSends | src/scs_ndir/gas/spi_ndir_x1/spi_ndir_x1.py:192-241 | a store that succeeds sent exactly its plan's frames, in order, and left the table as it was |
| CalibStore.UnsetRangeReadsFlagOnly | src/scs_ndir/gas/spi_ndir_x1/spi_ndir_x1.py:276-279 | a range whose flag reads 0 is `None`, and nothing more of its block is read |
| CalibStore.SetRangeReadsCoefficients | src/scs_ndir/gas/spi_ndir_x1/spi_ndir_x1.py:276-296 | a range whose flag reads non-zero is built from the nine reads that follow |
| CalibStore.RetrievedIsStorable | src/scs_ndir/gas/spi_ndir_x1/spi_ndir_x1.py:244-296 | whatever `retrieve_calib` returns can be stored back: every field has its slot's type |
| CalibStore.Fetched | src/scs_ndir/gas/spi_ndir_x1/spi_ndir_x1.py:592-637 | a value read from the EEPROM always has its slot's type |
| CalibStore.BurnHolds | src/scs_ndir/gas/spi_ndir_x1/spi_ndir_x1.py:192-241 | when no two writes share a cell, every write survives to the end |
| CalibStore.HoldsThenRecall | src/scs_ndir/gas/spi_ndir_x1/spi_ndir_x1.py:244-296 | from a device whose EEPROM cells hold every write of a record's plan and which accepts each `cr`, the `cr` traffic of `retrieve_calib` returns that record and consumes exactly the device's replies |
| CalibStore.StorePlanSpread | src/scs_ndir/gas/ndir/spi_ndir_t1_f1/ndir_calib.py:43-60 | no two writes of a store land in the same (block, index) |
| CalibStore.StoreThenRecall | src/scs_ndir/gas/spi_ndir_t1_f1/spi_ndir_t1_f1.py:263-367 | store then retrieve: once a storable record's writes are burned into the EEPROM, `retrieve_calib`'s `cr` traffic against that device returns the record itself, each field from its own (block, index) and width, each range present exactly when stored present |
| CalibStore.ReadReplies | src/scs_ndir/gas/spi_ndir_x1/spi_ndir_x1.py:592-599 | one `_calib_r_*` against a device that answers an accepted status and then the cell's bytes returns the value the cell holds, consumes exactly that reply, and leaves `cr` findable |
| CalibStore.RangeSpecReplies | src/scs_ndir/gas/spi_ndir_x1/spi_ndir_x1.py:276-296 | `_retrieve_range_calib` against a device holding the EEPROM returns the range the EEPROM holds: `None` for a zero flag, else the nine coefficients |
| CalibStore.RetrieveReadsEeprom | src/scs_ndir/gas/spi_ndir_x1/spi_ndir_x1.py:244-273 | `retrieve_calib`'s traffic against a device holding an EEPROM returns exactly the record that EEPROM holds, reading the coefficients of only the ranges whose flag is non-zero |
| CalibStore.AbsentRangeWritesFlagOnly | src/scs_ndir/gas/spi_ndir_v1/spi_ndir_v1.py:202-206 | an absent range is stored as a zero flag and its coefficients' cells keep what they held |
| CalibStore.StoreCalib | src/scs_ndir/gas/spi_ndir_x1/spi_ndir_x1.py:192-219 | `store_calib` under the lock equals its specification; the lock is released on every path |
| CalibStore.StoreHeld | src/scs_ndir/gas/spi_ndir_x1/spi_ndir_x1.py:195-216 | the body of `store_calib` issues the plan in order |
| CalibStore.StoreRange | src/scs_ndir/gas/spi_ndir_x1/spi_ndir_x1.py:220-241 | `_store_range_calib` equals its specification |
| CalibStore.WriteField | src/scs_ndir/gas/spi_ndir_x1/spi_ndir_x1.py:602-608 | one `_calib_w_*` equals its specification |
| CalibStore.ReadField | src/scs_ndir/gas/spi_ndir_x1/spi_ndir_x1.py:592-599 | one `_calib_r_*` equals its specification |
| CalibStore.RetrieveRange | src/scs_ndir/gas/spi_ndir_x1/spi_ndir_x1.py:276-296 | `_retrieve_range_calib` equals its specification |
| CalibStore.RetrieveCalib | src/scs_ndir/gas/spi_ndir_x1/spi_ndir_x1.py:244-273 | `retrieve_calib` under the lock equals its specification |
| CalibStore.RetrieveHeld | src/scs_ndir/gas/spi_ndir_v1/spi_ndir_v1.py:229-251 | the body of `retrieve_calib`: the common block, then the five ranges |
| Power.SwitchOn | src/scs_ndir/gas/spi_ndir_x1/spi_ndir_x1.py:87-92 | after `power_on` the line is at its "on" level; the queue is untouched |
| Power.SwitchOff | src/scs_ndir/gas/spi_ndir_x1/spi_ndir_x1.py:95-99 | after `power_off` the line is at the other level, and nothing is logged |
| Power.ForceOn | src/scs_ndir/gas/ndir.py:81-83 | the older `power_on` always leaves the line LOW |
| Power.ForceOff | src/scs_ndir/gas/ndir.py:86-87 | the older `power_off` always leaves the line HIGH, with nothing logged |
| Power.BootOnlyOnSwitch | src/scs_ndir/gas/spi_ndir_t1_f1/spi_ndir_t1_f1.py:79-84 | switching on waits the boot delay once when the line was off and not at all when it was on |
| Power.SwitchOnIdempotent | src/scs_ndir/gas/spi_ndir_v1/spi_ndir_v1.py:82-87 | `power_on` twice is `power_on` once |
| Power.SwitchOffIdempotent | src/scs_ndir/gas/spi_ndir_v1/spi_ndir_v1.py:90-94 | `power_off` twice is `power_off` once |
| Power.CycleBootsOnce | src/scs_ndir/gas/spi_ndir_x1/spi_ndir_x1.py:87-99 | off then on always boots exactly once |
| Power.ForceOnBootsEveryTime | src/scs_ndir/gas/ndir.py:81-83 | the older `power_on` waits the boot delay on every call, so it is not idempotent |
| Power.BootsAppend | src/scs_ndir/gas/ndir.py:83 | the boot delays in two trace pieces add up |
| SpiX1.SpiNdirX1.PowerOn | src/scs_ndir/gas/spi_ndir_x1/spi_ndir_x1.py:87-92 | x1 `power_on` equals SwitchOn with "on" as True and a 3.5 s boot delay |
| SpiX1.SpiNdirX1.PowerOff | src/scs_ndir/gas/spi_ndir_x1/spi_ndir_x1.py:95-99 | x1 `power_off` equals SwitchOff |
| SpiX1.SpiNdirX1.RecordRaw | src/scs_ndir/gas/spi_ndir_x1/spi_ndir_x1.py:468-511 | `record_raw` waits the whole recording after `rs`, then plays back count 10-byte records |
| SpiV1.SpiNdirV1.PowerOn | src/scs_ndir/gas/spi_ndir_v1/spi_ndir_v1.py:82-87 | v1 `power_on` is a no-op when the line is LOW, else drives LOW and waits 3.5 s |
| SpiV1.SpiNdirV1.PowerOff | src/scs_ndir/gas/spi_ndir_v1/spi_ndir_v1.py:90-94 | v1 `power_off` is a no-op when the line is HIGH, else drives HIGH |
| SpiV1.SpiNdirV1.RecordRaw | src/scs_ndir/gas/spi_ndir_v1/spi_ndir_v1.py:447-490 | `cmd_record_raw` plays back count 6-byte records of three uint16 |
| SpiT1F1.SampleReadsStatusOnly | src/scs_ndir/gas/spi_ndir_t1_f1/spi_ndir_t1_f1.py:119-127 | `sample` writes `sp` alone and, when accepted, reads the status byte and nothing more |
| SpiT1F1.SampleIntervalSpec | src/scs_ndir/gas/spi_ndir_t1_f1/spi_ndir_t1_f1.py:217-227 | an interval that was read lies between 0.01 s and the largest two uint16 reads allow |
| SpiT1F1.SampleIntervalSends | src/scs_ndir/gas/spi_ndir_t1_f1/spi_ndir_t1_f1.py:221-222 | it reads `cr` (0, 4), then `cr` (0, 6) only if the first succeeded |
| SpiT1F1.SampleIntervalReadsEeprom | src/scs_ndir/gas/spi_ndir_t1_f1/spi_ndir_t1_f1.py:217-227 | `get_sample_interval`'s two `cr` reads against a device holding an EEPROM give the interval computed from the lamp period and sample end it holds, consuming exactly their replies |
| SpiT1F1.StoredSampleInterval | src/scs_ndir/gas/spi_ndir_t1_f1/spi_ndir_t1_f1.py:217-227 | after `store_calib(c)` has burned a storable record, `get_sample_interval` against that device returns the interval computed from c's own lamp period and sample end |
| SpiT1F1.RecordWaitsForLamp | src/scs_ndir/gas/spi_ndir_t1_f1/spi_ndir_t1_f1.py:450-478 | a recording that reaches the playback sent `rs` with the block, `cr` (0, 4), then `rp`; right before `rp` it waited the time computed from the lamp period the device returned |
| SpiT1F1.LampTail | src/scs_ndir/gas/spi_ndir_t1_f1/spi_ndir_t1_f1.py:472-478 | after the lamp period is read: the wait, then `rp` in a session of its own |
| SpiT1F1.LampPrelude | src/scs_ndir/gas/spi_ndir_t1_f1/spi_ndir_t1_f1.py:464-470 | up to the wait: `rs` with the block, then `cr` with the lamp period's address |
| SpiT1F1.CountedLeavesOthers | src/scs_ndir/gas/spi_ndir_t1_f1/spi_ndir_t1_f1_cmd.py:129-131 | setting one entry's return count leaves every other entry as it was |
| SpiT1F1.SpiNdirT1F1.PowerOn | src/scs_ndir/gas/spi_ndir_t1_f1/spi_ndir_t1_f1.py:79-84 | t1f1 `power_on`, active low, boots only on an actual switch |
| SpiT1F1.SpiNdirT1F1.PowerOff | src/scs_ndir/gas/spi_ndir_t1_f1/spi_ndir_t1_f1.py:87-91 | t1f1 `power_off` is a no-op when the line is HIGH |
| SpiT1F1.SpiNdirT1F1.Sample | src/scs_ndir/gas/spi_ndir_t1_f1/spi_ndir_t1_f1.py:119-127 | `sample` under the lock equals its specification |
| SpiT1F1.SpiNdirT1F1.SampleInterval | src/scs_ndir/gas/spi_ndir_t1_f1/spi_ndir_t1_f1.py:217-227 | `get_sample_interval` under the lock equals its specification |
| SpiT1F1.SpiNdirT1F1.RecordRaw | src/scs_ndir/gas/spi_ndir_t1_f1/spi_ndir_t1_f1.py:450-492 | `record_raw` under the lock equals its specification |
| NdirDriver.SampleWindowReads600 | src/scs_ndir/gas/ndir.py:303-323 | on a fresh table an accepted `sw` plays back the 600 bytes after the status |
| NdirDriver.SampleWindowHolds100 | src/scs_ndir/gas/ndir.py:303-323 | the window is exactly 100 triples, triple k the three uint16 at offset 6k |
| NdirDriver.DumpOf | src/scs_ndir/gas/ndir.py:326-341 | a dump decodes exactly from a list of at least four bytes, its index a uint16 |
| NdirDriver.DumpRoundTrip | src/scs_ndir/gas/ndir.py:333-337 | every dump the device can send is read back as itself |
| NdirDriver.SampleDumpReadsFour | src/scs_ndir/gas/ndir.py:326-341 | on a fresh table an accepted `sd` gives byte 0, byte 1 and the uint16 of bytes 2..3 after the status |
| NdirDriver.CmdFailBreaksMeasureRaw | src/scs_ndir/gas/ndir.py:499-511 | as written, `cmd_fail` leaves `mr` with count 0, so every later `measure_raw` has no payload to slice |
| NdirDriver.CmdFailScopedKeepsMeasureRaw | src/scs_ndir/gas/ndir.py:499-511 | the scoped version sends the same and keeps the table, so a later `measure_raw` still decodes |
| NdirDriver.EepromReadSends | src/scs_ndir/gas/ndir.py:516-561 | a read sends `er` and the index byte; the width (2 or 4) stays in the shared entry; the value has the kind asked for |
| NdirDriver.EepromWriteSends | src/scs_ndir/gas/ndir.py:526-570 | a write sends `ew`, the index byte and bytes that read back to the value, then waits `ew`'s execution time on success |
| NdirDriver.SpiNdir.PowerOn | src/scs_ndir/gas/ndir.py:81-83 | `power_on` drives LOW and waits 2.5 s on every call |
| NdirDriver.SpiNdir.PowerOff | src/scs_ndir/gas/ndir.py:86-87 | `power_off` drives HIGH |
| NdirDriver.SpiNdir.SampleWindow | src/scs_ndir/gas/ndir.py:303-323 | `cmd_sample_window` under the lock equals its specification |
| NdirDriver.SpiNdir.SampleDump | src/scs_ndir/gas/ndir.py:326-341 | `cmd_sample_dump` under the lock equals its specification |
| NdirDriver.SpiNdir.CmdFail | src/scs_ndir/gas/ndir.py:499-511 | `cmd_fail` as written |
| NdirDriver.SpiNdir.CmdFailScoped | src/scs_ndir/gas/ndir.py:499-511 | `cmd_fail` with `mr`'s count restored afterwards |
| NdirDriver.SpiNdir.EepromRead | src/scs_ndir/gas/ndir.py:516-523 | `eeprom_read_*` for an unsigned int, unsigned long or float, with no lock, equals its specification |
| NdirDriver.SpiNdir.EepromWrite | src/scs_ndir/gas/ndir.py:526-533 | `eeprom_write_*` for an unsigned int, unsigned long or float, with no lock, equals its specification |
| NdirDriver.SpiNdir.RecordRaw | src/scs_ndir/gas/ndir.py:395-433 | `cmd_record_raw` waits the deferral past `rs`'s execution time, then plays back count 6-byte records |
| LegacyNdir.PackInt | scs_ndir/gas/ndir.py:41-44 | two bytes pack to a value in -32768..32767 whose int16 encoding is those bytes |
| LegacyNdir.PackFloat | scs_ndir/gas/ndir.py:47-51 | four bytes pack to nothing exactly when they are a NaN, else to the word they encode |
| LegacyNdir.PackIntRoundTrip | scs_ndir/gas/ndir.py:41-44 | every int16 survives packing its bytes |
| LegacyNdir.PackFloatRoundTrip | scs_ndir/gas/ndir.py:47-51 | every non-NaN word survives packing its bytes, and every NaN packs to nothing |
| LegacyNdir.ByteReadsShape | scs_ndir/gas/ndir.py:117-134 | byte-at-a-time reads alternate the 20 µs transfer delay and a one-byte read |
| LegacyNdir.SessionEvents | scs_ndir/gas/ndir.py:88-105 | a session always ends closed, and opens only when the lock was obtained |
| LegacyNdir.LegacyNdir.Sample | scs_ndir/gas/ndir.py:88-95 | `sample` closes the device and releases the lock on every path |
| LegacyNdir.LegacyNdir.Firmware | scs_ndir/gas/ndir.py:98-105 | `firmware` closes the device and releases the lock on every path |
| LegacyNdir.LegacyNdir.ReadSlowly | scs_ndir/gas/ndir.py:117-124 | n single-byte reads clock out what one read of n would, each after the transfer delay |
| LegacyNdir.LegacyNdir.ReadByte | scs_ndir/gas/ndir.py:110-114 | `__read_byte` is one delayed single-byte read |
| LegacyNdir.LegacyNdir.ReadInt | scs_ndir/gas/ndir.py:117-124 | `__read_int` is exactly two delayed reads, packed as an int16 |
| LegacyNdir.LegacyNdir.ReadFloat | scs_ndir/gas/ndir.py:127-134 | `__read_float` is exactly four delayed reads, packed as a float or nothing |
| LegacyNdir.LegacyNdir.PowerOn | scs_ndir/gas/ndir.py:78-79 | `power_on` drives LOW, with no delay |
| LegacyNdir.LegacyNdir.PowerOff | scs_ndir/gas/ndir.py:82-83 | `power_off` drives HIGH |
| Cli.Interval | src/scs_ndir/cmd/cmd_ndir_sampler.py:90-92 | the interval is 1.0 when not given, else the given value |
| Cli.Samples | src/scs_ndir/cmd/cmd_ndir_pressure.py:51-53 | samples is 1 when no interval was given, else the given count, which may be absent |
| Cli.SamplesKeptWhenAllowed | src/scs_ndir/cmd/cmd_ndir_measure.py:57-59 | where a count is allowed it is used as given |
| Cli.RecorderGiven | src/scs_ndir/cmd/cmd_ndir_recorder.py:32 | the deferral defaults to 0 |
| Cli.RecorderValidExactly | src/scs_ndir/cmd/cmd_ndir_recorder.py:45-58 | valid exactly when interval and samples are given and at least 1, and the deferral is in 0..999 |
| Cli.RecorderDefaultDeferral | src/scs_ndir/cmd/cmd_ndir_recorder.py:32-58 | without `-d`, only the interval and count decide |
| Cli.SamplerChoices | src/scs_ndir/cmd/cmd_ndir_sampler.py:45-54 | the count of mode, window and interval is at most 3, and 0 exactly when none is given |
| Cli.SamplerValidExactly | src/scs_ndir/cmd/cmd_ndir_sampler.py:44-62 | valid exactly when at most one of mode, window and interval is given, and samples only with an interval |
| Cli.SamplerModeOrWindowSamplesOnce | src/scs_ndir/cmd/cmd_ndir_sampler.py:90-97 | a valid mode or window request takes one sample at 1.0 s |
| Cli.RunModeValidExactly | src/scs_ndir/cmd/cmd_ndir_run_mode.py:37-44 | valid exactly when one of single and continuous is set; the defaults are refused |
| Cli.LampValidExactly | src/scs_ndir/cmd/cmd_ndir_lamp.py:37-44 | a level alone is valid; a run is valid exactly when 0 or 1, with or without a level; neither is invalid |
| Cli.CalibChoices | src/scs_ndir/cmd/cmd_ndir_calib.py:40-49 | the count of default, set and restart is at most 3, and 0 exactly when none is given |
| Cli.CalibValidExactly | src/scs_ndir/cmd/cmd_ndir_calib.py:39-54 | valid exactly when at most one of default, set and restart is given; none is valid |
| Cli.CalibPathAndValue | src/scs_ndir/cmd/cmd_ndir_calib.py:57-81 | `set()` holds exactly when `--set` was given; `path` and `value` are then its two parts, else None |
| Cli.ConfRules | src/scs_ndir/cmd/cmd_ndir_conf.py:44-59 | invalid exactly for model with delete; complete exactly when model and tally are given; set when either is; tally with delete is valid |
| Cli.PressureValidExactly | src/scs_ndir/cmd/cmd_ndir_pressure.py:37-42 | invalid exactly for samples without an interval; neither given is valid |
| Cli.MeasureValidExactly | src/scs_ndir/cmd/cmd_ndir_measure.py:40-47 | invalid exactly for samples without an interval or an interval under 0.01; no options at all pass with 1.0 s and one sample |

## Left out

- I/O is abstract:
  - The SPI device is a trace of events and a queue of bytes to clock out. Reading past the queue yields 0x00.
  - `time.sleep` is a logged event, not real time.
  - The inter-process lock is a flag chosen by the environment. Its timeout (4.0 s in the four SPI driver classes, 1.0 s in the legacy driver) is not modelled; a timeout is that flag.
  - The board's IO object is one boolean line, and its polarity handling is outside the model.
- Floats are opaque binary32 words, compared by bit pattern. Not modelled:
  - float arithmetic;
  - `Datum.float` rounding;
  - `round(p_a, 1)` in the pressure getters;
  - the one-decimal rounding of `lamp_voltage` in the flat record.
- CalibRecord.CalibFromJson: values keep the JSON type they arrived with. The constructor's `Datum.int` of selected-range, lamp-period, sample-start and sample-end and its `Datum.float` of lamp-voltage are not modelled. So a float in one of those integer fields, or an integer in lamp-voltage, is refused at store time where the source would convert it and store it. An object under ndir-serial or board-serial, which the source keeps as given, is refused with `NotAScalar`.
- CalibRecord.RangeFromJson: the `Datum.float(…, 6)` of the nine coefficients is not modelled. An integer coefficient such as `"t-cal": 40` stays an integer, and the float store refuses it where the source would write 40.0.
- FlatCalib.FromJson: the `Datum.float` of eleven fields is not modelled, so an integer there stays an integer. An object under lamp-period, max-deferral, min-deferral or span, which the source keeps as given, is refused with `NotAScalar`.
- `Datum` is not part of this model. Its conversions need float arithmetic, and floats here are opaque binary32 words.
- SpiT1F1.SampleIntervalSpec: the interval is computed as an exact `real`, not a binary64 division.
- Cli: intervals are exact `real`s, not binary64 values, so a comparison with 0.01 is exact. `optparse` parsing of argv is left out; each handler's options are a record of what was given.
- Operations.RecordPlaysBack states the record count only. The content of each record is stated by Operations.PlaybackCount, which RecordPlaysBack's result equals.
- `version()` and the `NDIRTag` parse, and the `Timedelta` of the uptime, are external.
- The monitor processes and the x1 diagnostic `wait()` are not part of this model.
- The datum classes, the samplers and the configuration factories are not part of this model.
- `PersistentJSONable` file I/O is not part of this model.
- The flat record's `store_eeprom_calib` / `retrieve_eeprom_calib` in `src/scs_ndir/gas/ndir.py` are left out. They use indices and a 15-argument constructor that `src/scs_ndir/gas/ndir_calib.py` does not define. The by-index EEPROM accessors they call are modelled.
- The sensor's firmware is not modelled. Its EEPROM is a map from (block, index) to bytes. The store and retrieve round trip (CalibStore.StoreThenRecall, SpiT1F1.StoredSampleInterval) rests on two assumptions about it:
  - it burns the `cw` writes it was sent, as CalibStore.Burn applies them; CalibStore.IssueSends gives the frames a store sends;
  - it answers each `cr` with an accepted status and the cell's bytes, as CalibStore.Reply gives them.
- NdirDriver.SpiNdir.EepromRead: the index is taken as a byte; the source would send any integer the SPI layer accepts.
- The `Datum.decode_*` and `Encode.*` calls without an explicit byte order are taken to be little-endian, like the explicit `'<'` ones.
- The v1 driver writes `max_deferral` and `min_deferral` as uint16 at common-block indices 5 and 6. The model stores the same slots under t1f1's names, `sample_start` and `sample_end`. The record class v1 imports is not part of this model.
- The legacy driver's `struct` formats `'h'` and `'f'` are native order; both are taken to be little-endian, for `LegacyNdir.PackInt` and `LegacyNdir.PackFloat`.

## Findings

| source | as written | input that shows it | evidently intended | confidence | as-written member | corrected member |
|---|---|---|---|---|---|---|
| src/scs_ndir/gas/ndir.py:499-511 | `cmd_fail` sets `return_count = 0` on the entry `find('mr')` returns, which is shared by the whole class; the override is never undone | `cmd_fail()` then `cmd_measure_raw()` on a device that accepts `mr` and sends six bytes: the count is still 0, no payload is read, and slicing `response[0:2]` of None raises | the zero count only for the one failing call; later `measure_raw` calls read their six bytes | medium, not executed | NdirDriver.CmdFailBreaksMeasureRaw | NdirDriver.CmdFailScopedKeepsMeasureRaw |
