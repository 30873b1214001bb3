# DAS sub-account witnesses and account-cell indexing, in Dafny

This project models three parts of the DAS (`.bit`) database indexer:

- the sub-account witness library (`witness/sub_account.go`):
  - the length-framed field list the witness generators append;
  - the edit engine that replaces one field of a stored sub-account and bumps its nonce;
  - the witness `GenWitness` composes for create, edit, renew and recycle;
  - the converters between Go records and character sets and their Molecule lists;
  - the decoder that turns a transaction's witnesses into sub-account builders.
- the account-cell action handlers of the block parser (`block_parser/action_account_cell.go`). Each one runs a version gate, decodes the account cell, derives the ledger rows and issues one store call.
- the device-key-list handlers (`block_parser/action_keylist_config_cell.go`). They build credential rows and master/slave authorization rows from a WebAuthn key list.

Files and modules:

| file | module | contents |
|---|---|---|
| `wrappers.dfy` | `Wrappers` | `Option`, and `Result` for Go's `(value, err)` |
| `bytes.dfy` | `Bytes` | bytes and Go integer widths, little-endian `GoU32ToBytes` / `Bytes2GoU32` / `Bytes2GoU64` |
| `molecule.dfy` | `Molecule` | Molecule `Bytes` fixvec and table/dynvec layout (Nervos RFC 0008 "Serialization"), with round trips |
| `molecule_types.dfy` | `MoleculeTypes` | the `Script`, `AccountChar(s)`, `Record(s)` and `SubAccount` tables, with round trips |
| `sub_account.dfy` | `SubAccountData` | Go-side sub-account types, edit keys and values, `genMoleculeSubAccount`, the `ConvertTo*` converters |
| `sub_account_witness.dfy` | `SubAccountWitness` | witness framing, the generators, `GenWitness`, the cursor reader, the decoder and the decoder as written |
| `ledger.dfy` | `Ledger`, `Decimal` | transactions, ledger rows, store calls, handler outcomes, the environment of collaborators, decimal text |
| `action_account_cell.dfy` | `AccountCellActions` | the six account-cell handlers and their row derivations |
| `action_keylist_config_cell.dfy` | `KeyListActions` | the two device-key-list handlers |

How the model is built:

- **Handlers.** Each handler is a `method` with the handler's own loops. It is proved equal to a specification function (`EditRecordsSpec`, …). That function returns the error the handler reports and the store call it issues, with its rows.
- **Collaborators.** `isCurrentVersionTx`, the witness decoders, `ArgsToHex`, the account-id hash, the chain client, the config cell, the clock, the store's read of sub-accounts and the error each store write returns are the fields of an `Env` value.
- **Panics.** A panic of the Go code (nil dereference, index out of range) is a value: `Panicked`, `NilDereference` or `None`. It is not a precondition.
- **Integer widths.** Go's unsigned arithmetic is written out: frame lengths modulo 2^32, the nonce bump and capacity sums modulo 2^64.

## Model

| member | source | states |
|---|---|---|
| Bytes.Bytes2GoU32 | vendor/github.com/DeAccountSystems/das-lib/witness/sub_account.go:84 | a slice reads as a `uint32` exactly when it is 4 bytes long |
| Bytes.Bytes2GoU64 | vendor/github.com/DeAccountSystems/das-lib/witness/sub_account.go:131-137 | a slice reads as a `uint64` exactly when it is 8 bytes long |
| Bytes.U32RoundTrip | vendor/github.com/DeAccountSystems/das-lib/witness/sub_account.go:333 | reading back the 4 little-endian bytes of `n` gives `n` |
| Bytes.U64RoundTrip | vendor/github.com/DeAccountSystems/das-lib/witness/sub_account.go:394-396 | reading back the 8 little-endian bytes of `n` gives `n` |
| Bytes.Bytes2GoU32Inverse | vendor/github.com/DeAccountSystems/das-lib/witness/sub_account.go:224 | writing back the `uint32` read from 4 bytes gives those bytes |
| Bytes.Bytes2GoU64Inverse | vendor/github.com/DeAccountSystems/das-lib/witness/sub_account.go:394 | writing back the `uint64` read from 8 bytes gives those bytes |
| Molecule.BytesRoundTrip | vendor/github.com/DeAccountSystems/das-lib/witness/sub_account.go:305 | a Molecule `Bytes` value decodes to the payload it was built from |
| Molecule.TableRoundTrip | vendor/github.com/DeAccountSystems/das-lib/witness/sub_account.go:314-326 | a Molecule table whose size fits a `uint32` decodes to its fields, in order |
| MoleculeTypes.ScriptRoundTrip | vendor/github.com/DeAccountSystems/das-lib/witness/sub_account.go:182-185 | a well-formed `Script` decodes back from its serialisation |
| MoleculeTypes.AccountCharRoundTrip | vendor/github.com/DeAccountSystems/das-lib/witness/sub_account.go:276-278 | an `AccountChar` decodes back from its serialisation |
| MoleculeTypes.AccountCharsRoundTrip | vendor/github.com/DeAccountSystems/das-lib/witness/sub_account.go:254-283 | an `AccountChars` list decodes back, element by element |
| MoleculeTypes.RecordRoundTrip | vendor/github.com/DeAccountSystems/das-lib/witness/sub_account.go:288-295 | a `Record` decodes back from its serialisation |
| MoleculeTypes.RecordsRoundTrip | vendor/github.com/DeAccountSystems/das-lib/witness/sub_account.go:197-200 | a `Records` list decodes back, element by element |
| MoleculeTypes.SubAccountRoundTrip | vendor/github.com/DeAccountSystems/das-lib/witness/sub_account.go:123 | a well-formed `SubAccount` whose serialisation fits a `uint32` decodes back from it |
| MoleculeTypes.SubAccountFieldsRoundTrip | vendor/github.com/DeAccountSystems/das-lib/witness/sub_account.go:314-326 | the eleven sub-account fields are recovered from the table in builder order |
| SubAccountData.ParseEditKey | vendor/github.com/DeAccountSystems/das-lib/witness/sub_account.go:159-178 | an edit key is recognised exactly when it spells one of the six field names, and then it spells that name |
| SubAccountData.ConvertEditValue | vendor/github.com/DeAccountSystems/das-lib/witness/sub_account.go:182-210 | the edit value parses as the field's type: exactly 8 bytes for expiry and renew price and exactly 1 byte for status and enable flag, each parsed value being the edit value itself; the decoded `Script` or `Records` otherwise |
| SubAccountData.BumpNonce | vendor/github.com/DeAccountSystems/das-lib/witness/sub_account.go:394-396 | the new nonce reads as the old nonce plus one, wrapping at 2^64 |
| SubAccountData.GenMoleculeSubAccount | vendor/github.com/DeAccountSystems/das-lib/witness/sub_account.go:390-421 | a known key replaces exactly its field with the edit value and bumps the nonce by one, keeping every other field; an unknown key returns the stored table unchanged; a value that does not parse is a nil dereference |
| SubAccountData.AccountCharsBeforeDotSpec | vendor/github.com/DeAccountSystems/das-lib/witness/sub_account.go:272-275 | the kept characters are the entries, in order, before the first `"."`, and the entry after them is that dot |
| SubAccountData.ConvertToAccountChars | vendor/github.com/DeAccountSystems/das-lib/witness/sub_account.go:270-283 | the loop builds the character list up to the first `"."` |
| SubAccountData.ConvertToAccountCharSets | vendor/github.com/DeAccountSystems/das-lib/witness/sub_account.go:254-266 | one character set per Molecule character, element by element |
| SubAccountData.ConvertToRecords | vendor/github.com/DeAccountSystems/das-lib/witness/sub_account.go:285-299 | one Molecule record per Go record, in order |
| SubAccountData.ConvertToSubAccountRecords | vendor/github.com/DeAccountSystems/das-lib/witness/sub_account.go:220-234 | one Go record per Molecule record, in order |
| SubAccountData.RecordsRoundTrip | vendor/github.com/DeAccountSystems/das-lib/witness/sub_account.go:220-299 | converting records to Molecule and back gives the same records: key, type, label, value and TTL, in order |
| SubAccountData.RecordsWireRoundTrip | vendor/github.com/DeAccountSystems/das-lib/witness/sub_account.go:220-299 | the same round trip also holds through the serialised bytes |
| SubAccountData.AccountCharsRoundTrip | vendor/github.com/DeAccountSystems/das-lib/witness/sub_account.go:254-283 | converting character sets to Molecule and back gives the prefix before the first dot |
| SubAccountData.ConvertToMoleculeSubAccount | vendor/github.com/DeAccountSystems/das-lib/witness/sub_account.go:301-328 | a sub-account with a lock and a 20-byte id converts to a well-formed Molecule table |
| SubAccountData.SubAccountConversionRoundTrip | vendor/github.com/DeAccountSystems/das-lib/witness/sub_account.go:127-137 | reading a converted sub-account back gives the sub-account, its characters cut at the first dot |
| SubAccountData.ConvertToSubAccount | vendor/github.com/DeAccountSystems/das-lib/witness/sub_account.go:157-180 | a known key sets its field to the edit value read as that field's Go value (the decoded lock, the little-endian expiry or price, the status or enable byte, the records read back), and every other field, id, characters, suffix, registration time and nonce included, stays at its zero value; an unknown key gives the zero sub-account |
| SubAccountData.ConvertToSubAccountAgreesWithEdit | vendor/github.com/DeAccountSystems/das-lib/witness/sub_account.go:157-180 | the sub-account built from the edit holds, in the edited field, what the edit engine writes into the table |
| SubAccountWitness.FrameAllLength | vendor/github.com/DeAccountSystems/das-lib/witness/sub_account.go:333-353 | framed fields take four bytes each plus their payloads |
| SubAccountWitness.GenOldSubAccountBytes | vendor/github.com/DeAccountSystems/das-lib/witness/sub_account.go:330-356 | for version 1, the seven framed fields in order (signature, prevRoot, currentRoot, proof, version, sub-account, edit key); nothing otherwise |
| SubAccountWitness.GenNewSubAccountBytes | vendor/github.com/DeAccountSystems/das-lib/witness/sub_account.go:358-388 | for version 1, the same seven fields of the converted sub-account followed by the framed edit value; nothing otherwise |
| SubAccountWitness.NewSubAccountBytesLength | vendor/github.com/DeAccountSystems/das-lib/witness/sub_account.go:358-388 | the version-1 output is 32 bytes plus the eight payload lengths |
| SubAccountWitness.NewExtendsOld | vendor/github.com/DeAccountSystems/das-lib/witness/sub_account.go:330-388 | the new-account bytes are the old-account bytes plus the framed edit value; both generators write nothing for any version but 1 |
| SubAccountWitness.EditedFieldBytes | vendor/github.com/DeAccountSystems/das-lib/witness/sub_account.go:431-459 | only lock, status, records, enable flag and renew price are accepted; any other key, `expired_at` included, fails with "not support edit key" |
| SubAccountWitness.GenWitness | vendor/github.com/DeAccountSystems/das-lib/witness/sub_account.go:423-472 | the exact witness of each action: create frames the new bytes; edit, the bumped table and the framed edited field; renew, `u32le(8)` and the 8-byte expiry; recycle, the stored un-bumped table, `u32le(0)` and one zero byte; any other action fails with "not exist action" |
| SubAccountWitness.ReadWitnessFields | vendor/github.com/DeAccountSystems/das-lib/witness/sub_account.go:82-119 | the cursor loop, advancing four plus the length per field, reads what the field reader specifies |
| SubAccountWitness.ReadFramed | vendor/github.com/DeAccountSystems/das-lib/witness/sub_account.go:82-119 | reading framed fields at their start gives back exactly those fields, whatever precedes or follows them |
| SubAccountWitness.DecodeSubAccountEntry | vendor/github.com/DeAccountSystems/das-lib/witness/sub_account.go:80-143 | a decoded entry has version 1, a well-formed table, the Go sub-account read from that table and the account of its characters |
| SubAccountWitness.OtherVersionRejected | vendor/github.com/DeAccountSystems/das-lib/witness/sub_account.go:121-143 | a well-framed witness of any version but 1 fails with "sub account version" |
| SubAccountWitness.SubAccountDataBuilderMapFromTx | vendor/github.com/DeAccountSystems/das-lib/witness/sub_account.go:75-155 | the loop over witnesses builds the map of the specification, later entries overwriting earlier ones, and fails on the first bad entry |
| SubAccountWitness.CollectFailureSticks | vendor/github.com/DeAccountSystems/das-lib/witness/sub_account.go:78-150 | once an entry fails, the whole walk fails with that error |
| SubAccountWitness.NoSubAccountWitness | vendor/github.com/DeAccountSystems/das-lib/witness/sub_account.go:151-153 | a transaction with no sub-account witness fails with "not exist sub account" |
| SubAccountWitness.CollectedBuildersDecoded | vendor/github.com/DeAccountSystems/das-lib/witness/sub_account.go:138-140 | every builder in the map is keyed by its own account and decodes from some sub-account witness of the transaction |
| SubAccountWitness.CreateWitnessDecodes | vendor/github.com/DeAccountSystems/das-lib/witness/sub_account.go:425-428 | the decoder inverts the create witness field by field |
| SubAccountWitness.OldWitnessDecodes | vendor/github.com/DeAccountSystems/das-lib/witness/sub_account.go:429-456 | the decoder inverts an edit witness field by field, the edited field as the edit value |
| SubAccountWitness.RenewWitnessDecodes | vendor/github.com/DeAccountSystems/das-lib/witness/sub_account.go:460-465 | the decoder inverts a renew witness, the 8-byte expiry as the edit value |
| SubAccountWitness.RecycleWitnessDecodes | vendor/github.com/DeAccountSystems/das-lib/witness/sub_account.go:466-469 | the decoder inverts a recycle witness, with an empty edit value |
| SubAccountWitness.AsWrittenAlwaysPanics | vendor/github.com/DeAccountSystems/das-lib/witness/sub_account.go:84-89 | the offset arithmetic as written slices out of range by line 88 on every input |
| SubAccountWitness.CreateWitnessUnreadableAsWritten | vendor/github.com/DeAccountSystems/das-lib/witness/sub_account.go:84-127 | a create witness that the intended reader decodes makes the code as written panic |
| Ledger.Issue | block_parser/action_account_cell.go:71-74 | the store call is always issued, and the handler reports an error exactly when the store does |
| Decimal.FormatUintDigits | block_parser/action_account_cell.go:41 | a TTL's decimal text is all digits, with a leading zero only for 0 |
| Decimal.ParseFormatUint | block_parser/action_account_cell.go:41 | the decimal text of a TTL reads back as that TTL |
| AccountCellActions.RecordsInfos | block_parser/action_account_cell.go:29-43 | the loop builds one record row per record, in order |
| AccountCellActions.RecordRowsFaithful | block_parser/action_account_cell.go:33-43 | row `i` holds record `i`'s key, type, label and value, and a TTL text that reads back as its TTL |
| AccountCellActions.InputsOutpoints | block_parser/action_account_cell.go:151-153 | the loop lists every input's previous outpoint, in input order |
| AccountCellActions.IncomeCellInfos | block_parser/action_account_cell.go:154-170 | the loop builds the income rows and the renew capacity of the specification |
| AccountCellActions.IncomeIndicesExact | block_parser/action_account_cell.go:155-170 | the income indices are increasing, each names an output with a type script of the income contract, and every such output is listed |
| AccountCellActions.IncomeRowsExact | block_parser/action_account_cell.go:155-169 | one unmerged row per income output, in output order, with its index and capacity, and no other row |
| AccountCellActions.RenewCapacityIsLastIncome | block_parser/action_account_cell.go:154-170 | the renew capacity is the capacity of the last income output, or 0 when there is none |
| AccountCellActions.OutputsCapacityWraps | block_parser/action_account_cell.go:350 | the outputs' capacity is their sum modulo 2^64 |
| AccountCellActions.RecycleCapacityIsRest | block_parser/action_account_cell.go:350 | without overflow, the recycle capacity is the capacity of every output but output 0 |
| AccountCellActions.NotExpiredYetExactly | block_parser/action_account_cell.go:333-336 | without overflow, recycling is refused exactly when expiry plus grace period is after now, and goes on when they are equal |
| AccountCellActions.SubAccountIds | block_parser/action_account_cell.go:361-363 | the loop lists each sub-account's id, in order |
| AccountCellActions.ActionEditRecords | block_parser/action_account_cell.go:14-77 | the handler does what its specification function does |
| AccountCellActions.EditRecordsRows | block_parser/action_account_cell.go:29-67 | one row per record of the new cell, in order, with decimal TTLs; the history row has capacity 0 and the cell's outpoint |
| AccountCellActions.ActionEditManager | block_parser/action_account_cell.go:79-131 | the handler does what its specification function does |
| AccountCellActions.EditManagerParties | block_parser/action_account_cell.go:96-121 | the account row takes the new lock's manager; the zero-capacity history row names its owner |
| AccountCellActions.ActionRenewAccount | block_parser/action_account_cell.go:133-213 | the handler does what its specification function does |
| AccountCellActions.RenewAccountRows | block_parser/action_account_cell.go:149-207 | renew writes every input's previous outpoint, the income rows and the last income capacity as payment |
| AccountCellActions.ActionTransferAccount | block_parser/action_account_cell.go:215-300 | the handler does what its specification function does |
| AccountCellActions.TransferAccountParties | block_parser/action_account_cell.go:243-277 | the history row's chain type and address are the previous owner's, from the spent output; the account row's owner and manager are the new output's |
| AccountCellActions.ActionRecycleExpiredAccount | block_parser/action_account_cell.go:302-374 | the handler does what its specification function does |
| AccountCellActions.RecycleExpired | block_parser/action_account_cell.go:337-371 | past the grace check, the only store call is the recycle call |
| AccountCellActions.RecycleGraceCheck | block_parser/action_account_cell.go:333-336 | recycle stops with "account has not expired yet" when the wrapping sum of expiry and grace period is after now, otherwise goes on; a store call means the grace period is over |
| AccountCellActions.RecycleRows | block_parser/action_account_cell.go:342-368 | the history row has outpoint index 0 and the capacity of the outputs less output 0; sub-account ids are collected only when the cell enables sub-accounts |
| AccountCellActions.ActionAccountCrossChain | block_parser/action_account_cell.go:376-433 | the handler does what its specification function does |
| AccountCellActions.CrossChainStatusExact | block_parser/action_account_cell.go:391-412 | the status is Normal exactly for an unlock for cross-chain, and on-lock otherwise; both rows point at output 0 |
| AccountCellActions.AccountCellVersionGate | block_parser/action_account_cell.go:15-21 | every handler skips a stale transaction with no error and no store call, and reports an error of the version check |
| KeyListActions.AuthorizeRowsExact | block_parser/action_keylist_config_cell.go:60-77 | authorization row `i` has key 0's algorithm ids as the master's, key `i`'s cid and public key as both master and slave, key `i`'s algorithm ids as the slave's, and outpoint index 0 |
| KeyListActions.CidPkRowsExact | block_parser/action_keylist_config_cell.go:78-81 | credential row `i` is key `i`'s cid and public key, with authorization unset |
| KeyListActions.BuildAuthorize | block_parser/action_keylist_config_cell.go:57-82 | the loop, taking key 0 as master, builds both row lists of the specification |
| KeyListActions.ActionUpdateDeviceKeyList | block_parser/action_keylist_config_cell.go:41-88 | the handler does what its specification function does |
| KeyListActions.UpdateDeviceKeyListWritesEveryKey | block_parser/action_keylist_config_cell.go:51-86 | a decoded list, even an empty one, is written: one authorization row and one credential row per key, in key order |
| KeyListActions.ActionCreateDeviceKeyList | block_parser/action_keylist_config_cell.go:10-38 | the handler does what the intended specification does |
| KeyListActions.CreateDeviceKeyListInsertsMaster | block_parser/action_keylist_config_cell.go:20-36 | exactly key 0's credential is inserted, with authorization on, and only when the list decodes and is not empty; otherwise an error and no insert |
| KeyListActions.CreateDeviceKeyListPanicsAsWritten | block_parser/action_keylist_config_cell.go:20-28 | where the list fails to decode or is empty, the code as written panics and the intended handler reports an error; elsewhere they agree |
| KeyListActions.KeyListVersionGate | block_parser/action_keylist_config_cell.go:42-48 | both handlers skip a stale transaction silently and report an error of the version check |

## Left out

- Logging, `toolib.JsonString` and `time.Now()` are left out. The clock is the `now` field of the environment.
- Collaborators whose source is not part of this model are fields of the environment, with no behaviour assumed:
  - `isCurrentVersionTx`, `AccountCellDataBuilderFromTx`, `WebAuthnKeyListDataBuilderFromTx` together with `ConvertToWebauthnKeyList`;
  - `GetAccountIdByAccount` with `Bytes2Hex`, `ArgsToHex`, `GetDasContractInfo` with `IsSameTypeId`;
  - `GetTxByHashOnChain`, `ConfigCellDataBuilderByTypeArgs` with `ExpirationGracePeriod`;
  - `GetAccountInfoByParentAccountId` and every `dbDao` write. A write is modelled as the call it receives plus the error it returns.
- `GetWitnessDataFromTx` is modelled as a list of (action data type, payload) entries. `GenDasSubAccountWitness` is modelled as a caller-supplied header prepended to the body. Their own byte layout is not part of this model.
- `common.AccountCharsToAccount` is the `accountOf` parameter of the decoder. `common.Bytes2Hex` of the account id is kept as the 20 raw bytes.
- `SubAccountDataBuilderFromTx` and `SubAccountIdDataBuilderFromTx` are not modelled. They pick an arbitrary entry of a Go map, or re-key it by account id.
- `ConvertToRecordsHash` is not modelled. It is a blake2b hash.
- The Molecule schema is not part of this model. The field order of `Script`, `AccountChar`, `Record` and `SubAccount` follows the builder calls in the source.
- `molecule.*FromSlice` is modelled as the exact inverse of the layout. Its compatibility mode and extra-field handling are not modelled.
- `Bytes.Bytes2GoU32`: modelled as succeeding exactly on 4 bytes. Acceptance of other widths by the library is not modelled.
- `Bytes.Bytes2GoU64`: modelled as succeeding exactly on 8 bytes. Acceptance of other widths by the library is not modelled.
- A Go `*types.Script` is represented by its Molecule `Script` table. The `HashType` mapping done by `CkbScript2MoleculeScript` and `MoleculeScript2CkbScript` is not modelled.
- `SubAccountWitness.GenWitness`: `OtherAction(name)` stands for an action name equal to none of the four sub-account action constants. The constants' text is not part of this model, so the datatype does not enforce it.
- `SubAccountWitness.GenWitness`: requires the stored table to be well formed and a present lock to be a well-formed script. What Go does with a malformed stored table is not modelled.
- `SubAccountWitness.GenWitness`: assumes `p.SubAccount` is not nil.
- `SubAccountWitness.GenNewSubAccountBytes`: for version 1, requires a sub-account with a lock and a 20-byte id. `AccountIdFromSlice` on another length, which yields a nil id, is reported by `GenWitness` as a nil dereference rather than run.
- `SubAccountWitness.AsWrittenSubAccountEntry`: a Go slice's capacity is taken to be its length.
- Action names and `dao` status constants are enumerations or named constants. Their numeric values come from files that are not part of this model.
- `common.OutPoint2String` is kept as a (hash, index) pair rather than its text.
- config/config.go, dao/dao_snapshot_register_info.go, dao/dao_block_info.go and http_server/handle/version.go are left out. They hold file loading and watching, table schemas and an HTTP handler.
- The handlers' parallel ingestion and rollback are left out. They are not in the modelled code.

## Findings

| source | as written | input that shows it | evidently intended | confidence | as-written member | corrected member |
|---|---|---|---|---|---|---|
| vendor/github.com/DeAccountSystems/das-lib/witness/sub_account.go:82-119 | each length is read from `dataBys[index:length]`, with the constant 4 as upper bound; `index = length + int(len)` does not accumulate; each payload slice ends at the length instead of `index+4+len`. A second defect is hidden behind the line-88 panic: line 81 declares `resp` with a nil `SubAccount` pointer, so `resp.SubAccount.Lock = …` at line 127 dereferences nil on every version-1 entry whose table decodes (`Panicked(127)` in the as-written member) | any witness, such as the create witness `GenWitness` writes (`CreateWitnessUnreadableAsWritten`); every input slices out of range by line 88 (`AsWrittenAlwaysPanics`) | a cursor reader that advances by four plus the length per field and inverts the generators (`CreateWitnessDecodes`, `OldWitnessDecodes`), and a builder whose Go sub-account is filled from the decoded table (`DecodeSubAccountEntry` ensures `subAccount == GoSubAccount(moleculeSubAccount)`) | not executed | SubAccountWitness.AsWrittenSubAccountEntry | SubAccountWitness.DecodeSubAccountEntry |
| block_parser/action_keylist_config_cell.go:20-26 | the decoder's error is not checked before `builder.WebAuthnKeyListData` is read; an empty key list formats `err.Error()` with `err` nil | a key list that fails to decode, or that decodes to an empty list (`CreateDeviceKeyListPanicsAsWritten`) | report the decode error, report an empty list as an error, insert nothing | not executed; the decoder is assumed to return a nil builder with its error | KeyListActions.CreateDeviceKeyListAsWritten | KeyListActions.ActionCreateDeviceKeyList |
