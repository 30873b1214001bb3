/**
 * The chain transaction as the block parser sees it, the ledger rows its handlers derive
 * (the `dao.Table*` records) and the store calls that write them, together with the
 * collaborators the handlers consult, which the model takes as given functions.
 */
module Ledger {

  import opened Wrappers
  import opened Bytes

  // ---------------------------------------------------------------- chain transaction

  datatype OutPoint = OutPoint(txHash: string, index: nat)
  datatype CellInput = CellInput(previousOutput: OutPoint)
  datatype Script = Script(codeHash: seq<byte>, args: seq<byte>)
  datatype CellOutput = CellOutput(capacity: u64, lock: Script, typeScript: Option<Script>)
  datatype Transaction = Transaction(inputs: seq<CellInput>, outputs: seq<CellOutput>)

  /** `FuncTransactionHandleReq`: the transaction being indexed and where it sits in the chain. */
  datatype TransactionHandleReq = TransactionHandleReq(
    blockNumber: u64,
    txHash: string,
    blockTimestamp: u64,
    action: string,
    tx: Transaction)

  /**
   * `common.OutPoint2String(txHash, index)`: the text the ledger stores for an outpoint,
   * kept here as its two parts.
   */
  datatype OutpointText = OutpointText(txHash: string, index: nat)

  // ---------------------------------------------------------------- decoded account cell

  /** Which of the transaction's account cells a witness describes. */
  datatype DataType = DataTypeNew | DataTypeOld

  /** A record of an account cell's record list. */
  datatype AccountRecord = AccountRecord(key: string, recordType: string, recordLabel: string, value: string, ttl: u32)

  /** The fields of `witness.AccountCellDataBuilder` the handlers read. */
  datatype AccountCellBuilder = AccountCellBuilder(
    account: string,
    accountId: string,
    index: nat,
    expiredAt: u64,
    enableSubAccount: u8,
    records: seq<AccountRecord>)

  /** What `ArgsToHex` decodes an owner or manager lock argument to. */
  datatype AddressHex = AddressHex(chainType: int, addressHex: string, dasAlgorithmId: int)

  /** A device key of a WebAuthn key list. */
  datatype WebauthnKey = WebauthnKey(minAlgId: int, subAlgId: int, cid: string, pubKey: string)

  // ---------------------------------------------------------------- ledger rows

  datatype AccountStatus = AccountStatusNormal | AccountStatusOnLock
  datatype ServiceType = ServiceTypeRegister
  datatype IncomeCellStatus = IncomeCellStatusUnMerge
  /** `EnableAuthorizeUnset` is the zero value a row gets when the code does not set the field. */
  datatype EnableAuthorize = EnableAuthorizeUnset | EnableAuthorizeOn

  datatype TableRecordsInfo = TableRecordsInfo(
    accountId: string, account: string, key: string, recordType: string, recordLabel: string, value: string,
    ttl: string)

  /** `dao.TableAccountInfo`; `status` is `None` where the handler leaves the Go zero value. */
  datatype TableAccountInfo = TableAccountInfo(
    blockNumber: u64,
    outpoint: OutpointText,
    accountId: string,
    account: string,
    ownerChainType: int,
    owner: string,
    ownerAlgorithmId: int,
    managerChainType: int,
    manager: string,
    managerAlgorithmId: int,
    expiredAt: u64,
    status: Option<AccountStatus>)

  /** An account row with only its block, outpoint and account set. */
  function AccountInfo(blockNumber: u64, outpoint: OutpointText, accountId: string, account: string): TableAccountInfo
  {
    TableAccountInfo(blockNumber, outpoint, accountId, account, 0, "", 0, 0, "", 0, 0, None)
  }

  /** `dao.TableTransactionInfo`: the history row of an action. */
  datatype TableTransactionInfo = TableTransactionInfo(
    blockNumber: u64,
    accountId: string,
    account: string,
    action: string,
    serviceType: ServiceType,
    chainType: int,
    address: string,
    capacity: u64,
    outpoint: OutpointText,
    blockTimestamp: u64)

  datatype TableIncomeCellInfo = TableIncomeCellInfo(
    blockNumber: u64, action: string, outpoint: OutpointText, capacity: u64, blockTimestamp: u64,
    status: IncomeCellStatus)

  datatype TableCidPk = TableCidPk(cid: string, pk: string, enableAuthorize: EnableAuthorize)

  datatype TableAuthorize = TableAuthorize(
    masterAlgId: int, masterSubAlgId: int, masterCid: string, masterPk: string,
    slaveAlgId: int, slaveSubAlgId: int, slaveCid: string, slavePk: string,
    outpoint: OutpointText)

  /** The `dbDao` call a handler issues, with the rows it passes. */
  datatype StoreCall =
    | CreateRecordsInfos(accountInfo: TableAccountInfo, recordsInfos: seq<TableRecordsInfo>, transactionInfo: TableTransactionInfo)
    | EditManager(accountInfo: TableAccountInfo, transactionInfo: TableTransactionInfo)
    | RenewAccount(inputsOutpoints: seq<OutpointText>, incomeCellInfos: seq<TableIncomeCellInfo>,
                   accountInfo: TableAccountInfo, transactionInfo: TableTransactionInfo)
    | TransferAccount(accountInfo: TableAccountInfo, transactionInfo: TableTransactionInfo, recordsInfos: seq<TableRecordsInfo>)
    | RecycleExpiredAccount(accountId: string, subAccountIds: seq<string>, transactionInfo: TableTransactionInfo)
    | AccountCrossChain(accountInfo: TableAccountInfo, transactionInfo: TableTransactionInfo)
    | InsertCidPk(cidPk: seq<TableCidPk>)
    | UpdateAuthorizeByMaster(authorize: seq<TableAuthorize>, cidPk: seq<TableCidPk>)

  // ---------------------------------------------------------------- handler outcome

  /** `resp.Err`, or a Go run-time panic (an index out of range, a nil dereference). */
  datatype Failure = Error(message: string) | Panic

  /** What a handler did: the error it reports, and the store call it issued, if any. */
  datatype Handled = Handled(err: Option<Failure>, call: Option<StoreCall>)

  /** An early return with `resp.Err` set and no store call. */
  function Stop(message: string): Handled
  {
    Handled(Some(Error(message)), None)
  }

  const Panicked := Handled(Some(Panic), None)

  /**
   * The collaborators the handlers call: `isCurrentVersionTx`, the witness decoders, the
   * account-id hash, `ArgsToHex`, the contract and config lookups, the chain client, the
   * clock, the store's read of sub-accounts and the error each store write reports.
   */
  datatype Env = Env(
    isCurrentVersionTx: Transaction -> Result<bool, string>,
    accountCellDataBuilderFromTx: (Transaction, DataType) -> Result<AccountCellBuilder, string>,
    webAuthnKeyListFromTx: Transaction -> Result<seq<WebauthnKey>, string>,
    accountIdOf: string -> string,
    argsToHex: seq<byte> -> Result<(AddressHex, AddressHex), string>,
    incomeContract: Result<seq<byte> -> bool, string>,
    getTxByHashOnChain: string -> Result<Transaction, string>,
    accountConfigCell: Result<Result<u32, string>, string>,
    now: u64,
    accountInfosByParent: string -> Result<seq<TableAccountInfo>, string>,
    storeErr: StoreCall -> Option<string>)

  /** The store call is issued; its error, if any, becomes `resp.Err` between `prefix` and `suffix`. */
  function Issue(env: Env, call: StoreCall, prefix: string, suffix: string): (h: Handled)
    ensures h.call == Some(call)
    ensures h.err.None? <==> env.storeErr(call).None?
  {
    match env.storeErr(call)
    case None => Handled(None, Some(call))
    case Some(e) => Handled(Some(Error(prefix + e + suffix)), Some(call))
  }

  /** Every handler starts here: a version-check error is reported, a stale version is skipped silently. */
  function VersionGate(env: Env, req: TransactionHandleReq): Option<Handled>
  {
    match env.isCurrentVersionTx(req.tx)
    case Err(e) => Some(Stop("isCurrentVersion err: " + e))
    case Ok(false) => Some(Handled(None, None))
    case Ok(true) => None
  }
}

/** `strconv.FormatUint(n, 10)` and its inverse. */
module Decimal {

  import opened Wrappers

  predicate IsDigit(c: char)
  {
    '0' <= c <= '9'
  }

  function DigitChar(d: nat): (c: char)
    requires d < 10
    ensures IsDigit(c)
  {
    (('0' as int) + d) as char
  }

  /** The decimal digits of `n`, most significant first, without leading zeros. */
  function FormatUint(n: nat): (s: string)
    ensures |s| >= 1
  {
    if n < 10 then [DigitChar(n)] else FormatUint(n / 10) + [DigitChar(n % 10)]
  }

  /** The value of a non-empty string of decimal digits. */
  function ParseUint(s: string): Option<nat>
  {
    if s == [] then None
    else if !IsDigit(s[|s| - 1]) then None
    else
      var last := (s[|s| - 1] as int) - ('0' as int);
      if |s| == 1 then Some(last)
      else
        var prefix :- ParseUint(s[..|s| - 1]);
        Some(prefix * 10 + last)
  }

  /** The text is made of digits only and starts with a zero only for zero itself. */
  lemma {:induction false} FormatUintDigits(n: nat)
    ensures forall i :: 0 <= i < |FormatUint(n)| ==> IsDigit(FormatUint(n)[i])
    ensures FormatUint(n)[0] == '0' <==> n == 0
  {
    if n >= 10 {
      FormatUintDigits(n / 10);
    }
  }

  /** Reading the decimal text back gives the number. */
  lemma {:induction false} ParseFormatUint(n: nat)
    ensures ParseUint(FormatUint(n)) == Some(n)
  {
    if n >= 10 {
      ParseFormatUint(n / 10);
      var s := FormatUint(n);
      assert s[..|s| - 1] == FormatUint(n / 10);
    }
  }
}
