/**
 * The account-cell handlers of `block_parser/action_account_cell.go`. Each passes the
 * version gate, decodes the account cell, derives the ledger rows and issues one store call.
 * Every handler is a method built from loops over the transaction, proved equal to a
 * specification function, about which the ledger facts are proved as lemmas.
 */
module AccountCellActions {

  import opened Wrappers
  import opened Bytes
  import opened Ledger
  import opened Decimal

  /** The `common.DasAction*` names these handlers write into history rows. */
  const DAS_ACTION_EDIT_RECORDS := "edit_records"
  const DAS_ACTION_EDIT_MANAGER := "edit_manager"
  const DAS_ACTION_RENEW_ACCOUNT := "renew_account"
  const DAS_ACTION_TRANSFER_ACCOUNT := "transfer_account"
  const DAS_ACTION_RECYCLE_EXPIRED_ACCOUNT := "recycle_expired_account"
  const DAS_ACTION_UNLOCK_ACCOUNT_FOR_CROSS_CHAIN := "unlock_account_for_cross_chain"

  const NOT_EXPIRED_YET := "ActionRecycleExpiredAccount: account has not expired yet"

  // ---------------------------------------------------------------- record rows

  /** The record row of one record: the record's fields, its TTL in decimal. */
  function RecordsInfoOf(accountId: string, account: string, r: AccountRecord): TableRecordsInfo
  {
    TableRecordsInfo(accountId, account, r.key, r.recordType, r.recordLabel, r.value, FormatUint(r.ttl))
  }

  function RecordRows(accountId: string, account: string, records: seq<AccountRecord>): (rows: seq<TableRecordsInfo>)
    ensures |rows| == |records|
  {
    seq(|records|, i requires 0 <= i < |records| => RecordsInfoOf(accountId, account, records[i]))
  }

  /** The `for _, v := range recordList` loop of the record-writing handlers. */
  method RecordsInfos(accountId: string, account: string, recordList: seq<AccountRecord>)
    returns (recordsInfos: seq<TableRecordsInfo>)
    ensures recordsInfos == RecordRows(accountId, account, recordList)
  {
    recordsInfos := [];
    for i := 0 to |recordList|
      invariant recordsInfos == RecordRows(accountId, account, recordList[..i])
    {
      assert recordList[..i + 1] == recordList[..i] + [recordList[i]];
      recordsInfos := recordsInfos + [RecordsInfoOf(accountId, account, recordList[i])];
    }
    assert recordList[..|recordList|] == recordList;
  }

  /**
   * One row per record, in order, each carrying the account, the record's key, type, label
   * and value, and a TTL text that reads back as the record's TTL.
   */
  lemma RecordRowsFaithful(accountId: string, account: string, records: seq<AccountRecord>)
    ensures var rows := RecordRows(accountId, account, records);
      forall i :: 0 <= i < |records| ==>
        && rows[i].accountId == accountId && rows[i].account == account
        && rows[i].key == records[i].key && rows[i].recordType == records[i].recordType
        && rows[i].recordLabel == records[i].recordLabel && rows[i].value == records[i].value
        && ParseUint(rows[i].ttl) == Some(records[i].ttl as nat)
  {
    forall i | 0 <= i < |records|
      ensures ParseUint(RecordRows(accountId, account, records)[i].ttl) == Some(records[i].ttl as nat)
    {
      ParseFormatUint(records[i].ttl);
    }
  }

  // ---------------------------------------------------------------- renew: inputs and income cells

  function InputOutpoints(inputs: seq<CellInput>): (r: seq<OutpointText>)
    ensures |r| == |inputs|
  {
    seq(|inputs|, i requires 0 <= i < |inputs| =>
      OutpointText(inputs[i].previousOutput.txHash, inputs[i].previousOutput.index))
  }

  /** The loop over `req.Tx.Inputs`. */
  method InputsOutpoints(inputs: seq<CellInput>) returns (inputsOutpoints: seq<OutpointText>)
    ensures inputsOutpoints == InputOutpoints(inputs)
  {
    inputsOutpoints := [];
    for i := 0 to |inputs|
      invariant inputsOutpoints == InputOutpoints(inputs[..i])
    {
      inputsOutpoints := inputsOutpoints + [OutpointText(inputs[i].previousOutput.txHash, inputs[i].previousOutput.index)];
    }
    assert inputs[..|inputs|] == inputs;
  }

  /** An output whose type script is the income-cell contract (`incomeContract.IsSameTypeId`). */
  predicate IsIncomeOutput(o: CellOutput, isIncome: seq<byte> -> bool)
  {
    o.typeScript.Some? && isIncome(o.typeScript.value.codeHash)
  }

  /** The positions of the income outputs among the first `n` outputs, in order. */
  function IncomeIndices(outputs: seq<CellOutput>, isIncome: seq<byte> -> bool, n: nat): (r: seq<nat>)
    requires n <= |outputs|
    ensures forall k :: 0 <= k < |r| ==> r[k] < n
  {
    if n == 0 then []
    else if IsIncomeOutput(outputs[n - 1], isIncome) then IncomeIndices(outputs, isIncome, n - 1) + [n - 1]
    else IncomeIndices(outputs, isIncome, n - 1)
  }

  function IncomeRow(req: TransactionHandleReq, i: nat, capacity: u64): TableIncomeCellInfo
  {
    TableIncomeCellInfo(req.blockNumber, DAS_ACTION_RENEW_ACCOUNT, OutpointText(req.txHash, i), capacity,
                        req.blockTimestamp, IncomeCellStatusUnMerge)
  }

  /** One unmerged income row per income output, in output order. */
  function IncomeRows(req: TransactionHandleReq, isIncome: seq<byte> -> bool): (r: seq<TableIncomeCellInfo>)
  {
    var outputs := req.tx.outputs;
    var idx := IncomeIndices(outputs, isIncome, |outputs|);
    seq(|idx|, k requires 0 <= k < |idx| => IncomeRow(req, idx[k], outputs[idx[k]].capacity))
  }

  /** The capacity of the last income output, or 0 when there is none. */
  function RenewCapacity(outputs: seq<CellOutput>, isIncome: seq<byte> -> bool): u64
  {
    var idx := IncomeIndices(outputs, isIncome, |outputs|);
    if idx == [] then 0 else outputs[idx[|idx| - 1]].capacity
  }

  /** The loop over `req.Tx.Outputs` that collects income rows and overwrites `renewCapacity`. */
  method IncomeCellInfos(req: TransactionHandleReq, isIncome: seq<byte> -> bool)
    returns (incomeCellInfos: seq<TableIncomeCellInfo>, renewCapacity: u64)
    ensures incomeCellInfos == IncomeRows(req, isIncome)
    ensures renewCapacity == RenewCapacity(req.tx.outputs, isIncome)
  {
    var outputs := req.tx.outputs;
    incomeCellInfos := [];
    renewCapacity := 0;
    ghost var idx: seq<nat> := [];
    for i := 0 to |outputs|
      invariant idx == IncomeIndices(outputs, isIncome, i)
      invariant |incomeCellInfos| == |idx|
      invariant forall k :: 0 <= k < |idx| ==> incomeCellInfos[k] == IncomeRow(req, idx[k], outputs[idx[k]].capacity)
      invariant renewCapacity == if idx == [] then 0 else outputs[idx[|idx| - 1]].capacity
    {
      var v := outputs[i];
      if v.typeScript.None? {
        continue;
      }
      if isIncome(v.typeScript.value.codeHash) {
        renewCapacity := v.capacity;
        incomeCellInfos := incomeCellInfos + [IncomeRow(req, i, v.capacity)];
        idx := idx + [i];
      }
    }
  }

  /**
   * The income positions are exactly the income outputs: increasing, each an income output,
   * and every income output among them.
   */
  lemma IncomeIndicesExact(outputs: seq<CellOutput>, isIncome: seq<byte> -> bool, n: nat)
    requires n <= |outputs|
    ensures IncreasingIncome(outputs, isIncome, IncomeIndices(outputs, isIncome, n))
    ensures forall i :: 0 <= i < n && IsIncomeOutput(outputs[i], isIncome) ==> i in IncomeIndices(outputs, isIncome, n)
  {
    IncomeIndicesIncreasing(outputs, isIncome, n);
    IncomeIndicesComplete(outputs, isIncome, n);
  }

  lemma {:induction false} IncomeIndicesIncreasing(outputs: seq<CellOutput>, isIncome: seq<byte> -> bool, n: nat)
    requires n <= |outputs|
    ensures IncreasingIncome(outputs, isIncome, IncomeIndices(outputs, isIncome, n))
  {
    if n > 0 {
      IncomeIndicesIncreasing(outputs, isIncome, n - 1);
      var prev := IncomeIndices(outputs, isIncome, n - 1);
      if IsIncomeOutput(outputs[n - 1], isIncome) {
        var idx := prev + [n - 1];
        assert forall k :: 0 <= k < |prev| ==> idx[k] == prev[k];
        assert idx[|prev|] == n - 1;
        forall k, l | 0 <= k < l < |idx|
          ensures idx[k] < idx[l]
        {
          if l == |prev| {
            assert idx[k] == prev[k] < n - 1;
          }
        }
      }
    }
  }

  lemma {:induction false} IncomeIndicesComplete(outputs: seq<CellOutput>, isIncome: seq<byte> -> bool, n: nat)
    requires n <= |outputs|
    ensures forall i :: 0 <= i < n && IsIncomeOutput(outputs[i], isIncome) ==> i in IncomeIndices(outputs, isIncome, n)
  {
    if n > 0 {
      IncomeIndicesComplete(outputs, isIncome, n - 1);
      var prev := IncomeIndices(outputs, isIncome, n - 1);
      var idx := IncomeIndices(outputs, isIncome, n);
      forall i | 0 <= i < n && IsIncomeOutput(outputs[i], isIncome) ensures i in idx
      {
        if i < n - 1 {
          assert i in prev;
          assert idx == prev + [n - 1] || idx == prev;
        } else {
          assert idx == prev + [n - 1];
        }
      }
    }
  }

  /** Strictly increasing positions, each of an income output. */
  predicate IncreasingIncome(outputs: seq<CellOutput>, isIncome: seq<byte> -> bool, idx: seq<nat>)
  {
    && (forall k, l :: 0 <= k < l < |idx| ==> idx[k] < idx[l])
    && (forall k :: 0 <= k < |idx| ==> idx[k] < |outputs| && IsIncomeOutput(outputs[idx[k]], isIncome))
  }

  /** `renewCapacity` is the capacity of an income output after which no output is an income output, or 0 with none. */
  lemma RenewCapacityIsLastIncome(outputs: seq<CellOutput>, isIncome: seq<byte> -> bool)
    ensures (forall i :: 0 <= i < |outputs| ==> !IsIncomeOutput(outputs[i], isIncome))
            ==> RenewCapacity(outputs, isIncome) == 0
    ensures (exists i :: 0 <= i < |outputs| && IsIncomeOutput(outputs[i], isIncome)) ==>
      exists j :: 0 <= j < |outputs| && IsIncomeOutput(outputs[j], isIncome)
        && RenewCapacity(outputs, isIncome) == outputs[j].capacity
        && forall i :: j < i < |outputs| ==> !IsIncomeOutput(outputs[i], isIncome)
  {
    var idx := IncomeIndices(outputs, isIncome, |outputs|);
    IncomeIndicesExact(outputs, isIncome, |outputs|);
    if idx != [] {
      var j := idx[|idx| - 1];
      assert IsIncomeOutput(outputs[j], isIncome);
      forall i | 0 <= i < |outputs| && IsIncomeOutput(outputs[i], isIncome) ensures i <= j
      {
        var k :| 0 <= k < |idx| && idx[k] == i;
        assert k == |idx| - 1 || idx[k] < idx[|idx| - 1];
      }
    }
  }

  // ---------------------------------------------------------------- recycle: capacity and grace

  function SumCapacity(outputs: seq<CellOutput>): nat
  {
    if outputs == [] then 0 else SumCapacity(outputs[..|outputs| - 1]) + outputs[|outputs| - 1].capacity
  }

  /** `Transaction.OutputsCapacity()`: the capacities added up in a Go `uint64`, which wraps. */
  function OutputsCapacity(outputs: seq<CellOutput>): u64
  {
    if outputs == [] then 0 else (OutputsCapacity(outputs[..|outputs| - 1]) + outputs[|outputs| - 1].capacity) % TWO_64
  }

  /** The recycle history capacity: all outputs less output 0, in `uint64` arithmetic. */
  function RecycleCapacity(outputs: seq<CellOutput>): u64
    requires |outputs| > 0
  {
    (OutputsCapacity(outputs) - outputs[0].capacity) % TWO_64
  }

  lemma {:induction false} OutputsCapacityWraps(outputs: seq<CellOutput>)
    ensures OutputsCapacity(outputs) == SumCapacity(outputs) % TWO_64
  {
    if outputs != [] {
      OutputsCapacityWraps(outputs[..|outputs| - 1]);
    }
  }

  lemma {:induction false} SumCapacityFirst(outputs: seq<CellOutput>)
    requires |outputs| > 0
    ensures SumCapacity(outputs) == outputs[0].capacity + SumCapacity(outputs[1..])
  {
    if |outputs| > 1 {
      var prefix := outputs[..|outputs| - 1];
      SumCapacityFirst(prefix);
      assert prefix[1..] == outputs[1..][..|outputs[1..]| - 1];
    } else {
      assert outputs[1..] == [];
    }
  }

  /** Without overflow, the recycle capacity is the capacity of every output after the first. */
  lemma RecycleCapacityIsRest(outputs: seq<CellOutput>)
    requires |outputs| > 0 && SumCapacity(outputs) < TWO_64
    ensures RecycleCapacity(outputs) == SumCapacity(outputs[1..])
  {
    var total, rest := SumCapacity(outputs), SumCapacity(outputs[1..]);
    OutputsCapacityWraps(outputs);
    SumCapacityFirst(outputs);
    ModBelow(total);
    ModBelow(rest);
  }

  lemma ModBelow(x: int)
    requires 0 <= x < TWO_64
    ensures x % TWO_64 == x
  {
  }

  /**
   * The recycle guard `builder.ExpiredAt+uint64(gracePeriod) > uint64(time.Now().Unix())`,
   * the sum wrapping as a Go `uint64`.
   */
  predicate NotExpiredYet(expiredAt: u64, gracePeriod: u32, now: u64)
  {
    (expiredAt + gracePeriod) % TWO_64 > now
  }

  /** Without overflow the guard holds exactly when the grace period ends after `now`; at `now` itself it does not. */
  lemma NotExpiredYetExactly(expiredAt: u64, gracePeriod: u32, now: u64)
    requires expiredAt + gracePeriod < TWO_64
    ensures NotExpiredYet(expiredAt, gracePeriod, now) <==> expiredAt + gracePeriod > now
    ensures now == expiredAt + gracePeriod ==> !NotExpiredYet(expiredAt, gracePeriod, now)
  {
  }

  function SubAccountIdList(accountInfos: seq<TableAccountInfo>): (r: seq<string>)
    ensures |r| == |accountInfos|
  {
    seq(|accountInfos|, i requires 0 <= i < |accountInfos| => accountInfos[i].accountId)
  }

  /** The loop that collects the ids of the parent's sub-accounts. */
  method SubAccountIds(accountInfos: seq<TableAccountInfo>) returns (subAccountIds: seq<string>)
    ensures subAccountIds == SubAccountIdList(accountInfos)
  {
    subAccountIds := [];
    for i := 0 to |accountInfos|
      invariant subAccountIds == SubAccountIdList(accountInfos[..i])
    {
      subAccountIds := subAccountIds + [accountInfos[i].accountId];
    }
    assert accountInfos[..|accountInfos|] == accountInfos;
  }

  // ---------------------------------------------------------------- handlers

  /** `ActionEditRecords`: the record rows of the new account cell, written with a zero-capacity history row. */
  function EditRecordsSpec(env: Env, req: TransactionHandleReq): Handled
  {
    match VersionGate(env, req)
    case Some(h) => h
    case None =>
      match env.accountCellDataBuilderFromTx(req.tx, DataTypeNew)
      case Err(e) => Stop("AccountCellDataBuilderFromTx err: " + e)
      case Ok(b) =>
        var accountId := env.accountIdOf(b.account);
        var outpoint := OutpointText(req.txHash, b.index);
        if b.index >= |req.tx.outputs| then Panicked
        else
          match env.argsToHex(req.tx.outputs[b.index].lock.args)
          case Err(e) => Stop("ArgsToHex err: " + e)
          case Ok((_, mHex)) =>
            Issue(env, CreateRecordsInfos(
                    AccountInfo(req.blockNumber, outpoint, accountId, b.account),
                    RecordRows(accountId, b.account, b.records),
                    TableTransactionInfo(req.blockNumber, accountId, b.account, DAS_ACTION_EDIT_RECORDS,
                                         ServiceTypeRegister, mHex.chainType, mHex.addressHex, 0, outpoint,
                                         req.blockTimestamp)),
                  "CreateRecordsInfos err: ", "")
  }

  method ActionEditRecords(env: Env, req: TransactionHandleReq) returns (resp: Handled)
    ensures resp == EditRecordsSpec(env, req)
  {
    var isCV := env.isCurrentVersionTx(req.tx);
    if isCV.Err? {
      return Stop("isCurrentVersion err: " + isCV.error);
    } else if !isCV.value {
      return Handled(None, None);
    }
    var accBuilder := env.accountCellDataBuilderFromTx(req.tx, DataTypeNew);
    if accBuilder.Err? {
      return Stop("AccountCellDataBuilderFromTx err: " + accBuilder.error);
    }
    var account := accBuilder.value.account;
    var accountId := env.accountIdOf(account);
    var recordsInfos := RecordsInfos(accountId, account, accBuilder.value.records);
    var outpoint := OutpointText(req.txHash, accBuilder.value.index);
    var accountInfo := AccountInfo(req.blockNumber, outpoint, accountId, account);
    if accBuilder.value.index >= |req.tx.outputs| {
      return Panicked;
    }
    var hex := env.argsToHex(req.tx.outputs[accBuilder.value.index].lock.args);
    if hex.Err? {
      return Stop("ArgsToHex err: " + hex.error);
    }
    var mHex := hex.value.1;
    var transactionInfo := TableTransactionInfo(req.blockNumber, accountId, account, DAS_ACTION_EDIT_RECORDS,
                                                ServiceTypeRegister, mHex.chainType, mHex.addressHex, 0, outpoint,
                                                req.blockTimestamp);
    resp := Issue(env, CreateRecordsInfos(accountInfo, recordsInfos, transactionInfo), "CreateRecordsInfos err: ", "");
  }

  /**
   * Edit records writes one row per record of the new cell, in order, each TTL as decimal text
   * that reads back as the TTL; the history row has capacity 0 and the cell's outpoint.
   */
  lemma EditRecordsRows(env: Env, req: TransactionHandleReq)
    requires EditRecordsSpec(env, req).call.Some?
    ensures env.isCurrentVersionTx(req.tx) == Ok(true)
    ensures env.accountCellDataBuilderFromTx(req.tx, DataTypeNew).Ok?
    ensures var b := env.accountCellDataBuilderFromTx(req.tx, DataTypeNew).value;
      var call := EditRecordsSpec(env, req).call.value;
      && call.CreateRecordsInfos?
      && |call.recordsInfos| == |b.records|
      && (forall i :: 0 <= i < |b.records| ==>
            && call.recordsInfos[i].key == b.records[i].key && call.recordsInfos[i].value == b.records[i].value
            && call.recordsInfos[i].recordType == b.records[i].recordType
            && call.recordsInfos[i].recordLabel == b.records[i].recordLabel
            && ParseUint(call.recordsInfos[i].ttl) == Some(b.records[i].ttl as nat))
      && call.transactionInfo.capacity == 0
      && call.transactionInfo.outpoint == OutpointText(req.txHash, b.index) == call.accountInfo.outpoint
  {
    var b := env.accountCellDataBuilderFromTx(req.tx, DataTypeNew).value;
    RecordRowsFaithful(env.accountIdOf(b.account), b.account, b.records);
  }

  /** `ActionEditManager`: the manager of the new cell, written with a history row naming the owner. */
  function EditManagerSpec(env: Env, req: TransactionHandleReq): Handled
  {
    match VersionGate(env, req)
    case Some(h) => h
    case None =>
      match env.accountCellDataBuilderFromTx(req.tx, DataTypeNew)
      case Err(e) => Stop("AccountCellDataBuilderFromTx err: " + e)
      case Ok(b) =>
        var accountId := env.accountIdOf(b.account);
        var outpoint := OutpointText(req.txHash, b.index);
        if b.index >= |req.tx.outputs| then Panicked
        else
          match env.argsToHex(req.tx.outputs[b.index].lock.args)
          case Err(e) => Stop("ArgsToHex err: " + e)
          case Ok((ownerHex, managerHex)) =>
            Issue(env, EditManager(
                    AccountInfo(req.blockNumber, outpoint, accountId, b.account).(
                      managerChainType := managerHex.chainType, manager := managerHex.addressHex,
                      managerAlgorithmId := managerHex.dasAlgorithmId),
                    TableTransactionInfo(req.blockNumber, accountId, b.account, DAS_ACTION_EDIT_MANAGER,
                                         ServiceTypeRegister, ownerHex.chainType, ownerHex.addressHex, 0, outpoint,
                                         req.blockTimestamp)),
                  "EditManager err: ", "")
  }

  method ActionEditManager(env: Env, req: TransactionHandleReq) returns (resp: Handled)
    ensures resp == EditManagerSpec(env, req)
  {
    var isCV := env.isCurrentVersionTx(req.tx);
    if isCV.Err? {
      return Stop("isCurrentVersion err: " + isCV.error);
    } else if !isCV.value {
      return Handled(None, None);
    }
    var accBuilder := env.accountCellDataBuilderFromTx(req.tx, DataTypeNew);
    if accBuilder.Err? {
      return Stop("AccountCellDataBuilderFromTx err: " + accBuilder.error);
    }
    var account := accBuilder.value.account;
    var accountId := env.accountIdOf(account);
    if accBuilder.value.index >= |req.tx.outputs| {
      return Panicked;
    }
    var hex := env.argsToHex(req.tx.outputs[accBuilder.value.index].lock.args);
    if hex.Err? {
      return Stop("ArgsToHex err: " + hex.error);
    }
    var (ownerHex, managerHex) := hex.value;
    var outpoint := OutpointText(req.txHash, accBuilder.value.index);
    var transactionInfo := TableTransactionInfo(req.blockNumber, accountId, account, DAS_ACTION_EDIT_MANAGER,
                                                ServiceTypeRegister, ownerHex.chainType, ownerHex.addressHex, 0,
                                                outpoint, req.blockTimestamp);
    var accountInfo := AccountInfo(req.blockNumber, outpoint, accountId, account).(
      managerChainType := managerHex.chainType, manager := managerHex.addressHex,
      managerAlgorithmId := managerHex.dasAlgorithmId);
    resp := Issue(env, EditManager(accountInfo, transactionInfo), "EditManager err: ", "");
  }

  /**
   * Edit manager writes the manager of the new output's lock into the account row and names
   * its owner in the zero-capacity history row; both rows carry the cell's outpoint.
   */
  lemma EditManagerParties(env: Env, req: TransactionHandleReq)
    requires EditManagerSpec(env, req).call.Some?
    ensures env.accountCellDataBuilderFromTx(req.tx, DataTypeNew).Ok?
    ensures var b := env.accountCellDataBuilderFromTx(req.tx, DataTypeNew).value;
      && b.index < |req.tx.outputs|
      && env.argsToHex(req.tx.outputs[b.index].lock.args).Ok?
      && var (owner, manager) := env.argsToHex(req.tx.outputs[b.index].lock.args).value;
      && var call := EditManagerSpec(env, req).call.value;
      && call.EditManager?
      && call.accountInfo.manager == manager.addressHex && call.accountInfo.managerChainType == manager.chainType
      && call.accountInfo.managerAlgorithmId == manager.dasAlgorithmId
      && call.transactionInfo.address == owner.addressHex && call.transactionInfo.chainType == owner.chainType
      && call.transactionInfo.capacity == 0
      && call.transactionInfo.outpoint == call.accountInfo.outpoint == OutpointText(req.txHash, b.index)
  {
  }

  /** `ActionRenewAccount`: spent outpoints, unmerged income rows, the new expiry and the renew payment. */
  function RenewAccountSpec(env: Env, req: TransactionHandleReq): Handled
  {
    match VersionGate(env, req)
    case Some(h) => h
    case None =>
      match env.incomeContract
      case Err(e) => Stop("GetDasContractInfo err: " + e)
      case Ok(isIncome) =>
        match env.accountCellDataBuilderFromTx(req.tx, DataTypeNew)
        case Err(e) => Stop("AccountCellDataBuilderFromTx err: " + e)
        case Ok(b) =>
          var accountId := env.accountIdOf(b.account);
          var outpoint := OutpointText(req.txHash, b.index);
          if b.index >= |req.tx.outputs| then Panicked
          else
            match env.argsToHex(req.tx.outputs[b.index].lock.args)
            case Err(e) => Stop("ArgsToHex err: " + e)
            case Ok((ownerHex, _)) =>
              Issue(env, RenewAccount(
                      InputOutpoints(req.tx.inputs),
                      IncomeRows(req, isIncome),
                      AccountInfo(req.blockNumber, outpoint, accountId, b.account).(expiredAt := b.expiredAt),
                      TableTransactionInfo(req.blockNumber, accountId, b.account, DAS_ACTION_RENEW_ACCOUNT,
                                           ServiceTypeRegister, ownerHex.chainType, ownerHex.addressHex,
                                           RenewCapacity(req.tx.outputs, isIncome), outpoint, req.blockTimestamp)),
                    "RenewAccount err: ", "")
  }

  method ActionRenewAccount(env: Env, req: TransactionHandleReq) returns (resp: Handled)
    ensures resp == RenewAccountSpec(env, req)
  {
    var isCV := env.isCurrentVersionTx(req.tx);
    if isCV.Err? {
      return Stop("isCurrentVersion err: " + isCV.error);
    } else if !isCV.value {
      return Handled(None, None);
    }
    var incomeContract := env.incomeContract;
    if incomeContract.Err? {
      return Stop("GetDasContractInfo err: " + incomeContract.error);
    }
    var inputsOutpoints := InputsOutpoints(req.tx.inputs);
    var incomeCellInfos, renewCapacity := IncomeCellInfos(req, incomeContract.value);
    var builder := env.accountCellDataBuilderFromTx(req.tx, DataTypeNew);
    if builder.Err? {
      return Stop("AccountCellDataBuilderFromTx err: " + builder.error);
    }
    var b := builder.value;
    var accountId := env.accountIdOf(b.account);
    var outpoint := OutpointText(req.txHash, b.index);
    var accountInfo := AccountInfo(req.blockNumber, outpoint, accountId, b.account).(expiredAt := b.expiredAt);
    if b.index >= |req.tx.outputs| {
      return Panicked;
    }
    var hex := env.argsToHex(req.tx.outputs[b.index].lock.args);
    if hex.Err? {
      return Stop("ArgsToHex err: " + hex.error);
    }
    var ownerHex := hex.value.0;
    var transactionInfo := TableTransactionInfo(req.blockNumber, accountId, b.account, DAS_ACTION_RENEW_ACCOUNT,
                                                ServiceTypeRegister, ownerHex.chainType, ownerHex.addressHex,
                                                renewCapacity, outpoint, req.blockTimestamp);
    resp := Issue(env, RenewAccount(inputsOutpoints, incomeCellInfos, accountInfo, transactionInfo), "RenewAccount err: ", "");
  }

  /**
   * The income rows: one unmerged row per income output, in output order, each with that
   * output's index and capacity.
   */
  lemma IncomeRowsExact(req: TransactionHandleReq, isIncome: seq<byte> -> bool)
    ensures var outputs := req.tx.outputs;
      var rows := IncomeRows(req, isIncome);
      && (forall k :: 0 <= k < |rows| ==>
            && rows[k].outpoint.txHash == req.txHash && rows[k].outpoint.index < |outputs|
            && IsIncomeOutput(outputs[rows[k].outpoint.index], isIncome)
            && rows[k].capacity == outputs[rows[k].outpoint.index].capacity
            && rows[k].status == IncomeCellStatusUnMerge)
      && (forall k, l :: 0 <= k < l < |rows| ==> rows[k].outpoint.index < rows[l].outpoint.index)
      && (forall i :: 0 <= i < |outputs| && IsIncomeOutput(outputs[i], isIncome) ==>
            exists k :: 0 <= k < |rows| && rows[k].outpoint.index == i)
  {
    var outputs := req.tx.outputs;
    var idx := IncomeIndices(outputs, isIncome, |outputs|);
    IncomeIndicesExact(outputs, isIncome, |outputs|);
    IncomeRowsAt(req, isIncome);
    var rows := IncomeRows(req, isIncome);
    forall k | 0 <= k < |rows|
      ensures rows[k].outpoint.index == idx[k] && rows[k].outpoint.txHash == req.txHash
    {
    }
    forall k, l | 0 <= k < l < |rows|
      ensures rows[k].outpoint.index < rows[l].outpoint.index
    {
      assert idx[k] < idx[l];
    }
    IncomeRowsComplete(req, isIncome);
  }

  lemma IncomeRowsComplete(req: TransactionHandleReq, isIncome: seq<byte> -> bool)
    ensures var outputs := req.tx.outputs;
      var rows := IncomeRows(req, isIncome);
      forall i :: 0 <= i < |outputs| && IsIncomeOutput(outputs[i], isIncome) ==>
        exists k :: 0 <= k < |rows| && rows[k].outpoint.index == i
  {
    var outputs := req.tx.outputs;
    var idx := IncomeIndices(outputs, isIncome, |outputs|);
    IncomeIndicesComplete(outputs, isIncome, |outputs|);
    IncomeRowsAt(req, isIncome);
    var rows := IncomeRows(req, isIncome);
    forall i | 0 <= i < |outputs| && IsIncomeOutput(outputs[i], isIncome)
      ensures exists k :: 0 <= k < |rows| && rows[k].outpoint.index == i
    {
      var k :| 0 <= k < |idx| && idx[k] == i;
      assert rows[k].outpoint.index == i;
    }
  }

  /** Income row `k` is the row of the `k`-th income index. */
  lemma IncomeRowsAt(req: TransactionHandleReq, isIncome: seq<byte> -> bool)
    ensures var outputs := req.tx.outputs;
      var idx := IncomeIndices(outputs, isIncome, |outputs|);
      var rows := IncomeRows(req, isIncome);
      && |rows| == |idx|
      && forall k :: 0 <= k < |rows| ==>
           && rows[k].outpoint == OutpointText(req.txHash, idx[k]) && idx[k] < |outputs|
           && rows[k].capacity == outputs[idx[k]].capacity && rows[k].status == IncomeCellStatusUnMerge
  {
  }

  /**
   * Renew passes every input's previous outpoint in input order, the income rows of
   * `IncomeRowsExact`, and the capacity of the last income output as the payment.
   */
  lemma RenewAccountRows(env: Env, req: TransactionHandleReq)
    requires RenewAccountSpec(env, req).call.Some?
    ensures env.incomeContract.Ok?
    ensures var isIncome := env.incomeContract.value;
      var call := RenewAccountSpec(env, req).call.value;
      && call.RenewAccount?
      && |call.inputsOutpoints| == |req.tx.inputs|
      && (forall i :: 0 <= i < |req.tx.inputs| ==>
            call.inputsOutpoints[i] == OutpointText(req.tx.inputs[i].previousOutput.txHash, req.tx.inputs[i].previousOutput.index))
      && call.incomeCellInfos == IncomeRows(req, isIncome)
      && call.transactionInfo.capacity == RenewCapacity(req.tx.outputs, isIncome)
  {
  }

  /**
   * `ActionTransferAccount`: the new owner and manager of the cell, its records, and a history
   * row naming the previous owner, read from the cell the transaction spends.
   */
  function TransferAccountSpec(env: Env, req: TransactionHandleReq): Handled
  {
    match VersionGate(env, req)
    case Some(h) => h
    case None =>
      match env.accountCellDataBuilderFromTx(req.tx, DataTypeNew)
      case Err(e) => Stop("AccountCellDataBuilderFromTx err: " + e)
      case Ok(b) =>
        var accountId := env.accountIdOf(b.account);
        var outpoint := OutpointText(req.txHash, b.index);
        if b.index >= |req.tx.outputs| then Panicked
        else
          match env.argsToHex(req.tx.outputs[b.index].lock.args)
          case Err(e) => Stop("ArgsToHex err: " + e)
          case Ok((oHex, mHex)) =>
            match env.accountCellDataBuilderFromTx(req.tx, DataTypeOld)
            case Err(e) => Stop("AccountCellDataBuilderFromTx err: " + e)
            case Ok(oldBuilder) =>
              if oldBuilder.index >= |req.tx.inputs| then Panicked
              else
                var previous := req.tx.inputs[oldBuilder.index].previousOutput;
                match env.getTxByHashOnChain(previous.txHash)
                case Err(e) => Stop("GetTxByHashOnChain err: " + e)
                case Ok(res) =>
                  if previous.index >= |res.outputs| then Panicked
                  else
                    match env.argsToHex(res.outputs[previous.index].lock.args)
                    case Err(e) => Stop("ArgsToHex err: " + e)
                    case Ok((oldHex, _)) =>
                      Issue(env, TransferAccount(
                              TransferredAccountInfo(req, outpoint, accountId, b.account, oHex, mHex),
                              TableTransactionInfo(req.blockNumber, accountId, b.account, DAS_ACTION_TRANSFER_ACCOUNT,
                                                   ServiceTypeRegister, oldHex.chainType, oldHex.addressHex, 0,
                                                   outpoint, req.blockTimestamp),
                              RecordRows(accountId, b.account, b.records)),
                            "TransferAccount err: ", "")
  }

  function TransferredAccountInfo(req: TransactionHandleReq, outpoint: OutpointText, accountId: string, account: string,
                                  oHex: AddressHex, mHex: AddressHex): TableAccountInfo
  {
    AccountInfo(req.blockNumber, outpoint, accountId, account).(
      ownerChainType := oHex.chainType, owner := oHex.addressHex, ownerAlgorithmId := oHex.dasAlgorithmId,
      managerChainType := mHex.chainType, manager := mHex.addressHex, managerAlgorithmId := mHex.dasAlgorithmId)
  }

  method ActionTransferAccount(env: Env, req: TransactionHandleReq) returns (resp: Handled)
    ensures resp == TransferAccountSpec(env, req)
  {
    var isCV := env.isCurrentVersionTx(req.tx);
    if isCV.Err? {
      return Stop("isCurrentVersion err: " + isCV.error);
    } else if !isCV.value {
      return Handled(None, None);
    }
    var builder := env.accountCellDataBuilderFromTx(req.tx, DataTypeNew);
    if builder.Err? {
      return Stop("AccountCellDataBuilderFromTx err: " + builder.error);
    }
    var account := builder.value.account;
    var accountId := env.accountIdOf(account);
    if builder.value.index >= |req.tx.outputs| {
      return Panicked;
    }
    var hex := env.argsToHex(req.tx.outputs[builder.value.index].lock.args);
    if hex.Err? {
      return Stop("ArgsToHex err: " + hex.error);
    }
    var (oHex, mHex) := hex.value;
    var oldBuilder := env.accountCellDataBuilderFromTx(req.tx, DataTypeOld);
    if oldBuilder.Err? {
      return Stop("AccountCellDataBuilderFromTx err: " + oldBuilder.error);
    }
    if oldBuilder.value.index >= |req.tx.inputs| {
      return Panicked;
    }
    var previous := req.tx.inputs[oldBuilder.value.index].previousOutput;
    var res := env.getTxByHashOnChain(previous.txHash);
    if res.Err? {
      return Stop("GetTxByHashOnChain err: " + res.error);
    }
    if previous.index >= |res.value.outputs| {
      return Panicked;
    }
    var oldHexes := env.argsToHex(res.value.outputs[previous.index].lock.args);
    if oldHexes.Err? {
      return Stop("ArgsToHex err: " + oldHexes.error);
    }
    var oldHex := oldHexes.value.0;
    var outpoint := OutpointText(req.txHash, builder.value.index);
    var transactionInfo := TableTransactionInfo(req.blockNumber, accountId, account, DAS_ACTION_TRANSFER_ACCOUNT,
                                                ServiceTypeRegister, oldHex.chainType, oldHex.addressHex, 0, outpoint,
                                                req.blockTimestamp);
    var accountInfo := TransferredAccountInfo(req, outpoint, accountId, account, oHex, mHex);
    var recordsInfos := RecordsInfos(accountId, account, builder.value.records);
    resp := Issue(env, TransferAccount(accountInfo, transactionInfo, recordsInfos), "TransferAccount err: ", "");
  }

  /**
   * Transfer names the previous owner (the lock of the output the old cell's input spends)
   * in the history row, and the new output's owner and manager in the account row.
   */
  lemma TransferAccountParties(env: Env, req: TransactionHandleReq)
    requires TransferAccountSpec(env, req).call.Some?
    ensures env.accountCellDataBuilderFromTx(req.tx, DataTypeNew).Ok?
    ensures env.accountCellDataBuilderFromTx(req.tx, DataTypeOld).Ok?
    ensures var b := env.accountCellDataBuilderFromTx(req.tx, DataTypeNew).value;
      var oldIndex := env.accountCellDataBuilderFromTx(req.tx, DataTypeOld).value.index;
      && b.index < |req.tx.outputs| && oldIndex < |req.tx.inputs|
      && var previous := req.tx.inputs[oldIndex].previousOutput;
      && env.getTxByHashOnChain(previous.txHash).Ok?
      && var spent := env.getTxByHashOnChain(previous.txHash).value;
      && previous.index < |spent.outputs|
      && env.argsToHex(spent.outputs[previous.index].lock.args).Ok?
      && env.argsToHex(req.tx.outputs[b.index].lock.args).Ok?
      && var previousOwner := env.argsToHex(spent.outputs[previous.index].lock.args).value.0;
      && var (owner, manager) := env.argsToHex(req.tx.outputs[b.index].lock.args).value;
      && var call := TransferAccountSpec(env, req).call.value;
      && call.TransferAccount?
      && call.transactionInfo.chainType == previousOwner.chainType
      && call.transactionInfo.address == previousOwner.addressHex
      && call.accountInfo.owner == owner.addressHex && call.accountInfo.ownerChainType == owner.chainType
      && call.accountInfo.manager == manager.addressHex && call.accountInfo.managerChainType == manager.chainType
      && call.recordsInfos == RecordRows(env.accountIdOf(b.account), b.account, b.records)
  {
  }

  /**
   * `ActionRecycleExpiredAccount`: the account cell comes from the transaction that created
   * input 1; once its grace period is over, the account and, if it enables sub-accounts,
   * its sub-accounts are recycled.
   */
  function RecycleExpiredAccountSpec(env: Env, req: TransactionHandleReq): Handled
  {
    match VersionGate(env, req)
    case Some(h) => h
    case None =>
      if |req.tx.inputs| < 2 then Panicked
      else
        match env.getTxByHashOnChain(req.tx.inputs[1].previousOutput.txHash)
        case Err(e) => Stop("GetTxByHashOnChain err: " + e)
        case Ok(res) => RecycleFromCell(env, req, res)
  }

  function RecycleFromCell(env: Env, req: TransactionHandleReq, res: Transaction): Handled
  {
    match env.accountCellDataBuilderFromTx(res, DataTypeNew)
    case Err(e) => Stop("AccountCellDataBuilderFromTx err: " + e)
    case Ok(b) =>
      match env.accountConfigCell
      case Err(e) => Stop("ConfigCellDataBuilderByTypeArgs err: " + e)
      case Ok(grace) =>
        match grace
        case Err(e) => Stop("ExpirationGracePeriod err: " + e)
        case Ok(gracePeriod) =>
          if NotExpiredYet(b.expiredAt, gracePeriod, env.now) then Stop(NOT_EXPIRED_YET)
          else RecycleExpired(env, req, res, b)
  }

  function RecycleExpired(env: Env, req: TransactionHandleReq, res: Transaction, b: AccountCellBuilder): (h: Handled)
    ensures h.call.Some? ==> h.call.value.RecycleExpiredAccount?
  {
    if b.index >= |res.outputs| then Panicked
    else
      match env.argsToHex(res.outputs[b.index].lock.args)
      case Err(e) =>
        Stop("ArgsToHex err: " + e)
      case Ok((oHex, _)) =>
        if |req.tx.outputs| == 0 then Panicked
        else
          var transactionInfo := TableTransactionInfo(req.blockNumber, b.accountId, b.account,
                                                      DAS_ACTION_RECYCLE_EXPIRED_ACCOUNT, ServiceTypeRegister,
                                                      oHex.chainType, oHex.addressHex, RecycleCapacity(req.tx.outputs),
                                                      OutpointText(req.txHash, 0), req.blockTimestamp);
          if b.enableSubAccount == 1 then
            match env.accountInfosByParent(b.accountId)
            case Err(e) =>
              Stop("GetAccountInfoByParentAccountId err: " + e)
            case Ok(accountInfos) =>
              Issue(env, RecycleExpiredAccount(b.accountId, SubAccountIdList(accountInfos), transactionInfo),
                    "RecycleExpiredAccount err: ", "")
          else
            Issue(env, RecycleExpiredAccount(b.accountId, [], transactionInfo), "RecycleExpiredAccount err: ", "")
  }

  method ActionRecycleExpiredAccount(env: Env, req: TransactionHandleReq) returns (resp: Handled)
    ensures resp == RecycleExpiredAccountSpec(env, req)
  {
    var isCV := env.isCurrentVersionTx(req.tx);
    if isCV.Err? {
      return Stop("isCurrentVersion err: " + isCV.error);
    } else if !isCV.value {
      return Handled(None, None);
    }
    if |req.tx.inputs| < 2 {
      return Panicked;
    }
    var res := env.getTxByHashOnChain(req.tx.inputs[1].previousOutput.txHash);
    if res.Err? {
      return Stop("GetTxByHashOnChain err: " + res.error);
    }
    var builder := env.accountCellDataBuilderFromTx(res.value, DataTypeNew);
    if builder.Err? {
      return Stop("AccountCellDataBuilderFromTx err: " + builder.error);
    }
    var b := builder.value;
    var builderConfig := env.accountConfigCell;
    if builderConfig.Err? {
      return Stop("ConfigCellDataBuilderByTypeArgs err: " + builderConfig.error);
    }
    var gracePeriod := builderConfig.value;
    if gracePeriod.Err? {
      return Stop("ExpirationGracePeriod err: " + gracePeriod.error);
    }
    if (b.expiredAt + gracePeriod.value) % TWO_64 > env.now {
      return Stop(NOT_EXPIRED_YET);
    }
    if b.index >= |res.value.outputs| {
      return Panicked;
    }
    var hex := env.argsToHex(res.value.outputs[b.index].lock.args);
    if hex.Err? {
      return Stop("ArgsToHex err: " + hex.error);
    }
    var oHex := hex.value.0;
    if |req.tx.outputs| == 0 {
      return Panicked;
    }
    var transactionInfo := TableTransactionInfo(req.blockNumber, b.accountId, b.account,
                                                DAS_ACTION_RECYCLE_EXPIRED_ACCOUNT, ServiceTypeRegister,
                                                oHex.chainType, oHex.addressHex,
                                                (OutputsCapacity(req.tx.outputs) - req.tx.outputs[0].capacity) % TWO_64,
                                                OutpointText(req.txHash, 0), req.blockTimestamp);
    var subAccountIds := [];
    if b.enableSubAccount == 1 {
      var accountInfos := env.accountInfosByParent(b.accountId);
      if accountInfos.Err? {
        return Stop("GetAccountInfoByParentAccountId err: " + accountInfos.error);
      }
      subAccountIds := SubAccountIds(accountInfos.value);
    }
    resp := Issue(env, RecycleExpiredAccount(b.accountId, subAccountIds, transactionInfo), "RecycleExpiredAccount err: ", "");
  }

  /**
   * Once the decoded cell and the grace period are in hand, recycling stops with
   * "account has not expired yet" when the (wrapping) sum of expiry and grace period is after
   * `now`, and otherwise goes on to the expired cell; whenever the store call is issued, the
   * grace period is over.
   */
  lemma RecycleGraceCheck(env: Env, req: TransactionHandleReq, res: Transaction)
    requires env.accountCellDataBuilderFromTx(res, DataTypeNew).Ok?
    requires env.accountConfigCell.Ok? && env.accountConfigCell.value.Ok?
    ensures var b := env.accountCellDataBuilderFromTx(res, DataTypeNew).value;
      var gracePeriod := env.accountConfigCell.value.value;
      && (NotExpiredYet(b.expiredAt, gracePeriod, env.now) ==> RecycleFromCell(env, req, res) == Stop(NOT_EXPIRED_YET))
      && (!NotExpiredYet(b.expiredAt, gracePeriod, env.now) ==> RecycleFromCell(env, req, res) == RecycleExpired(env, req, res, b))
      && (RecycleFromCell(env, req, res).call.Some? ==> !NotExpiredYet(b.expiredAt, gracePeriod, env.now))
  {
  }

  /**
   * The recycle history row has outpoint index 0 and the capacity of the outputs less
   * output 0; the sub-account ids are those of the parent's sub-accounts when the cell
   * enables sub-accounts, and none otherwise.
   */
  lemma RecycleRows(env: Env, req: TransactionHandleReq, res: Transaction)
    requires RecycleFromCell(env, req, res).call.Some?
    ensures env.accountCellDataBuilderFromTx(res, DataTypeNew).Ok? && |req.tx.outputs| > 0
    ensures var b := env.accountCellDataBuilderFromTx(res, DataTypeNew).value;
      var call := RecycleFromCell(env, req, res).call.value;
      && call.RecycleExpiredAccount?
      && call.accountId == b.accountId
      && call.transactionInfo.outpoint == OutpointText(req.txHash, 0)
      && call.transactionInfo.capacity == RecycleCapacity(req.tx.outputs)
      && (b.enableSubAccount == 1 ==>
            env.accountInfosByParent(b.accountId).Ok?
            && call.subAccountIds == SubAccountIdList(env.accountInfosByParent(b.accountId).value))
      && (b.enableSubAccount != 1 ==> call.subAccountIds == [])
  {
  }

  /** `ActionAccountCrossChain`: owner, manager and lock status from output 0. */
  function AccountCrossChainSpec(env: Env, req: TransactionHandleReq): Handled
  {
    match VersionGate(env, req)
    case Some(h) => h
    case None =>
      match env.accountCellDataBuilderFromTx(req.tx, DataTypeNew)
      case Err(e) => Stop("AccountCellDataBuilderFromTx err: " + e)
      case Ok(b) =>
        var status := CrossChainStatus(req.action);
        if |req.tx.outputs| == 0 then Panicked
        else
          match env.argsToHex(req.tx.outputs[0].lock.args)
          case Err(e) => Stop("ArgsToHex err: " + e)
          case Ok((ownerHex, managerHex)) =>
            var outpoint := OutpointText(req.txHash, 0);
            Issue(env, AccountCrossChain(
                    CrossChainAccountInfo(req, b, ownerHex, managerHex, status),
                    TableTransactionInfo(req.blockNumber, b.accountId, b.account, req.action, ServiceTypeRegister,
                                         ownerHex.chainType, ownerHex.addressHex, 0, outpoint, req.blockTimestamp)),
                  "AccountCrossChain err: ", " ")
  }

  /** Normal after an unlock for cross-chain, on-lock after any other action this handler serves. */
  function CrossChainStatus(action: string): AccountStatus
  {
    if action == DAS_ACTION_UNLOCK_ACCOUNT_FOR_CROSS_CHAIN then AccountStatusNormal else AccountStatusOnLock
  }

  function CrossChainAccountInfo(req: TransactionHandleReq, b: AccountCellBuilder, ownerHex: AddressHex,
                                 managerHex: AddressHex, status: AccountStatus): TableAccountInfo
  {
    TableAccountInfo(req.blockNumber, OutpointText(req.txHash, 0), b.accountId, "",
                     ownerHex.chainType, ownerHex.addressHex, ownerHex.dasAlgorithmId,
                     managerHex.chainType, managerHex.addressHex, managerHex.dasAlgorithmId, 0, Some(status))
  }

  method ActionAccountCrossChain(env: Env, req: TransactionHandleReq) returns (resp: Handled)
    ensures resp == AccountCrossChainSpec(env, req)
  {
    var isCV := env.isCurrentVersionTx(req.tx);
    if isCV.Err? {
      return Stop("isCurrentVersion err: " + isCV.error);
    } else if !isCV.value {
      return Handled(None, None);
    }
    var accBuilder := env.accountCellDataBuilderFromTx(req.tx, DataTypeNew);
    if accBuilder.Err? {
      return Stop("AccountCellDataBuilderFromTx err: " + accBuilder.error);
    }
    var status := AccountStatusOnLock;
    if req.action == DAS_ACTION_UNLOCK_ACCOUNT_FOR_CROSS_CHAIN {
      status := AccountStatusNormal;
    }
    if |req.tx.outputs| == 0 {
      return Panicked;
    }
    var hex := env.argsToHex(req.tx.outputs[0].lock.args);
    if hex.Err? {
      return Stop("ArgsToHex err: " + hex.error);
    }
    var (ownerHex, managerHex) := hex.value;
    var accountInfo := CrossChainAccountInfo(req, accBuilder.value, ownerHex, managerHex, status);
    var transactionInfo := TableTransactionInfo(req.blockNumber, accBuilder.value.accountId, accBuilder.value.account,
                                                req.action, ServiceTypeRegister, ownerHex.chainType,
                                                ownerHex.addressHex, 0, OutpointText(req.txHash, 0), req.blockTimestamp);
    resp := Issue(env, AccountCrossChain(accountInfo, transactionInfo), "AccountCrossChain err: ", " ");
  }

  /** The account row's status is Normal exactly for an unlock for cross-chain, and on-lock otherwise. */
  lemma CrossChainStatusExact(env: Env, req: TransactionHandleReq)
    requires AccountCrossChainSpec(env, req).call.Some?
    ensures var call := AccountCrossChainSpec(env, req).call.value;
      && call.AccountCrossChain?
      && (call.accountInfo.status == Some(AccountStatusNormal) <==> req.action == DAS_ACTION_UNLOCK_ACCOUNT_FOR_CROSS_CHAIN)
      && (call.accountInfo.status == Some(AccountStatusOnLock) <==> req.action != DAS_ACTION_UNLOCK_ACCOUNT_FOR_CROSS_CHAIN)
      && call.accountInfo.outpoint == call.transactionInfo.outpoint == OutpointText(req.txHash, 0)
  {
  }

  /**
   * The version gate of every account-cell handler: a stale transaction is skipped with no
   * error and no store call, and an error of the version check is reported with no store call.
   */
  lemma AccountCellVersionGate(env: Env, req: TransactionHandleReq)
    ensures env.isCurrentVersionTx(req.tx) == Ok(false) ==>
      var skipped := Handled(None, None);
      && EditRecordsSpec(env, req) == skipped && EditManagerSpec(env, req) == skipped
      && RenewAccountSpec(env, req) == skipped && TransferAccountSpec(env, req) == skipped
      && RecycleExpiredAccountSpec(env, req) == skipped && AccountCrossChainSpec(env, req) == skipped
    ensures env.isCurrentVersionTx(req.tx).Err? ==>
      var failed := Stop("isCurrentVersion err: " + env.isCurrentVersionTx(req.tx).error);
      && EditRecordsSpec(env, req) == failed && EditManagerSpec(env, req) == failed
      && RenewAccountSpec(env, req) == failed && TransferAccountSpec(env, req) == failed
      && RecycleExpiredAccountSpec(env, req) == failed && AccountCrossChainSpec(env, req) == failed
  {
  }
}
