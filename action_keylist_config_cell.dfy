/**
 * The two handlers of the key-list config cell: creating a device key list records the
 * first (master) key as a credential that may authorize others; updating it rewrites the
 * authorization rows of the master and the credential rows of every key.
 */
module KeyListActions {

  import opened Wrappers
  import opened Ledger

  // ---------------------------------------------------------------- update

  /** The authorization row of `key`, with the algorithm ids of the master `first`. */
  function AuthorizeRow(first: WebauthnKey, key: WebauthnKey, txHash: string): TableAuthorize
  {
    TableAuthorize(first.minAlgId, first.subAlgId, key.cid, key.pubKey,
                   key.minAlgId, key.subAlgId, key.cid, key.pubKey,
                   OutpointText(txHash, 0))
  }

  /** The rows the update loop appends, one per key in list order; key 0 is the master. */
  function AuthorizeRows(keys: seq<WebauthnKey>, txHash: string): (r: seq<TableAuthorize>)
    ensures |r| == |keys|
  {
    if |keys| == 0 then []
    else AuthorizeRows(keys[..|keys| - 1], txHash) + [AuthorizeRow(keys[0], keys[|keys| - 1], txHash)]
  }

  /** The credential rows of the update loop: each key's cid and public key, authorization left unset. */
  function CidPkRows(keys: seq<WebauthnKey>): (r: seq<TableCidPk>)
    ensures |r| == |keys|
  {
    if |keys| == 0 then []
    else CidPkRows(keys[..|keys| - 1]) + [TableCidPk(keys[|keys| - 1].cid, keys[|keys| - 1].pubKey, EnableAuthorizeUnset)]
  }

  /**
   * Row `i` carries the algorithm ids of key 0 as the master's and everything else of key `i`;
   * every row points at output 0 of the transaction.
   */
  lemma {:induction false} AuthorizeRowsExact(keys: seq<WebauthnKey>, txHash: string)
    ensures var rows := AuthorizeRows(keys, txHash);
      forall i :: 0 <= i < |keys| ==>
        && rows[i].masterAlgId == keys[0].minAlgId && rows[i].masterSubAlgId == keys[0].subAlgId
        && rows[i].masterCid == keys[i].cid && rows[i].masterPk == keys[i].pubKey
        && rows[i].slaveAlgId == keys[i].minAlgId && rows[i].slaveSubAlgId == keys[i].subAlgId
        && rows[i].slaveCid == keys[i].cid && rows[i].slavePk == keys[i].pubKey
        && rows[i].outpoint == OutpointText(txHash, 0)
  {
    if |keys| > 0 {
      var prefix := keys[..|keys| - 1];
      AuthorizeRowsExact(prefix, txHash);
      forall i | 0 <= i < |keys| - 1
        ensures AuthorizeRows(keys, txHash)[i] == AuthorizeRows(prefix, txHash)[i]
        ensures prefix[0] == keys[0]
      {
      }
    }
  }

  /** Credential row `i` is key `i`'s cid and public key, with authorization unset. */
  lemma {:induction false} CidPkRowsExact(keys: seq<WebauthnKey>)
    ensures forall i :: 0 <= i < |keys| ==>
      CidPkRows(keys)[i] == TableCidPk(keys[i].cid, keys[i].pubKey, EnableAuthorizeUnset)
  {
    if |keys| > 0 {
      var prefix := keys[..|keys| - 1];
      CidPkRowsExact(prefix);
      assert forall i :: 0 <= i < |keys| - 1 ==> CidPkRows(keys)[i] == CidPkRows(prefix)[i];
    }
  }

  /** The loop of `ActionUpdateDeviceKeyList`, remembering key 0 as the master. */
  method BuildAuthorize(keys: seq<WebauthnKey>, txHash: string)
    returns (authorize: seq<TableAuthorize>, cidPk: seq<TableCidPk>)
    ensures authorize == AuthorizeRows(keys, txHash)
    ensures cidPk == CidPkRows(keys)
  {
    var master := WebauthnKey(0, 0, "", "");
    authorize, cidPk := [], [];
    for i := 0 to |keys|
      invariant authorize == AuthorizeRows(keys[..i], txHash)
      invariant cidPk == CidPkRows(keys[..i])
      invariant i > 0 ==> master == keys[0]
    {
      if i == 0 {
        master := keys[0];
      }
      authorize := authorize + [AuthorizeRow(master, keys[i], txHash)];
      cidPk := cidPk + [TableCidPk(keys[i].cid, keys[i].pubKey, EnableAuthorizeUnset)];
      assert keys[..i + 1][..i] == keys[..i];
    }
    assert keys[..|keys|] == keys;
  }

  /** `ActionUpdateDeviceKeyList`: every key of the new list is written, an empty list included. */
  function UpdateDeviceKeyListSpec(env: Env, req: TransactionHandleReq): Handled
  {
    match VersionGate(env, req)
    case Some(h) => h
    case None =>
      match env.webAuthnKeyListFromTx(req.tx)
      case Err(e) => Stop("WebAuthnKeyListDataBuilderFromTx err: " + e)
      case Ok(keys) =>
        Issue(env, UpdateAuthorizeByMaster(AuthorizeRows(keys, req.txHash), CidPkRows(keys)),
              "UpdateAuthorizeByMaster err:", "")
  }

  method ActionUpdateDeviceKeyList(env: Env, req: TransactionHandleReq) returns (resp: Handled)
    ensures resp == UpdateDeviceKeyListSpec(env, req)
  {
    var isCV := env.isCurrentVersionTx(req.tx);
    if isCV.Err? {
      return Stop("isCurrentVersion err: " + isCV.error);
    } else if !isCV.value {
      return Handled(None, None);
    }
    var keyList := env.webAuthnKeyListFromTx(req.tx);
    if keyList.Err? {
      return Stop("WebAuthnKeyListDataBuilderFromTx err: " + keyList.error);
    }
    var authorize, cidPk := BuildAuthorize(keyList.value, req.txHash);
    resp := Issue(env, UpdateAuthorizeByMaster(authorize, cidPk), "UpdateAuthorizeByMaster err:", "");
  }

  /**
   * A decoded key list is always written: one authorization row and one credential row per
   * key, each for that key; the rows name the master's algorithms and output 0.
   */
  lemma UpdateDeviceKeyListWritesEveryKey(env: Env, req: TransactionHandleReq)
    requires env.isCurrentVersionTx(req.tx) == Ok(true)
    requires env.webAuthnKeyListFromTx(req.tx).Ok?
    ensures var keys := env.webAuthnKeyListFromTx(req.tx).value;
      var h := UpdateDeviceKeyListSpec(env, req);
      && h.call.Some? && h.call.value.UpdateAuthorizeByMaster?
      && |h.call.value.authorize| == |h.call.value.cidPk| == |keys|
      && (forall i :: 0 <= i < |keys| ==>
            && h.call.value.authorize[i].slaveCid == keys[i].cid
            && h.call.value.authorize[i].slavePk == keys[i].pubKey
            && h.call.value.authorize[i].masterAlgId == keys[0].minAlgId
            && h.call.value.authorize[i].outpoint == OutpointText(req.txHash, 0)
            && h.call.value.cidPk[i] == TableCidPk(keys[i].cid, keys[i].pubKey, EnableAuthorizeUnset))
      && (h.err.None? <==> env.storeErr(h.call.value).None?)
  {
    var keys := env.webAuthnKeyListFromTx(req.tx).value;
    AuthorizeRowsExact(keys, req.txHash);
    CidPkRowsExact(keys);
  }

  // ---------------------------------------------------------------- create

  /** The credential the create handler inserts: the first key, allowed to authorize others. */
  function MasterCidPk(keys: seq<WebauthnKey>): seq<TableCidPk>
    requires |keys| > 0
  {
    [TableCidPk(keys[0].cid, keys[0].pubKey, EnableAuthorizeOn)]
  }

  /**
   * `ActionCreateDeviceKeyList` as written: the decoder's error is not checked, so a failed
   * decode dereferences a nil builder; an empty list formats that same (nil) error and
   * panics too.
   */
  function CreateDeviceKeyListAsWritten(env: Env, req: TransactionHandleReq): Handled
  {
    match VersionGate(env, req)
    case Some(h) => h
    case None =>
      match env.webAuthnKeyListFromTx(req.tx)
      case Err(_) => Panicked
      case Ok(keys) =>
        if |keys| == 0 then Panicked
        else Issue(env, InsertCidPk(MasterCidPk(keys)), "InsertCidPk err: ", "")
  }

  /** The create handler as evidently intended: both failures are reported, not panics. */
  function CreateDeviceKeyListSpec(env: Env, req: TransactionHandleReq): Handled
  {
    match VersionGate(env, req)
    case Some(h) => h
    case None =>
      match env.webAuthnKeyListFromTx(req.tx)
      case Err(e) => Stop("WebAuthnKeyListDataBuilderFromTx err: " + e)
      case Ok(keys) =>
        if |keys| == 0 then Stop("ConvertToWebauthnKeyList err: empty key list")
        else Issue(env, InsertCidPk(MasterCidPk(keys)), "InsertCidPk err: ", "")
  }

  method ActionCreateDeviceKeyList(env: Env, req: TransactionHandleReq) returns (resp: Handled)
    ensures resp == CreateDeviceKeyListSpec(env, req)
  {
    var isCV := env.isCurrentVersionTx(req.tx);
    if isCV.Err? {
      return Stop("isCurrentVersion err: " + isCV.error);
    } else if !isCV.value {
      return Handled(None, None);
    }
    var keyList := env.webAuthnKeyListFromTx(req.tx);
    if keyList.Err? {
      return Stop("WebAuthnKeyListDataBuilderFromTx err: " + keyList.error);
    }
    if |keyList.value| == 0 {
      return Stop("ConvertToWebauthnKeyList err: empty key list");
    }
    var cidPk := [TableCidPk(keyList.value[0].cid, keyList.value[0].pubKey, EnableAuthorizeOn)];
    resp := Issue(env, InsertCidPk(cidPk), "InsertCidPk err: ", "");
  }

  /**
   * Creating a key list inserts exactly one credential, the first key's, with authorization on,
   * and only when the list decodes and is not empty; otherwise it reports an error and writes nothing.
   */
  lemma CreateDeviceKeyListInsertsMaster(env: Env, req: TransactionHandleReq)
    requires env.isCurrentVersionTx(req.tx) == Ok(true)
    ensures var h := CreateDeviceKeyListSpec(env, req);
      var decoded := env.webAuthnKeyListFromTx(req.tx);
      && (h.call.Some? <==> decoded.Ok? && |decoded.value| > 0)
      && (h.call.Some? ==>
            h.call.value == InsertCidPk([TableCidPk(decoded.value[0].cid, decoded.value[0].pubKey, EnableAuthorizeOn)]))
      && (h.call.None? ==> h.err.Some? && h.err.value.Error?)
  {
  }

  /**
   * Where the list fails to decode or is empty, the code as written panics while the intended
   * handler reports an error; on every other input the two agree.
   */
  lemma CreateDeviceKeyListPanicsAsWritten(env: Env, req: TransactionHandleReq)
    ensures var decoded := env.webAuthnKeyListFromTx(req.tx);
      var failing := env.isCurrentVersionTx(req.tx) == Ok(true) && (decoded.Err? || |decoded.value| == 0);
      && (failing ==> CreateDeviceKeyListAsWritten(env, req) == Panicked
                      && CreateDeviceKeyListSpec(env, req).err.value.Error?)
      && (!failing ==> CreateDeviceKeyListAsWritten(env, req) == CreateDeviceKeyListSpec(env, req))
  {
  }

  /**
   * The version gate of both key-list handlers: a stale transaction is skipped with no error
   * and no store call.
   */
  lemma KeyListVersionGate(env: Env, req: TransactionHandleReq)
    ensures env.isCurrentVersionTx(req.tx) == Ok(false) ==>
      && CreateDeviceKeyListSpec(env, req) == Handled(None, None)
      && UpdateDeviceKeyListSpec(env, req) == Handled(None, None)
    ensures env.isCurrentVersionTx(req.tx).Err? ==>
      && CreateDeviceKeyListSpec(env, req) == Stop("isCurrentVersion err: " + env.isCurrentVersionTx(req.tx).error)
      && UpdateDeviceKeyListSpec(env, req) == Stop("isCurrentVersion err: " + env.isCurrentVersionTx(req.tx).error)
  {
  }
}
