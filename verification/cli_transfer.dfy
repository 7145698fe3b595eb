/** The transfer command of cmd/client/cmd/cli.go, for addresses and accounts,
    and the lock request it signs for the node. */
module CliTransfer {

  import opened Wrappers
  import opened Amounts
  import opened Pb
  import opened Ledgers
  import opened NodeRpc
  import opened CommonTransactions
  import opened Auth

  /** Key pairs and the ids of the keys in them, as the crypto client parses them. */
  datatype Crypto = Crypto(privateKeyId: string -> Option<int>)

  datatype AKInfo = AKInfo(address: string, keys: KeyPair)

  datatype TransferOptions = TransferOptions(
    blockchainName: string,
    to: string,
    amount: string,
    fee: string,
    from: string,
    frozenHeight: int,
    accountPath: AccountPath)

  /** KeyPair.SignUtxo. */
  function SignLock(crypto: Crypto, keys: KeyPair, message: string): Option<LockSign> {
    match crypto.privateKeyId(keys.secretKey)
    case None => None
    case Some(id) => Some(LockSign(id, message))
  }

  /** AKInfo.SignUtxo: always for the AK's own address. */
  function SignUtxo(crypto: Crypto, ak: AKInfo, bcName: string, amount: int): Option<LockSign> {
    SignLock(crypto, ak.keys, LockMessage(bcName, ak.address, amount))
  }

  function LockRequest(crypto: Crypto, opt: TransferOptions, need: int, ak: AKInfo): UtxoInput {
    UtxoInput(opt.blockchainName, opt.from, String(need), true, ak.keys.publicKey,
              SignUtxo(crypto, ak, opt.blockchainName, need))
  }

  function AccountInputs(c: Chain, crypto: Crypto, opt: TransferOptions, need: int, ak: AKInfo)
    : Result<Spending, Error>
  {
    if SignUtxo(crypto, ak, opt.blockchainName, need).None? then Failure(ErrKeys)
    else SpendReply(SelectUTXO(c, LockRequest(crypto, opt, need, ak)), opt.from, need)
  }

  method AssembleTxInputsSupportAccount(c: Chain, crypto: Crypto, opt: TransferOptions, totalNeed: BigInt, ak: AKInfo)
    returns (err: Option<Error>, txTxInputs: seq<TxInput>, txOutput: Option<TxOutput>)
    ensures match AccountInputs(c, crypto, opt, totalNeed.v, ak)
            case Failure(e) => err == Some(e)
            case Success(s) => err == None && txTxInputs == s.inputs && txOutput == s.change
  {
    err, txTxInputs, txOutput := None, [], None;
    var ui := UtxoInput(opt.blockchainName, opt.from, String(totalNeed.v), true, ak.keys.publicKey, None);
    var sign := SignUtxo(crypto, ak, opt.blockchainName, totalNeed.v);
    if sign.None? {
      err := Some(ErrKeys);
      return;
    }
    ui := ui.(userSign := sign);
    var utxoRes := SelectUTXO(c, ui);
    if utxoRes.Refused? {
      err := Some(ErrSelectUtxo);
      return;
    }
    txTxInputs := InputsFromUtxos(utxoRes.out.utxoList);
    var parsed := SetString(utxoRes.out.totalSelected);
    if parsed.None? {
      err := Some(ErrSelectUtxo);
      return;
    }
    var utxoTotal := new BigInt(parsed.value);
    if utxoTotal.v > totalNeed.v {
      utxoTotal.Sub(utxoTotal, totalNeed);
      txOutput := Some(TxOutput(opt.from, Bytes(utxoTotal.v), 0));
    }
  }

  function TransferAccounts(opt: TransferOptions): seq<Account> {
    [Account(opt.to, opt.amount, opt.frozenHeight)]
    + if FeeGiven(opt.fee) then [FeeAccount(opt.fee)] else []
  }

  function AssembledTx(c: Chain, crypto: Crypto, opt: TransferOptions, ak: AKInfo, nonce: string): Result<Tx, Error> {
    match BuildOutputs(TransferAccounts(opt), false)
    case Failure(e) => Failure(e)
    case Success(b) =>
      match AccountInputs(c, crypto, opt, b.need, ak)
      case Failure(e) => Failure(e)
      case Success(s) => Success(Tx(s.inputs, b.outputs + Optional(s.change), ak.address, [], [], [], nonce))
  }

  /** The transfer as posted: the payer defaults to the initiator. */
  function TransferTx(c: Chain, crypto: Crypto, opt: TransferOptions, ak: AKInfo, nonce: string): Result<Tx, Error> {
    var opt' := if opt.from == "" then opt.(from := ak.address) else opt;
    match AssembledTx(c, crypto, opt', ak, nonce)
    case Failure(e) => Failure(e)
    case Success(tx) => Authorize(tx, opt'.from, ak.keys, opt'.accountPath, c)
  }

  method AssembleTxSupportAccount(c: Chain, crypto: Crypto, opt: TransferOptions, ak: AKInfo, nonce: string)
    returns (r: Result<Tx, Error>)
    ensures match AssembledTx(c, crypto, opt, ak, nonce)
            case Failure(e) => r == Failure(e)
            case Success(tx) => r == Ask(tx, opt.from, opt.accountPath, c)
  {
    var tx := Tx([], [], ak.address, [], [], [], nonce);
    var accounts := [Account(opt.to, opt.amount, opt.frozenHeight)];
    if opt.fee != "" && opt.fee != "0" {
      accounts := accounts + [FeeAccount(opt.fee)];
    }
    assert accounts == TransferAccounts(opt);
    var err, txOutputs, totalNeed := OutputLoop(accounts, false);
    if err.Some? {
      return Failure(err.value);
    }
    tx := tx.(outputs := txOutputs);
    var err', txInputs, deltaTxOutput := AssembleTxInputsSupportAccount(c, crypto, opt, totalNeed, ak);
    if err'.Some? {
      return Failure(err'.value);
    }
    tx := tx.(inputs := txInputs);
    if deltaTxOutput.Some? {
      tx := tx.(outputs := tx.outputs + [deltaTxOutput.value]);
    }
    assert tx.outputs == txOutputs + Optional(deltaTxOutput);
    var authRequire := GenAuthRequirement(opt.from, opt.accountPath);
    if authRequire.Failure? {
      return Failure(authRequire.error);
    }
    tx := tx.(authRequire := authRequire.value);
    if !c.preExecutes {
      return Failure(ErrRefused);
    }
    return Success(tx);
  }

  method Transfer(c: Chain, crypto: Crypto, opt0: TransferOptions, ak: AKInfo, nonce: string)
    returns (r: Result<Tx, Error>)
    ensures r == TransferTx(c, crypto, opt0, ak, nonce)
  {
    var opt := opt0;
    if opt.from == "" {
      opt := opt.(from := ak.address);
    }
    r := AssembleTxSupportAccount(c, crypto, opt, ak, nonce);
    if r.Failure? {
      return;
    }
    var tx := r.value;
    tx := tx.(initiatorSigns := tx.initiatorSigns + [SignTx(ak.keys, tx)]);
    assert tx.initiatorSigns == [SignTx(ak.keys, r.value)];
    var signs := SignByPath(tx, ak.keys, opt.accountPath);
    if signs.Failure? {
      return Failure(signs.error);
    }
    tx := tx.(authRequireSigns := signs.value);
    return Success(tx);
  }

  // ---------- properties ----------

  /** The two builders of outputs agree: with a recipient and no gas, the raw builder
      makes the transfer builder's outputs without those of value zero, needs the same
      total, and accepts exactly the same amounts. */
  lemma BuildersAgree(t: CommTrans, opt: TransferOptions, gasUsed: int)
    requires t.to == opt.to != "" && t.amount == opt.amount && t.fee == opt.fee && t.frozenHeight == opt.frozenHeight
    requires gasUsed <= 0
    ensures TransferOutputs(t, gasUsed) ==
              match BuildOutputs(TransferAccounts(opt), false)
              case Failure(e) => Failure(e)
              case Success(b) => Success(Built(Positive(b.outputs), b.need))
  {
    assert AccountsOf(t, gasUsed) == Success(TransferAccounts(opt)) by {
      assert [Account(opt.to, opt.amount, opt.frozenHeight)] + [] == Recipient(t);
    }
    TrimmingFilters(TransferAccounts(opt));
  }

  /** Both key files of an AK hold the same key, and the address is that key's. */
  ghost predicate OwnKeys(c: Chain, crypto: Crypto, ak: AKInfo) {
    exists id :: crypto.privateKeyId(ak.keys.secretKey) == Some(id)
                 && c.publicKeyId(ak.keys.publicKey) == Some(id)
                 && c.addressOf(id) == ak.address
  }

  /** The node grants the client's lock request, and selects for exactly the client's
      need, if and only if the payer is an account or the initiator's own address. */
  lemma LockRequestAgreement(c: Chain, crypto: Crypto, opt: TransferOptions, need: int, ak: AKInfo)
    requires OwnKeys(c, crypto, ak)
    requires opt.blockchainName == c.bcName != ""
    ensures var q := LockRequest(crypto, opt, need, ak);
            && CheckSelectUtxoSign(c, q.address, q.publickey, q.userSign, q.needLock, need)
               == (c.isAccount(opt.from) || opt.from == ak.address)
            && SelectUTXO(c, q) == if c.isAccount(opt.from) || opt.from == ak.address
                                   then c.selectUtxo(opt.from, need, true)
                                   else Refused
  {
    StringRoundTrip(need);
  }

  /** A transfer assembled against an honest node balances and states its inputs truthfully. */
  lemma TransferIsSound(c: Chain, crypto: Crypto, opt: TransferOptions, ak: AKInfo, l: Ledger, nonce: string)
    requires Valid(l) && Honest(c, l)
    requires TransferTx(c, crypto, opt, ak, nonce).Success?
    ensures Sound(TransferTx(c, crypto, opt, ak, nonce).value)
  {
    var opt' := if opt.from == "" then opt.(from := ak.address) else opt;
    var b := BuildOutputs(TransferAccounts(opt'), false).value;
    BuildOutputsAddsUp(TransferAccounts(opt'), false);
    var q := LockRequest(crypto, opt', b.need, ak);
    SelectCovers(c, l, q, b.need);
    var out := SelectUTXO(c, q).out;
    SpendBalances(out, opt'.from, b.need, b.outputs);
    SelectionIsTruthful(l, opt'.from, out);
  }

  /** The transfer's requirements and signatures line up exactly when an account path
      is given or the payer is named by the initiator's address. */
  lemma TransferAligned(c: Chain, crypto: Crypto, opt: TransferOptions, ak: AKInfo, nonce: string)
    requires TransferTx(c, crypto, opt, ak, nonce).Success?
    ensures Aligned(TransferTx(c, crypto, opt, ak, nonce).value,
                    Signers(AK(ak.address, Some(ak.keys)), opt.accountPath))
            <==> opt.accountPath.Some? || opt.from == "" || Names(opt.from, ak.address)
  {
    var opt' := if opt.from == "" then opt.(from := ak.address) else opt;
    var tx := AssembledTx(c, crypto, opt', ak, nonce).value;
    AuthorizeAligns(tx, opt'.from, AK(ak.address, Some(ak.keys)), opt'.accountPath, c);
  }

  /** With the initiator's own keys on its chain, the node's lock check has granted the transfer, so the
      only payer left that can go wrong is an account without an account path. */
  lemma GrantedTransferAligned(c: Chain, crypto: Crypto, opt: TransferOptions, ak: AKInfo, nonce: string)
    requires OwnKeys(c, crypto, ak) && opt.blockchainName == c.bcName != ""
    requires TransferTx(c, crypto, opt, ak, nonce).Success?
    ensures Aligned(TransferTx(c, crypto, opt, ak, nonce).value,
                    Signers(AK(ak.address, Some(ak.keys)), opt.accountPath))
            <==> opt.accountPath.Some? || !c.isAccount(opt.from) || opt.from == "" || Names(opt.from, ak.address)
  {
    TransferAligned(c, crypto, opt, ak, nonce);
    var opt' := if opt.from == "" then opt.(from := ak.address) else opt;
    var b := BuildOutputs(TransferAccounts(opt'), false).value;
    LockRequestAgreement(c, crypto, opt', b.need, ak);
  }

  lemma BuildOne(account: Account, amount: int)
    requires SetString(account.amount) == Some(amount) && amount >= 0
    ensures BuildOutputs([account], false) == Success(Built([OutputFor(account, amount)], amount))
  {
    hide SetString;
    assert [account][..|[account]| - 1] == [];
    assert [] + [OutputFor(account, amount)] == [OutputFor(account, amount)];
  }

  /** Such a payer: alice signs for the account XC1@xuper in her own name. */
  lemma UnalignedTransferExample(id: TxId, nonce: string)
    ensures var keys := KeyPair("pub", "priv");
            var alice := AKInfo("alice", keys);
            var reply := Selected(UtxoOutput([Utxo(id, 0, "XC1@xuper", Bytes(5))], "5"));
            var c := Chain("xuper", a => a == "XC1@xuper", _ => Some(1), _ => "alice",
                           (_, _, _) => reply, (_, _) => reply, true);
            var crypto := Crypto(_ => Some(1));
            var opt := TransferOptions("xuper", "bob", "5", "", "XC1@xuper", 0, None);
            var transfer := TransferTx(c, crypto, opt, alice, nonce);
            && OwnKeys(c, crypto, alice)
            && transfer.Success? && !Aligned(transfer.value, Signers(AK("alice", Some(keys)), None))
  {
    var keys := KeyPair("pub", "priv");
    var reply := Selected(UtxoOutput([Utxo(id, 0, "XC1@xuper", Bytes(5))], "5"));
    var c := Chain("xuper", a => a == "XC1@xuper", _ => Some(1), _ => "alice",
                   (_, _, _) => reply, (_, _) => reply, true);
    var opt := TransferOptions("xuper", "bob", "5", "", "XC1@xuper", 0, None);
    var account := Account("bob", "5", 0);
    assert TransferAccounts(opt) == [account];
    assert SetString("5") == Some(5);
    BuildOne(account, 5);
    LockRequestAgreement(c, Crypto(_ => Some(1)), opt, 5, AKInfo("alice", keys));
    assert AccountInputs(c, Crypto(_ => Some(1)), opt, 5, AKInfo("alice", keys)).Success?;
    assert AssembledTx(c, Crypto(_ => Some(1)), opt, AKInfo("alice", keys), nonce).Success?;
    TransferAligned(c, Crypto(_ => Some(1)), opt, AKInfo("alice", keys), nonce);
  }
}
