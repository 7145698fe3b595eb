/** The compliance flow of cmd/client/cmd/comm_trans.go: a fee transaction F for the
    endorser, and the real transaction T that spends the change of F. */
module Compliance {

  import opened Wrappers
  import opened Amounts
  import opened Pb
  import opened NodeRpc
  import opened CommonTransactions
  import opened Auth

  // ---------- the pre-execution request ----------

  /** The running int64 total after an optional amount. */
  function AddParsed(extra: int, amount: string, e: Error): Result<int, Error> {
    if ParseInt64(amount).ok then Success(Wrap64(extra + ParseInt64(amount).value)) else Failure(e)
  }

  function RequestedAmount(t: CommTrans): Result<int, Error> {
    match if FeeGiven(t.fee) then AddParsed(t.compliance.serviceFee, t.fee, ErrInvalidFee)
          else Success(t.compliance.serviceFee)
    case Failure(e) => Failure(e)
    case Success(extra) => if t.amount != "" then AddParsed(extra, t.amount, ErrInvalidAmount) else Success(extra)
  }

  method PreExecWithSelectUTXOReq(t: CommTrans) returns (r: Result<PreExecRequest, Error>)
    ensures match RequestedAmount(t)
            case Failure(e) => r == Failure(e)
            case Success(total) => r == Success(PreExecRequest(t.chainName, Initiator(t), total))
  {
    var extraAmount := t.compliance.serviceFee;
    if t.fee != "" && t.fee != "0" {
      var fee := ParseInt64(t.fee);
      if !fee.ok {
        return Failure(ErrInvalidFee);
      }
      extraAmount := Wrap64(extraAmount + fee.value);
    }
    if t.amount != "" {
      var amount := ParseInt64(t.amount);
      if !amount.ok {
        return Failure(ErrInvalidAmount);
      }
      extraAmount := Wrap64(extraAmount + amount.value);
    }
    return Success(PreExecRequest(t.chainName, Initiator(t), extraAmount));
  }

  function GasError(t: CommTrans, gasUsed: int): Option<Error> {
    if gasUsed <= 0 then None
    else if !FeeGiven(t.fee) then Some(ErrNeedFee)
    else if ParseInt64(t.fee).value < gasUsed then Some(ErrFeeNotEnough)
    else None
  }

  /** The reply of the node, once the gas is known to be covered. */
  function PreExecuted(t: CommTrans, c: Chain, response: InvokeResponse): Result<Option<UtxoOutput>, Error> {
    match RequestedAmount(t)
    case Failure(e) => Failure(e)
    case Success(total) =>
      match PreExecWithSelectUTXO(c, PreExecRequest(t.chainName, Initiator(t), total), response)
      case PreExecRefused => Failure(ErrRefused)
      case PreExecReply(res, utxoOutput) =>
        if res.failed then Failure(ErrContract)
        else if GasError(t, res.gasUsed).Some? then Failure(GasError(t, res.gasUsed).value) else Success(utxoOutput)
  }

  method GenPreExeWithSelectUtxoRes(t: CommTrans, c: Chain, response: InvokeResponse)
    returns (r: Result<Option<UtxoOutput>, Error>)
    ensures r == PreExecuted(t, c, response)
  {
    var req := PreExecWithSelectUTXOReq(t);
    if req.Failure? {
      return Failure(req.error);
    }
    var reply := PreExecWithSelectUTXO(c, req.value, response);
    if reply.PreExecRefused? {
      return Failure(ErrRefused);
    }
    if reply.response.failed {
      return Failure(ErrContract);
    }
    var gasUsed := reply.response.gasUsed;
    if gasUsed > 0 {
      if t.fee == "" || t.fee == "0" {
        return Failure(ErrNeedFee);
      }
      var fee := ParseInt64(t.fee).value;
      if fee < gasUsed {
        return Failure(ErrFeeNotEnough);
      }
    }
    return Success(reply.utxoOutput);
  }

  // ---------- the fee transaction F ----------

  function OutputAccounts(to: string, amount: string, fee: string): seq<Account> {
    (if to != "" then [Account(to, amount, 0)] else [])
    + (if fee != "0" then [FeeAccount(fee)] else [])
  }

  method GenerateTxOutput(to: string, amount: string, fee: string) returns (r: Result<seq<TxOutput>, Error>)
    ensures match BuildOutputs(OutputAccounts(to, amount, fee), true)
            case Failure(e) => r == Failure(e)
            case Success(b) => r == Success(b.outputs)
  {
    var accounts: seq<Account> := [];
    if to != "" {
      accounts := accounts + [Account(to, amount, 0)];
    }
    if fee != "0" {
      accounts := accounts + [FeeAccount(fee)];
    }
    assert accounts == OutputAccounts(to, amount, fee);
    var err, txOutputs, _ := OutputLoop(accounts, true);
    if err.Some? {
      return Failure(err.value);
    }
    return Success(txOutputs);
  }

  method GenerateTxInput(t: CommTrans, utxoOutputs: UtxoOutput, totalNeed: BigInt)
    returns (r: Result<Spending, Error>)
    ensures r == SpendReply(Selected(utxoOutputs), Initiator(t), totalNeed.v)
  {
    var txInputs := InputsFromUtxos(utxoOutputs.utxoList);
    var parsed := SetString(utxoOutputs.totalSelected);
    if parsed.None? {
      return Failure(ErrSelectUtxo);
    }
    var utxoTotal := new BigInt(parsed.value);
    var fromAddr := t.address;
    if t.from != "" {
      fromAddr := t.from;
    }
    var txOutput: Option<TxOutput> := None;
    if utxoTotal.v > totalNeed.v {
      utxoTotal.Sub(utxoTotal, totalNeed);
      txOutput := Some(TxOutput(fromAddr, Bytes(utxoTotal.v), 0));
    }
    return Success(Spending(txInputs, txOutput));
  }

  function ServiceAccounts(t: CommTrans): seq<Account> {
    OutputAccounts(t.compliance.feeAddr, String(t.compliance.serviceFee), "0")
  }

  /** Without utxos in the reply the builder dereferences nil. */
  function FeeTx(t: CommTrans, utxoOutput: Option<UtxoOutput>, nonce: string): Result<Tx, Error> {
    match utxoOutput
    case None => Failure(NilDereference)
    case Some(out) =>
      match SpendReply(Selected(out), Initiator(t), t.compliance.serviceFee)
      case Failure(e) => Failure(e)
      case Success(s) =>
        match BuildOutputs(ServiceAccounts(t), true)
        case Failure(e) => Failure(e)
        case Success(b) =>
          Success(SignedByOwner(t, Tx(s.inputs, b.outputs + Optional(s.change), Initiator(t), [], [], [], nonce)))
  }

  method GenComplianceCheckTx(t: CommTrans, utxoOutput: Option<UtxoOutput>, nonce: string)
    returns (r: Result<Tx, Error>)
    ensures r == FeeTx(t, utxoOutput, nonce)
  {
    if utxoOutput.None? {
      return Failure(NilDereference);
    }
    var totalNeed := new BigInt(t.compliance.serviceFee);
    var spending := GenerateTxInput(t, utxoOutput.value, totalNeed);
    if spending.Failure? {
      return Failure(spending.error);
    }
    var checkAmount := String(t.compliance.serviceFee);
    var outputs := GenerateTxOutput(t.compliance.feeAddr, checkAmount, "0");
    if outputs.Failure? {
      return Failure(outputs.error);
    }
    var txOutputs := outputs.value;
    if spending.value.change.Some? {
      txOutputs := txOutputs + [spending.value.change.value];
    }
    assert txOutputs == outputs.value + Optional(spending.value.change);
    var tx := Tx(spending.value.inputs, txOutputs, Initiator(t), [], [], [], nonce);
    var signed, _ := SendTx(t, tx);
    return Success(signed);
  }

  // ---------- the real transaction T ----------

  /** Go's int32(index). */
  function Int32(x: int): int {
    (x + 0x8000_0000) % 0x1_0000_0000 - 0x8000_0000
  }

  /** The outputs of a transaction that belong to `who`, as utxos at their own index. */
  function OwnUtxos(id: TxId, outs: seq<TxOutput>, who: string): seq<Utxo> {
    if outs == [] then []
    else
      var k := |outs| - 1;
      OwnUtxos(id, outs[..k], who)
      + if outs[k].toAddr == who then [Utxo(id, Int32(k), outs[k].toAddr, outs[k].amount)] else []
  }

  /** The fee and the amount of the command; an empty fee is an error here. */
  function RealNeed(t: CommTrans): Result<int, Error> {
    if SetString(t.fee).None? || (t.amount != "" && SetString(t.amount).None?) then Failure(ErrInvalidAmount)
    else Success(SetString(t.fee).value + AmountValue(t))
  }

  function AmountValue(t: CommTrans): int {
    if t.amount != "" && SetString(t.amount).Some? then SetString(t.amount).value else 0
  }

  function FeeOutput(fee: string): seq<TxOutput> {
    if FeeGiven(fee) && SetString(fee).Some? then [TxOutput("$", Bytes(SetString(fee).value), 0)] else []
  }

  function AmountOutput(t: CommTrans): seq<TxOutput> {
    if t.amount != "" then [TxOutput(t.contractName, Bytes(AmountValue(t)), 0)] else []
  }

  /** The rest for oneself, the fee, and the amount for the contract. Bytes drops
      the sign of the first and of the last. */
  function MultiTxOutputs(t: CommTrans, selfAmount: string, fee: string): Result<seq<TxOutput>, Error> {
    if SetString(selfAmount).None? then Failure(ErrInvalidAmount)
    else if FeeGiven(fee) && SetString(fee).None? then Failure(ErrInvalidAmount)
    else if FeeGiven(fee) && SetString(fee).value < 0 then Failure(ErrInvalidAmount)
    else if t.amount != "" && SetString(t.amount).None? then Failure(ErrInvalidAmount)
    else Success([TxOutput(Initiator(t), Bytes(SetString(selfAmount).value), 0)] + FeeOutput(fee) + AmountOutput(t))
  }

  method GenerateMultiTxOutputs(t: CommTrans, selfAmount: string, gasUsed: string)
    returns (r: Result<seq<TxOutput>, Error>)
    ensures r == MultiTxOutputs(t, selfAmount, gasUsed)
  {
    var feeAmount := gasUsed;
    var realSelfAmount := SetString(selfAmount);
    if realSelfAmount.None? {
      return Failure(ErrInvalidAmount);
    }
    var txOutputs := [TxOutput(Initiator(t), Bytes(realSelfAmount.value), 0)];
    if feeAmount != "" && feeAmount != "0" {
      var realFeeAmount := SetString(feeAmount);
      if realFeeAmount.None? {
        return Failure(ErrInvalidAmount);
      }
      if realFeeAmount.value < 0 {
        return Failure(ErrInvalidAmount);
      }
      txOutputs := txOutputs + [TxOutput("$", Bytes(realFeeAmount.value), 0)];
    }
    assert txOutputs == [TxOutput(Initiator(t), Bytes(realSelfAmount.value), 0)] + FeeOutput(gasUsed);
    if t.amount != "" {
      var amount := SetString(t.amount);
      if amount.None? {
        return Failure(ErrInvalidAmount);
      }
      txOutputs := txOutputs + [TxOutput(t.contractName, Bytes(amount.value), 0)];
    }
    assert txOutputs == [TxOutput(Initiator(t), Bytes(realSelfAmount.value), 0)] + FeeOutput(gasUsed) + AmountOutput(t);
    return Success(txOutputs);
  }

  /** Both requirements are in place when the owner signs; one signature serves as both lists. */
  function SignedForEndorser(t: CommTrans, tx: Tx): Tx {
    var asked := tx.(authRequire := [OwnRequirement(t), t.compliance.serviceAddr]);
    asked.(initiatorSigns := [SignTx(t.keys, asked)], authRequireSigns := [SignTx(t.keys, asked)])
  }

  function RealTx(t: CommTrans, response: InvokeResponse, f: Tx, nonce: string): Result<Tx, Error> {
    var own := OwnUtxos(TxId(f), f.outputs, Initiator(t));
    match RealNeed(t)
    case Failure(e) => Failure(e)
    case Success(need) =>
      match MultiTxOutputs(t, String(SumUtxos(own) - need), t.fee)
      case Failure(e) => Failure(e)
      case Success(outs) =>
        Success(SignedForEndorser(t, Tx(InputsOf(own) + response.utxoInputs, outs + response.utxoOutputs,
                                        Initiator(t), [], [], [], nonce)))
  }

  /** The loop over the outputs of F. */
  method CollectOwn(f: Tx, initiator: string) returns (utxolist: seq<Utxo>, totalSelected: BigInt)
    ensures fresh(totalSelected)
    ensures utxolist == OwnUtxos(TxId(f), f.outputs, initiator)
    ensures totalSelected.v == SumUtxos(utxolist)
  {
    utxolist := [];
    totalSelected := new BigInt(0);
    for index := 0 to |f.outputs|
      invariant fresh(totalSelected)
      invariant utxolist == OwnUtxos(TxId(f), f.outputs[..index], initiator)
      invariant totalSelected.v == SumUtxos(utxolist)
    {
      assert f.outputs[..index + 1][..index] == f.outputs[..index];
      var txOutput := f.outputs[index];
      if txOutput.toAddr == initiator {
        var utxo := Utxo(TxId(f), Int32(index), txOutput.toAddr, txOutput.amount);
        SumUtxosAppend(utxolist, [utxo]);
        SumUtxosOne(utxo);
        utxolist := utxolist + [utxo];
        var utxoAmount := new BigInt(SetBytes(utxo.amount));
        totalSelected.Add(totalSelected, utxoAmount);
      } else {
        assert utxolist + [] == utxolist;
      }
    }
    assert f.outputs[..|f.outputs|] == f.outputs;
  }

  /** The fee is added into one cell, and that cell and the amount into totalNeed. */
  method TotalNeed(t: CommTrans) returns (err: Option<Error>, totalNeed: BigInt)
    ensures fresh(totalNeed)
    ensures match RealNeed(t)
            case Failure(e) => err == Some(e)
            case Success(need) => err == None && totalNeed.v == need
  {
    err := None;
    totalNeed := new BigInt(0);
    var fee := SetString(t.fee);
    if fee.None? {
      return Some(ErrInvalidAmount), totalNeed;
    }
    var amount := new BigInt(0);
    var feeCell := new BigInt(fee.value);
    amount.Add(amount, feeCell);
    totalNeed.Add(totalNeed, amount);
    if t.amount != "" {
      var parsed := SetString(t.amount);
      if parsed.None? {
        return Some(ErrInvalidAmount), totalNeed;
      }
      var amount' := new BigInt(parsed.value);
      totalNeed.Add(totalNeed, amount');
    }
  }

  method GenRealTx(t: CommTrans, response: InvokeResponse, f: Tx, nonce: string)
    returns (r: Result<Tx, Error>)
    ensures r == RealTx(t, response, f, nonce)
  {
    hide SetString, String, Bytes, OwnUtxos, SumUtxos;
    var initiator := Initiator(t);
    var utxolist, totalSelected := CollectOwn(f, initiator);
    var err, totalNeed := TotalNeed(t);
    if err.Some? {
      return Failure(err.value);
    }
    var selfAmount := totalSelected;
    totalSelected.Sub(totalSelected, totalNeed);
    var txOutputs := GenerateMultiTxOutputs(t, String(selfAmount.v), t.fee);
    if txOutputs.Failure? {
      return Failure(txOutputs.error);
    }
    var txInputs := InputsFromUtxos(utxolist);
    var tx := Tx(txInputs, txOutputs.value, initiator, [], [], [], nonce);
    tx := tx.(inputs := tx.inputs + response.utxoInputs);
    tx := tx.(outputs := tx.outputs + response.utxoOutputs);
    tx := AskAndSign(t, tx);
    return Success(tx);
  }

  method AskAndSign(t: CommTrans, rawTx: Tx) returns (tx: Tx)
    requires rawTx.authRequire == []
    ensures tx == SignedForEndorser(t, rawTx)
  {
    tx := rawTx;
    var authRequire := t.address;
    if t.from != "" {
      authRequire := t.from + "/" + t.address;
    }
    tx := tx.(authRequire := tx.authRequire + [authRequire]);
    tx := tx.(authRequire := tx.authRequire + [t.compliance.serviceAddr]);
    assert tx.authRequire == [OwnRequirement(t), t.compliance.serviceAddr];
    var signInfos := [SignTx(t.keys, tx)];
    tx := tx.(initiatorSigns := signInfos);
    tx := tx.(authRequireSigns := signInfos);
  }
}
