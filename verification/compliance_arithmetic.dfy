/** When the two compliance transactions balance: the amounts across client and server. */
module ComplianceArithmetic {

  import opened Wrappers
  import opened Amounts
  import opened Pb
  import opened Ledgers
  import opened NodeRpc
  import opened CommonTransactions
  import opened Auth
  import opened Compliance

  // ---------- F ----------

  /** The service fee has somewhere to go, or there is none. */
  predicate FeePayable(t: CommTrans) {
    t.compliance.feeAddr != "" || t.compliance.serviceFee == 0
  }

  function ServiceOutput(t: CommTrans): seq<TxOutput> {
    if t.compliance.feeAddr != "" && t.compliance.serviceFee > 0
    then [TxOutput(t.compliance.feeAddr, Bytes(t.compliance.serviceFee), 0)]
    else []
  }

  lemma ServiceOutputs(t: CommTrans)
    ensures BuildOutputs(ServiceAccounts(t), true).Success?
            <==> t.compliance.feeAddr == "" || t.compliance.serviceFee >= 0
    ensures BuildOutputs(ServiceAccounts(t), true).Success? ==>
              BuildOutputs(ServiceAccounts(t), true).value.outputs == ServiceOutput(t)
  {
    StringRoundTrip(t.compliance.serviceFee);
    var account := Account(t.compliance.feeAddr, String(t.compliance.serviceFee), 0);
    if t.compliance.feeAddr != "" {
      assert ServiceAccounts(t) == [account];
      assert [account][..0] == [];
    } else {
      assert ServiceAccounts(t) == [];
    }
  }

  /** F spends the selection, pays the service fee if it has an address, and keeps the rest. */
  lemma FeeTxShape(t: CommTrans, out: UtxoOutput, nonce: string)
    requires SetString(out.totalSelected) == Some(SumUtxos(out.utxoList))
    ensures FeeTx(t, Some(out), nonce).Success? <==> t.compliance.feeAddr == "" || t.compliance.serviceFee >= 0
    ensures FeeTx(t, Some(out), nonce).Success? ==>
              var f := FeeTx(t, Some(out), nonce).value;
              && f.inputs == InputsOf(out.utxoList)
              && f.outputs == ServiceOutput(t)
                              + Optional(Change(Initiator(t), SumUtxos(out.utxoList), t.compliance.serviceFee))
  {
    ServiceOutputs(t);
  }

  /** F balances exactly when the service fee has an address (or is zero) and the selection
      covers it, or when there is nothing at all to spend and no address to pay. */
  lemma FeeTxBalances(t: CommTrans, out: UtxoOutput, nonce: string)
    requires SetString(out.totalSelected) == Some(SumUtxos(out.utxoList))
    requires FeeTx(t, Some(out), nonce).Success?
    ensures Balanced(FeeTx(t, Some(out), nonce).value)
            <==> || (FeePayable(t) && SumUtxos(out.utxoList) >= t.compliance.serviceFee)
                 || (SumUtxos(out.utxoList) == 0 && t.compliance.feeAddr == "" && t.compliance.serviceFee >= 0)
  {
    FeeTxShape(t, out, nonce);
    SumInputsOf(out.utxoList);
    var change := Change(Initiator(t), SumUtxos(out.utxoList), t.compliance.serviceFee);
    SumOutputsAppend(ServiceOutput(t), Optional(change));
    ChangeValue(Initiator(t), SumUtxos(out.utxoList), t.compliance.serviceFee);
    ServiceValue(t);
  }

  lemma ChangeValue(address: string, total: int, need: int)
    ensures SumOutputs(Optional(Change(address, total, need))) == if total > need then total - need else 0
  {
    if total > need {
      SumOutputsOne(Change(address, total, need).value);
      BytesRoundTrip(total - need);
    }
  }

  lemma ServiceValue(t: CommTrans)
    ensures SumOutputs(ServiceOutput(t))
            == if t.compliance.feeAddr != "" && t.compliance.serviceFee > 0 then t.compliance.serviceFee else 0
  {
    if ServiceOutput(t) != [] {
      SumOutputsOne(ServiceOutput(t)[0]);
      BytesRoundTrip(t.compliance.serviceFee);
    }
  }

  /** With a service fee and no address for it, F loses the whole fee. */
  lemma UnpaidFeeIsLost(t: CommTrans, out: UtxoOutput, nonce: string)
    requires t.compliance.feeAddr == "" && t.compliance.serviceFee >= 0
    requires SetString(out.totalSelected) == Some(SumUtxos(out.utxoList))
    requires SumUtxos(out.utxoList) >= t.compliance.serviceFee
    ensures FeeTx(t, Some(out), nonce).Success?
    ensures var f := FeeTx(t, Some(out), nonce).value;
            SumInputs(f.inputs) == SumOutputs(f.outputs) + t.compliance.serviceFee
  {
    FeeTxShape(t, out, nonce);
    SumInputsOf(out.utxoList);
    ChangeValue(Initiator(t), SumUtxos(out.utxoList), t.compliance.serviceFee);
    var change := Optional(Change(Initiator(t), SumUtxos(out.utxoList), t.compliance.serviceFee));
    assert [] + change == change;
  }

  // ---------- the inputs of T ----------

  /** The outputs collected from F: each names its own index, owner and amount, they are
      in increasing order of index, and none of the owner's outputs is missed. */
  lemma {:induction false} OwnUtxosExact(id: TxId, who: string, k: nat)
    requires k <= |id.tx.outputs| <= 0x8000_0000
    ensures OwnAt(OwnUtxos(id, id.tx.outputs[..k], who), id, who, k)
  {
    hide OwnAt;
    var outs := id.tx.outputs;
    if k == 0 {
      OwnAtNone(id, who);
    } else {
      OwnUtxosExact(id, who, k - 1);
      assert outs[..k][..k - 1] == outs[..k - 1];
      OwnAtMore(OwnUtxos(id, outs[..k - 1], who), id, who, k);
    }
  }

  /** Exactly the outputs below k of this owner, in increasing order of index. */
  ghost predicate OwnAt(own: seq<Utxo>, id: TxId, who: string, k: nat)
    requires k <= |id.tx.outputs|
  {
    && (forall u :: u in own ==>
          && u.refTxid == id && 0 <= u.refOffset < k
          && id.tx.outputs[u.refOffset].toAddr == u.toAddr == who
          && id.tx.outputs[u.refOffset].amount == u.amount)
    && (forall i, j :: 0 <= i < j < |own| ==> own[i].refOffset < own[j].refOffset)
    && (forall i :: 0 <= i < k && id.tx.outputs[i].toAddr == who ==>
          Utxo(id, i, who, id.tx.outputs[i].amount) in own)
  }

  lemma OwnAtNone(id: TxId, who: string)
    ensures OwnAt([], id, who, 0)
  {
  }

  lemma OwnAtMore(own: seq<Utxo>, id: TxId, who: string, k: nat)
    requires 0 < k <= |id.tx.outputs| <= 0x8000_0000 && OwnAt(own, id, who, k - 1)
    ensures var o := id.tx.outputs[k - 1];
            OwnAt(own + if o.toAddr == who then [Utxo(id, Int32(k - 1), o.toAddr, o.amount)] else [], id, who, k)
  {
    var o := id.tx.outputs[k - 1];
    assert Int32(k - 1) == k - 1;
    var more := if o.toAddr == who then [Utxo(id, k - 1, o.toAddr, o.amount)] else [];
    forall i | 0 <= i < k && id.tx.outputs[i].toAddr == who
      ensures Utxo(id, i, who, id.tx.outputs[i].amount) in own + more
    {
      if i == k - 1 {
        assert Utxo(id, i, who, o.amount) in more;
      }
    }
  }

  /** Every input that T takes from F names a distinct existing output of F, with the
      owner and the amount that F gives it. */
  lemma OwnInputsTruthful(f: Tx, who: string)
    requires |f.outputs| <= 0x8000_0000
    ensures var ins := InputsOf(OwnUtxos(TxId(f), f.outputs, who));
            && AllTruthful(ins) && Distinct(Refs(ins))
            && forall i :: i in ins ==> i.refTxid == TxId(f) && i.fromAddr == who
  {
    var own := OwnUtxos(TxId(f), f.outputs, who);
    var ins := InputsOf(own);
    OwnUtxosExact(TxId(f), who, |f.outputs|);
    assert f.outputs[..|f.outputs|] == f.outputs;
    forall i | i in ins
      ensures Truthful(i) && i.refTxid == TxId(f) && i.fromAddr == who
    {
      var k :| 0 <= k < |ins| && ins[k] == i;
      assert own[k] in own;
    }
    forall i, j | 0 <= i < j < |ins|
      ensures Refs(ins)[i] != Refs(ins)[j]
    {
      assert own[i].refOffset < own[j].refOffset;
    }
  }

  function ValueIfOwn(o: TxOutput, who: string): nat {
    if o.toAddr == who then SetBytes(o.amount) else 0
  }

  lemma OwnUtxosStep(id: TxId, outs: seq<TxOutput>, o: TxOutput, who: string)
    ensures SumUtxos(OwnUtxos(id, outs + [o], who)) == SumUtxos(OwnUtxos(id, outs, who)) + ValueIfOwn(o, who)
  {
    assert (outs + [o])[..|outs|] == outs;
    var before := OwnUtxos(id, outs, who);
    if o.toAddr == who {
      var u := Utxo(id, Int32(|outs|), o.toAddr, o.amount);
      assert OwnUtxos(id, outs + [o], who) == before + [u];
      SumUtxosAppend(before, [u]);
      SumUtxosOne(u);
    } else {
      assert OwnUtxos(id, outs + [o], who) == before + [] == before;
    }
  }

  lemma OwnUtxosOptional(id: TxId, outs: seq<TxOutput>, o: Option<TxOutput>, who: string)
    ensures SumUtxos(OwnUtxos(id, outs + Optional(o), who))
            == SumUtxos(OwnUtxos(id, outs, who)) + if o.Some? then ValueIfOwn(o.value, who) else 0
  {
    if o.Some? {
      OwnUtxosStep(id, outs, o.value, who);
    } else {
      assert outs + [] == outs;
    }
  }

  lemma OwnOfService(id: TxId, t: CommTrans, who: string)
    ensures SumUtxos(OwnUtxos(id, ServiceOutput(t), who))
            == if t.compliance.feeAddr == who != "" && t.compliance.serviceFee > 0 then t.compliance.serviceFee else 0
  {
    if ServiceOutput(t) != [] {
      OwnUtxosStep(id, [], ServiceOutput(t)[0], who);
      assert [] + [ServiceOutput(t)[0]] == ServiceOutput(t);
      BytesRoundTrip(t.compliance.serviceFee);
    }
  }

  lemma OwnOfChange(total: int, need: int, who: string)
    ensures Change(who, total, need).Some? ==> ValueIfOwn(Change(who, total, need).value, who) == total - need
  {
    if total > need {
      BytesRoundTrip(total - need);
    }
  }

  /** What T can spend: the change of F, and the service fee too if it went to oneself. */
  lemma OwnTotal(t: CommTrans, out: UtxoOutput, nonce: string)
    requires SetString(out.totalSelected) == Some(SumUtxos(out.utxoList))
    requires FeeTx(t, Some(out), nonce).Success? && FeePayable(t)
    requires 0 <= t.compliance.serviceFee <= SumUtxos(out.utxoList)
    ensures var f := FeeTx(t, Some(out), nonce).value;
            SumUtxos(OwnUtxos(TxId(f), f.outputs, Initiator(t))) == Spendable(t, SumUtxos(out.utxoList))
  {
    FeeTxShape(t, out, nonce);
    var id := TxId(FeeTx(t, Some(out), nonce).value);
    var service, total, who := t.compliance.serviceFee, SumUtxos(out.utxoList), Initiator(t);
    OwnUtxosOptional(id, ServiceOutput(t), Change(who, total, service), who);
    OwnOfService(id, t, who);
    OwnOfChange(total, service, who);
  }

  function Spendable(t: CommTrans, total: int): int {
    if t.compliance.feeAddr == Initiator(t) then total else total - t.compliance.serviceFee
  }

  // ---------- T ----------

  lemma RealTxShape(t: CommTrans, response: InvokeResponse, f: Tx, nonce: string)
    ensures RealTx(t, response, f, nonce).Success? <==>
              && SetString(t.fee).Some? && (FeeGiven(t.fee) ==> SetString(t.fee).value >= 0)
              && (t.amount != "" ==> SetString(t.amount).Some?)
    ensures RealTx(t, response, f, nonce).Success? ==>
              RealNeed(t) == Success(SetString(t.fee).value + AmountValue(t))
    ensures RealTx(t, response, f, nonce).Success? ==>
              var own := OwnUtxos(TxId(f), f.outputs, Initiator(t));
              var self := SumUtxos(own) - RealNeed(t).value;
              var tx := RealTx(t, response, f, nonce).value;
              && tx.inputs == InputsOf(own) + response.utxoInputs
              && tx.outputs == [TxOutput(Initiator(t), Bytes(self), 0)] + FeeOutput(t.fee) + AmountOutput(t)
                               + response.utxoOutputs
  {
    hide SetString, String, Bytes, OwnUtxos, SumUtxos, InputsOf;
    if RealNeed(t).Success? {
      StringRoundTrip(SumUtxos(OwnUtxos(TxId(f), f.outputs, Initiator(t))) - RealNeed(t).value);
    }
  }

  function Abs(x: int): nat { if x < 0 then -x else x }

  lemma PaidValues(t: CommTrans, self: int)
    requires SetString(t.fee).Some? && (FeeGiven(t.fee) ==> SetString(t.fee).value >= 0)
    ensures SumOutputs([TxOutput(Initiator(t), Bytes(self), 0)] + FeeOutput(t.fee) + AmountOutput(t))
            == Abs(self) + SetString(t.fee).value + Abs(AmountValue(t))
  {
    var selfOut := TxOutput(Initiator(t), Bytes(self), 0);
    SumOutputsAppend([selfOut] + FeeOutput(t.fee), AmountOutput(t));
    SumOutputsAppend([selfOut], FeeOutput(t.fee));
    SumOutputsOne(selfOut);
    BytesRoundTrip(self);
    if FeeGiven(t.fee) {
      SumOutputsOne(FeeOutput(t.fee)[0]);
      BytesRoundTrip(SetString(t.fee).value);
    } else {
      assert "0"[1..] == "";
    }
    if t.amount != "" {
      SumOutputsOne(AmountOutput(t)[0]);
      BytesRoundTrip(AmountValue(t));
    }
  }

  lemma RealTxSums(t: CommTrans, response: InvokeResponse, f: Tx, nonce: string)
    requires RealTx(t, response, f, nonce).Success?
    ensures var tx := RealTx(t, response, f, nonce).value;
            var own := SumUtxos(OwnUtxos(TxId(f), f.outputs, Initiator(t)));
            && SumInputs(tx.inputs) == own + SumInputs(response.utxoInputs)
            && SetString(t.fee).Some? && RealNeed(t) == Success(SetString(t.fee).value + AmountValue(t))
            && SumOutputs(tx.outputs) == Abs(own - (SetString(t.fee).value + AmountValue(t))) + SetString(t.fee).value
                                         + Abs(AmountValue(t)) + SumOutputs(response.utxoOutputs)
  {
    hide *;
    RealTxShape(t, response, f, nonce);
    var own := OwnUtxos(TxId(f), f.outputs, Initiator(t));
    var self := SumUtxos(own) - RealNeed(t).value;
    SumInputsOf(own);
    SumInputsAppend(InputsOf(own), response.utxoInputs);
    SumOutputsAppend([TxOutput(Initiator(t), Bytes(self), 0)] + FeeOutput(t.fee) + AmountOutput(t),
                     response.utxoOutputs);
    PaidValues(t, self);
  }

  /** T balances exactly when the amount is not negative and the outputs taken from F
      cover fee and amount: otherwise Bytes drops a sign and T creates value. */
  lemma RealTxBalances(t: CommTrans, response: InvokeResponse, f: Tx, nonce: string)
    requires SumInputs(response.utxoInputs) == SumOutputs(response.utxoOutputs)
    requires RealTx(t, response, f, nonce).Success?
    ensures Balanced(RealTx(t, response, f, nonce).value)
            <==> AmountValue(t) >= 0 && SumUtxos(OwnUtxos(TxId(f), f.outputs, Initiator(t))) >= RealNeed(t).value
  {
    hide *;
    var tx := RealTx(t, response, f, nonce).value;
    var own := SumUtxos(OwnUtxos(TxId(f), f.outputs, Initiator(t)));
    RealTxSums(t, response, f, nonce);
    SignsKept(tx, own, SetString(t.fee).value, AmountValue(t), SumInputs(response.utxoInputs));
  }

  lemma SignsKept(tx: Tx, own: int, fee: int, amount: int, contract: int)
    requires SumInputs(tx.inputs) == own + contract
    requires SumOutputs(tx.outputs) == Abs(own - (fee + amount)) + fee + Abs(amount) + contract
    ensures Balanced(tx) <==> amount >= 0 && own >= fee + amount
  {
  }

  /** The first output of T is the owner's, and holds what the inputs from F leave. */
  lemma RealTxSelf(t: CommTrans, response: InvokeResponse, f: Tx, nonce: string)
    requires RealTx(t, response, f, nonce).Success?
    requires SumUtxos(OwnUtxos(TxId(f), f.outputs, Initiator(t))) >= RealNeed(t).value
    ensures var self := RealTx(t, response, f, nonce).value.outputs[0];
            && self.toAddr == Initiator(t)
            && SetBytes(self.amount) == SumUtxos(OwnUtxos(TxId(f), f.outputs, Initiator(t))) - RealNeed(t).value
  {
    RealTxShape(t, response, f, nonce);
    BytesRoundTrip(SumUtxos(OwnUtxos(TxId(f), f.outputs, Initiator(t))) - RealNeed(t).value);
  }

  // ---------- both, for one reply ----------

  /** For every reply of value at least 1 whose total is the sum of what it lists:
      F and T both balance exactly when the service fee is payable and covered, the amount
      is not negative, and what F leaves to the owner covers fee and amount. F leaves
      the selection without the service fee, or all of it if the owner is paid the fee. */
  lemma ComplianceBalances(t: CommTrans, out: UtxoOutput, response: InvokeResponse, feeNonce: string, nonce: string)
    requires SetString(out.totalSelected) == Some(SumUtxos(out.utxoList)) && SumUtxos(out.utxoList) >= 1
    requires SumInputs(response.utxoInputs) == SumOutputs(response.utxoOutputs)
    requires FeeTx(t, Some(out), feeNonce).Success?
    requires RealTx(t, response, FeeTx(t, Some(out), feeNonce).value, nonce).Success?
    ensures var f := FeeTx(t, Some(out), feeNonce).value;
            Balanced(f) && Balanced(RealTx(t, response, f, nonce).value)
            <==> && FeePayable(t) && SumUtxos(out.utxoList) >= t.compliance.serviceFee
                 && AmountValue(t) >= 0 && Spendable(t, SumUtxos(out.utxoList)) >= RealNeed(t).value
  {
    FeeTxShape(t, out, feeNonce);
    FeeTxBalances(t, out, feeNonce);
    RealTxBalances(t, response, FeeTx(t, Some(out), feeNonce).value, nonce);
    if FeePayable(t) && SumUtxos(out.utxoList) >= t.compliance.serviceFee {
      OwnTotal(t, out, feeNonce);
    }
  }

  // ---------- the int64 chain ----------

  /** What a caller can check before starting: no amount is negative, and a fee is given. */
  predicate Guarded(t: CommTrans) {
    && 0 <= t.compliance.serviceFee <= MAX_INT64
    && SetString(t.fee).Some? && SetString(t.fee).value >= 0
    && (t.amount != "" ==> SetString(t.amount).Some?) && AmountValue(t) >= 0
  }

  /** Everything the two transactions and the contract may take. */
  function FullCost(t: CommTrans, gasUsed: int): int
    requires Guarded(t)
  {
    t.compliance.serviceFee + SetString(t.fee).value + AmountValue(t) + gasUsed
  }

  lemma RequestIsWrappedSum(t: CommTrans)
    requires Guarded(t) && RequestedAmount(t).Success?
    ensures RequestedAmount(t).value == Wrap64(FullCost(t, 0))
    ensures SetString(t.fee).value <= MAX_INT64 && AmountValue(t) <= MAX_INT64
  {
    assert "0"[1..] == "";
    ParseIntOkMeansExact(t.fee);
    ParseIntOkMeansExact(t.amount);
    WrapIsModular(t.compliance.serviceFee + SetString(t.fee).value, AmountValue(t));
  }

  /** The need that the server computes is exact as long as the full cost fits in int64,
      and otherwise it is below what F and T take: it covers them if and only if the
      cost fits. */
  lemma ServerNeedCovers(t: CommTrans, gasUsed: int)
    requires Guarded(t) && RequestedAmount(t).Success? && 0 <= gasUsed <= MAX_INT64
    ensures var need := ServerNeed(RequestedAmount(t).value, gasUsed);
            && (FullCost(t, gasUsed) <= MAX_INT64 ==> need == FullCost(t, gasUsed))
            && (need >= FullCost(t, 0) <==> FullCost(t, gasUsed) <= MAX_INT64)
  {
    RequestIsWrappedSum(t);
    WrapIsModular(FullCost(t, 0), gasUsed);
    var full := FullCost(t, gasUsed);
    if full > MAX_INT64 {
      assert Wrap64(full) == full - TWO_TO_64 || Wrap64(full) == full - 2 * TWO_TO_64;
    }
  }

  /** The server sends no utxos, and the client goes on to dereference nil, exactly when
      there is nothing at all to pay. */
  lemma NoUtxosWhenFree(t: CommTrans, c: Chain, response: InvokeResponse)
    requires Guarded(t) && 0 <= response.gasUsed && FullCost(t, response.gasUsed) <= MAX_INT64
    requires PreExecuted(t, c, response).Success?
    ensures PreExecuted(t, c, response).value.None? <==> FullCost(t, response.gasUsed) == 0
  {
    ServerNeedCovers(t, response.gasUsed);
  }

  /** The guarantee: for guarded amounts whose full cost fits in int64, every honest node's
      reply leads to two transactions that balance and state their inputs truthfully,
      and T returns at least the gas to its owner. */
  lemma ComplianceIsSound(t: CommTrans, c: Chain, l: Ledger, response: InvokeResponse, feeNonce: string, nonce: string)
    requires Valid(l) && Honest(c, l) && Even(response.utxoInputs, response.utxoOutputs)
    requires Guarded(t) && FeePayable(t)
    requires 0 <= response.gasUsed && FullCost(t, response.gasUsed) <= MAX_INT64
    requires PreExecuted(t, c, response).Success? && FullCost(t, response.gasUsed) >= 1
    ensures PreExecuted(t, c, response).value.Some?
    ensures FeeTx(t, PreExecuted(t, c, response).value, feeNonce).Success?
    ensures var f := FeeTx(t, PreExecuted(t, c, response).value, feeNonce).value;
            && Sound(f) && |f.outputs| <= 2
            && RealTx(t, response, f, nonce).Success?
            && Sound(RealTx(t, response, f, nonce).value)
            && RealTx(t, response, f, nonce).value.outputs[0].toAddr == Initiator(t)
            && SetBytes(RealTx(t, response, f, nonce).value.outputs[0].amount) >= response.gasUsed
  {
    NoUtxosWhenFree(t, c, response);
    var out := PreExecuted(t, c, response).value.value;
    ReplyCovers(t, c, l, response);
    FeeTxShape(t, out, feeNonce);
    var f := FeeTx(t, Some(out), feeNonce).value;
    FeeTxIsTruthful(t, out, l, feeNonce);
    RealTxShape(t, response, f, nonce);
    ComplianceBalances(t, out, response, feeNonce, nonce);
    RealTxIsTruthful(t, response, f, nonce);
    OwnTotal(t, out, feeNonce);
    RealTxSelf(t, response, f, nonce);
  }

  /** Whatever is requested, the utxos in the server's reply are a selection for the payer. */
  lemma ReplyIsSelection(t: CommTrans, c: Chain, l: Ledger, response: InvokeResponse)
    requires Honest(c, l)
    requires PreExecuted(t, c, response).Success? && PreExecuted(t, c, response).value.Some?
    ensures Selection(l, Initiator(t), PreExecuted(t, c, response).value.value)
  {
    var need := ServerNeed(RequestedAmount(t).value, response.gasUsed);
    SelectCovers(c, l, UtxoInput(t.chainName, Initiator(t), String(need), false, "", None), need);
  }

  /** The server's reply is a selection for the payer that covers the full cost. */
  lemma ReplyCovers(t: CommTrans, c: Chain, l: Ledger, response: InvokeResponse)
    requires Honest(c, l) && Guarded(t)
    requires 0 <= response.gasUsed && FullCost(t, response.gasUsed) <= MAX_INT64
    requires PreExecuted(t, c, response).Success? && PreExecuted(t, c, response).value.Some?
    ensures var out := PreExecuted(t, c, response).value.value;
            && Selection(l, Initiator(t), out)
            && SumUtxos(out.utxoList) >= FullCost(t, response.gasUsed) >= 1
  {
    var need := ServerNeed(RequestedAmount(t).value, response.gasUsed);
    ServerNeedCovers(t, response.gasUsed);
    SelectCovers(c, l, UtxoInput(t.chainName, Initiator(t), String(need), false, "", None), need);
  }

  lemma FeeTxIsTruthful(t: CommTrans, out: UtxoOutput, l: Ledger, nonce: string)
    requires Valid(l) && Selection(l, Initiator(t), out)
    requires FeeTx(t, Some(out), nonce).Success?
    ensures AllTruthful(FeeTx(t, Some(out), nonce).value.inputs)
    ensures |FeeTx(t, Some(out), nonce).value.outputs| <= 2
  {
    FeeTxShape(t, out, nonce);
    SelectionIsTruthful(l, Initiator(t), out);
  }

  lemma RealTxIsTruthful(t: CommTrans, response: InvokeResponse, f: Tx, nonce: string)
    requires |f.outputs| <= 2 && AllTruthful(response.utxoInputs)
    requires RealTx(t, response, f, nonce).Success?
    ensures AllTruthful(RealTx(t, response, f, nonce).value.inputs)
  {
    RealTxShape(t, response, f, nonce);
    OwnInputsTruthful(f, Initiator(t));
  }

  /** The limit is sharp. When the full cost does not fit in int64, the server asks for too
      little: below 1 it sends no utxos and the client dereferences nil; otherwise a node
      that selects exactly what was asked leads to a pair that does not balance, unless
      the service fee comes back to its owner and so little is enough. */
  lemma OverflowBreaks(t: CommTrans, out: UtxoOutput, response: InvokeResponse, feeNonce: string, nonce: string)
    requires Guarded(t) && RequestedAmount(t).Success? && 0 <= response.gasUsed <= MAX_INT64
    requires SumInputs(response.utxoInputs) == SumOutputs(response.utxoOutputs)
    requires FullCost(t, response.gasUsed) > MAX_INT64
    ensures var need := ServerNeed(RequestedAmount(t).value, response.gasUsed);
            if need < 1 then
              && (forall c: Chain :: PreExecuted(t, c, response).Success? ==> PreExecuted(t, c, response).value == None)
              && FeeTx(t, None, feeNonce) == Failure(NilDereference)
            else
              SetString(out.totalSelected) == Some(SumUtxos(out.utxoList)) && SumUtxos(out.utxoList) == need
              && FeeTx(t, Some(out), feeNonce).Success?
              ==>
                var f := FeeTx(t, Some(out), feeNonce).value;
                && RealTx(t, response, f, nonce).Success?
                && (Balanced(f) && Balanced(RealTx(t, response, f, nonce).value)
                    <==> && t.compliance.feeAddr == Initiator(t) != ""
                         && need >= t.compliance.serviceFee && need >= RealNeed(t).value)
  {
    var need := ServerNeed(RequestedAmount(t).value, response.gasUsed);
    ServerNeedCovers(t, response.gasUsed);
    if need >= 1 && SetString(out.totalSelected) == Some(SumUtxos(out.utxoList)) && SumUtxos(out.utxoList) == need
       && FeeTx(t, Some(out), feeNonce).Success? {
      var f := FeeTx(t, Some(out), feeNonce).value;
      RealTxShape(t, response, f, nonce);
      ComplianceBalances(t, out, response, feeNonce, nonce);
    }
  }

  /** The largest int64 as a fee: with a service fee of 400 the request wraps below zero, and
      with as large an amount again it wraps back to 398, for which two transactions are made. */
  lemma OverflowExample(t: CommTrans, config: ComplianceConfig)
    ensures var max := String(MAX_INT64);
            var t1 := t.(fee := max, amount := "", compliance := config.(serviceFee := 400));
            var t2 := t1.(amount := max);
            && Guarded(t1) && FullCost(t1, 0) > MAX_INT64
            && RequestedAmount(t1).Success? && ServerNeed(RequestedAmount(t1).value, 0) == MIN_INT64 + 399
            && Guarded(t2) && FullCost(t2, 0) > MAX_INT64
            && RequestedAmount(t2).Success? && ServerNeed(RequestedAmount(t2).value, 0) == 398
  {
    hide SetString, String, ParseInt64;
    var t1 := t.(fee := String(MAX_INT64), amount := "", compliance := config.(serviceFee := 400));
    StringRoundTrip(MAX_INT64);
    ParseIntOkMeansExact(t1.fee);
    RequestIsWrappedSum(t1);
    RequestIsWrappedSum(t1.(amount := t1.fee));
  }

  /** A negative amount is asked for like any other: 400 for the service and -5 make a request of 395.
      F balances, but T writes the 5 without its sign after it has added them to what
      the owner keeps, and so creates 10. */
  lemma NegativeAmountExample(t: CommTrans, config: ComplianceConfig, id: TxId, feeNonce: string, nonce: string)
    requires config.feeAddr != "" && config.feeAddr != Initiator(t)
    ensures var t' := t.(fee := "0", amount := "-5", compliance := config.(serviceFee := 400));
            var out := UtxoOutput([Utxo(id, 0, Initiator(t), Bytes(1000))], String(1000));
            && RequestedAmount(t') == Success(395)
            && FeeTx(t', Some(out), feeNonce).Success?
            && (var f := FeeTx(t', Some(out), feeNonce).value;
                var built := RealTx(t', InvokeResponse(0, [], []), f, nonce);
                && Balanced(f) && built.Success?
                && SumOutputs(built.value.outputs) == SumInputs(built.value.inputs) + 10)
  {
    hide Bytes, SetBytes, OwnUtxos, SumUtxos, BuildOutputs;
    var t' := t.(fee := "0", amount := "-5", compliance := config.(serviceFee := 400));
    var out := UtxoOutput([Utxo(id, 0, Initiator(t), Bytes(1000))], String(1000));
    SampleAmounts();
    StringRoundTrip(1000);
    SumUtxosOne(out.utxoList[0]);
    BytesRoundTrip(1000);
    FeeTxShape(t', out, feeNonce);
    FeeTxBalances(t', out, feeNonce);
    OwnTotal(t', out, feeNonce);
    var f := FeeTx(t', Some(out), feeNonce).value;
    RealTxShape(t', InvokeResponse(0, [], []), f, nonce);
    RealTxSums(t', InvokeResponse(0, [], []), f, nonce);
  }

  lemma SampleAmounts()
    ensures SetString("0") == Some(0) && SetString("-5") == Some(-5)
    ensures ParseInt64("-5") == ParseResult(-5, true)
  {
    assert SetString("-5") == Some(-5);
    ParseIntOkMeansExact("-5");
  }

  // ---------- authorization ----------

  function WithEndorsement(tx: Tx, sign: SignatureInfo): Tx {
    tx.(authRequireSigns := tx.authRequireSigns + [sign])
  }

  /** With the endorser's signature appended, requirement i is signed by signer i: the owner,
      then the endorser; and the initiator's own signatures are unchanged. */
  lemma EndorsedAligns(t: CommTrans, response: InvokeResponse, f: Tx, nonce: string, endorser: KeyPair)
    requires RealTx(t, response, f, nonce).Success?
    ensures var tx := RealTx(t, response, f, nonce).value;
            var endorsed := WithEndorsement(tx, SignTx(endorser, tx));
            && Aligned(endorsed, [OwnAK(t), AK(t.compliance.serviceAddr, Some(endorser))])
            && endorsed.initiatorSigns == tx.initiatorSigns == [SignTx(t.keys, endorsed)]
  {
    var tx := RealTx(t, response, f, nonce).value;
    var endorsed := WithEndorsement(tx, SignTx(endorser, tx));
    OwnRequirementNames(t);
    assert DigestOf(endorsed) == DigestOf(tx);
    assert AuthorizedAt(endorsed, 0, OwnAK(t));
    assert AuthorizedAt(endorsed, 1, AK(t.compliance.serviceAddr, Some(endorser)));
  }
}
