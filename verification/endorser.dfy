/** The endorser of service/rpc/endorser_service.go, the node it posts to, and the
    client's Transfer and GenCompleteTxAndPost, which run the flows to their end. */
module Endorser {

  import opened Wrappers
  import opened Pb
  import opened Ledgers
  import opened NodeRpc
  import opened CommonTransactions
  import opened Auth
  import opened Compliance
  import opened ComplianceArithmetic

  /** The ledger after a transaction was submitted. */
  function Submitted(l: Ledger, tx: Tx): Ledger {
    if Accepts(l, tx) then Post(l, tx) else l
  }

  class Node {
    var ledger: Ledger

    constructor (l: Ledger)
      ensures ledger == l
    {
      ledger := l;
    }

    /** PostTx: with `lost`, the reply is an error whatever happened to the transaction. */
    method PostTx(tx: Tx, lost: bool) returns (ok: bool)
      modifies this
      ensures ledger == Submitted(old(ledger), tx)
      ensures ok == (Accepts(old(ledger), tx) && !lost)
    {
      ok := Accepts(ledger, tx);
      if ok {
        ledger := Post(ledger, tx);
      }
      ok := ok && !lost;
    }
  }

  /** A ComplianceCheck request: the fee transaction, and the transaction to sign if the data decodes. */
  datatype EndorserRequest = EndorserRequest(fee: Option<Tx>, requestData: Option<Tx>)

  /** What can go wrong outside the code: no connection or no request context, a lost reply to
      a PostTx, unreadable endorser keys, a lost reply to the endorser call. */
  datatype Faults = Faults(
    unreachable: bool,
    feeLost: bool,
    endorserKeys: Option<KeyPair>,
    replyLost: bool,
    realLost: bool)

  /** processFee: no fee in the request counts as paid. */
  method ProcessFee(node: Node, req: EndorserRequest, faults: Faults) returns (err: Option<Error>)
    modifies node
    ensures node.ledger == if req.fee.Some? then Submitted(old(node.ledger), req.fee.value) else old(node.ledger)
    ensures err == None <==> req.fee.None? || (Accepts(old(node.ledger), req.fee.value) && !faults.feeLost)
  {
    if req.fee.None? {
      return None;
    }
    var ok := node.PostTx(req.fee.value, faults.feeLost);
    return if ok then None else Some(ErrPost);
  }

  method GenerateTxSign(req: EndorserRequest, faults: Faults) returns (r: Result<SignatureInfo, Error>)
    ensures r.Success? <==> req.requestData.Some? && faults.endorserKeys.Some?
    ensures r.Success? ==> r.value == SignTx(faults.endorserKeys.value, req.requestData.value)
  {
    if req.requestData.None? {
      return Failure(ErrEndorser);
    }
    if faults.endorserKeys.None? {
      return Failure(ErrKeys);
    }
    return Success(SignTx(faults.endorserKeys.value, req.requestData.value));
  }

  /** The ComplianceCheck branch: the fee is posted before anything is signed, so a signature
      is handed out only when the fee transaction, if there is one, was accepted. */
  method EndorserCall(node: Node, req: EndorserRequest, faults: Faults) returns (r: Result<SignatureInfo, Error>)
    modifies node
    ensures node.ledger == if req.fee.Some? then Submitted(old(node.ledger), req.fee.value) else old(node.ledger)
    ensures r.Success? <==>
              && (req.fee.Some? ==> Accepts(old(node.ledger), req.fee.value) && !faults.feeLost)
              && req.requestData.Some? && faults.endorserKeys.Some?
    ensures r.Success? ==> r.value == SignTx(faults.endorserKeys.value, req.requestData.value)
    ensures r.Success? && req.fee.Some? ==> TxId(req.fee.value) in node.ledger.accepted
  {
    var err := ProcessFee(node, req, faults);
    if err.Some? {
      return Failure(err.value);
    }
    r := GenerateTxSign(req, faults);
  }

  method ComplianceCheck(node: Node, tx: Tx, fee: Tx, faults: Faults) returns (r: Result<SignatureInfo, Error>)
    modifies node
    ensures node.ledger == if faults.unreachable then old(node.ledger) else Submitted(old(node.ledger), fee)
    ensures r.Success? <==>
              && Accepts(old(node.ledger), fee)
              && !faults.unreachable && !faults.feeLost && faults.endorserKeys.Some? && !faults.replyLost
    ensures r.Success? ==> r.value == SignTx(faults.endorserKeys.value, tx)
  {
    if faults.unreachable {
      return Failure(ErrEndorser);
    }
    var req := EndorserRequest(Some(fee), Some(tx));
    r := EndorserCall(node, req, faults);
    if r.Success? && faults.replyLost {
      r := Failure(ErrEndorser);
    }
  }

  /** Where a flow leaves the ledger, and the transaction it reports as posted. */
  datatype Outcome = Outcome(ledger: Ledger, posted: Option<TxId>)

  function Reported(l: Ledger, r: Result<TxId, Error>): Outcome {
    Outcome(l, if r.Success? then Some(r.value) else None)
  }

  /** How the flow ends once F and T are built. */
  function FlowEnd(l: Ledger, f: Tx, tx: Tx, faults: Faults): Outcome {
    if faults.unreachable then Outcome(l, None)
    else if !Accepts(l, f) || faults.feeLost || faults.endorserKeys.None? || faults.replyLost then
      Outcome(Submitted(l, f), None)
    else
      var endorsed := WithEndorsement(tx, SignTx(faults.endorserKeys.value, tx));
      var posted := Accepts(Submitted(l, f), endorsed) && !faults.realLost;
      Outcome(Submitted(Submitted(l, f), endorsed), if posted then Some(TxId(endorsed)) else None)
  }

  function BuiltPair(t: CommTrans, utxoOutput: Option<UtxoOutput>, response: InvokeResponse, feeNonce: string,
                     nonce: string): Result<(Tx, Tx), Error> {
    match FeeTx(t, utxoOutput, feeNonce)
    case Failure(e) => Failure(e)
    case Success(f) =>
      match RealTx(t, response, f, nonce)
      case Failure(e) => Failure(e)
      case Success(tx) => Success((f, tx))
  }

  /** Every way the flow can end: nothing posted; F posted alone; or F and then T, endorsed.
      A success means exactly that F was accepted by the ledger as it was and T by the
      ledger with F in it. */
  method GenCompleteTxAndPost(node: Node, t: CommTrans, response: InvokeResponse, utxoOutput: Option<UtxoOutput>,
                              faults: Faults, feeNonce: string, nonce: string)
    returns (r: Result<TxId, Error>)
    modifies node
    ensures var f := FeeTx(t, utxoOutput, feeNonce);
            if f.Failure? || RealTx(t, response, f.value, nonce).Failure? || faults.unreachable then
              r.Failure? && node.ledger == old(node.ledger)
            else
              var tx := RealTx(t, response, f.value, nonce).value;
              var paid := Submitted(old(node.ledger), f.value);
              if || !Accepts(old(node.ledger), f.value) || faults.feeLost
                 || faults.endorserKeys.None? || faults.replyLost then
                r.Failure? && node.ledger == paid
              else
                var endorsed := WithEndorsement(tx, SignTx(faults.endorserKeys.value, tx));
                && paid == Post(old(node.ledger), f.value)
                && node.ledger == Submitted(paid, endorsed)
                && (r.Success? <==> Accepts(paid, endorsed) && !faults.realLost)
                && (r.Success? ==> r.value == TxId(endorsed) && TxId(f.value) in node.ledger.accepted)
    ensures Reported(node.ledger, r)
            == match BuiltPair(t, utxoOutput, response, feeNonce, nonce)
               case Failure(_) => Outcome(old(node.ledger), None)
               case Success(pair) => FlowEnd(old(node.ledger), pair.0, pair.1, faults)
  {
    var complianceCheckTx := GenComplianceCheckTx(t, utxoOutput, feeNonce);
    if complianceCheckTx.Failure? {
      return Failure(complianceCheckTx.error);
    }
    var built := GenRealTx(t, response, complianceCheckTx.value, nonce);
    if built.Failure? {
      return Failure(built.error);
    }
    var tx := built.value;
    var endorserSign := ComplianceCheck(node, tx, complianceCheckTx.value, faults);
    if endorserSign.Failure? {
      return Failure(endorserSign.error);
    }
    tx := tx.(authRequireSigns := tx.authRequireSigns + [endorserSign.value]);
    var ok := node.PostTx(tx, faults.realLost);
    if !ok {
      return Failure(ErrPost);
    }
    return Success(TxId(tx));
  }

  /** Transfer of comm_trans.go: with the endorser if the configuration asks for one, else
      one raw transaction. A lost reply to its PostTx is `realLost`. */
  method Transfer(node: Node, t: CommTrans, c: Chain, response: InvokeResponse, faults: Faults,
                  feeNonce: string, nonce: string)
    returns (r: Result<TxId, Error>)
    modifies node
    ensures t.compliance.needed ==>
              Reported(node.ledger, r)
              == match PreExecuted(t, c, response)
                 case Failure(_) => Outcome(old(node.ledger), None)
                 case Success(out) =>
                   match BuiltPair(t, out, response, feeNonce, nonce)
                   case Failure(_) => Outcome(old(node.ledger), None)
                   case Success(pair) => FlowEnd(old(node.ledger), pair.0, pair.1, faults)
    ensures !t.compliance.needed ==>
              match GeneratedTx(t, Some(response), c, nonce)
              case Failure(_) => Reported(node.ledger, r) == Outcome(old(node.ledger), None)
              case Success(tx) =>
                && node.ledger == Submitted(old(node.ledger), SignedByOwner(t, tx))
                && (r.Success? <==> Accepts(old(node.ledger), SignedByOwner(t, tx)) && !faults.realLost)
                && (r.Success? ==> r.value == TxId(SignedByOwner(t, tx)))
  {
    hide GeneratedTx, PreExecuted, BuiltPair, FlowEnd, Accepts, Submitted, FeeTx, RealTx;
    if t.compliance.needed {
      var preSelectUTXORes := GenPreExeWithSelectUtxoRes(t, c, response);
      if preSelectUTXORes.Failure? {
        return Failure(preSelectUTXORes.error);
      }
      r := GenCompleteTxAndPost(node, t, response, preSelectUTXORes.value, faults, feeNonce, nonce);
    } else {
      var tx := GenerateTx(t, Some(response), c, nonce);
      if tx.Failure? {
        return Failure(tx.error);
      }
      var signed, txid := SendTx(t, tx.value);
      var ok := node.PostTx(signed, faults.realLost);
      return if ok then Success(txid) else Failure(ErrPost);
    }
  }
}
