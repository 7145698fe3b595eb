/** Transactions that several parties sign: `multisig gen`, `sign`, `get` and `send`
    (cmd/client/cmd/multisig_gen.go, multisig_sign.go, multisig_get.go, multisig_send.go). */
module MultisigTransactions {

  import opened Wrappers
  import opened Amounts
  import opened Pb
  import opened Ledgers
  import opened NodeRpc
  import opened CommonTransactions
  import opened Auth
  import opened Compliance
  import opened ComplianceArithmetic
  import opened Endorser

  // ---------- gen ----------

  /** The raw transaction as it is written to a file, asking for everyone in the address file. */
  function RawFile(t: CommTrans, pre: Option<InvokeResponse>, addrFile: Option<seq<string>>, c: Chain, nonce: string)
    : Result<Tx, Error>
  {
    match GeneratedTx(t, pre, c, nonce)
    case Failure(e) => Failure(e)
    case Success(tx) => AskAll(tx, addrFile)
  }

  method GenerateMultisigGenRawTx(t: CommTrans, pre: Option<InvokeResponse>, addrFile: Option<seq<string>>, c: Chain,
                                  nonce: string)
    returns (r: Result<Tx, Error>)
    ensures r == RawFile(t, pre, addrFile, c, nonce)
  {
    r := GenerateTx(t, pre, c, nonce);
    if r.Success? {
      r := GenAuthRequire(r.value, addrFile);
    }
  }

  /** Asking others to sign moves the same value. */
  lemma RawFileIsSound(t: CommTrans, pre: Option<InvokeResponse>, addrFile: Option<seq<string>>, c: Chain, l: Ledger,
                       nonce: string)
    requires Valid(l) && Honest(c, l) && Even(PreInputs(pre), PreOutputs(pre))
    requires RawFile(t, pre, addrFile, c, nonce).Success?
    ensures Sound(RawFile(t, pre, addrFile, c, nonce).value)
  {
    RawTxIsSound(t, pre, c, l, nonce);
  }

  // ---------- send ----------

  /** What `send` adds to the transaction in the file: two lists of signatures, or one
      signature combined from all the parties. */
  datatype Signatures =
    | Lists(initiator: seq<SignatureInfo>, auth: seq<SignatureInfo>)
    | Combined(xuper: XuperSignature)

  function Signed(tx: Tx, signs: Signatures): Tx {
    match signs
    case Lists(initiator, auth) => tx.(initiatorSigns := initiator, authRequireSigns := auth)
    case Combined(xuper) => tx.(xuperSign := Some(xuper))
  }

  /** The signatures in a list of files, unless one of them cannot be used. */
  function AllSigns(files: seq<Option<SignatureInfo>>): Result<seq<SignatureInfo>, Error> {
    if forall k :: 0 <= k < |files| ==> files[k].Some? then
      Success(seq(|files|, k requires 0 <= k < |files| && files[k].Some? => files[k].value))
    else
      Failure(ErrFile)
  }

  method GetSigns(files: seq<Option<SignatureInfo>>) returns (r: Result<seq<SignatureInfo>, Error>)
    ensures r == AllSigns(files)
    ensures r.Success? <==> None !in files
    ensures r.Success? ==> |r.value| == |files| && forall k :: 0 <= k < |files| ==> files[k] == Some(r.value[k])
  {
    var signs: seq<SignatureInfo> := [];
    for k := 0 to |files|
      invariant |signs| == k
      invariant forall j :: 0 <= j < k ==> files[j] == Some(signs[j])
    {
      if files[k].None? {
        return Failure(ErrFile);
      }
      signs := signs + [files[k].value];
    }
    assert signs == AllSigns(files).value;
    return Success(signs);
  }

  method Send(node: Node, file: Option<Tx>, initFiles: seq<Option<SignatureInfo>>,
              authFiles: seq<Option<SignatureInfo>>, lost: bool)
    returns (r: Result<TxId, Error>)
    modifies node
    ensures if file.Some? && AllSigns(initFiles).Success? && AllSigns(authFiles).Success? then
              var sent := Signed(file.value, Lists(AllSigns(initFiles).value, AllSigns(authFiles).value));
              && node.ledger == Submitted(old(node.ledger), sent)
              && (r.Success? <==> Accepts(old(node.ledger), sent) && !lost)
              && (r.Success? ==> r.value == TxId(sent))
            else
              r.Failure? && node.ledger == old(node.ledger)
  {
    if file.None? {
      return Failure(ErrFile);
    }
    var tx := file.value;
    var signs := GetSigns(initFiles);
    if signs.Failure? {
      return Failure(signs.error);
    }
    tx := tx.(initiatorSigns := signs.value);
    var signAuths := GetSigns(authFiles);
    if signAuths.Failure? {
      return Failure(signAuths.error);
    }
    tx := tx.(authRequireSigns := signAuths.value);
    var ok := node.PostTx(tx, lost);
    return if ok then Success(TxId(tx)) else Failure(ErrPost);
  }

  /** Sending adds signatures and nothing else, so what was signed stays signed. */
  lemma SignedAddsSignatures(tx: Tx, signs: Signatures, k: KeyPair)
    ensures var sent := Signed(tx, signs);
            && sent.inputs == tx.inputs && sent.outputs == tx.outputs && SignTx(k, sent) == SignTx(k, tx)
            && match signs
               case Lists(initiator, auth) => sent.initiatorSigns == initiator && sent.authRequireSigns == auth
               case Combined(xuper) => sent.xuperSign == Some(xuper)
  {
  }

  /** What each party signs is the file, and that is still what the sent transaction is signed
      for: if the i-th signature is made by the i-th party named in the address file, the sent
      transaction is aligned, whatever the initiator's list holds. */
  lemma SentAligns(tx: Tx, signers: seq<AK>, initiator: seq<SignatureInfo>)
    requires |tx.authRequire| == |signers|
    requires forall i :: 0 <= i < |signers| ==> signers[i].keys.Some? && Names(tx.authRequire[i], signers[i].address)
    ensures var auth := seq(|signers|, i requires 0 <= i < |signers| && signers[i].keys.Some? =>
                                         SignTx(signers[i].keys.value, tx));
            var sent := Signed(tx, Lists(initiator, auth));
            Aligned(sent, signers) && sent.initiatorSigns == initiator && DigestOf(sent) == DigestOf(tx)
  {
    var auth := seq(|signers|, i requires 0 <= i < |signers| && signers[i].keys.Some? =>
                                 SignTx(signers[i].keys.value, tx));
    var sent := Signed(tx, Lists(initiator, auth));
    assert DigestOf(sent) == DigestOf(tx);
    forall i | 0 <= i < |signers|
      ensures AuthorizedAt(sent, i, signers[i])
    {
      assert sent.authRequireSigns[i] == SignTx(signers[i].keys.value, tx);
    }
  }

  // ---------- get ----------

  /** The need is the service fee alone, and nothing is locked. */
  function ServiceFeeRequest(t: CommTrans): UtxoInput {
    UtxoInput(t.chainName, Initiator(t), String(t.compliance.serviceFee), false, "", None)
  }

  /** The fee transaction that pays the endorser for signing a file. */
  function FeeForSign(t: CommTrans, c: Chain, nonce: string): Result<Tx, Error> {
    match SelectUTXO(c, ServiceFeeRequest(t))
    case Refused => Failure(ErrRefused)
    case Selected(out) => FeeTx(t, Some(out), nonce)
  }

  /** `get`: the endorser signs the transaction in the file once it has posted the fee. */
  method GetComplianceCheckSign(node: Node, t: CommTrans, file: Option<Tx>, c: Chain, faults: Faults, nonce: string)
    returns (r: Result<SignatureInfo, Error>)
    modifies node
    ensures match FeeForSign(t, c, nonce)
            case Failure(_) => r.Failure? && node.ledger == old(node.ledger)
            case Success(f) =>
              && (if file.None? || faults.unreachable then node.ledger == old(node.ledger)
                  else node.ledger == Submitted(old(node.ledger), f))
              && (r.Success? <==>
                    && file.Some? && Accepts(old(node.ledger), f)
                    && !faults.unreachable && !faults.feeLost && faults.endorserKeys.Some? && !faults.replyLost)
              && (r.Success? ==>
                    && r.value == SignTx(faults.endorserKeys.value, file.value)
                    && TxId(f) in node.ledger.accepted)
  {
    if file.None? {
      return Failure(ErrFile);
    }
    var utxoOutput := SelectUTXO(c, ServiceFeeRequest(t));
    if utxoOutput.Refused? {
      return Failure(ErrRefused);
    }
    var feeTx := GenComplianceCheckTx(t, Some(utxoOutput.out), nonce);
    if feeTx.Failure? {
      return Failure(feeTx.error);
    }
    r := ComplianceCheck(node, file.value, feeTx.value, faults);
  }

  /** Against an honest node this fee transaction states its inputs truthfully, and it balances
      exactly when the service fee has an address, or is zero. */
  lemma FeeForSignBalances(t: CommTrans, c: Chain, l: Ledger, nonce: string)
    requires Valid(l) && Honest(c, l)
    requires FeeForSign(t, c, nonce).Success?
    ensures AllTruthful(FeeForSign(t, c, nonce).value.inputs)
    ensures Balanced(FeeForSign(t, c, nonce).value) <==> FeePayable(t)
  {
    SelectCovers(c, l, ServiceFeeRequest(t), t.compliance.serviceFee);
    var out := SelectUTXO(c, ServiceFeeRequest(t)).out;
    FeeTxIsTruthful(t, out, l, nonce);
    FeeTxBalances(t, out, nonce);
  }

  /** This command is how the built-in configuration loses money: that configuration needs no
      endorser for a transfer, but it has a service fee of 400 and no address to pay it to. */
  lemma BuiltInConfigLosesFee(t: CommTrans, c: Chain, l: Ledger, nonce: string)
    requires Valid(l) && Honest(c, l) && t.compliance == BUILT_IN
    requires SelectUTXO(c, ServiceFeeRequest(t)).Selected?
    ensures FeeForSign(t, c, nonce).Success?
    ensures var f := FeeForSign(t, c, nonce).value; SumInputs(f.inputs) == SumOutputs(f.outputs) + 400
  {
    SelectCovers(c, l, ServiceFeeRequest(t), 400);
    UnpaidFeeIsLost(t, SelectUTXO(c, ServiceFeeRequest(t)).out, nonce);
  }
}
