/** The node's side of UTXO selection: the RPC handlers of service/rpc/api.go and
    the lock permission check of models/chain_handle.go. Selection itself is
    xupercore's and appears as the functions of a Chain. */
module NodeRpc {

  import opened Wrappers
  import opened Amounts
  import opened Pb
  import opened Ledgers

  /** One chain served by the node, with what xupercore provides for it to one command;
      `preExecutes` says whether a PreExec without contract requests goes through. */
  datatype Chain = Chain(
    bcName: string,
    isAccount: string -> bool,
    publicKeyId: string -> Option<int>,
    addressOf: int -> string,
    selectUtxo: (string, int, bool) -> SelectReply,
    selectBySize: (string, bool) -> SelectReply,
    preExecutes: bool)

  // ---------- models/utxo.go, models/chain_handle.go ----------

  /** LockedUtxo.Hash, with the hash taken as ideal. */
  function LockMessage(bcName: string, address: string, amount: int): string {
    bcName + address + String(amount) + "true"
  }

  /** ECDSA verification, with key pairs matched by id. */
  predicate VerifyLock(keyId: int, sign: LockSign, message: string) {
    sign.secretKey == keyId && sign.message == message
  }

  /** ChainHandle.checkSelectUtxoSign. */
  predicate CheckSelectUtxoSign(c: Chain, account: string, pubKey: string, sign: Option<LockSign>,
                                isLock: bool, need: int) {
    if c.isAccount(account) || !isLock then true
    else
      match (c.publicKeyId(pubKey), sign)
      case (Some(id), Some(sig)) =>
        VerifyLock(id, sig, LockMessage(c.bcName, account, need)) && c.addressOf(id) == account
      case _ => false
  }

  // ---------- service/rpc/api.go ----------

  function SelectUTXO(c: Chain, q: UtxoInput): SelectReply {
    if q.bcname == "" || q.totalNeed == "" then Refused
    else if SetString(q.totalNeed).None? then Refused
    else if q.bcname != c.bcName then Refused
    else
      var need := SetString(q.totalNeed).value;
      if !CheckSelectUtxoSign(c, q.address, q.publickey, q.userSign, q.needLock, need) then Refused
      else c.selectUtxo(q.address, need, q.needLock)
  }

  function SelectUTXOBySize(c: Chain, q: UtxoInput): SelectReply {
    if q.bcname == "" || q.bcname != c.bcName then Refused
    else if !CheckSelectUtxoSign(c, q.address, q.publickey, q.userSign, q.needLock, 0) then Refused
    else c.selectBySize(q.address, q.needLock)
  }

  /** The total that PreExecWithSelectUTXO asks for: int64 addition, then nothing below 1. */
  function ServerNeed(totalAmount: int, gasUsed: int): int {
    Wrap64(totalAmount + gasUsed)
  }

  datatype PreExecRequest = PreExecRequest(bcname: string, address: string, totalAmount: int)

  /** The reply holds no utxos at all when the total is below 1. */
  datatype PreExecReply = PreExecReply(response: InvokeResponse, utxoOutput: Option<UtxoOutput>) | PreExecRefused

  function PreExecWithSelectUTXO(c: Chain, req: PreExecRequest, response: InvokeResponse): PreExecReply {
    if req.bcname == "" then PreExecRefused
    else
      var need := ServerNeed(req.totalAmount, response.gasUsed);
      if need < 1 then PreExecReply(response, None)
      else
        match SelectUTXO(c, UtxoInput(req.bcname, req.address, String(need), false, "", None))
        case Selected(out) => PreExecReply(response, Some(out))
        case Refused => PreExecRefused
  }

  // ---------- what the unseen reader promises ----------

  /** xupercore's contract: a selection by need covers the need, a selection by size only adds up. */
  ghost predicate Honest(c: Chain, l: Ledger) {
    && (forall a, n, k :: c.selectUtxo(a, n, k).Selected? ==>
          Selection(l, a, c.selectUtxo(a, n, k).out) && SumUtxos(c.selectUtxo(a, n, k).out.utxoList) >= n)
    && (forall a, k :: c.selectBySize(a, k).Selected? ==> Selection(l, a, c.selectBySize(a, k).out))
  }

  // ---------- the lock check ----------

  /** Whoever locks outputs of an address, and not of an account, has signed for it with the key of
      that address: for this chain, this address and this need. */
  predicate SignedByOwnerOf(c: Chain, q: UtxoInput, need: int) {
    && q.userSign.Some?
    && c.publicKeyId(q.publickey) == Some(q.userSign.value.secretKey)
    && c.addressOf(q.userSign.value.secretKey) == q.address
    && q.userSign.value.message == c.bcName + q.address + String(need) + "true"
  }

  /** A request by need reaches the reader, unchanged, exactly when it names the chain, its need is a
      decimal number, and locking, if it asks for that, is either for an account or signed for by the
      owner. All other requests are refused. */
  lemma SelectGranted(c: Chain, q: UtxoInput)
    ensures var need := SetString(q.totalNeed);
            SelectUTXO(c, q)
            == if && q.bcname == c.bcName != "" && need.Some?
                  && (q.needLock && !c.isAccount(q.address) ==> SignedByOwnerOf(c, q, need.value))
               then c.selectUtxo(q.address, need.value, q.needLock)
               else Refused
  {
    hide String;
    assert SetString("").None?;
  }

  /** The same for a request by size, whose lock message is for the amount zero. */
  lemma SelectBySizeGranted(c: Chain, q: UtxoInput)
    ensures SelectUTXOBySize(c, q)
            == if && q.bcname == c.bcName != ""
                  && (q.needLock && !c.isAccount(q.address) ==> SignedByOwnerOf(c, q, 0))
               then c.selectBySize(q.address, q.needLock)
               else Refused
  {
    hide String;
  }

  /** A lock signature is good for one need only. */
  lemma LockSignedOnce(c: Chain, q: UtxoInput, q': UtxoInput)
    requires q.needLock && !c.isAccount(q.address) && q' == q.(totalNeed := q'.totalNeed)
    requires SelectUTXO(c, q).Selected? && SelectUTXO(c, q').Selected?
    ensures SetString(q.totalNeed) == SetString(q'.totalNeed)
  {
    SelectGranted(c, q);
    SelectGranted(c, q');
    var n, n' := SetString(q.totalNeed).value, SetString(q'.totalNeed).value;
    MiddlesAgree(c.bcName + q.address, String(n), String(n'), "true");
    StringRoundTrip(n);
    StringRoundTrip(n');
  }

  lemma MiddlesAgree(a: string, x: string, y: string, b: string)
    requires a + x + b == a + y + b
    ensures x == y
  {
    assert |a + x + b| == |a| + |x| + |b| && |a + y + b| == |a| + |y| + |b|;
    assert x == (a + x + b)[|a|..|a| + |x|];
    assert y == (a + y + b)[|a|..|a| + |y|];
  }

  /** Whatever is asked for, an honest node's reply lists what could be spent in its ledger. */
  lemma RepliesCanBeSpent(c: Chain, l: Ledger, q: UtxoInput)
    requires Honest(c, l)
    ensures SelectUTXO(c, q).Selected? ==> CanSpend(l, InputsOf(SelectUTXO(c, q).out.utxoList))
    ensures SelectUTXOBySize(c, q).Selected? ==> CanSpend(l, InputsOf(SelectUTXOBySize(c, q).out.utxoList))
  {
    if SelectUTXO(c, q).Selected? {
      SelectionCanBeSpent(l, q.address, SelectUTXO(c, q).out);
    }
    if SelectUTXOBySize(c, q).Selected? {
      SelectionCanBeSpent(l, q.address, SelectUTXOBySize(c, q).out);
    }
  }

  /** The decimal hop: a need printed by the client reaches the reader as the same number,
      so the reply covers it and its total parses to the sum of what it lists. */
  lemma SelectCovers(c: Chain, l: Ledger, q: UtxoInput, need: int)
    requires Honest(c, l) && q.totalNeed == String(need)
    ensures SelectUTXO(c, q).Selected? ==>
              && SelectUTXO(c, q) == c.selectUtxo(q.address, need, q.needLock)
              && Selection(l, q.address, SelectUTXO(c, q).out)
              && SumUtxos(SelectUTXO(c, q).out.utxoList) >= need
  {
    StringRoundTrip(need);
  }
}
