/** The raw transaction builder of cmd/client/cmd/comm_trans.go. */
module CommonTransactions {

  import opened Wrappers
  import opened Amounts
  import opened Pb
  import opened Ledgers
  import opened NodeRpc

  datatype Error =
    | ErrInvalidAmount
    | ErrNegativeAmount
    | ErrFeeNotEnough
    | ErrNeedFee
    | ErrInvalidFee
    | ErrSelectUtxo
    | ErrKeys
    | ErrNoUtxo
    | ErrSplitNum
    | ErrSplitBalance
    | ErrRefused
    | ErrEmptyAccount
    | ErrNoAccountPath
    | ErrParseAccount
    | ErrPost
    | ErrEndorser
    | ErrFile
    | ErrContract
    | NilDereference

  /** config.go: whether transfers need an endorser, the fee for it, who gets it, and who signs. */
  datatype ComplianceConfig = ComplianceConfig(needed: bool, serviceFee: int, feeAddr: string, serviceAddr: string)

  /** The configuration without a configuration file. */
  const BUILT_IN: ComplianceConfig := ComplianceConfig(false, 400, "", "jknGxa6eyum1JrATWvSJKW3thJ9GKHA9n")

  /** The request of one command. `address` and `keys` are the contents of the key directory. */
  datatype CommTrans = CommTrans(
    chainName: string,
    to: string,
    amount: string,
    fee: string,
    frozenHeight: int,
    from: string,
    contractName: string,
    address: string,
    keys: KeyPair,
    compliance: ComplianceConfig)

  datatype Account = Account(address: string, amount: string, frozenHeight: int)

  const FEE_PLACEHOLDER: string := "$"

  function FeeAccount(fee: string): Account { Account(FEE_PLACEHOLDER, fee, 0) }

  /** genInitiator. */
  function Initiator(t: CommTrans): string {
    if t.from != "" then t.from else t.address
  }

  // ---------- outputs from accounts ----------

  /** The outputs for a list of accounts and the sum of their amounts. */
  datatype Built = Built(outputs: seq<TxOutput>, need: int)

  function OutputFor(a: Account, amount: int): TxOutput {
    TxOutput(a.address, Bytes(amount), a.frozenHeight)
  }

  /** One output per account, in order; with `trim`, none for a zero amount.
      The first unusable amount decides the error. */
  function BuildOutputs(accounts: seq<Account>, trim: bool): Result<Built, Error> {
    if accounts == [] then Success(Built([], 0))
    else
      var last := accounts[|accounts| - 1];
      match BuildOutputs(accounts[..|accounts| - 1], trim)
      case Failure(e) => Failure(e)
      case Success(b) =>
        match SetString(last.amount)
        case None => Failure(ErrInvalidAmount)
        case Some(n) =>
          if n < 0 then Failure(ErrNegativeAmount)
          else if n == 0 && trim then Success(b)
          else Success(Built(b.outputs + [OutputFor(last, n)], b.need + n))
  }

  function Positive(outs: seq<TxOutput>): seq<TxOutput> {
    if outs == [] then []
    else
      var last := outs[|outs| - 1];
      Positive(outs[..|outs| - 1]) + if SetBytes(last.amount) > 0 then [last] else []
  }

  lemma {:induction false} BuildOutputsAddsUp(accounts: seq<Account>, trim: bool)
    ensures BuildOutputs(accounts, trim).Success? ==>
              var b := BuildOutputs(accounts, trim).value;
              && SumOutputs(b.outputs) == b.need
              && (trim ==> forall o :: o in b.outputs ==> SetBytes(o.amount) > 0)
  {
    hide SetString, SetBytes, Bytes;
    if accounts != [] {
      var front, last := accounts[..|accounts| - 1], accounts[|accounts| - 1];
      BuildOutputsAddsUp(front, trim);
      if BuildOutputs(accounts, trim).Success? {
        var b := BuildOutputs(front, trim).value;
        var n := SetString(last.amount).value;
        BytesRoundTrip(n);
        SumOutputsAppend(b.outputs, [OutputFor(last, n)]);
        SumOutputsOne(OutputFor(last, n));
      }
    }
  }

  /** Without trimming: the accounts are accepted exactly when every amount is a decimal number
      that is not negative, and output i pays account i its amount. */
  lemma {:induction false} BuildOutputsExact(accounts: seq<Account>)
    ensures BuildOutputs(accounts, false).Success?
            <==> forall i :: 0 <= i < |accounts| ==>
                   SetString(accounts[i].amount).Some? && SetString(accounts[i].amount).value >= 0
    ensures BuildOutputs(accounts, false).Success? ==>
              var outs := BuildOutputs(accounts, false).value.outputs;
              && |outs| == |accounts|
              && forall i :: 0 <= i < |accounts| ==>
                   && outs[i].toAddr == accounts[i].address
                   && SetBytes(outs[i].amount) == SetString(accounts[i].amount).value
                   && outs[i].frozenHeight == accounts[i].frozenHeight
  {
    hide SetString, SetBytes, Bytes;
    if accounts != [] {
      var front, last := accounts[..|accounts| - 1], accounts[|accounts| - 1];
      BuildOutputsExact(front);
      if SetString(last.amount).Some? {
        BytesRoundTrip(SetString(last.amount).value);
      }
      assert forall i :: 0 <= i < |front| ==> front[i] == accounts[i];
    }
  }

  /** The first account whose amount cannot be paid decides which error it is. */
  lemma {:induction false} BuildErrorIsFirst(accounts: seq<Account>, trim: bool)
    ensures BuildOutputs(accounts, trim).Failure? ==>
              exists k :: && 0 <= k < |accounts|
                          && (forall i :: 0 <= i < k ==>
                                SetString(accounts[i].amount).Some? && SetString(accounts[i].amount).value >= 0)
                          && match SetString(accounts[k].amount)
                             case None => BuildOutputs(accounts, trim) == Failure(ErrInvalidAmount)
                             case Some(n) => n < 0 && BuildOutputs(accounts, trim) == Failure(ErrNegativeAmount)
  {
    hide SetString, Bytes;
    if BuildOutputs(accounts, trim).Failure? {
      var front, k := accounts[..|accounts| - 1], |accounts| - 1;
      BuildErrorIsFirst(front, trim);
      assert forall i :: 0 <= i < |front| ==> front[i] == accounts[i];
      if BuildOutputs(front, trim).Success? {
        TrimmingFilters(front);
        BuildOutputsExact(front);
        assert 0 <= k < |accounts|;
      }
    }
  }

  lemma PositiveLast(outs: seq<TxOutput>, o: TxOutput)
    ensures Positive(outs + [o]) == if SetBytes(o.amount) > 0 then Positive(outs) + [o] else Positive(outs)
  {
    assert (outs + [o])[..|outs|] == outs;
    assert Positive(outs) + [] == Positive(outs);
  }

  /** Trimming changes neither which accounts are accepted nor what they need:
      it only leaves out the outputs of value zero. */
  lemma {:induction false} TrimmingFilters(accounts: seq<Account>)
    ensures BuildOutputs(accounts, true) ==
              match BuildOutputs(accounts, false)
              case Failure(e) => Failure(e)
              case Success(b) => Success(Built(Positive(b.outputs), b.need))
  {
    hide SetString, SetBytes, Bytes;
    if accounts != [] {
      var front, last := accounts[..|accounts| - 1], accounts[|accounts| - 1];
      TrimmingFilters(front);
      if BuildOutputs(accounts, false).Success? {
        hide Positive;
        var b := BuildOutputs(front, false).value;
        var n := SetString(last.amount).value;
        BytesRoundTrip(n);
        PositiveLast(b.outputs, OutputFor(last, n));
      }
    }
  }

  // ---------- GenTxOutputs ----------

  predicate FeeGiven(fee: string) { fee != "" && fee != "0" }

  function Recipient(t: CommTrans): seq<Account> {
    if t.to != "" then [Account(t.to, t.amount, t.frozenHeight)] else []
  }

  /** The accounts to pay: the recipient if there is one, and the fee placeholder.
      With gas to pay, the fee is compared as a 64-bit integer, the parse error ignored. */
  function AccountsOf(t: CommTrans, gasUsed: int): Result<seq<Account>, Error> {
    if gasUsed > 0 then
      if !FeeGiven(t.fee) then Failure(ErrNeedFee)
      else if ParseInt64(t.fee).value < gasUsed then Failure(ErrFeeNotEnough)
      else Success(Recipient(t) + [FeeAccount(t.fee)])
    else if FeeGiven(t.fee) then Success(Recipient(t) + [FeeAccount(t.fee)])
    else Success(Recipient(t))
  }

  function TransferOutputs(t: CommTrans, gasUsed: int): Result<Built, Error> {
    match AccountsOf(t, gasUsed)
    case Failure(e) => Failure(e)
    case Success(accounts) => BuildOutputs(accounts, true)
  }

  method GenTxOutputs(t: CommTrans, gasUsed: int)
    returns (err: Option<Error>, txOutputs: seq<TxOutput>, totalNeed: BigInt)
    ensures fresh(totalNeed)
    ensures match TransferOutputs(t, gasUsed)
            case Failure(e) => err == Some(e)
            case Success(b) => err == None && txOutputs == b.outputs && totalNeed.v == b.need
  {
    totalNeed := new BigInt(0);
    txOutputs := [];
    var accounts: seq<Account> := [];
    if t.to != "" {
      accounts := accounts + [Account(t.to, t.amount, t.frozenHeight)];
    }
    assert accounts == Recipient(t);
    if gasUsed > 0 {
      if t.fee != "" && t.fee != "0" {
        var fee := ParseInt64(t.fee).value;
        if fee < gasUsed {
          err := Some(ErrFeeNotEnough);
          return;
        }
      } else {
        err := Some(ErrNeedFee);
        return;
      }
      accounts := accounts + [FeeAccount(t.fee)];
    } else if t.fee != "" && t.fee != "0" {
      accounts := accounts + [FeeAccount(t.fee)];
    }
    err, txOutputs, totalNeed := OutputLoop(accounts, true);
  }

  /** The loop that turns accounts into outputs and adds up what they need. */
  method OutputLoop(accounts: seq<Account>, trim: bool)
    returns (err: Option<Error>, txOutputs: seq<TxOutput>, totalNeed: BigInt)
    ensures fresh(totalNeed)
    ensures match BuildOutputs(accounts, trim)
            case Failure(e) => err == Some(e)
            case Success(b) => err == None && txOutputs == b.outputs && totalNeed.v == b.need
  {
    hide SetString, Bytes;
    totalNeed := new BigInt(0);
    txOutputs := [];
    err := None;
    var i := 0;
    while i < |accounts|
      invariant 0 <= i <= |accounts|
      invariant fresh(totalNeed)
      invariant err == None
      invariant BuildOutputs(accounts[..i], trim) == Success(Built(txOutputs, totalNeed.v))
    {
      assert accounts[..i + 1][..i] == accounts[..i];
      var parsed := SetString(accounts[i].amount);
      if parsed.None? {
        PrefixFails(accounts, i + 1, trim);
        err := Some(ErrInvalidAmount);
        return;
      }
      var amount := new BigInt(parsed.value);
      if amount.v < 0 {
        PrefixFails(accounts, i + 1, trim);
        err := Some(ErrNegativeAmount);
        return;
      }
      if amount.v != 0 || !trim {
        totalNeed.Add(totalNeed, amount);
        txOutputs := txOutputs + [TxOutput(accounts[i].address, Bytes(amount.v), accounts[i].frozenHeight)];
      }
      i := i + 1;
    }
    assert accounts[..|accounts|] == accounts;
  }

  /** A failure on the first k accounts is the failure on all of them. */
  lemma {:induction false} PrefixFails(accounts: seq<Account>, k: nat, trim: bool)
    requires k <= |accounts| && BuildOutputs(accounts[..k], trim).Failure?
    ensures BuildOutputs(accounts, trim) == BuildOutputs(accounts[..k], trim)
    decreases |accounts| - k
  {
    if k == |accounts| {
      assert accounts[..k] == accounts;
    } else {
      assert accounts[..k + 1][..k] == accounts[..k];
      PrefixFails(accounts, k + 1, trim);
    }
  }

  /** If the outputs are built with gas to pay, a fee output is there and its exact
      amount covers the gas, even when the fee does not fit in 64 bits and
      ParseInt returned a saturated value together with an error nobody looks at.
      The builder succeeds exactly when both amounts are readable and not negative
      and the fee is at least the gas. */
  lemma FeeCoversGas(t: CommTrans, gasUsed: int)
    requires 0 < gasUsed <= MAX_INT64
    ensures TransferOutputs(t, gasUsed).Success? <==>
              && SetString(t.fee).Some? && SetString(t.fee).value >= gasUsed
              && (t.to != "" ==> SetString(t.amount).Some? && SetString(t.amount).value >= 0)
    ensures TransferOutputs(t, gasUsed).Success? ==>
              var outs := TransferOutputs(t, gasUsed).value.outputs;
              && outs != []
              && outs[|outs| - 1].toAddr == FEE_PLACEHOLDER
              && SetBytes(outs[|outs| - 1].amount) == SetString(t.fee).value >= gasUsed
  {
    BuildRecipientAndFee(t);
    assert SetString("0").value == 0 by {
      assert "0"[1..] == "";
    }
    if SetString(t.fee).Some? {
      ParseIntClamps(t.fee);
      BytesRoundTrip(SetString(t.fee).value);
    }
  }

  lemma BuildRecipientAndFee(t: CommTrans)
    ensures BuildOutputs(Recipient(t), true).Success? <==>
              (t.to != "" ==> SetString(t.amount).Some? && SetString(t.amount).value >= 0)
    ensures BuildOutputs(Recipient(t) + [FeeAccount(t.fee)], true).Success? <==>
              && BuildOutputs(Recipient(t), true).Success?
              && SetString(t.fee).Some? && SetString(t.fee).value >= 0
    ensures BuildOutputs(Recipient(t) + [FeeAccount(t.fee)], true).Success? && SetString(t.fee).value > 0 ==>
              BuildOutputs(Recipient(t) + [FeeAccount(t.fee)], true).value.outputs
              == BuildOutputs(Recipient(t), true).value.outputs + [OutputFor(FeeAccount(t.fee), SetString(t.fee).value)]
  {
    var accounts := Recipient(t) + [FeeAccount(t.fee)];
    assert accounts[..|accounts| - 1] == Recipient(t);
    if t.to != "" {
      assert Recipient(t)[..0] == [];
    }
  }

  // ---------- GenTxInputs ----------

  /** What is left of the selected total goes back to the payer. */
  function Change(address: string, total: int, need: int): Option<TxOutput> {
    if total > need then Some(TxOutput(address, Bytes(total - need), 0)) else None
  }

  function Optional(o: Option<TxOutput>): seq<TxOutput> {
    match o
    case None => []
    case Some(x) => [x]
  }

  datatype Spending = Spending(inputs: seq<TxInput>, change: Option<TxOutput>)

  /** Inputs for everything in a reply, and the change over `need`. */
  function SpendReply(reply: SelectReply, address: string, need: int): Result<Spending, Error> {
    match reply
    case Refused => Failure(ErrSelectUtxo)
    case Selected(out) =>
      match SetString(out.totalSelected)
      case None => Failure(ErrSelectUtxo)
      case Some(total) => Success(Spending(InputsOf(out.utxoList), Change(address, total, need)))
  }

  function InputRequest(t: CommTrans, need: int): UtxoInput {
    UtxoInput(t.chainName, Initiator(t), String(need), false, "", None)
  }

  function TransferInputs(t: CommTrans, need: int, c: Chain): Result<Spending, Error> {
    SpendReply(SelectUTXO(c, InputRequest(t, need)), Initiator(t), need)
  }

  /** totalNeed belongs to the caller and is only read. */
  method GenTxInputs(t: CommTrans, totalNeed: BigInt, c: Chain)
    returns (err: Option<Error>, txInputs: seq<TxInput>, txOutput: Option<TxOutput>)
    ensures match TransferInputs(t, totalNeed.v, c)
            case Failure(e) => err == Some(e)
            case Success(s) => err == None && txInputs == s.inputs && txOutput == s.change
  {
    err, txInputs, txOutput := None, [], None;
    var fromAddr := t.address;
    if t.from != "" {
      fromAddr := t.from;
    }
    var utxoInput := UtxoInput(t.chainName, fromAddr, String(totalNeed.v), false, "", None);
    var reply := SelectUTXO(c, utxoInput);
    if reply.Refused? {
      err := Some(ErrSelectUtxo);
      return;
    }
    txInputs := InputsFromUtxos(reply.out.utxoList);
    var parsed := SetString(reply.out.totalSelected);
    if parsed.None? {
      err := Some(ErrSelectUtxo);
      return;
    }
    var utxoTotal := new BigInt(parsed.value);
    if utxoTotal.v > totalNeed.v {
      utxoTotal.Sub(utxoTotal, totalNeed);
      txOutput := Some(TxOutput(fromAddr, Bytes(utxoTotal.v), 0));
    }
  }

  /** The loop that every builder runs over the utxos of a reply. */
  method InputsFromUtxos(list: seq<Utxo>) returns (txInputs: seq<TxInput>)
    ensures txInputs == InputsOf(list)
  {
    txInputs := [];
    for i := 0 to |list|
      invariant txInputs == InputsOf(list)[..i]
    {
      var utxo := list[i];
      txInputs := txInputs + [TxInput(utxo.refTxid, utxo.refOffset, utxo.toAddr, utxo.amount)];
    }
  }

  // ---------- GenRawTx ----------

  function PreInputs(pre: Option<InvokeResponse>): seq<TxInput> {
    if pre.Some? then pre.value.utxoInputs else []
  }

  function PreOutputs(pre: Option<InvokeResponse>): seq<TxOutput> {
    if pre.Some? then pre.value.utxoOutputs else []
  }

  function GasOf(pre: Option<InvokeResponse>): int {
    if pre.Some? then pre.value.gasUsed else 0
  }

  function RawTx(t: CommTrans, pre: Option<InvokeResponse>, c: Chain, nonce: string): Result<Tx, Error> {
    match TransferOutputs(t, GasOf(pre))
    case Failure(e) => Failure(e)
    case Success(b) =>
      match TransferInputs(t, b.need, c)
      case Failure(e) => Failure(e)
      case Success(s) =>
        Success(Tx(PreInputs(pre) + s.inputs, PreOutputs(pre) + (b.outputs + Optional(s.change)),
                   Initiator(t), [], [], [], nonce))
  }

  /** The raw transaction of a command, after its contracts were pre-executed. */
  function GeneratedTx(t: CommTrans, pre: Option<InvokeResponse>, c: Chain, nonce: string): Result<Tx, Error> {
    if pre.Some? && pre.value.failed then Failure(ErrContract) else RawTx(t, pre, c, nonce)
  }

  /** GenerateTx, with the result of PreExec given. */
  method GenerateTx(t: CommTrans, pre: Option<InvokeResponse>, c: Chain, nonce: string)
    returns (r: Result<Tx, Error>)
    ensures r == GeneratedTx(t, pre, c, nonce)
  {
    if pre.Some? && pre.value.failed {
      return Failure(ErrContract);
    }
    r := GenRawTx(t, pre, c, nonce);
  }

  method GenRawTx(t: CommTrans, pre: Option<InvokeResponse>, c: Chain, nonce: string)
    returns (r: Result<Tx, Error>)
    ensures r == RawTx(t, pre, c, nonce)
  {
    var tx := Tx([], [], "", [], [], [], nonce);
    var gasUsed := 0;
    if pre.Some? {
      gasUsed := pre.value.gasUsed;
      tx := tx.(inputs := tx.inputs + pre.value.utxoInputs);
      tx := tx.(outputs := tx.outputs + pre.value.utxoOutputs);
    }
    assert tx == Tx(PreInputs(pre), PreOutputs(pre), "", [], [], [], nonce);
    assert gasUsed == GasOf(pre);
    var err, txOutputs, totalNeed := GenTxOutputs(t, gasUsed);
    if err.Some? {
      return Failure(err.value);
    }
    tx := tx.(outputs := tx.outputs + txOutputs);
    var err', txInputs, deltaTxOutput := GenTxInputs(t, totalNeed, c);
    if err'.Some? {
      return Failure(err'.value);
    }
    tx := tx.(inputs := tx.inputs + txInputs);
    if deltaTxOutput.Some? {
      tx := tx.(outputs := tx.outputs + [deltaTxOutput.value]);
    }
    assert tx.outputs == PreOutputs(pre) + (txOutputs + Optional(deltaTxOutput));
    tx := tx.(initiator := Initiator(t));
    return Success(tx);
  }

  /** Spending a selection and paying `need`: the books balance exactly when the
      selection covers the need, and there is change exactly when it exceeds it. */
  lemma SpendBalances(out: UtxoOutput, address: string, need: nat, paid: seq<TxOutput>)
    requires SumOutputs(paid) == need
    requires SetString(out.totalSelected) == Some(SumUtxos(out.utxoList))
    ensures SpendReply(Selected(out), address, need).Success?
    ensures var s := SpendReply(Selected(out), address, need).value;
            && (SumInputs(s.inputs) == SumOutputs(paid + Optional(s.change)) <==> SumUtxos(out.utxoList) >= need)
            && (s.change.Some? <==> SumUtxos(out.utxoList) > need)
            && (s.change.Some? ==> SetBytes(s.change.value.amount) == SumUtxos(out.utxoList) - need
                                   && s.change.value.toAddr == address)
  {
    var s := SpendReply(Selected(out), address, need).value;
    SumInputsOf(out.utxoList);
    SumOutputsAppend(paid, Optional(s.change));
    if s.change.Some? {
      BytesRoundTrip(SumUtxos(out.utxoList) - need);
      SumOutputsOne(s.change.value);
    }
  }

  /** What GenTxInputs brings from an honest node pays exactly for `paid`. */
  lemma InputsAreSound(t: CommTrans, need: nat, paid: seq<TxOutput>, c: Chain, l: Ledger)
    requires Valid(l) && Honest(c, l)
    requires SumOutputs(paid) == need
    requires TransferInputs(t, need, c).Success?
    ensures var s := TransferInputs(t, need, c).value;
            && Even(s.inputs, paid + Optional(s.change))
            && need <= SumInputs(s.inputs)
            && (s.change.Some? <==> SumInputs(s.inputs) > need)
            && (s.change.Some? ==> SetBytes(s.change.value.amount) == SumInputs(s.inputs) - need
                                   && s.change.value.toAddr == Initiator(t))
  {
    var q := InputRequest(t, need);
    SelectCovers(c, l, q, need);
    var out := SelectUTXO(c, q).out;
    SpendBalances(out, Initiator(t), need, paid);
    SelectionIsTruthful(l, Initiator(t), out);
    SumInputsOf(out.utxoList);
  }

  /** Against an honest node, and with a contract part that is even itself, a raw transaction balances
      and every input of it is truthful. */
  lemma RawTxIsSound(t: CommTrans, pre: Option<InvokeResponse>, c: Chain, l: Ledger, nonce: string)
    requires Valid(l) && Honest(c, l) && Even(PreInputs(pre), PreOutputs(pre))
    requires RawTx(t, pre, c, nonce).Success?
    ensures Sound(RawTx(t, pre, c, nonce).value)
  {
    var tx := RawTx(t, pre, c, nonce).value;
    var b := TransferOutputs(t, GasOf(pre)).value;
    BuildOutputsAddsUp(AccountsOf(t, GasOf(pre)).value, true);
    InputsAreSound(t, b.need, b.outputs, c, l);
    var s := TransferInputs(t, b.need, c).value;
    EvenAppend(PreInputs(pre), PreOutputs(pre), s.inputs, b.outputs + Optional(s.change));
  }

  /** Its total need is what it pays to others, and after those outputs comes change
      back to the payer exactly when more was selected than needed. */
  lemma RawTxChange(t: CommTrans, pre: Option<InvokeResponse>, c: Chain, l: Ledger, nonce: string)
    requires Valid(l) && Honest(c, l)
    requires RawTx(t, pre, c, nonce).Success?
    ensures var tx := RawTx(t, pre, c, nonce).value;
            var b := TransferOutputs(t, GasOf(pre)).value;
            var selected := SumInputs(tx.inputs) - SumInputs(PreInputs(pre));
            && SumOutputs(b.outputs) == b.need <= selected
            && (selected == b.need ==> tx.outputs == PreOutputs(pre) + b.outputs)
            && (selected > b.need ==>
                  exists change: TxOutput ::
                    && tx.outputs == PreOutputs(pre) + (b.outputs + [change])
                    && change.toAddr == Initiator(t)
                    && SetBytes(change.amount) == selected - b.need)
  {
    var tx := RawTx(t, pre, c, nonce).value;
    var b := TransferOutputs(t, GasOf(pre)).value;
    BuildOutputsAddsUp(AccountsOf(t, GasOf(pre)).value, true);
    InputsAreSound(t, b.need, b.outputs, c, l);
    var s := TransferInputs(t, b.need, c).value;
    SumInputsAppend(PreInputs(pre), s.inputs);
    if s.change.Some? {
      assert tx.outputs == PreOutputs(pre) + (b.outputs + [s.change.value]);
    } else {
      assert b.outputs + [] == b.outputs;
    }
  }
}
