/** Who pays whom: for every transaction the client builds, when it is built, whose outputs it
    spends, and its outputs one by one. */
module Payments {

  import opened Wrappers
  import opened Amounts
  import opened Pb
  import opened Ledgers
  import opened NodeRpc
  import opened CommonTransactions
  import opened Auth
  import opened CliTransfer
  import opened UtxoSplit
  import opened UtxoMerge
  import opened Compliance
  import opened ComplianceArithmetic
  import opened MultisigTransactions

  datatype Payment = Payment(to: string, amount: int, frozenHeight: int)

  /** The outputs are these payments, in this order. */
  ghost predicate Pays(outs: seq<TxOutput>, payments: seq<Payment>) {
    && |outs| == |payments|
    && forall i :: 0 <= i < |outs| ==>
         && outs[i].toAddr == payments[i].to
         && SetBytes(outs[i].amount) == payments[i].amount
         && outs[i].frozenHeight == payments[i].frozenHeight
  }

  function PaidIf(paid: bool, to: string, amount: int, frozenHeight: int): seq<Payment> {
    if paid then [Payment(to, amount, frozenHeight)] else []
  }

  /** The inputs name distinct unspent outputs of one owner, with their amounts. */
  ghost predicate SpendsOnly(l: Ledger, inputs: seq<TxInput>, owner: string) {
    && Distinct(Refs(inputs))
    && forall i :: i in inputs ==>
         && i.fromAddr == owner
         && RefOf(i) in l.utxos && l.utxos[RefOf(i)].toAddr == owner && l.utxos[RefOf(i)].amount == i.amount
  }

  /** The decimal value of an amount, zero if there is none or it cannot be read. */
  function Value(amount: string): int {
    if SetString(amount).Some? then SetString(amount).value else 0
  }

  /** A decimal number that is not negative. */
  predicate Payable(amount: string) {
    SetString(amount).Some? && SetString(amount).value >= 0
  }

  lemma FeeValues()
    ensures SetString("") == None && SetString("0") == Some(0)
  {
    assert SetString("0") == Some(0);
  }

  lemma PaysAppend(a: seq<TxOutput>, p: seq<Payment>, b: seq<TxOutput>, q: seq<Payment>)
    requires Pays(a, p) && Pays(b, q)
    ensures Pays(a + b, p + q)
  {
  }

  lemma SelectionIsOwned(l: Ledger, owner: string, out: UtxoOutput)
    requires Selection(l, owner, out)
    ensures SpendsOnly(l, InputsOf(out.utxoList), owner)
    ensures SetString(out.totalSelected) == Some(SumInputs(InputsOf(out.utxoList)))
  {
    SumInputsOf(out.utxoList);
    forall i | i in InputsOf(out.utxoList)
      ensures && i.fromAddr == owner
              && RefOf(i) in l.utxos && l.utxos[RefOf(i)].toAddr == owner && l.utxos[RefOf(i)].amount == i.amount
    {
      var k :| 0 <= k < |out.utxoList| && InputsOf(out.utxoList)[k] == i;
      assert out.utxoList[k] in out.utxoList;
    }
  }

  // ---------- outputs from accounts ----------

  lemma BuildMore(front: seq<Account>, x: Account, trim: bool)
    ensures BuildOutputs(front + [x], trim).Success? <==> BuildOutputs(front, trim).Success? && Payable(x.amount)
    ensures BuildOutputs(front + [x], trim).Success? ==>
              var b, n := BuildOutputs(front, trim).value, Value(x.amount);
              var more := if n == 0 && trim then [] else [TxOutput(x.address, Bytes(n), x.frozenHeight)];
              BuildOutputs(front + [x], trim).value == Built(b.outputs + more, b.need + n)
  {
    hide SetString, Bytes;
    assert (front + [x])[..|front + [x]| - 1] == front;
    if BuildOutputs(front, trim).Success? {
      var b := BuildOutputs(front, trim).value;
      assert b.outputs + [] == b.outputs;
    }
  }

  /** At most a recipient and a fee: built exactly when both can be paid, and they are paid in this order. */
  lemma TwoPaid(accounts: seq<Account>, hasTo: bool, a: Account, hasFee: bool, b: Account, trim: bool)
    requires accounts == (if hasTo then [a] else []) + (if hasFee then [b] else [])
    ensures BuildOutputs(accounts, trim).Success? <==>
              (hasTo ==> Payable(a.amount)) && (hasFee ==> Payable(b.amount))
    ensures BuildOutputs(accounts, trim).Success? ==>
              && BuildOutputs(accounts, trim).value.need
                 == (if hasTo then Value(a.amount) else 0) + (if hasFee then Value(b.amount) else 0)
              && Pays(BuildOutputs(accounts, trim).value.outputs,
                      PaidIf(hasTo && (trim ==> Value(a.amount) != 0), a.address, Value(a.amount), a.frozenHeight)
                      + PaidIf(hasFee && (trim ==> Value(b.amount) != 0), b.address, Value(b.amount), b.frozenHeight))
  {
    hide SetString, Bytes, SetBytes;
    var first := if hasTo then [a] else [];
    assert BuildOutputs([], trim) == Success(Built([], 0));
    if hasTo {
      assert first == [] + [a];
      BuildMore([], a, trim);
      BytesRoundTrip(Value(a.amount));
    }
    if hasFee {
      BuildMore(first, b, trim);
      BytesRoundTrip(Value(b.amount));
    } else {
      assert accounts == first;
    }
  }

  lemma ChangePaid(who: string, total: int, need: int)
    ensures Pays(Optional(Change(who, total, need)), PaidIf(total > need, who, total - need, 0))
  {
    if total > need {
      BytesRoundTrip(total - need);
    }
  }

  // ---------- the raw transaction ----------

  function Payer(t: CommTrans): string {
    if t.from != "" then t.from else t.address
  }

  function RawNeed(t: CommTrans): int {
    (if t.to != "" then Value(t.amount) else 0) + Value(t.fee)
  }

  /** The raw outputs: built exactly when the amounts can be paid and the fee covers the gas. */
  lemma RawOutputsPaid(t: CommTrans, gasUsed: int)
    requires gasUsed <= MAX_INT64
    ensures TransferOutputs(t, gasUsed).Success? <==>
              && (t.to != "" ==> Payable(t.amount)) && (t.fee != "" ==> Payable(t.fee))
              && (gasUsed > 0 ==> Value(t.fee) >= gasUsed)
    ensures TransferOutputs(t, gasUsed).Success? ==>
              var b := TransferOutputs(t, gasUsed).value;
              && b.need == RawNeed(t)
              && Pays(b.outputs, PaidIf(t.to != "" && Value(t.amount) != 0, t.to, Value(t.amount), t.frozenHeight)
                                 + PaidIf(Value(t.fee) != 0, "$", Value(t.fee), 0))
  {
    hide SetString, ParseInt64;
    FeeValues();
    var given := t.fee != "" && t.fee != "0";
    var a, b := Account(t.to, t.amount, t.frozenHeight), Account("$", t.fee, 0);
    var accounts := (if t.to != "" then [a] else []) + (if given then [b] else []);
    TwoPaid(accounts, t.to != "", a, given, b, true);
    if SetString(t.fee).Some? {
      ParseIntClamps(t.fee);
    }
    if gasUsed > 0 && given && SetString(t.fee).None? {
      assert BuildOutputs(accounts, true).Failure?;
    }
    if AccountsOf(t, gasUsed).Success? {
      assert AccountsOf(t, gasUsed).value == accounts;
    }
  }

  /** With gas to pay, no fee and too small a fee are told apart, by both builders. */
  lemma GasErrors(t: CommTrans, gasUsed: int)
    requires 0 < gasUsed <= MAX_INT64
    ensures TransferOutputs(t, gasUsed) == Failure(ErrNeedFee) <==> t.fee == "" || t.fee == "0"
    ensures GasError(t, gasUsed) == Some(ErrNeedFee) <==> t.fee == "" || t.fee == "0"
    ensures SetString(t.fee).Some? && t.fee != "0" ==>
              && (TransferOutputs(t, gasUsed) == Failure(ErrFeeNotEnough) <==> Value(t.fee) < gasUsed)
              && (GasError(t, gasUsed) == Some(ErrFeeNotEnough) <==> Value(t.fee) < gasUsed)
  {
    hide SetString, ParseInt64;
    FeeValues();
    if AccountsOf(t, gasUsed).Success? {
      BuildErrorIsFirst(AccountsOf(t, gasUsed).value, true);
    }
    if SetString(t.fee).Some? {
      ParseIntClamps(t.fee);
    }
  }

  /** A raw transaction, against an honest node. It is built exactly when recipient and fee can be paid, the fee
      covers the gas and the node selects for the payer. After the contract's part it spends the
      payer's outputs and nobody else's, all that were selected, and pays recipient, fee and
      change; nobody has been asked to sign it yet. */
  lemma RawTxPays(t: CommTrans, pre: Option<InvokeResponse>, c: Chain, l: Ledger, nonce: string)
    requires Honest(c, l) && (pre.Some? ==> pre.value.gasUsed <= MAX_INT64)
    ensures RawTx(t, pre, c, nonce).Success? <==>
              && (t.to != "" ==> Payable(t.amount)) && (t.fee != "" ==> Payable(t.fee))
              && (pre.Some? && pre.value.gasUsed > 0 ==> Value(t.fee) >= pre.value.gasUsed)
              && t.chainName == c.bcName != "" && c.selectUtxo(Payer(t), RawNeed(t), false).Selected?
    ensures RawTx(t, pre, c, nonce).Success? ==>
              var tx := RawTx(t, pre, c, nonce).value;
              var own := InputsOf(c.selectUtxo(Payer(t), RawNeed(t), false).out.utxoList);
              var outs := if pre.Some? then pre.value.utxoOutputs else [];
              && tx.inputs == (if pre.Some? then pre.value.utxoInputs else []) + own
              && SpendsOnly(l, own, Payer(t))
              && outs <= tx.outputs
              && Pays(tx.outputs[|outs|..],
                      PaidIf(t.to != "" && Value(t.amount) != 0, t.to, Value(t.amount), t.frozenHeight)
                      + PaidIf(Value(t.fee) != 0, "$", Value(t.fee), 0)
                      + PaidIf(SumInputs(own) > RawNeed(t), Payer(t), SumInputs(own) - RawNeed(t), 0))
              && tx.initiator == Payer(t)
              && tx.authRequire == [] && tx.initiatorSigns == [] && tx.authRequireSigns == [] && tx.nonce == nonce
  {
    hide SetString, String, Bytes, SetBytes, Honest, SpendsOnly, Pays, TransferOutputs, SelectUTXO;
    var gas := if pre.Some? then pre.value.gasUsed else 0;
    RawOutputsPaid(t, gas);
    var need := RawNeed(t);
    PlainSelection(t.chainName, Payer(t), need, c, l);
    if RawTx(t, pre, c, nonce).Success? {
      var b := TransferOutputs(t, gas).value;
      var out := c.selectUtxo(Payer(t), need, false).out;
      var total := SumInputs(InputsOf(out.utxoList));
      ChangePaid(Payer(t), total, need);
      PaysAppend(b.outputs, PaidIf(t.to != "" && Value(t.amount) != 0, t.to, Value(t.amount), t.frozenHeight)
                            + PaidIf(Value(t.fee) != 0, "$", Value(t.fee), 0),
                 Optional(Change(Payer(t), total, need)), PaidIf(total > need, Payer(t), total - need, 0));
      var outs := if pre.Some? then pre.value.utxoOutputs else [];
      assert (outs + (b.outputs + Optional(Change(Payer(t), total, need))))[|outs|..]
             == b.outputs + Optional(Change(Payer(t), total, need));
    }
  }

  /** A request that locks nothing is granted by the chain it names, for what it asks for. */
  lemma PlainSelection(chainName: string, who: string, need: int, c: Chain, l: Ledger)
    requires Honest(c, l)
    ensures var q := UtxoInput(chainName, who, String(need), false, "", None);
            SelectUTXO(c, q) == if chainName == c.bcName != "" then c.selectUtxo(who, need, false) else Refused
    ensures c.selectUtxo(who, need, false).Selected? ==>
              var out := c.selectUtxo(who, need, false).out;
              && SpendsOnly(l, InputsOf(out.utxoList), who)
              && SetString(out.totalSelected) == Some(SumInputs(InputsOf(out.utxoList)))
              && SumInputs(InputsOf(out.utxoList)) >= need
  {
    hide SelectUTXO, SpendsOnly;
    StringRoundTrip(need);
    SelectGranted(c, UtxoInput(chainName, who, String(need), false, "", None));
    if c.selectUtxo(who, need, false).Selected? {
      SelectionIsOwned(l, who, c.selectUtxo(who, need, false).out);
      SumInputsOf(c.selectUtxo(who, need, false).out.utxoList);
    }
  }

  // ---------- the transfer ----------

  function TransferPayer(opt: TransferOptions, ak: AKInfo): string {
    if opt.from != "" then opt.from else ak.address
  }

  function TransferNeed(opt: TransferOptions): int {
    Value(opt.amount) + Value(opt.fee)
  }

  /** A transfer by the initiator's own keys, against an honest node. It is built exactly when amount and fee can be
      paid, the payer is an account or the initiator, the node selects and pre-executes, and
      the account directory can be read. It spends the payer's outputs only, pays the
      recipient even a zero amount, the fee and the change, and is signed for. */
  lemma TransferPays(c: Chain, crypto: Crypto, opt: TransferOptions, ak: AKInfo, l: Ledger, nonce: string)
    returns (index: seq<nat>)
    requires Honest(c, l) && OwnKeys(c, crypto, ak) && opt.blockchainName == c.bcName != ""
    ensures TransferTx(c, crypto, opt, ak, nonce).Success? <==>
              && Payable(opt.amount) && (opt.fee != "" ==> Payable(opt.fee))
              && (c.isAccount(TransferPayer(opt, ak)) || TransferPayer(opt, ak) == ak.address)
              && c.selectUtxo(TransferPayer(opt, ak), TransferNeed(opt), true).Selected?
              && c.preExecutes && CanAuthorize(opt.accountPath)
    ensures TransferTx(c, crypto, opt, ak, nonce).Success? ==>
              var tx := TransferTx(c, crypto, opt, ak, nonce).value;
              var payer, need := TransferPayer(opt, ak), TransferNeed(opt);
              && tx.inputs == InputsOf(c.selectUtxo(payer, need, true).out.utxoList)
              && SpendsOnly(l, tx.inputs, payer)
              && Pays(tx.outputs, [Payment(opt.to, Value(opt.amount), opt.frozenHeight)]
                                  + PaidIf(opt.fee != "" && opt.fee != "0", "$", Value(opt.fee), 0)
                                  + PaidIf(SumInputs(tx.inputs) > need, payer, SumInputs(tx.inputs) - need, 0))
              && tx.initiator == ak.address && SignedFor(tx, payer, ak.keys, opt.accountPath, index)
  {
    hide SetString, String, Bytes, SetBytes, Honest, SpendsOnly, Pays, SelectUTXO, BuildOutputs, Authorize,
         CanAuthorize, OwnKeys, InputsOf, AuthorizedByAll;
    FeeValues();
    index := [];
    var payer, need := TransferPayer(opt, ak), TransferNeed(opt);
    var opt' := if opt.from == "" then opt.(from := ak.address) else opt;
    var given := opt.fee != "" && opt.fee != "0";
    var a, b := Account(opt.to, opt.amount, opt.frozenHeight), Account("$", opt.fee, 0);
    TwoPaid(TransferAccounts(opt'), true, a, given, b, false);
    if BuildOutputs(TransferAccounts(opt'), false).Success? {
      var built := BuildOutputs(TransferAccounts(opt'), false).value;
      assert built.need == need;
      LockRequestAgreement(c, crypto, opt', need, ak);
      LockCanBeSigned(c, crypto, ak, opt.blockchainName, need);
      if c.selectUtxo(payer, need, true).Selected? {
        var out := c.selectUtxo(payer, need, true).out;
        LockedSelection(payer, need, c, l);
        var total := SumInputs(InputsOf(out.utxoList));
        var change := Change(payer, total, need);
        var draft := Tx(InputsOf(out.utxoList), built.outputs + Optional(change), ak.address, [], [], [], nonce);
        index := AuthorizeExact(draft, payer, ak.keys, opt.accountPath, c);
        ChangePaid(payer, total, need);
        var paid := PaidIf(true, opt.to, Value(opt.amount), opt.frozenHeight) + PaidIf(given, "$", Value(opt.fee), 0);
        PaysAppend(built.outputs, paid, Optional(change), PaidIf(total > need, payer, total - need, 0));
      }
    }
  }

  /** The initiator signs for itself; the payer alone is asked for and the initiator signs, or every AK of
      the payer's directory is asked for and signs. */
  ghost predicate SignedFor(tx: Tx, payer: string, keys: KeyPair, path: AccountPath, index: seq<nat>) {
    && tx.initiatorSigns == [SignTx(keys, tx)]
    && (path.None? ==> tx.authRequire == [payer] && tx.authRequireSigns == [SignTx(keys, tx)])
    && (path.Some? ==> path.value.Some? && AuthorizedByAll(tx, payer, path.value.value, index))
  }

  lemma LockCanBeSigned(c: Chain, crypto: Crypto, ak: AKInfo, bcName: string, need: int)
    requires OwnKeys(c, crypto, ak)
    ensures SignUtxo(crypto, ak, bcName, need).Some?
  {
  }

  lemma LockedSelection(who: string, need: int, c: Chain, l: Ledger)
    requires Honest(c, l) && c.selectUtxo(who, need, true).Selected?
    ensures var out := c.selectUtxo(who, need, true).out;
            && SpendsOnly(l, InputsOf(out.utxoList), who)
            && SetString(out.totalSelected) == Some(SumInputs(InputsOf(out.utxoList)))
  {
    SelectionIsOwned(l, who, c.selectUtxo(who, need, true).out);
  }

  // ---------- split and merge ----------

  function Owner(account: string, root: Root): string {
    if account != "" then account else root.address
  }

  /** Which accounts a split takes: any name with a type, an account with its path, an address if it is one's own. */
  predicate CanSplit(who: string, path: AccountPath, root: Root, parse: string -> Option<AddressType>) {
    && parse(who).Some?
    && (parse(who).value == AddressAccount ==> path.Some?)
    && (parse(who).value == AddressAK ==> who == root.address)
  }

  /** And why the others are refused. */
  lemma SplitRefusals(account: string, path: AccountPath, root: Root, parse: string -> Option<AddressType>)
    ensures var who := Owner(account, root);
            match SetUpError(account, path, root.address, parse)
            case None => CanSplit(who, path, root, parse)
            case Some(e) =>
              || (e == ErrEmptyAccount && parse(who) == None)
              || (e == ErrNoAccountPath && parse(who) == Some(AddressAccount) && path.None?)
              || (e == ErrParseAccount && parse(who) == Some(AddressAK) && who != root.address)
  {
  }

  function SharesPaid(who: string, num: int, total: int): seq<Payment>
    requires num > 0
  {
    seq(num, i requires 0 <= i < num => Payment(who, if i < num - 1 then total / num else total / num + total % num, 0))
  }

  lemma SharesArePaid(who: string, num: int, total: int)
    requires 0 < num <= total
    ensures Pays(SplitOutputs(who, num, total), SharesPaid(who, num, total))
  {
    SplitIsExact(who, num, total);
  }

  /** A split against an honest node, before anyone is asked to sign. It is built exactly when the number is positive,
      the account can be split, its balance can be read and is at least the number, and the node
      selects for it. It spends outputs of the account only, and pays everything to it. */
  lemma SplitDraftPays(root: Root, account: string, num: int, path: AccountPath, parse: string -> Option<AddressType>,
                       balanceOf: string -> Option<string>, c: Chain, l: Ledger, nonce: string)
    requires Honest(c, l)
    ensures var who := Owner(account, root);
            SplitDraft(root, account, num, path, parse, balanceOf, c, nonce).Success? <==>
              && num > 0 && root.addressRead && CanSplit(who, path, root, parse)
              && balanceOf(who).Some? && SetString(balanceOf(who).value).Some?
              && num <= Value(balanceOf(who).value)
              && root.chainName == c.bcName != "" && c.selectUtxo(who, Value(balanceOf(who).value), false).Selected?
    ensures SplitDraft(root, account, num, path, parse, balanceOf, c, nonce).Success? ==>
              var tx := SplitDraft(root, account, num, path, parse, balanceOf, c, nonce).value;
              var who := Owner(account, root);
              var total := Value(balanceOf(who).value);
              && tx.inputs == InputsOf(c.selectUtxo(who, total, false).out.utxoList)
              && SpendsOnly(l, tx.inputs, who)
              && Pays(tx.outputs, SharesPaid(who, num, total)
                                  + PaidIf(SumInputs(tx.inputs) > total, who, SumInputs(tx.inputs) - total, 0))
              && tx.initiator == root.address && tx.initiatorSigns == [] && tx.authRequireSigns == []
  {
    hide SetString, String, Bytes, SetBytes, Honest, SpendsOnly, Pays, SelectUTXO, InputsOf, SplitOutputs, SharesPaid;
    var who := Owner(account, root);
    assert who == SplitAccount(account, root.address);
    if balanceOf(who).Some? && SetString(balanceOf(who).value).Some? {
      var total := Value(balanceOf(who).value);
      assert InputRequest(SplitTrans(root, who, balanceOf(who).value), total)
             == UtxoInput(root.chainName, who, String(total), false, "", None);
      PlainSelection(root.chainName, who, total, c, l);
      if SplitDraft(root, account, num, path, parse, balanceOf, c, nonce).Success? {
        var selected := SumInputs(InputsOf(c.selectUtxo(who, total, false).out.utxoList));
        ChangePaid(who, selected, total);
        SharesArePaid(who, num, total);
        PaysAppend(SplitOutputs(who, num, total), SharesPaid(who, num, total),
                   Optional(Change(who, selected, total)), PaidIf(selected > total, who, selected - total, 0));
      }
    }
  }

  /** The posted split moves what the draft moves and is signed for. */
  lemma SplitTxSigned(root: Root, account: string, num: int, path: AccountPath, parse: string -> Option<AddressType>,
                      balanceOf: string -> Option<string>, c: Chain, nonce: string)
    returns (index: seq<nat>)
    ensures SplitTx(root, account, num, path, parse, balanceOf, c, nonce).Success? <==>
              && SplitDraft(root, account, num, path, parse, balanceOf, c, nonce).Success?
              && c.preExecutes && CanAuthorize(path)
    ensures SplitTx(root, account, num, path, parse, balanceOf, c, nonce).Success? ==>
              var draft := SplitDraft(root, account, num, path, parse, balanceOf, c, nonce).value;
              var tx := SplitTx(root, account, num, path, parse, balanceOf, c, nonce).value;
              && tx.inputs == draft.inputs && tx.outputs == draft.outputs && tx.initiator == draft.initiator
              && SignedFor(tx, Owner(account, root), root.keys, path, index)
  {
    hide SplitDraft, Authorize, CanAuthorize, AuthorizedByAll;
    index := [];
    if SplitDraft(root, account, num, path, parse, balanceOf, c, nonce).Success? {
      var draft := SplitDraft(root, account, num, path, parse, balanceOf, c, nonce).value;
      index := AuthorizeExact(draft, Owner(account, root), root.keys, path, c);
    }
  }

  /** The split in a file moves what the draft moves, asks for every address in the address file, and
      has no signature yet. */
  lemma SplitFileAsks(root: Root, account: string, num: int, path: AccountPath, parse: string -> Option<AddressType>,
                      balanceOf: string -> Option<string>, addrFile: Option<seq<string>>, c: Chain, l: Ledger,
                      nonce: string)
    returns (index: seq<nat>)
    requires Honest(c, l)
    ensures SplitFile(root, account, num, path, parse, balanceOf, addrFile, c, nonce).Success? <==>
              && SplitDraft(root, account, num, path, parse, balanceOf, c, nonce).Success?
              && c.preExecutes && addrFile.Some?
    ensures SplitFile(root, account, num, path, parse, balanceOf, addrFile, c, nonce).Success? ==>
              var draft := SplitDraft(root, account, num, path, parse, balanceOf, c, nonce).value;
              var tx := SplitFile(root, account, num, path, parse, balanceOf, addrFile, c, nonce).value;
              && tx.inputs == draft.inputs && tx.outputs == draft.outputs && tx.initiator == draft.initiator
              && tx.initiatorSigns == [] && tx.authRequireSigns == []
              && AsksFor(tx, addrFile.value, index)
  {
    index := [];
    SplitDraftPays(root, account, num, path, parse, balanceOf, c, l, nonce);
    hide SplitDraft, Pays, SpendsOnly, Honest, SharesPaid;
    if addrFile.Some? {
      index := AddressLinesExact(addrFile.value);
    }
  }

  /** Exactly the lines that are not empty are asked for, in order. */
  ghost predicate AsksFor(tx: Tx, lines: seq<string>, index: seq<nat>) {
    && Picks(index, |lines|, GivenAt(lines)) && |tx.authRequire| == |index|
    && forall k :: 0 <= k < |index| ==> index[k] < |lines| && tx.authRequire[k] == lines[index[k]]
  }

  /** A raw transaction in a file likewise. */
  lemma RawFileAsks(t: CommTrans, pre: Option<InvokeResponse>, addrFile: Option<seq<string>>, c: Chain, nonce: string)
    returns (index: seq<nat>)
    ensures RawFile(t, pre, addrFile, c, nonce).Success? <==>
              && RawTx(t, pre, c, nonce).Success? && (pre.Some? ==> !pre.value.failed) && addrFile.Some?
    ensures RawFile(t, pre, addrFile, c, nonce).Success? ==>
              var tx := RawFile(t, pre, addrFile, c, nonce).value;
              && tx == RawTx(t, pre, c, nonce).value.(authRequire := tx.authRequire)
              && AsksFor(tx, addrFile.value, index)
  {
    hide RawTx;
    index := [];
    if addrFile.Some? {
      index := AddressLinesExact(addrFile.value);
    }
  }

  /** A merge by the initiator's own keys, against an honest node. It is built exactly when an account has its path, the
      owner is an account or the initiator, the node selects something and pre-executes, and the
      directory can be read. It spends all of it and pays the owner in one output. */
  lemma MergePays(crypto: Crypto, root: Root, account: string, path: AccountPath, c: Chain, l: Ledger, nonce: string)
    returns (index: seq<nat>)
    requires Honest(c, l) && OwnKeys(c, crypto, AKInfo(root.address, root.keys)) && root.chainName == c.bcName != ""
    ensures var who := Owner(account, root);
            MergeTx(crypto, root, account, path, c, nonce).Success? <==>
              && (c.isAccount(account) ==> path.Some?) && (account == "" ==> root.addressRead)
              && (c.isAccount(who) || who == root.address)
              && c.selectBySize(who, true).Selected? && c.selectBySize(who, true).out.utxoList != []
              && c.preExecutes && CanAuthorize(path)
    ensures MergeTx(crypto, root, account, path, c, nonce).Success? ==>
              var tx := MergeTx(crypto, root, account, path, c, nonce).value;
              var who := Owner(account, root);
              && tx.inputs == InputsOf(c.selectBySize(who, true).out.utxoList)
              && SpendsOnly(l, tx.inputs, who)
              && Pays(tx.outputs, [Payment(who, SumInputs(tx.inputs), 0)])
              && tx.initiator == (if root.addressRead then root.address else "")
              && SignedFor(tx, who, root.keys, path, index)
  {
    hide SetString, String, Bytes, SetBytes, Honest, SpendsOnly, SelectUTXOBySize, Authorize, CanAuthorize,
         AuthorizedByAll;
    index := [];
    var who := Owner(account, root);
    if account == "" && !root.addressRead {
      return;
    }
    assert who == SplitAccount(account, MergeInitiator(root));
    var t := SplitTrans(root, who, "");
    assert Initiator(t) == who;
    MergeLockAgreement(c, crypto, t);
    MergeCanBeSigned(c, crypto, t);
    if c.selectBySize(who, true).Selected? {
      var out := c.selectBySize(who, true).out;
      SizeSelection(who, c, l);
      var total := SumInputs(InputsOf(out.utxoList));
      BytesRoundTrip(total);
      var merged := TxOutput(who, Bytes(total), 0);
      var draft := Tx(InputsOf(out.utxoList), [merged], MergeInitiator(root), [], [], [], nonce);
      index := AuthorizeExact(draft, who, root.keys, path, c);
    }
  }

  lemma MergeCanBeSigned(c: Chain, crypto: Crypto, t: CommTrans)
    requires OwnKeys(c, crypto, AKInfo(t.address, t.keys))
    ensures MergeRequest(crypto, t).userSign.Some?
  {
  }

  lemma SizeSelection(who: string, c: Chain, l: Ledger)
    requires Honest(c, l) && c.selectBySize(who, true).Selected?
    ensures var out := c.selectBySize(who, true).out;
            && SpendsOnly(l, InputsOf(out.utxoList), who)
            && SetString(out.totalSelected) == Some(SumInputs(InputsOf(out.utxoList)))
  {
    SelectionIsOwned(l, who, c.selectBySize(who, true).out);
  }

  // ---------- the compliance pair ----------

  function OwnName(t: CommTrans): string {
    if t.from != "" then t.from + "/" + t.address else t.address
  }

  /** F spends the payer's outputs that were selected, pays the service fee to its address if it has one, and
      returns the rest; the payer is asked for and signs it. */
  lemma FeeTxPays(t: CommTrans, out: UtxoOutput, l: Ledger, nonce: string)
    requires Selection(l, Payer(t), out)
    ensures FeeTx(t, Some(out), nonce).Success? <==> t.compliance.feeAddr == "" || t.compliance.serviceFee >= 0
    ensures FeeTx(t, Some(out), nonce).Success? ==>
              var f := FeeTx(t, Some(out), nonce).value;
              var service := t.compliance.serviceFee;
              && f.inputs == InputsOf(out.utxoList) && SpendsOnly(l, f.inputs, Payer(t))
              && Pays(f.outputs, PaidIf(t.compliance.feeAddr != "" && service > 0, t.compliance.feeAddr, service, 0)
                                 + PaidIf(SumInputs(f.inputs) > service, Payer(t), SumInputs(f.inputs) - service, 0))
              && f.initiator == Payer(t) && f.authRequire == [OwnName(t)]
              && f.initiatorSigns == f.authRequireSigns == [SignTx(t.keys, f)]
  {
    hide SetString, String, Bytes, SetBytes, SpendsOnly, Pays, BuildOutputs, SumUtxos;
    SelectionIsOwned(l, Payer(t), out);
    SumInputsOf(out.utxoList);
    FeeTxShape(t, out, nonce);
    if FeeTx(t, Some(out), nonce).Success? {
      var total := SumUtxos(out.utxoList);
      ServicePaid(t);
      ChangePaid(Payer(t), total, t.compliance.serviceFee);
      PaysAppend(ServiceOutput(t),
                 PaidIf(t.compliance.feeAddr != "" && t.compliance.serviceFee > 0,
                        t.compliance.feeAddr, t.compliance.serviceFee, 0),
                 Optional(Change(Payer(t), total, t.compliance.serviceFee)),
                 PaidIf(total > t.compliance.serviceFee, Payer(t), total - t.compliance.serviceFee, 0));
    }
  }

  lemma ServicePaid(t: CommTrans)
    ensures Pays(ServiceOutput(t),
                 PaidIf(t.compliance.feeAddr != "" && t.compliance.serviceFee > 0,
                        t.compliance.feeAddr, t.compliance.serviceFee, 0))
  {
    BytesRoundTrip(t.compliance.serviceFee);
  }

  /** The F of `multisig get`: the payer's outputs are selected for the service fee alone. */
  lemma FeeForSignPays(t: CommTrans, c: Chain, l: Ledger, nonce: string)
    requires Honest(c, l)
    ensures FeeForSign(t, c, nonce).Success? <==>
              && t.chainName == c.bcName != "" && c.selectUtxo(Payer(t), t.compliance.serviceFee, false).Selected?
              && (t.compliance.feeAddr == "" || t.compliance.serviceFee >= 0)
    ensures FeeForSign(t, c, nonce).Success? ==>
              var out := c.selectUtxo(Payer(t), t.compliance.serviceFee, false).out;
              Selection(l, Payer(t), out) && FeeForSign(t, c, nonce) == FeeTx(t, Some(out), nonce)
  {
    hide SetString, String, SelectUTXO, FeeTx, Selection;
    PlainSelection(t.chainName, Payer(t), t.compliance.serviceFee, c, l);
    if c.selectUtxo(Payer(t), t.compliance.serviceFee, false).Selected? {
      FeeTxPays(t, c.selectUtxo(Payer(t), t.compliance.serviceFee, false).out, l, nonce);
    }
  }

  /** T takes exactly the payer's outputs of F, with the contract's inputs after them. It pays what is left of F to
      the payer, the fee to the placeholder, the amount to the contract, and then what the
      contract pays, each without its sign. The payer and the endorser are asked for, and the payer
      signs for itself. */
  lemma RealTxPays(t: CommTrans, response: InvokeResponse, f: Tx, l: Ledger, nonce: string)
    requires |f.outputs| <= 0x8000_0000
    ensures RealTx(t, response, f, nonce).Success? <==>
              Payable(t.fee) && (t.amount != "" ==> SetString(t.amount).Some?)
    ensures RealTx(t, response, f, nonce).Success? ==>
              var tx := RealTx(t, response, f, nonce).value;
              var k, m := |tx.inputs| - |response.utxoInputs|, |tx.outputs| - |response.utxoOutputs|;
              && 0 <= k && 0 <= m
              && tx.inputs[k..] == response.utxoInputs && tx.outputs[m..] == response.utxoOutputs
              && SpendsOnly(Post(l, f), tx.inputs[..k], Payer(t))
              && (forall i :: 0 <= i < |f.outputs| && f.outputs[i].toAddr == Payer(t) ==>
                    Ref(TxId(f), i) in Refs(tx.inputs[..k]))
              && (forall i :: i in tx.inputs[..k] ==> i.refTxid == TxId(f))
              && Pays(tx.outputs[..m],
                      [Payment(Payer(t), Abs(SumInputs(tx.inputs[..k]) - Value(t.fee) - Value(t.amount)), 0)]
                      + PaidIf(t.fee != "0", "$", Value(t.fee), 0)
                      + PaidIf(t.amount != "", t.contractName, Abs(Value(t.amount)), 0))
              && tx.initiator == Payer(t) && tx.authRequire == [OwnName(t), t.compliance.serviceAddr]
              && tx.initiatorSigns == tx.authRequireSigns == [SignTx(t.keys, tx)]
  {
    hide SetString, String, Bytes, SetBytes, SumUtxos, OwnUtxos, SumInputs, Pays, SpendsOnly, Post;
    FeeValues();
    RealTxShape(t, response, f, nonce);
    if RealTx(t, response, f, nonce).Success? {
      var tx := RealTx(t, response, f, nonce).value;
      var own := InputsOf(OwnUtxos(TxId(f), f.outputs, Payer(t)));
      assert tx.inputs[..|own|] == own;
      OwnInputsSpent(f, l, Payer(t));
      SumInputsOf(OwnUtxos(TxId(f), f.outputs, Payer(t)));
      RealOutputsPaid(t, SumInputs(own) - Value(t.fee) - Value(t.amount));
      var self := TxOutput(Payer(t), Bytes(SumInputs(own) - Value(t.fee) - Value(t.amount)), 0);
      assert tx.outputs[..|tx.outputs| - |response.utxoOutputs|] == [self] + FeeOutput(t.fee) + AmountOutput(t);
    }
  }

  lemma RealOutputsPaid(t: CommTrans, self: int)
    requires Payable(t.fee) && (t.amount != "" ==> SetString(t.amount).Some?)
    ensures Pays([TxOutput(Payer(t), Bytes(self), 0)] + FeeOutput(t.fee) + AmountOutput(t),
                 [Payment(Payer(t), Abs(self), 0)]
                 + PaidIf(t.fee != "0", "$", Value(t.fee), 0)
                 + PaidIf(t.amount != "", t.contractName, Abs(Value(t.amount)), 0))
  {
    hide SetString, Bytes, SetBytes;
    FeeValues();
    BytesRoundTrip(self);
    BytesRoundTrip(Value(t.fee));
    BytesRoundTrip(Value(t.amount));
  }

  lemma OwnInputsSpent(f: Tx, l: Ledger, who: string)
    requires |f.outputs| <= 0x8000_0000
    ensures var own := InputsOf(OwnUtxos(TxId(f), f.outputs, who));
            && SpendsOnly(Post(l, f), own, who)
            && (forall i :: i in own ==> i.refTxid == TxId(f))
            && forall i :: 0 <= i < |f.outputs| && f.outputs[i].toAddr == who ==> Ref(TxId(f), i) in Refs(own)
  {
    var own := InputsOf(OwnUtxos(TxId(f), f.outputs, who));
    OwnInputsTruthful(f, who);
    OwnUtxosExact(TxId(f), who, |f.outputs|);
    assert f.outputs[..|f.outputs|] == f.outputs;
    forall i | i in own
      ensures RefOf(i) in Post(l, f).utxos && Post(l, f).utxos[RefOf(i)] == f.outputs[i.refOffset]
    {
      assert Truthful(i) && i.refTxid == TxId(f);
      assert RefOf(i) in Created(f, |f.outputs|);
    }
    forall i | 0 <= i < |f.outputs| && f.outputs[i].toAddr == who
      ensures Ref(TxId(f), i) in Refs(own)
    {
      var u := Utxo(TxId(f), i, who, f.outputs[i].amount);
      var k :| 0 <= k < |own| && OwnUtxos(TxId(f), f.outputs, who)[k] == u;
      assert Refs(own)[k] == Ref(TxId(f), i);
    }
  }

  // ---------- the pre-execution of a flow ----------

  /** The exact int64 that is asked for. */
  lemma RequestExact(t: CommTrans)
    requires MIN_INT64 <= t.compliance.serviceFee <= MAX_INT64
    ensures RequestedAmount(t).Success? <==>
              && (t.fee != "" ==> SetString(t.fee).Some? && MIN_INT64 <= Value(t.fee) <= MAX_INT64)
              && (t.amount != "" ==> SetString(t.amount).Some? && MIN_INT64 <= Value(t.amount) <= MAX_INT64)
    ensures RequestedAmount(t).Success? ==>
              RequestedAmount(t).value == Wrap64(t.compliance.serviceFee + Value(t.fee) + Value(t.amount))
  {
    hide SetString, ParseInt64, Wrap64;
    FeeValues();
    ParseIntOkMeansExact(t.fee);
    ParseIntOkMeansExact(t.amount);
    WrapSmall(t.compliance.serviceFee);
    WrapSmall(t.compliance.serviceFee + Value(t.fee));
    WrapIsModular(t.compliance.serviceFee + Value(t.fee), Value(t.amount));
  }

  lemma WrapSmall(x: int)
    ensures MIN_INT64 <= x <= MAX_INT64 ==> Wrap64(x) == x
  {
  }

  /** A flow gets past the pre-execution exactly when the amounts are int64 decimals, the node serves the chain and
      selects if there is anything to select, no contract failed, and the fee covers the gas. */
  lemma PreExecutedExact(t: CommTrans, c: Chain, response: InvokeResponse)
    requires MIN_INT64 <= t.compliance.serviceFee <= MAX_INT64 && MIN_INT64 <= response.gasUsed <= MAX_INT64
    ensures var need := Wrap64(t.compliance.serviceFee + Value(t.fee) + Value(t.amount) + response.gasUsed);
            && (PreExecuted(t, c, response).Success? <==>
                  && (t.fee != "" ==> SetString(t.fee).Some? && MIN_INT64 <= Value(t.fee) <= MAX_INT64)
                  && (t.amount != "" ==> SetString(t.amount).Some? && MIN_INT64 <= Value(t.amount) <= MAX_INT64)
                  && t.chainName != ""
                  && (need >= 1 ==> t.chainName == c.bcName && c.selectUtxo(Payer(t), need, false).Selected?)
                  && !response.failed && (response.gasUsed > 0 ==> Value(t.fee) >= response.gasUsed))
            && (PreExecuted(t, c, response).Success? ==>
                  PreExecuted(t, c, response).value
                  == if need >= 1 then Some(c.selectUtxo(Payer(t), need, false).out) else None)
  {
    hide SetString, String, ParseInt64, Wrap64, SelectUTXO, RequestedAmount;
    FeeValues();
    RequestExact(t);
    ParseIntOkMeansExact(t.fee);
    var sum := t.compliance.serviceFee + Value(t.fee) + Value(t.amount);
    WrapIsModular(sum, response.gasUsed);
    var need := Wrap64(sum + response.gasUsed);
    StringRoundTrip(need);
    SelectGranted(c, UtxoInput(t.chainName, Payer(t), String(need), false, "", None));
  }
}
