/** What one command can expect when nobody interferes: its transaction is accepted by the ledger
    it was built against, and the steps that a run takes for it are the client's methods. */
module Flows {

  import opened Wrappers
  import opened Amounts
  import opened Pb
  import opened Ledgers
  import opened NodeRpc
  import opened CommonTransactions
  import opened Auth
  import opened CliTransfer
  import opened UtxoSplit
  import opened UtxoMerge
  import opened Compliance
  import opened ComplianceArithmetic
  import opened Endorser
  import opened MultisigTransactions
  import opened Runs

  // ---------- acceptance ----------

  /** The inputs a command's transaction brings from the contract, before those it selected. */
  function ContractInputs(cmd: Command): seq<TxInput> {
    if cmd.RawCommand? then PreInputs(cmd.pre) else []
  }

  lemma AcceptedIff(l: Ledger, tx: Tx, contract: seq<TxInput>, own: seq<TxInput>)
    requires tx.inputs == contract + own && CanSpend(l, own)
    ensures Accepts(l, tx)
            <==> && TxId(tx) !in l.accepted && CanSpend(l, contract)
                 && forall r :: r in Refs(contract) ==> r !in Refs(own)
  {
    assert Refs(tx.inputs) == Refs(contract) + Refs(own);
    DistinctAppend(Refs(contract), Refs(own));
  }

  /** Everything that a command selects from an honest node is distinct and unspent there. */
  lemma BuiltInputs(cmd: Command, c: Chain, l: Ledger, nonce: string) returns (own: seq<TxInput>)
    requires Honest(c, l) && BuildTx(cmd, c, nonce).Success?
    ensures BuildTx(cmd, c, nonce).value.inputs == ContractInputs(cmd) + own && CanSpend(l, own)
  {
    hide Honest, CanSpend, SetString, Bytes, BuildOutputs, SplitDraft, MergeRequest, LockRequest, InputRequest,
         SignsFor;
    match cmd {
      case TransferCommand(crypto, opt, ak) =>
        var opt' := if opt.from == "" then opt.(from := ak.address) else opt;
        var b := BuildOutputs(TransferAccounts(opt'), false).value;
        RepliesCanBeSpent(c, l, LockRequest(crypto, opt', b.need, ak));
        own := AccountInputs(c, crypto, opt', b.need, ak).value.inputs;
      case RawCommand(t, pre) =>
        var b := TransferOutputs(t, GasOf(pre)).value;
        RepliesCanBeSpent(c, l, InputRequest(t, b.need));
        own := TransferInputs(t, b.need, c).value.inputs;
      case SplitCommand(root, account, num, path, parse, balanceOf) =>
        var draft := SplitDraft(root, account, num, path, parse, balanceOf, c, nonce).value;
        SplitInputs(root, account, num, path, parse, balanceOf, c, l, nonce);
        own := draft.inputs;
      case MergeCommand(crypto, root, account, path) =>
        var t := SplitTrans(root, SplitAccount(account, MergeInitiator(root)), "");
        RepliesCanBeSpent(c, l, MergeRequest(crypto, t));
        own := MergeInputs(crypto, t, root.addressRead, c).value.0;
      case GetSignCommand(t) =>
        RepliesCanBeSpent(c, l, ServiceFeeRequest(t));
        own := InputsOf(SelectUTXO(c, ServiceFeeRequest(t)).out.utxoList);
    }
  }

  lemma SplitInputs(root: Root, account: string, num: int, path: AccountPath, parse: string -> Option<AddressType>,
                    balanceOf: string -> Option<string>, c: Chain, l: Ledger, nonce: string)
    requires Honest(c, l)
    requires SplitDraft(root, account, num, path, parse, balanceOf, c, nonce).Success?
    ensures CanSpend(l, SplitDraft(root, account, num, path, parse, balanceOf, c, nonce).value.inputs)
  {
    var who := SplitAccount(account, root.address);
    var total := SetString(balanceOf(who).value).value;
    RepliesCanBeSpent(c, l, InputRequest(SplitTrans(root, who, balanceOf(who).value), total));
  }

  /** The client selects well: against the ledger it was built for, a transaction is accepted if and
      only if it is new and the contract's inputs, if it has any, are distinct, unspent and
      not selected once more. */
  lemma BuiltTxIsAccepted(cmd: Command, c: Chain, l: Ledger, nonce: string)
    requires Honest(c, l) && BuildTx(cmd, c, nonce).Success?
    ensures var tx := BuildTx(cmd, c, nonce).value;
            var contract := ContractInputs(cmd);
            && |contract| <= |tx.inputs| && contract == tx.inputs[..|contract|]
            && CanSpend(l, tx.inputs[|contract|..])
            && (Accepts(l, tx)
                <==> && TxId(tx) !in l.accepted && CanSpend(l, contract)
                     && forall r :: r in Refs(contract) ==> r !in Refs(tx.inputs[|contract|..]))
  {
    hide BuildTx, Honest, CanSpend;
    var own := BuiltInputs(cmd, c, l, nonce);
    var tx, contract := BuildTx(cmd, c, nonce).value, ContractInputs(cmd);
    assert tx.inputs[|contract|..] == own;
    AcceptedIff(l, tx, contract, own);
  }

  /** The fee transaction of a flow is accepted if and only if it is new. */
  lemma FeeIsAccepted(t: CommTrans, c: Chain, l: Ledger, response: InvokeResponse, feeNonce: string, nonce: string)
    requires Honest(c, l) && PreparedPair(t, c, response, feeNonce, nonce).Success?
    ensures var p := PreparedPair(t, c, response, feeNonce, nonce).value;
            CanSpend(l, p.f.inputs) && (Accepts(l, p.f) <==> TxId(p.f) !in l.accepted)
  {
    ReplyIsSelection(t, c, l, response);
    SelectionCanBeSpent(l, Initiator(t), PreExecuted(t, c, response).value.value);
  }

  lemma PreparedFrom(t: CommTrans, c: Chain, response: InvokeResponse, feeNonce: string, nonce: string)
    requires PreparedPair(t, c, response, feeNonce, nonce).Success?
    ensures PreparedPair(t, c, response, feeNonce, nonce).value.response == response
  {
  }

  /** So a flow that nothing disturbs goes through, both transactions posted, if and only if F is new
      and the contract's inputs are distinct, unspent after F, and not among those that T takes
      from F. Without a contract that moves value only newness is left: of F, and of T too should it
      take nothing from F. */
  lemma UndisturbedFlowSucceeds(t: CommTrans, c: Chain, l: Ledger, response: InvokeResponse, feeNonce: string,
                                nonce: string, keys: KeyPair)
    requires Valid(l) && Honest(c, l)
    requires PreparedPair(t, c, response, feeNonce, nonce).Success?
    ensures var p := PreparedPair(t, c, response, feeNonce, nonce).value;
            FlowEnd(l, p.f, p.tx, Faults(false, false, Some(keys), false, false)).posted.Some?
            <==> && TxId(p.f) !in l.accepted
                 && (OwnInputs(p) != []
                     || TxId(WithEndorsement(p.tx, SignTx(keys, p.tx))) !in Post(l, p.f).accepted)
                 && CanSpend(Post(l, p.f), response.utxoInputs)
                 && forall r :: r in Refs(response.utxoInputs) ==> r !in Refs(OwnInputs(p))
  {
    hide PreparedPair, Valid, Honest, SpendsFee, OwnInputs;
    var p := PreparedPair(t, c, response, feeNonce, nonce).value;
    PreparedFrom(t, c, response, feeNonce, nonce);
    FeeIsAccepted(t, c, l, response, feeNonce, nonce);
    PreparedPairSpendsFee(t, c, response, feeNonce, nonce);
    if TxId(p.f) !in l.accepted {
      RealFollowsFee(l, p, SignTx(keys, p.tx));
    }
  }

  // ---------- split, then merge ----------

  lemma AuthorizeAgain(tx: Tx, from: string, c: Chain, tx': Tx, from': string, c': Chain, keys: KeyPair,
                       path: AccountPath)
    requires Authorize(tx, from, keys, path, c).Success? && c'.preExecutes
    ensures Authorize(tx', from', keys, path, c').Success?
    ensures Authorize(tx', from', keys, path, c').value.inputs == tx'.inputs
    ensures Authorize(tx', from', keys, path, c').value.outputs == tx'.outputs
  {
  }

  /** Where each share of a split is, as references and as the inputs of a later selection. */
  lemma SharesListed(id: TxId, outs: seq<TxOutput>, out: UtxoOutput)
    requires multiset(out.utxoList) == multiset(UtxosOf(id, outs))
    ensures |out.utxoList| == |outs|
    ensures forall i :: i in InputsOf(out.utxoList) ==> i.refTxid == id
    ensures forall k :: 0 <= k < |outs| ==> Ref(id, k) in Refs(InputsOf(out.utxoList))
  {
    assert |multiset(out.utxoList)| == |multiset(UtxosOf(id, outs))|;
    forall i | i in InputsOf(out.utxoList)
      ensures i.refTxid == id
    {
      var k :| 0 <= k < |out.utxoList| && InputsOf(out.utxoList)[k] == i;
      assert out.utxoList[k] in multiset(UtxosOf(id, outs));
    }
    forall k | 0 <= k < |outs|
      ensures Ref(id, k) in Refs(InputsOf(out.utxoList))
    {
      assert UtxosOf(id, outs)[k] in multiset(out.utxoList);
      var j :| 0 <= j < |out.utxoList| && out.utxoList[j] == UtxosOf(id, outs)[k];
      assert Refs(InputsOf(out.utxoList))[j] == Ref(id, k);
    }
  }

  lemma SharesCount(who: string, num: int, total: int)
    requires 0 < num
    ensures |SplitOutputs(who, num, total)| == num
  {
  }

  lemma NothingToSpend(l: Ledger)
    ensures CanSpend(l, [])
  {
  }

  /** A transaction whose inputs come from the one just posted is new. */
  lemma ChildIsNew(l: Ledger, parent: Tx, child: Tx)
    requires Valid(l) && Accepts(l, parent)
    requires child.inputs != [] && forall i :: i in child.inputs ==> i.refTxid == TxId(parent)
    ensures TxId(child) !in Post(l, parent).accepted
  {
    var first := child.inputs[0];
    assert first in child.inputs;
    assert Refs(child.inputs)[0] == RefOf(first);
  }

  /** The merge that follows a split which was just posted, on a node that lists exactly the shares. */
  lemma MergeOfShares(crypto: Crypto, root: Root, account: string, num: int, total: int, path: AccountPath, split: Tx,
                      c: Chain, nonce: string)
    requires 0 < num <= total && root.addressRead
    requires OwnKeys(c, crypto, AKInfo(root.address, root.keys)) && root.chainName == c.bcName != ""
    requires var who := SplitAccount(account, root.address);
             && (c.isAccount(who) || who == root.address)
             && c.selectBySize(who, true).Selected?
             && var out := c.selectBySize(who, true).out;
                && SetString(out.totalSelected) == Some(SumUtxos(out.utxoList))
                && multiset(out.utxoList) == multiset(UtxosOf(TxId(split), SplitOutputs(who, num, total)))
    ensures var who := SplitAccount(account, root.address);
            MergeInputs(crypto, SplitTrans(root, who, ""), true, c)
            == Success((InputsOf(c.selectBySize(who, true).out.utxoList), TxOutput(who, Bytes(total), 0)))
  {
    hide SplitOutputs, SetString, Bytes, SumUtxos, SelectUTXOBySize, UtxosOf;
    var who := SplitAccount(account, root.address);
    var t := SplitTrans(root, who, "");
    assert Initiator(t) == who;
    MergeLockAgreement(c, crypto, t);
    SplitThenMerge(who, num, total, TxId(split), c.selectBySize(who, true).out);
    var id :| crypto.privateKeyId(t.keys.secretKey) == Some(id)
              && c.publicKeyId(t.keys.publicKey) == Some(id)
              && c.addressOf(id) == t.address;
    assert MergeRequest(crypto, t).userSign.Some?;
  }

  /** Split then merge on the ledger: once a split was accepted, and the node selects just its shares, the merge
      command with the same account and path builds one output of the balance that was split,
      for the same owner; the ledger accepts it, and then the shares are gone. */
  lemma SplitThenMergeOnLedger(crypto: Crypto, root: Root, account: string, num: int, path: AccountPath,
                               parse: string -> Option<AddressType>, balanceOf: string -> Option<string>,
                               c: Chain, l: Ledger, nonce: string, c': Chain, nonce': string)
    requires SplitTx(root, account, num, path, parse, balanceOf, c, nonce).Success?
    requires Valid(l) && Accepts(l, SplitTx(root, account, num, path, parse, balanceOf, c, nonce).value)
    requires Honest(c', Post(l, SplitTx(root, account, num, path, parse, balanceOf, c, nonce).value))
    requires OwnKeys(c', crypto, AKInfo(root.address, root.keys)) && root.chainName == c'.bcName != ""
    requires c'.preExecutes && (c'.isAccount(account) ==> path.Some?)
    requires var who := SplitAccount(account, root.address);
             var split := SplitTx(root, account, num, path, parse, balanceOf, c, nonce).value;
             && (c'.isAccount(who) || who == root.address)
             && c'.selectBySize(who, true).Selected?
             && multiset(c'.selectBySize(who, true).out.utxoList)
                == multiset(UtxosOf(TxId(split), SplitOutputs(who, num, SetString(balanceOf(who).value).value)))
    ensures var who := SplitAccount(account, root.address);
            var total := SetString(balanceOf(who).value).value;
            var split := SplitTx(root, account, num, path, parse, balanceOf, c, nonce).value;
            var merged := MergeTx(crypto, root, account, path, c', nonce');
            && merged.Success?
            && merged.value.outputs == [TxOutput(who, Bytes(total), 0)]
            && Accepts(Post(l, split), merged.value)
            && (var after := Post(Post(l, split), merged.value).utxos;
                && Ref(TxId(merged.value), 0) in after
                && after[Ref(TxId(merged.value), 0)] == TxOutput(who, Bytes(total), 0)
                && forall i :: 0 <= i < num ==> Ref(TxId(split), i) !in after)
  {
    hide Bytes, SumUtxos, SetString, Valid, UtxosOf, SplitOutputs, SelectUTXOBySize, MergeInputs, Authorize, CanSpend;
    var who := SplitAccount(account, root.address);
    var total := SetString(balanceOf(who).value).value;
    var split := SplitTx(root, account, num, path, parse, balanceOf, c, nonce).value;
    var out := c'.selectBySize(who, true).out;
    MergeOfShares(crypto, root, account, num, total, path, split, c', nonce');
    SharesCount(who, num, total);
    SharesListed(TxId(split), SplitOutputs(who, num, total), out);
    var inputs := InputsOf(out.utxoList);
    var raw := Tx(inputs, [TxOutput(who, Bytes(total), 0)], root.address, [], [], [], nonce');
    var draft := SplitDraft(root, account, num, path, parse, balanceOf, c, nonce).value;
    AuthorizeAgain(draft, who, c, raw, who, c', root.keys, path);
    var merged := MergeTx(crypto, root, account, path, c', nonce').value;
    assert merged == Authorize(raw, who, root.keys, path, c').value;
    ChildIsNew(l, split, merged);
    SelectionCanBeSpent(Post(l, split), who, out);
    assert merged.inputs == [] + inputs;
    AcceptedIff(Post(l, split), merged, [], inputs);
    NothingToSpend(Post(l, split));
    assert Ref(TxId(merged), 0) in Created(merged, 1);
    assert TxId(split) in Post(l, split).accepted;
  }

  // ---------- the steps of a flow ----------

  ghost predicate CanRun(s: State, actions: seq<Action>)
    decreases |actions|
  {
    actions != [] ==> Enabled(s, actions[0]) && CanRun(Apply(s, actions[0]), actions[1..])
  }

  ghost function After(s: State, actions: seq<Action>): State
    requires CanRun(s, actions)
    decreases |actions|
  {
    if actions == [] then s else After(Apply(s, actions[0]), actions[1..])
  }

  /** GenCompleteTxAndPost as steps of a run. */
  function FlowSteps(l: Ledger, id: nat, p: Pair, faults: Faults): seq<Action> {
    if faults.unreachable then [Fail(id)]
    else if !Accepts(l, p.f) || faults.feeLost then [PostFee(id, faults.feeLost)]
    else if faults.endorserKeys.None? || faults.replyLost then [PostFee(id, false), Fail(id)]
    else [PostFee(id, false), Endorse(id, faults.endorserKeys.value), PostReal(id, faults.realLost)]
  }

  /** Every ending of the method is a sequence of steps that a run can take. */
  lemma FlowIsItsSteps(s: State, id: nat, p: Pair, faults: Faults)
    requires id in s.sessions && s.sessions[id] == PairBuilt(p)
    ensures var steps := FlowSteps(s.ledger, id, p, faults);
            var end := FlowEnd(s.ledger, p.f, p.tx, faults);
            && CanRun(s, steps)
            && After(s, steps).ledger == end.ledger
            && After(s, steps).sessions
               == s.sessions[id := if end.posted.Some? then RealPosted(p, SignTx(faults.endorserKeys.value, p.tx))
                                   else Failed]
  {
    hide Accepts, Submitted, After, CanRun;
    var first := PostFee(id, faults.feeLost);
    if faults.unreachable {
      OneStep(s, Fail(id));
    } else if !Accepts(s.ledger, p.f) || faults.feeLost {
      OneStep(s, first);
    } else if faults.endorserKeys.None? || faults.replyLost {
      OneStep(Apply(s, first), Fail(id));
      assert [first, Fail(id)] == [first] + [Fail(id)];
      FirstStep(s, first, [Fail(id)]);
    } else {
      var second, third := Endorse(id, faults.endorserKeys.value), PostReal(id, faults.realLost);
      var s1 := Apply(s, first);
      OneStep(Apply(s1, second), third);
      assert [second, third] == [second] + [third];
      assert [first, second, third] == [first] + [second, third];
      FirstStep(s1, second, [third]);
      FirstStep(s, first, [second, third]);
    }
  }

  lemma FirstStep(s: State, a: Action, rest: seq<Action>)
    requires Enabled(s, a) && CanRun(Apply(s, a), rest)
    ensures CanRun(s, [a] + rest) && After(s, [a] + rest) == After(Apply(s, a), rest)
  {
    assert ([a] + rest)[1..] == rest;
  }

  lemma OneStep(s: State, a: Action)
    requires Enabled(s, a)
    ensures CanRun(s, [a]) && After(s, [a]) == Apply(s, a)
  {
    assert [a] == [a] + [];
    FirstStep(s, a, []);
  }

  /** A command that posts one transaction, as steps: the ledger gets exactly that transaction, if it accepts it, and
      the command has succeeded if it did and the reply arrived. For a raw transaction this is
      Transfer of the client without an endorser. */
  lemma PlainIsItsSteps(s: State, id: nat, cmd: Command, c: Chain, nonce: string, lost: bool)
    requires Enabled(s, Build(id, cmd, c, nonce))
    ensures var steps := [Build(id, cmd, c, nonce), PostPlain(id, lost)];
            var tx := BuildTx(cmd, c, nonce).value;
            && CanRun(s, steps)
            && After(s, steps).ledger == Submitted(s.ledger, tx)
            && After(s, steps).sessions
               == s.sessions[id := if Accepts(s.ledger, tx) && !lost then PlainPosted(tx) else Failed]
            && (cmd.RawCommand? ==>
                  GeneratedTx(cmd.t, cmd.pre, c, nonce).Success?
                  && tx == SignedByOwner(cmd.t, GeneratedTx(cmd.t, cmd.pre, c, nonce).value))
  {
    hide BuildTx, Accepts, Submitted, After, CanRun, Honest;
    var build, post := Build(id, cmd, c, nonce), PostPlain(id, lost);
    OneStep(Apply(s, build), post);
    assert [build, post] == [build] + [post];
    FirstStep(s, build, [post]);
    if cmd.RawCommand? {
      RawBuilt(cmd, c, nonce);
    }
  }

  lemma RawBuilt(cmd: Command, c: Chain, nonce: string)
    requires cmd.RawCommand? && BuildTx(cmd, c, nonce).Success?
    ensures GeneratedTx(cmd.t, cmd.pre, c, nonce).Success?
    ensures BuildTx(cmd, c, nonce).value == SignedByOwner(cmd.t, GeneratedTx(cmd.t, cmd.pre, c, nonce).value)
  {
  }

  /** A transaction that is filed and then sent, as steps: the ledger gets what was in the file with the
      signatures it is sent with, and the file is still there. */
  lemma FileIsItsSteps(s: State, id: nat, cmd: FileCommand, c: Chain, nonce: string, signs: Signatures)
    requires Enabled(s, Save(id, cmd, c, nonce))
    ensures var steps := [Save(id, cmd, c, nonce), SendFile(id, signs)];
            var file := FileTx(cmd, c, nonce).value;
            && CanRun(s, steps)
            && After(s, steps) == State(Submitted(s.ledger, Signed(file, signs)), s.sessions[id := Filed(file)])
  {
    hide FileTx, Accepts, Submitted, After, CanRun, Honest, Signed;
    var save, send := Save(id, cmd, c, nonce), SendFile(id, signs);
    OneStep(Apply(s, save), send);
    assert [save, send] == [save] + [send];
    FirstStep(s, save, [send]);
  }

  /** How far a flow can have come from ledger l. Wherever it stops, the ledger is that
      of some ending of the method. */
  ghost predicate OnTheWay(l: Ledger, p: Pair, x: Session, now: Ledger) {
    match x
    case PairBuilt(q) => q == p && now == l
    case FeePosted(q) => q == p && Accepts(l, p.f) && now == Submitted(l, p.f)
    case Endorsed(q, sign) =>
      q == p && Accepts(l, p.f) && now == Submitted(l, p.f) && exists keys :: sign == SignTx(keys, p.tx)
    case RealPosted(q, sign) =>
      && q == p
      && exists faults ::
           FlowEnd(l, p.f, p.tx, faults) == Outcome(now, Some(TxId(WithEndorsement(p.tx, sign))))
    case Failed => exists faults :: FlowEnd(l, p.f, p.tx, faults) == Outcome(now, None)
    case _ => false
  }

  lemma StepStaysOnTheWay(l: Ledger, p: Pair, s: State, a: Action)
    requires a.id in s.sessions && OnTheWay(l, p, s.sessions[a.id], s.ledger) && Enabled(s, a)
    ensures var s' := Apply(s, a); a.id in s'.sessions && OnTheWay(l, p, s'.sessions[a.id], s'.ledger)
  {
    var s' := Apply(s, a);
    match a {
      case PostFee(id, lost) =>
        if s'.sessions[id].Failed? {
          assert FlowEnd(l, p.f, p.tx, Faults(false, lost, None, false, false)) == Outcome(s'.ledger, None);
        }
      case Endorse(id, keys) =>
      case PostReal(id, lost) =>
        var sign := s.sessions[id].sign;
        var keys :| sign == SignTx(keys, p.tx);
        var faults := Faults(false, false, Some(keys), false, lost);
        assert FlowEnd(l, p.f, p.tx, faults).ledger == s'.ledger;
        if s'.sessions[id].Failed? {
          assert FlowEnd(l, p.f, p.tx, faults) == Outcome(s'.ledger, None);
        } else {
          assert FlowEnd(l, p.f, p.tx, faults) == Outcome(s'.ledger, Some(TxId(WithEndorsement(p.tx, sign))));
        }
      case Fail(id) =>
        var faults := WayOut(l, p, s.sessions[id], s.ledger);
        assert FlowEnd(l, p.f, p.tx, faults) == Outcome(s'.ledger, None);
      case _ =>
    }
  }

  lemma WayOut(l: Ledger, p: Pair, x: Session, now: Ledger) returns (faults: Faults)
    requires OnTheWay(l, p, x, now)
    ensures FlowEnd(l, p.f, p.tx, faults) == Outcome(now, None)
  {
    match x {
      case PairBuilt(_) => faults := Faults(true, false, None, false, false);
      case FeePosted(_) => faults := Faults(false, false, None, false, false);
      case Endorsed(_, _) => faults := Faults(false, false, None, false, false);
      case RealPosted(_, sign) =>
        faults :| FlowEnd(l, p.f, p.tx, faults) == Outcome(now, Some(TxId(WithEndorsement(p.tx, sign))));
        faults := faults.(realLost := true);
      case Failed => faults :| FlowEnd(l, p.f, p.tx, faults) == Outcome(now, None);
    }
  }

  /** And the other way round: whatever steps a run takes for a built pair, if nobody else acts in
      between, the ledger is that of an ending of the method. */
  lemma {:induction false} StepsAreTheFlow(l: Ledger, p: Pair, s: State, id: nat, actions: seq<Action>)
    requires id in s.sessions && OnTheWay(l, p, s.sessions[id], s.ledger)
    requires CanRun(s, actions) && forall k :: 0 <= k < |actions| ==> actions[k].id == id
    ensures id in After(s, actions).sessions
    ensures OnTheWay(l, p, After(s, actions).sessions[id], After(s, actions).ledger)
    ensures exists faults :: FlowEnd(l, p.f, p.tx, faults).ledger == After(s, actions).ledger
    decreases |actions|
  {
    hide OnTheWay, Apply, Enabled, FlowEnd;
    if actions == [] {
      var faults := WayOut(l, p, s.sessions[id], s.ledger);
    } else {
      StepStaysOnTheWay(l, p, s, actions[0]);
      StepsAreTheFlow(l, p, Apply(s, actions[0]), id, actions[1..]);
    }
  }
}
