/** The merge command of cmd/client/cmd/utxo_merge.go. */
module UtxoMerge {

  import opened Wrappers
  import opened Amounts
  import opened Pb
  import opened Ledgers
  import opened NodeRpc
  import opened CommonTransactions
  import opened Auth
  import opened CliTransfer
  import opened UtxoSplit

  /** signLockUtxo: the lock message names the payer, with amount zero for "all". */
  function MergeRequest(crypto: Crypto, t: CommTrans): UtxoInput {
    UtxoInput(t.chainName, Initiator(t), "", true, t.keys.publicKey,
              SignLock(crypto, t.keys, LockMessage(t.chainName, Initiator(t), 0)))
  }

  /** Everything listed goes into one output of the stated total. */
  function MergeReply(reply: SelectReply, address: string): Result<(seq<TxInput>, TxOutput), Error> {
    match reply
    case Refused => Failure(ErrSelectUtxo)
    case Selected(out) =>
      match SetString(out.totalSelected)
      case None => Failure(ErrSelectUtxo)
      case Some(total) => Success((InputsOf(out.utxoList), TxOutput(address, Bytes(total), 0)))
  }

  /** `addressRead`: whether the address file can be read, should the payer not be given. */
  function MergeInputs(crypto: Crypto, t: CommTrans, addressRead: bool, c: Chain)
    : Result<(seq<TxInput>, TxOutput), Error>
  {
    if t.from == "" && !addressRead then Failure(ErrFile)
    else if MergeRequest(crypto, t).userSign.None? then Failure(ErrKeys)
    else MergeReply(SelectUTXOBySize(c, MergeRequest(crypto, t)), Initiator(t))
  }

  method GenTxInputsWithMergeUTXO(crypto: Crypto, t: CommTrans, addressRead: bool, c: Chain)
    returns (r: Result<(seq<TxInput>, TxOutput), Error>)
    ensures r == MergeInputs(crypto, t, addressRead, c)
  {
    var fromAddr := t.address;
    if t.from != "" {
      fromAddr := t.from;
    } else if !addressRead {
      return Failure(ErrFile);
    }
    var utxoInput := UtxoInput(t.chainName, fromAddr, "", true, "", None);
    var signature := SignLock(crypto, t.keys, LockMessage(t.chainName, fromAddr, 0));
    if signature.None? {
      return Failure(ErrKeys);
    }
    utxoInput := utxoInput.(publickey := t.keys.publicKey);
    utxoInput := utxoInput.(userSign := signature);
    var utxoOutputs := SelectUTXOBySize(c, utxoInput);
    if utxoOutputs.Refused? {
      return Failure(ErrSelectUtxo);
    }
    var txInputs := InputsFromUtxos(utxoOutputs.out.utxoList);
    var utxoTotal := SetString(utxoOutputs.out.totalSelected);
    if utxoTotal.None? {
      return Failure(ErrSelectUtxo);
    }
    return Success((txInputs, TxOutput(fromAddr, Bytes(utxoTotal.value), 0)));
  }

  /** mergeUtxo ignores the error of reading the address file and goes on with an empty address. */
  function MergeInitiator(root: Root): string {
    if root.addressRead then root.address else ""
  }

  /** The posted merge. The account-path check looks at the account before it defaults. */
  function MergeTx(crypto: Crypto, root: Root, account0: string, path: AccountPath, c: Chain, nonce: string)
    : Result<Tx, Error>
  {
    var account := SplitAccount(account0, MergeInitiator(root));
    if c.isAccount(account0) && path.None? then Failure(ErrNoAccountPath)
    else
      match MergeInputs(crypto, SplitTrans(root, account, ""), root.addressRead, c)
      case Failure(e) => Failure(e)
      case Success((inputs, output)) =>
        if inputs == [] then Failure(ErrNoUtxo)
        else Authorize(Tx(inputs, [output], MergeInitiator(root), [], [], [], nonce), account, root.keys, path, c)
  }

  class MergeUtxoCommand {
    const root: Root
    var account: string
    const accountPath: AccountPath

    constructor (root: Root, account: string, accountPath: AccountPath)
      ensures this.root == root && this.account == account && this.accountPath == accountPath
    {
      this.root, this.account, this.accountPath := root, account, accountPath;
    }

    method MergeUtxo(crypto: Crypto, c: Chain, nonce: string) returns (r: Result<Tx, Error>)
      modifies this`account
      ensures r == MergeTx(crypto, root, old(account), accountPath, c, nonce)
    {
      if c.isAccount(account) && accountPath.None? {
        return Failure(ErrNoAccountPath);
      }
      var initAk := if root.addressRead then root.address else "";
      if account == "" {
        account := initAk;
      }
      var tx := Tx([], [], initAk, [], [], [], nonce);
      var ct := SplitTrans(root, account, "");
      var merged := GenTxInputsWithMergeUTXO(crypto, ct, root.addressRead, c);
      if merged.Failure? {
        return Failure(merged.error);
      }
      tx := tx.(inputs := merged.value.0);
      if |tx.inputs| == 0 {
        return Failure(ErrNoUtxo);
      }
      var txOutputs: seq<TxOutput> := [];
      txOutputs := txOutputs + [merged.value.1];
      assert txOutputs == [merged.value.1];
      tx := tx.(outputs := txOutputs);
      var authRequire := GenAuthRequirement(account, accountPath);
      if authRequire.Failure? {
        return Failure(authRequire.error);
      }
      tx := tx.(authRequire := authRequire.value);
      if !c.preExecutes {
        return Failure(ErrRefused);
      }
      tx := tx.(initiatorSigns := [SignTx(root.keys, tx)]);
      var signs := SignByPath(tx, root.keys, accountPath);
      if signs.Failure? {
        return Failure(signs.error);
      }
      tx := tx.(authRequireSigns := signs.value);
      return Success(tx);
    }
  }

  /** A merge against an honest node balances. */
  lemma MergeTxIsSound(crypto: Crypto, root: Root, account: string, path: AccountPath, c: Chain, l: Ledger,
                       nonce: string)
    requires Valid(l) && Honest(c, l)
    requires MergeTx(crypto, root, account, path, c, nonce).Success?
    ensures Sound(MergeTx(crypto, root, account, path, c, nonce).value)
  {
    var who := SplitAccount(account, MergeInitiator(root));
    var q := MergeRequest(crypto, SplitTrans(root, who, ""));
    var out := SelectUTXOBySize(c, q).out;
    var (inputs, output) := MergeInputs(crypto, SplitTrans(root, who, ""), root.addressRead, c).value;
    SumInputsOf(out.utxoList);
    SumOutputsOne(output);
    BytesRoundTrip(SumUtxos(out.utxoList));
    SelectionIsTruthful(l, q.address, out);
  }

  /** A posted merge is aligned exactly when an account path is given or the owner is named
      by the initiator's address. */
  lemma MergeTxAligned(crypto: Crypto, root: Root, account: string, path: AccountPath, c: Chain, nonce: string)
    requires MergeTx(crypto, root, account, path, c, nonce).Success?
    ensures Aligned(MergeTx(crypto, root, account, path, c, nonce).value,
                    Signers(AK(root.address, Some(root.keys)), path))
            <==> path.Some? || account == "" || Names(account, root.address)
  {
    var who := SplitAccount(account, MergeInitiator(root));
    var (inputs, output) := MergeInputs(crypto, SplitTrans(root, who, ""), root.addressRead, c).value;
    var raw := Tx(inputs, [output], MergeInitiator(root), [], [], [], nonce);
    AuthorizeAligns(raw, who, AK(root.address, Some(root.keys)), path, c);
  }

  /** And the node sees to it that this is so: it refuses to lock for any name that is neither an account
      nor the key's own address, and the command refuses an account without a path. With
      the initiator's own keys on its chain, every merge that is posted is aligned. */
  lemma GrantedMergeAligned(crypto: Crypto, root: Root, account: string, path: AccountPath, c: Chain, nonce: string)
    requires OwnKeys(c, crypto, AKInfo(root.address, root.keys)) && root.chainName == c.bcName != ""
    requires MergeTx(crypto, root, account, path, c, nonce).Success?
    ensures Aligned(MergeTx(crypto, root, account, path, c, nonce).value,
                    Signers(AK(root.address, Some(root.keys)), path))
  {
    MergeTxAligned(crypto, root, account, path, c, nonce);
    MergeLockAgreement(c, crypto, SplitTrans(root, SplitAccount(account, MergeInitiator(root)), ""));
  }

  /** The merge lock request is granted exactly for an account or the owner's own address. */
  lemma MergeLockAgreement(c: Chain, crypto: Crypto, t: CommTrans)
    requires OwnKeys(c, crypto, AKInfo(t.address, t.keys))
    requires t.chainName == c.bcName != ""
    ensures SelectUTXOBySize(c, MergeRequest(crypto, t))
            == if c.isAccount(Initiator(t)) || Initiator(t) == t.address
               then c.selectBySize(Initiator(t), true)
               else Refused
  {
    var id :| crypto.privateKeyId(t.keys.secretKey) == Some(id)
              && c.publicKeyId(t.keys.publicKey) == Some(id)
              && c.addressOf(id) == t.address;
    assert MergeRequest(crypto, t).userSign == Some(LockSign(id, LockMessage(c.bcName, Initiator(t), 0)));
  }

  /** The outputs of a transaction as utxos that a later selection can list. */
  function UtxosOf(id: TxId, outs: seq<TxOutput>): seq<Utxo> {
    seq(|outs|, i requires 0 <= i < |outs| => Utxo(id, i, outs[i].toAddr, outs[i].amount))
  }

  /** Split then merge is the identity on value: merging exactly the shares of a split
      gives one output, to the same account, of the amount that was split. The node may
      list the shares in any order. */
  lemma SplitThenMerge(account: string, num: int, total: int, splitId: TxId, out: UtxoOutput)
    requires 0 < num <= total
    requires multiset(out.utxoList) == multiset(UtxosOf(splitId, SplitOutputs(account, num, total)))
    requires SetString(out.totalSelected) == Some(SumUtxos(out.utxoList))
    ensures MergeReply(Selected(out), account) == Success((InputsOf(out.utxoList), TxOutput(account, Bytes(total), 0)))
    ensures SumInputs(InputsOf(out.utxoList)) == SetBytes(Bytes(total)) == total
  {
    var shares := SplitOutputs(account, num, total);
    SplitIsExact(account, num, total);
    assert UtxoAmounts(UtxosOf(splitId, shares)) == OutAmounts(shares);
    SumIgnoresOrder(out.utxoList, UtxosOf(splitId, shares));
    SumInputsOf(out.utxoList);
    BytesRoundTrip(total);
  }

  function Without(s: seq<Utxo>, k: nat): seq<Utxo>
    requires k < |s|
  {
    s[..k] + s[k + 1..]
  }

  lemma RemoveAt(s: seq<Utxo>, k: nat)
    requires k < |s|
    ensures multiset(Without(s, k)) == multiset(s) - multiset{s[k]}
    ensures SumUtxos(s) == SumUtxos(Without(s, k)) + SetBytes(s[k].amount)
  {
    var left, right := s[..k], s[k + 1..];
    assert s == left + [s[k]] + right;
    SumUtxosAppend(left + [s[k]], right);
    SumUtxosAppend(left, [s[k]]);
    SumUtxosAppend(left, right);
    SumUtxosOne(s[k]);
  }

  lemma {:induction false} SumIgnoresOrder(a: seq<Utxo>, b: seq<Utxo>)
    requires multiset(a) == multiset(b)
    ensures SumUtxos(a) == SumUtxos(b)
    decreases |a|
  {
    if a == [] {
      assert |b| == |multiset(b)|;
    } else {
      assert a[0] in multiset(b);
      var k :| 0 <= k < |b| && b[k] == a[0];
      RemoveAt(a, 0);
      RemoveAt(b, k);
      SumIgnoresOrder(Without(a, 0), Without(b, k));
    }
  }
}
