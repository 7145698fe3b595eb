/** The split command of cmd/client/cmd/utxo_split.go. The outputs and the running
    total are mutable cells here, because the source shares them: `rest` is the
    caller's totalNeed, and one output cell is rewritten after copies were taken. */
module UtxoSplit {

  import opened Wrappers
  import opened Amounts
  import opened Pb
  import opened Ledgers
  import opened NodeRpc
  import opened CommonTransactions
  import opened Auth

  /** A pb.TxOutput reached through a pointer. */
  class OutputCell {
    var amount: seq<Byte>
    var toAddr: string
    var frozenHeight: int

    constructor (amount: seq<Byte>, toAddr: string, frozenHeight: int)
      ensures Value() == TxOutput(toAddr, amount, frozenHeight)
    {
      this.amount, this.toAddr, this.frozenHeight := amount, toAddr, frozenHeight;
    }

    function Value(): TxOutput
      reads this
    {
      TxOutput(toAddr, amount, frozenHeight)
    }
  }

  function Deref(cells: seq<OutputCell>): seq<TxOutput>
    reads cells
  {
    seq(|cells|, i requires 0 <= i < |cells| reads cells => cells[i].Value())
  }

  // ---------- what a split is ----------

  /** The i-th share of `total` in `num` parts: the last one takes the remainder. */
  function Share(num: int, total: int, i: int): int
    requires num > 0
  {
    if i < num - 1 then total / num else total / num + total % num
  }

  function SplitOutputs(account: string, num: int, total: int): seq<TxOutput>
    requires 0 < num
  {
    seq(num, i requires 0 <= i < num => TxOutput(account, Bytes(Share(num, total, i)), 0))
  }

  /** The split is exact: num outputs, all to the account, every share at least 1,
      all shares equal but the last one, and nothing gained or lost. */
  lemma SplitIsExact(account: string, num: int, total: int)
    requires 0 < num <= total
    ensures var s := SplitOutputs(account, num, total);
            && |s| == num
            && SumOutputs(s) == total
            && (forall i :: 0 <= i < num ==>
                  s[i].toAddr == account && SetBytes(s[i].amount) == Share(num, total, i) >= 1)
  {
    var s := SplitOutputs(account, num, total);
    ShareBounds(num, total);
    forall i | 0 <= i < num
      ensures SetBytes(s[i].amount) == Share(num, total, i) >= 1
    {
      BytesRoundTrip(Share(num, total, i));
    }
    EqualSharesSum(account, num, total, num - 1);
    Multiples(num, total / num, 1);
    assert s == s[..num - 1] + [s[num - 1]];
    SumOutputsAppend(s[..num - 1], [s[num - 1]]);
    SumOutputsOne(s[num - 1]);
  }

  lemma ShareBounds(num: int, total: int)
    requires 0 < num <= total
    ensures total / num >= 1 && 0 <= total % num < num
    ensures num * (total / num) + total % num == total
  {
  }

  lemma MultiplesGrow(a: int, b: int, q: int)
    requires a <= b && 0 <= q
    ensures a * q <= b * q
  {
  }

  lemma Multiples(num: int, q: int, i: int)
    requires 1 <= i <= num && 1 <= q
    ensures (i - 1) * q + q == i * q
    ensures (num - 1) * q + q == num * q
    ensures i < num ==> (i - 1) * q + q < num * q
  {
    assert (i - 1) * q == i * q - q;
    assert (num - 1) * q == num * q - q;
    if i < num {
      MultiplesGrow(i, num - 1, q);
    }
  }

  lemma {:induction false} EqualSharesSum(account: string, num: int, total: int, k: nat)
    requires 0 < num <= total && k <= num - 1
    ensures SumOutputs(SplitOutputs(account, num, total)[..k]) == k * (total / num)
  {
    var s, q := SplitOutputs(account, num, total), total / num;
    if k > 0 {
      EqualSharesSum(account, num, total, k - 1);
      EqualShare(account, num, total, k - 1);
      assert s[..k] == s[..k - 1] + [s[k - 1]];
      SumOutputsAppend(s[..k - 1], [s[k - 1]]);
      SumOutputsOne(s[k - 1]);
      ShareBounds(num, total);
      Multiples(num, q, k);
    }
  }

  lemma EqualShare(account: string, num: int, total: int, k: nat)
    requires 0 < num <= total && k < num - 1
    ensures SetBytes(SplitOutputs(account, num, total)[k].amount) == total / num
  {
    ShareBounds(num, total);
    BytesRoundTrip(total / num);
  }

  // ---------- the command ----------

  datatype AddressType = AddressAK | AddressAccount | AddressOther

  /** Root options and key directory of the command line: the address of its keys, and
      whether the file that states it can be read. */
  datatype Root = Root(chainName: string, address: string, keys: KeyPair, addressRead: bool := true)

  function SplitAccount(account: string, initiator: string): string {
    if account == "" then initiator else account
  }

  function SetUpError(account: string, path: AccountPath, initiator: string, parse: string -> Option<AddressType>)
    : Option<Error>
  {
    match parse(SplitAccount(account, initiator))
    case None => Some(ErrEmptyAccount)
    case Some(AddressAccount) => if path.None? then Some(ErrNoAccountPath) else None
    case Some(AddressAK) => if account != "" && account != initiator then Some(ErrParseAccount) else None
    case Some(AddressOther) => None
  }

  function SplitTrans(root: Root, account: string, amount: string): CommTrans {
    CommTrans(root.chainName, "", amount, "", 0, account, "", root.address, root.keys,
              ComplianceConfig(false, 0, "", ""))
  }

  /** The split before anyone is asked to sign: inputs for the whole balance, the shares,
      change if more was selected. */
  function SplitDraft(root: Root, account0: string, num: int, path: AccountPath, parse: string -> Option<AddressType>,
                      balanceOf: string -> Option<string>, c: Chain, nonce: string): Result<Tx, Error> {
    var account := SplitAccount(account0, root.address);
    var refused := SetUpError(account0, path, root.address, parse);
    if num <= 0 then Failure(ErrSplitNum)
    else if !root.addressRead then Failure(ErrFile)
    else if refused.Some? then Failure(refused.value)
    else if balanceOf(account).None? then Failure(ErrRefused)
    else if SetString(balanceOf(account).value).None? then Failure(ErrInvalidAmount)
    else
      var total := SetString(balanceOf(account).value).value;
      match TransferInputs(SplitTrans(root, account, balanceOf(account).value), total, c)
      case Failure(e) => Failure(e)
      case Success(s) =>
        if num > total then Failure(ErrSplitBalance)
        else
          var outputs := SplitOutputs(account, num, total) + Optional(s.change);
          Success(Tx(s.inputs, outputs, root.address, [], [], [], nonce))
  }

  /** The posted split. */
  function SplitTx(root: Root, account: string, num: int, path: AccountPath, parse: string -> Option<AddressType>,
                   balanceOf: string -> Option<string>, c: Chain, nonce: string): Result<Tx, Error> {
    match SplitDraft(root, account, num, path, parse, balanceOf, c, nonce)
    case Failure(e) => Failure(e)
    case Success(tx) => Authorize(tx, SplitAccount(account, root.address), root.keys, path, c)
  }

  /** The split that is written to a file for others to sign. */
  function SplitFile(root: Root, account: string, num: int, path: AccountPath, parse: string -> Option<AddressType>,
                     balanceOf: string -> Option<string>, addrFile: Option<seq<string>>, c: Chain, nonce: string)
    : Result<Tx, Error>
  {
    match SplitDraft(root, account, num, path, parse, balanceOf, c, nonce)
    case Failure(e) => Failure(e)
    case Success(tx) =>
      if addrFile.Some? && !c.preExecutes then Failure(ErrRefused) else AskAll(tx, addrFile)
  }

  class SplitUtxoCommand {
    const root: Root
    var account: string
    const num: int
    const accountPath: AccountPath
    const isGenRawTx: bool
    const addrFile: Option<seq<string>>

    /** `addrFile` holds the lines of the file of addresses, None if it cannot be read. */
    constructor (root: Root, account: string, num: int, accountPath: AccountPath,
                 isGenRawTx: bool, addrFile: Option<seq<string>>)
      ensures this.root == root && this.account == account && this.num == num && this.accountPath == accountPath
      ensures this.isGenRawTx == isGenRawTx && this.addrFile == addrFile
    {
      this.root, this.account, this.num, this.accountPath := root, account, num, accountPath;
      this.isGenRawTx, this.addrFile := isGenRawTx, addrFile;
    }

    method SetUpAccount(initiator: string, parse: string -> Option<AddressType>) returns (err: Option<Error>)
      modifies this`account
      ensures account == SplitAccount(old(account), initiator)
      ensures err == SetUpError(old(account), accountPath, initiator, parse)
    {
      if account == "" {
        account := initiator;
      }
      var t := parse(account);
      if t.None? {
        return Some(ErrEmptyAccount);
      }
      if t.value == AddressAccount && accountPath.None? {
        return Some(ErrNoAccountPath);
      }
      if t.value == AddressAK && account != initiator {
        return Some(ErrParseAccount);
      }
      return None;
    }

    /** On success the caller's totalNeed is left holding the last share, the cells
        are all different, and they hold the shares in order: subtracting from
        `rest` and rewriting `output` did not disturb the copies taken before. */
    method GenSplitOutputs(totalNeed: BigInt) returns (err: Option<Error>, txOutputs: seq<OutputCell>)
      requires num > 0
      modifies totalNeed
      ensures forall o :: o in txOutputs ==> fresh(o)
      ensures Distinct(txOutputs)
      ensures err == if num > old(totalNeed.v) then Some(ErrSplitBalance) else None
      ensures err.Some? ==> totalNeed.v == old(totalNeed.v)
      ensures err.None? ==>
                && Deref(txOutputs) == SplitOutputs(account, num, old(totalNeed.v))
                && totalNeed.v == Share(num, old(totalNeed.v), num - 1)
    {
      err, txOutputs := None, [];
      var amount := new BigInt(0);
      var rest := totalNeed;
      var parts := new BigInt(num);
      if parts.v > rest.v {
        err := Some(ErrSplitBalance);
        return;
      }
      ghost var total := rest.v;
      ShareBounds(num, total);
      amount.Div(rest, parts);
      var output := new OutputCell(Bytes(amount.v), account, 0);
      var i := 1;
      while i < num && rest.v > amount.v
        invariant 1 <= i <= num
        invariant amount.v == total / num
        invariant rest.v == total - (i - 1) * amount.v
        invariant output.Value() == TxOutput(account, Bytes(amount.v), 0)
        invariant |txOutputs| == i - 1
        invariant fresh(output) && output !in txOutputs
        invariant forall o :: o in txOutputs ==> fresh(o) && o.Value() == TxOutput(account, Bytes(amount.v), 0)
        invariant Distinct(txOutputs)
        decreases num - i
      {
        var tmpOutput := new OutputCell(output.amount, output.toAddr, output.frozenHeight);
        txOutputs := txOutputs + [tmpOutput];
        rest.Sub(rest, amount);
        i := i + 1;
      }
      GuardNeverStops(num, total, i);
      output.amount := Bytes(rest.v);
      txOutputs := txOutputs + [output];
      forall k | 0 <= k < num
        ensures txOutputs[k].Value() == SplitOutputs(account, num, total)[k]
      {
        if k < num - 1 {
          assert txOutputs[k] in txOutputs[..num - 1];
        }
      }
    }

    /** GenTxInputs runs before totalNeed is consumed, so the request and the change
        are computed from the whole balance. */
    method SplitUtxo(parse: string -> Option<AddressType>, balanceOf: string -> Option<string>, c: Chain, nonce: string)
      returns (r: Result<Tx, Error>)
      modifies this`account
      ensures r == if isGenRawTx
                   then SplitFile(root, old(account), num, accountPath, parse, balanceOf, addrFile, c, nonce)
                   else SplitTx(root, old(account), num, accountPath, parse, balanceOf, c, nonce)
    {
      if num <= 0 {
        return Failure(ErrSplitNum);
      }
      if !root.addressRead {
        return Failure(ErrFile);
      }
      var initiator := root.address;
      var setup := SetUpAccount(initiator, parse);
      if setup.Some? {
        return Failure(setup.value);
      }
      var tx := Tx([], [], initiator, [], [], [], nonce);
      var balance := balanceOf(account);
      if balance.None? {
        return Failure(ErrRefused);
      }
      var ct := SplitTrans(root, account, balance.value);
      var parsed := SetString(balance.value);
      if parsed.None? {
        return Failure(ErrInvalidAmount);
      }
      var totalNeed := new BigInt(parsed.value);
      var err, txInputs, txOutput := GenTxInputs(ct, totalNeed, c);
      if err.Some? {
        return Failure(err.value);
      }
      tx := tx.(inputs := txInputs);
      var err', cells := GenSplitOutputs(totalNeed);
      if err'.Some? {
        return Failure(err'.value);
      }
      var txOutputs := Deref(cells);
      if txOutput.Some? {
        txOutputs := txOutputs + [txOutput.value];
      }
      assert txOutputs == SplitOutputs(account, num, parsed.value) + Optional(txOutput);
      tx := tx.(outputs := txOutputs);
      if isGenRawTx {
        var asked := GenAuthRequire(tx, addrFile);
        if asked.Failure? {
          return asked;
        }
        tx := asked.value;
      } else {
        var authRequire := GenAuthRequirement(account, accountPath);
        if authRequire.Failure? {
          return Failure(authRequire.error);
        }
        tx := tx.(authRequire := authRequire.value);
      }
      if !c.preExecutes {
        return Failure(ErrRefused);
      }
      if isGenRawTx {
        return Success(tx);
      }
      tx := tx.(initiatorSigns := [SignTx(root.keys, tx)]);
      var signs := SignByPath(tx, root.keys, accountPath);
      if signs.Failure? {
        return Failure(signs.error);
      }
      tx := tx.(authRequireSigns := signs.value);
      return Success(tx);
    }
  }

  /** While shares remain to be cut off, what is left exceeds one share. */
  lemma GuardNeverStops(num: int, total: int, i: int)
    requires 0 < num <= total && 1 <= i <= num
    ensures i < num ==> total - (i - 1) * (total / num) > total / num
    ensures total - (num - 1) * (total / num) == Share(num, total, num - 1)
  {
    ShareBounds(num, total);
    Multiples(num, total / num, i);
  }

  /** A split made against an honest node balances, whatever the balance and the number of parts. */
  lemma SplitTxIsSound(root: Root, account: string, num: int, path: AccountPath, parse: string -> Option<AddressType>,
                       balanceOf: string -> Option<string>, c: Chain, l: Ledger, nonce: string)
    requires Valid(l) && Honest(c, l)
    requires SplitTx(root, account, num, path, parse, balanceOf, c, nonce).Success?
    ensures Sound(SplitTx(root, account, num, path, parse, balanceOf, c, nonce).value)
  {
    SplitDraftIsSound(root, account, num, path, parse, balanceOf, c, l, nonce);
  }

  lemma SplitDraftIsSound(root: Root, account: string, num: int, path: AccountPath,
                          parse: string -> Option<AddressType>, balanceOf: string -> Option<string>,
                          c: Chain, l: Ledger, nonce: string)
    requires Valid(l) && Honest(c, l)
    requires SplitDraft(root, account, num, path, parse, balanceOf, c, nonce).Success?
    ensures Sound(SplitDraft(root, account, num, path, parse, balanceOf, c, nonce).value)
  {
    var who := SplitAccount(account, root.address);
    var total := SetString(balanceOf(who).value).value;
    SplitIsExact(who, num, total);
    InputsAreSound(SplitTrans(root, who, balanceOf(who).value), total, SplitOutputs(who, num, total), c, l);
  }

  /** A split written to a file moves the same value. */
  lemma SplitFileIsSound(root: Root, account: string, num: int, path: AccountPath, parse: string -> Option<AddressType>,
                         balanceOf: string -> Option<string>, addrFile: Option<seq<string>>, c: Chain, l: Ledger,
                         nonce: string)
    requires Valid(l) && Honest(c, l)
    requires SplitFile(root, account, num, path, parse, balanceOf, addrFile, c, nonce).Success?
    ensures Sound(SplitFile(root, account, num, path, parse, balanceOf, addrFile, c, nonce).value)
  {
    SplitDraftIsSound(root, account, num, path, parse, balanceOf, c, l, nonce);
  }

  /** A posted split is aligned exactly when an account path is given or the owner is named
      by the initiator's address. */
  lemma SplitTxAligned(root: Root, account: string, num: int, path: AccountPath, parse: string -> Option<AddressType>,
                       balanceOf: string -> Option<string>, c: Chain, nonce: string)
    requires SplitTx(root, account, num, path, parse, balanceOf, c, nonce).Success?
    ensures Aligned(SplitTx(root, account, num, path, parse, balanceOf, c, nonce).value,
                    Signers(AK(root.address, Some(root.keys)), path))
            <==> path.Some? || Names(SplitAccount(account, root.address), root.address)
  {
    var who := SplitAccount(account, root.address);
    var draft := SplitDraft(root, account, num, path, parse, balanceOf, c, nonce).value;
    AuthorizeAligns(draft, who, AK(root.address, Some(root.keys)), path, c);
  }

  /** So SetUpAccount pays off for an address or an account: their splits are always aligned. */
  lemma CheckedSplitAligned(root: Root, account: string, num: int, path: AccountPath,
                            parse: string -> Option<AddressType>, balanceOf: string -> Option<string>,
                            c: Chain, nonce: string)
    requires SplitTx(root, account, num, path, parse, balanceOf, c, nonce).Success?
    requires parse(SplitAccount(account, root.address)) != Some(AddressOther)
    ensures Aligned(SplitTx(root, account, num, path, parse, balanceOf, c, nonce).value,
                    Signers(AK(root.address, Some(root.keys)), path))
  {
    SplitTxAligned(root, account, num, path, parse, balanceOf, c, nonce);
  }

  /** But SetUpAccount lets every other kind of name through, and then nothing is left to refuse
      it: the initiator alice signs the split of somebody else's outputs in her own name. */
  lemma UncheckedSplitExample(keys: KeyPair, id: TxId, nonce: string)
    ensures var root := Root("xuper", "alice", keys);
            var reply := Selected(UtxoOutput([Utxo(id, 0, "counter", Bytes(5))], "5"));
            var c := Chain("xuper", _ => false, _ => None, _ => "", (_, _, _) => reply, (_, _) => reply, true);
            var split := SplitTx(root, "counter", 2, None, _ => Some(AddressOther), _ => Some("5"), c, nonce);
            split.Success? && !Aligned(split.value, Signers(AK("alice", Some(keys)), None))
  {
    var root := Root("xuper", "alice", keys);
    var reply := Selected(UtxoOutput([Utxo(id, 0, "counter", Bytes(5))], "5"));
    var c := Chain("xuper", _ => false, _ => None, _ => "", (_, _, _) => reply, (_, _) => reply, true);
    assert SetString("5") == Some(5);
    StringRoundTrip(5);
    assert TransferInputs(SplitTrans(root, "counter", "5"), 5, c).Success?;
    assert SplitTx(root, "counter", 2, None, _ => Some(AddressOther), _ => Some("5"), c, nonce).Success?;
    SplitTxAligned(root, "counter", 2, None, _ => Some(AddressOther), _ => Some("5"), c, nonce);
  }
}
