/** Authorization: which keys a transaction asks for and who signs for them
    (cmd/client/cmd/ak.go, and the auth functions of cli.go and comm_trans.go). */
module Auth {

  import opened Wrappers
  import opened Pb
  import opened NodeRpc
  import opened CommonTransactions

  /** An entry of an account directory. An AK directory has an address file;
      its key files may still be unreadable. */
  datatype DirEntry = DirEntry(isDir: bool, address: Option<string>, keys: Option<KeyPair>)

  datatype AK = AK(address: string, keys: Option<KeyPair>)

  /** A directory listing, None if the directory cannot be read. */
  type Listing = Option<seq<DirEntry>>

  /** An account path: None for the empty path. */
  type AccountPath = Option<Listing>

  function AKsIn(dirs: seq<DirEntry>): seq<AK> {
    if dirs == [] then []
    else
      var last := dirs[|dirs| - 1];
      AKsIn(dirs[..|dirs| - 1])
      + if last.isDir && last.address.Some? then [AK(last.address.value, last.keys)] else []
  }

  method ListAKs(root: Listing) returns (r: Result<seq<AK>, Error>)
    ensures r == if root.Some? then Success(AKsIn(root.value)) else Failure(ErrFile)
  {
    if root.None? {
      return Failure(ErrFile);
    }
    var dirs := root.value;
    var akList: seq<AK> := [];
    for i := 0 to |dirs|
      invariant akList == AKsIn(dirs[..i])
    {
      assert dirs[..i + 1][..i] == dirs[..i];
      if !dirs[i].isDir || dirs[i].address.None? {
        assert akList + [] == akList;
        continue;
      }
      akList := akList + [AK(dirs[i].address.value, dirs[i].keys)];
    }
    assert dirs[..|dirs|] == dirs;
    return Success(akList);
  }

  /** `index` lists, in increasing order, exactly the positions below n that are wanted. */
  ghost predicate Picks(index: seq<nat>, n: nat, wanted: nat -> bool) {
    && (forall k :: 0 <= k < |index| ==> index[k] < n && wanted(index[k]))
    && (forall j, k :: 0 <= j < k < |index| ==> index[j] < index[k])
    && (forall i: nat :: i < n && wanted(i) ==> i in index)
  }

  lemma PickMore(index: seq<nat>, n: nat, wanted: nat -> bool, wanted': nat -> bool)
    requires Picks(index, n, wanted) && forall i: nat :: i < n ==> wanted(i) == wanted'(i)
    ensures Picks(if wanted'(n) then index + [n] else index, n + 1, wanted')
  {
  }

  lemma PickNone(wanted: nat -> bool)
    ensures Picks([], 0, wanted)
  {
  }

  /** An AK directory is a directory with an address file. */
  predicate IsAKDir(d: DirEntry) {
    d.isDir && d.address.Some?
  }

  function AKDirAt(dirs: seq<DirEntry>): nat -> bool {
    (i: nat) => i < |dirs| && IsAKDir(dirs[i])
  }

  /** The AKs of an account are its AK directories, all of them and in directory order. */
  lemma {:induction false} AKsExact(dirs: seq<DirEntry>) returns (index: seq<nat>)
    ensures Picks(index, |dirs|, AKDirAt(dirs)) && |index| == |AKsIn(dirs)|
    ensures forall k :: 0 <= k < |index| ==>
              && index[k] < |dirs| && IsAKDir(dirs[index[k]])
              && AKsIn(dirs)[k] == AK(dirs[index[k]].address.value, dirs[index[k]].keys)
  {
    hide Picks;
    if dirs == [] {
      index := [];
      PickNone(AKDirAt(dirs));
    } else {
      var n := |dirs| - 1;
      var front := dirs[..n];
      index := AKsExact(front);
      PickMore(index, n, AKDirAt(front), AKDirAt(dirs));
      if IsAKDir(dirs[n]) {
        index := index + [n];
      }
    }
  }

  // ---------- requirements ----------

  function RequirementsFrom(from: string, aks: seq<AK>): seq<string> {
    seq(|aks|, i requires 0 <= i < |aks| => from + "/" + aks[i].address)
  }

  function AuthRequirement(from: string, path: AccountPath): Result<seq<string>, Error> {
    match path
    case None => Success([from])
    case Some(None) => Failure(ErrFile)
    case Some(Some(dirs)) => Success(RequirementsFrom(from, AKsIn(dirs)))
  }

  method GenAuthRequirement(from: string, path: AccountPath) returns (r: Result<seq<string>, Error>)
    ensures r == AuthRequirement(from, path)
  {
    if path.None? {
      return Success([from]);
    }
    var listed := ListAKs(path.value);
    if listed.Failure? {
      return Failure(listed.error);
    }
    var akList := listed.value;
    var authRequirements: seq<string> := [];
    for i := 0 to |akList|
      invariant authRequirements == RequirementsFrom(from, akList)[..i]
    {
      authRequirements := authRequirements + [from + "/" + akList[i].address];
    }
    assert authRequirements == RequirementsFrom(from, akList);
    return Success(authRequirements);
  }

  // ---------- signatures ----------

  /** Every AK signs in directory order; one unreadable key pair is an error. */
  function AccountSigns(tx: Tx, aks: seq<AK>): Result<seq<SignatureInfo>, Error> {
    if forall i :: 0 <= i < |aks| ==> aks[i].keys.Some? then
      Success(seq(|aks|, i requires 0 <= i < |aks| && aks[i].keys.Some? => SignTx(aks[i].keys.value, tx)))
    else
      Failure(ErrKeys)
  }

  function SignsFor(tx: Tx, keys: KeyPair, path: AccountPath): Result<seq<SignatureInfo>, Error> {
    match path
    case None => Success([SignTx(keys, tx)])
    case Some(None) => Failure(ErrFile)
    case Some(Some(dirs)) => AccountSigns(tx, AKsIn(dirs))
  }

  method SignTxForAccount(tx: Tx, path: Listing) returns (r: Result<seq<SignatureInfo>, Error>)
    ensures r == if path.Some? then AccountSigns(tx, AKsIn(path.value)) else Failure(ErrFile)
  {
    var listed := ListAKs(path);
    if listed.Failure? {
      return Failure(listed.error);
    }
    var akList := listed.value;
    var signs: seq<SignatureInfo> := [];
    for i := 0 to |akList|
      invariant |signs| == i
      invariant forall k :: 0 <= k < i ==> akList[k].keys.Some? && signs[k] == SignTx(akList[k].keys.value, tx)
    {
      if akList[i].keys.None? {
        return Failure(ErrKeys);
      }
      signs := signs + [SignTx(akList[i].keys.value, tx)];
    }
    assert signs == AccountSigns(tx, akList).value;
    return Success(signs);
  }

  /** signTx: by the initiator for the empty path, by every AK of the account otherwise. */
  method SignByPath(tx: Tx, keys: KeyPair, path: AccountPath) returns (r: Result<seq<SignatureInfo>, Error>)
    ensures r == SignsFor(tx, keys, path)
  {
    if path.None? {
      return Success([SignTx(keys, tx)]);
    }
    r := SignTxForAccount(tx, path.value);
  }

  // ---------- alignment ----------

  /** A requirement names an address on its own or after "account/". */
  predicate Names(requirement: string, address: string) {
    || requirement == address
    || exists n :: 0 <= n < |requirement| && requirement[n] == '/' && requirement[n + 1..] == address
  }

  /** The i-th requirement names this AK, and the i-th signature is made with its
      keys over the transaction as it is, requirements included. */
  predicate AuthorizedAt(tx: Tx, i: nat, ak: AK)
    requires i < |tx.authRequire| && i < |tx.authRequireSigns|
  {
    && Names(tx.authRequire[i], ak.address)
    && ak.keys.Some?
    && tx.authRequireSigns[i] == SignTx(ak.keys.value, tx)
  }

  predicate Aligned(tx: Tx, signers: seq<AK>) {
    && |tx.authRequire| == |tx.authRequireSigns| == |signers|
    && forall i :: 0 <= i < |signers| ==> AuthorizedAt(tx, i, signers[i])
  }

  lemma NamesAfterAccount(account: string, address: string)
    ensures Names(account + "/" + address, address)
  {
    var req := account + "/" + address;
    assert req[|account|] == '/' && req[|account| + 1..] == address;
  }

  /** Require by path, then pre-execute; every command does the two in this order. */
  function Ask(tx: Tx, from: string, path: AccountPath, c: Chain): Result<Tx, Error> {
    match AuthRequirement(from, path)
    case Failure(e) => Failure(e)
    case Success(reqs) => if c.preExecutes then Success(tx.(authRequire := reqs)) else Failure(ErrRefused)
  }

  /** And then sign: the initiator first, then by path. */
  function Authorize(tx: Tx, from: string, keys: KeyPair, path: AccountPath, c: Chain): Result<Tx, Error> {
    match Ask(tx, from, path, c)
    case Failure(e) => Failure(e)
    case Success(asked) =>
      var begun := asked.(initiatorSigns := [SignTx(keys, asked)]);
      match SignsFor(begun, keys, path)
      case Failure(e) => Failure(e)
      case Success(signs) => Success(begun.(authRequireSigns := signs))
  }

  function Signers(self: AK, path: AccountPath): seq<AK> {
    match path
    case None => [self]
    case Some(None) => []
    case Some(Some(dirs)) => AKsIn(dirs)
  }

  /** With an account path the requirements and signatures always line up, one AK each.
      Without one, they line up exactly when the payer is named by the initiator's address. */
  lemma AuthorizeAligns(tx: Tx, from: string, self: AK, path: AccountPath, c: Chain)
    requires self.keys.Some?
    requires Authorize(tx, from, self.keys.value, path, c).Success?
    ensures Aligned(Authorize(tx, from, self.keys.value, path, c).value, Signers(self, path))
            <==> path.Some? || Names(from, self.address)
  {
    var tx' := Authorize(tx, from, self.keys.value, path, c).value;
    var signers := Signers(self, path);
    match path {
      case None =>
        assert AuthorizedAt(tx', 0, self) <==> Names(from, self.address);
        assert signers[0] == self;
      case Some(None) =>
      case Some(Some(dirs)) =>
        forall i | 0 <= i < |signers|
          ensures AuthorizedAt(tx', i, signers[i])
        {
          NamesAfterAccount(from, signers[i].address);
        }
    }
  }

  /** The account directory, if one is named, can be read, and so can the keys of all its AKs. */
  predicate CanAuthorize(path: AccountPath) {
    path.Some? ==> path.value.Some? && forall d :: d in path.value.value && IsAKDir(d) ==> d.keys.Some?
  }

  /** What both lists hold for an account: for every AK directory of the path, in order, "account/address"
      and a signature made with the keys kept there. */
  ghost predicate AuthorizedByAll(tx: Tx, from: string, dirs: seq<DirEntry>, index: seq<nat>) {
    && Picks(index, |dirs|, AKDirAt(dirs)) && |tx.authRequire| == |tx.authRequireSigns| == |index|
    && forall k :: 0 <= k < |index| ==>
         var d := dirs[index[k]];
         && d.address.Some? && d.keys.Some?
         && tx.authRequire[k] == from + "/" + d.address.value
         && tx.authRequireSigns[k] == SignTx(d.keys.value, tx)
  }

  /** Authorization in full. It succeeds exactly when the node pre-executes and the directory can be read. The
      initiator signs for itself; for a payer without a path it signs once more, and for an
      account every AK directory of the path is asked for and signs. */
  lemma AuthorizeExact(tx: Tx, from: string, keys: KeyPair, path: AccountPath, c: Chain) returns (index: seq<nat>)
    ensures Authorize(tx, from, keys, path, c).Success? <==> c.preExecutes && CanAuthorize(path)
    ensures Authorize(tx, from, keys, path, c).Success? ==>
              var a := Authorize(tx, from, keys, path, c).value;
              && a.inputs == tx.inputs && a.outputs == tx.outputs && a.initiator == tx.initiator
              && a.initiatorSigns == [SignTx(keys, a)]
              && (path.None? ==> a.authRequire == [from] && a.authRequireSigns == [SignTx(keys, a)])
              && (path.Some? ==> path.value.Some? && AuthorizedByAll(a, from, path.value.value, index))
  {
    index := [];
    if path.Some? && path.value.Some? {
      var dirs := path.value.value;
      index := AKsExact(dirs);
      var aks := AKsIn(dirs);
      KeysReadable(dirs, index);
      if Authorize(tx, from, keys, path, c).Success? {
        var a := Authorize(tx, from, keys, path, c).value;
        assert a.authRequire == RequirementsFrom(from, aks);
        assert forall k :: 0 <= k < |aks| ==>
                 aks[k].keys.Some? && a.authRequireSigns[k] == SignTx(aks[k].keys.value, a);
      }
    }
  }

  lemma KeysReadable(dirs: seq<DirEntry>, index: seq<nat>)
    requires Picks(index, |dirs|, AKDirAt(dirs)) && |index| == |AKsIn(dirs)|
    requires forall k :: 0 <= k < |index| ==>
               IsAKDir(dirs[index[k]]) && AKsIn(dirs)[k] == AK(dirs[index[k]].address.value, dirs[index[k]].keys)
    ensures (forall k :: 0 <= k < |AKsIn(dirs)| ==> AKsIn(dirs)[k].keys.Some?)
            <==> forall d :: d in dirs && IsAKDir(d) ==> d.keys.Some?
  {
    if forall k :: 0 <= k < |AKsIn(dirs)| ==> AKsIn(dirs)[k].keys.Some? {
      forall d | d in dirs && IsAKDir(d)
        ensures d.keys.Some?
      {
        var i: nat :| i < |dirs| && dirs[i] == d;
        assert AKDirAt(dirs)(i);
        var k :| 0 <= k < |index| && index[k] == i;
        assert AKsIn(dirs)[k].keys.Some?;
      }
    }
  }

  // ---------- transactions that others will sign ----------

  function NonEmpty(lines: seq<string>): seq<string> {
    if lines == [] then []
    else
      var last := lines[|lines| - 1];
      NonEmpty(lines[..|lines| - 1]) + if last == "" then [] else [last]
  }

  /** The transaction asks for everyone in the address file, whatever it asked for before. */
  function AskAll(tx: Tx, addrFile: Option<seq<string>>): Result<Tx, Error> {
    match addrFile
    case None => Failure(ErrFile)
    case Some(lines) => Success(tx.(authRequire := NonEmpty(lines)))
  }

  /** GenAuthRequire over the lines of a file, and its result put into the transaction. */
  method GenAuthRequire(tx: Tx, addrFile: Option<seq<string>>) returns (r: Result<Tx, Error>)
    ensures r == AskAll(tx, addrFile)
  {
    if addrFile.None? {
      return Failure(ErrFile);
    }
    var lines := addrFile.value;
    var addrs: seq<string> := [];
    for i := 0 to |lines|
      invariant addrs == NonEmpty(lines[..i])
    {
      assert lines[..i + 1][..i] == lines[..i];
      if lines[i] == "" {
        assert addrs + [] == addrs;
        continue;
      }
      addrs := addrs + [lines[i]];
    }
    assert lines[..|lines|] == lines;
    return Success(tx.(authRequire := addrs));
  }

  function GivenAt(lines: seq<string>): nat -> bool {
    (i: nat) => i < |lines| && lines[i] != ""
  }

  /** Exactly the lines that are not empty are asked for, in their order. */
  lemma {:induction false} AddressLinesExact(lines: seq<string>) returns (index: seq<nat>)
    ensures Picks(index, |lines|, GivenAt(lines)) && |index| == |NonEmpty(lines)|
    ensures forall k :: 0 <= k < |index| ==> index[k] < |lines| && NonEmpty(lines)[k] == lines[index[k]]
  {
    hide Picks;
    if lines == [] {
      index := [];
      PickNone(GivenAt(lines));
    } else {
      var n := |lines| - 1;
      index := AddressLinesExact(lines[..n]);
      PickMore(index, n, GivenAt(lines[..n]), GivenAt(lines));
      if lines[n] != "" {
        index := index + [n];
      }
    }
  }

  // ---------- SendTx of comm_trans.go ----------

  function OwnRequirement(t: CommTrans): string {
    if t.from != "" then t.from + "/" + t.address else t.address
  }

  /** The requirement is appended first, then one signature serves as both lists. */
  function SignedByOwner(t: CommTrans, tx: Tx): Tx {
    var asked := tx.(authRequire := tx.authRequire + [OwnRequirement(t)]);
    asked.(initiatorSigns := [SignTx(t.keys, asked)], authRequireSigns := [SignTx(t.keys, asked)])
  }

  method SendTx(t: CommTrans, rawTx: Tx) returns (tx: Tx, txid: TxId)
    ensures tx == SignedByOwner(t, rawTx)
    ensures txid == TxId(tx)
  {
    tx := rawTx;
    var authRequire := t.address;
    if t.from != "" {
      authRequire := t.from + "/" + t.address;
    }
    tx := tx.(authRequire := tx.authRequire + [authRequire]);
    var signInfos := [SignTx(t.keys, tx)];
    tx := tx.(initiatorSigns := signInfos);
    tx := tx.(authRequireSigns := signInfos);
    txid := TxId(tx);
  }

  function OwnAK(t: CommTrans): AK { AK(t.address, Some(t.keys)) }

  lemma OwnRequirementNames(t: CommTrans)
    ensures Names(OwnRequirement(t), t.address)
  {
    if t.from != "" {
      NamesAfterAccount(t.from, t.address);
    }
  }

  /** A transaction built without requirements leaves SendTx aligned, for an address
      and for an account alike, and moves the same value. */
  lemma SendAligns(t: CommTrans, tx: Tx)
    requires tx.authRequire == []
    ensures Aligned(SignedByOwner(t, tx), [OwnAK(t)])
    ensures SignedByOwner(t, tx).authRequire == [if t.from != "" then t.from + "/" + t.address else t.address]
    ensures SignedByOwner(t, tx).initiatorSigns == [SignTx(t.keys, SignedByOwner(t, tx))]
    ensures SignedByOwner(t, tx).inputs == tx.inputs && SignedByOwner(t, tx).outputs == tx.outputs
  {
    OwnRequirementNames(t);
    assert [] + [OwnRequirement(t)] == [OwnRequirement(t)];
    assert AuthorizedAt(SignedByOwner(t, tx), 0, OwnAK(t));
  }
}
