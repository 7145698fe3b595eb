/** Partial signatures: who gets which index (cmd/client/cmd/multisig_sign.go), and how the
    sender places them (cmd/client/cmd/multisig_send.go). */
module Multisig {

  import opened Wrappers
  import opened Amounts

  datatype Error = ErrKey | ErrNotFound | ErrParties | ErrFileCount | ErrFile | ErrIndex | IndexOutOfRange

  type ByteString = seq<Byte>

  datatype MultisigData = MultisigData(kList: seq<ByteString>, pubKeys: seq<string>)

  datatype PartialSign = PartialSign(si: ByteString, index: int)

  // ---------- findKFromKList ----------

  /** The first listed key with this address, if any. Keys that do not parse are passed over. */
  function FirstWith(keys: seq<string>, addressOf: string -> Option<string>, address: string): Option<nat> {
    if keys == [] then None
    else if addressOf(keys[0]) == Some(address) then Some(0)
    else
      match FirstWith(keys[1..], addressOf, address)
      case None => None
      case Some(i) => Some(i + 1)
  }

  /** The keys that the loop over kList can look at. */
  function Listed(msd: MultisigData): seq<string> {
    if |msd.pubKeys| <= |msd.kList| then msd.pubKeys else msd.pubKeys[..|msd.kList|]
  }

  /** The loop runs over kList and indexes the public keys: without a match it ends past
      their end if there are fewer of them. */
  function FindK(msd: MultisigData, pub: string, addressOf: string -> Option<string>)
    : Result<(ByteString, nat), Error>
  {
    match addressOf(pub)
    case None => Failure(ErrKey)
    case Some(address) =>
      FirstWithInRange(Listed(msd), addressOf, address);
      match FirstWith(Listed(msd), addressOf, address)
      case Some(i) => Success((msd.kList[i], i))
      case None => if |msd.pubKeys| < |msd.kList| then Failure(IndexOutOfRange) else Failure(ErrNotFound)
  }

  lemma {:induction false} FirstWithInRange(keys: seq<string>, addressOf: string -> Option<string>, address: string)
    ensures FirstWith(keys, addressOf, address).Some? ==> FirstWith(keys, addressOf, address).value < |keys|
  {
    if keys != [] {
      FirstWithInRange(keys[1..], addressOf, address);
    }
  }

  method FindKFromKList(msd: MultisigData, pub: string, addressOf: string -> Option<string>)
    returns (r: Result<(ByteString, nat), Error>)
    ensures r == FindK(msd, pub, addressOf)
  {
    var addr := addressOf(pub);
    if addr.None? {
      return Failure(ErrKey);
    }
    ghost var keys := Listed(msd);
    for idx := 0 to |msd.kList|
      invariant idx <= |keys|
      invariant FirstWith(keys, addressOf, addr.value)
                == match FirstWith(keys[idx..], addressOf, addr.value)
                   case None => None
                   case Some(i) => Some(i + idx)
    {
      if idx >= |msd.pubKeys| {
        return Failure(IndexOutOfRange);
      }
      assert keys[idx] == msd.pubKeys[idx];
      assert keys[idx..][1..] == keys[idx + 1..];
      var tmpaddr := addressOf(msd.pubKeys[idx]);
      if tmpaddr.None? {
        continue;
      }
      if addr.value == tmpaddr.value {
        return Success((msd.kList[idx], idx));
      }
    }
    return Failure(ErrNotFound);
  }

  lemma {:induction false} FirstWithIsFirst(keys: seq<string>, addressOf: string -> Option<string>, address: string)
    ensures match FirstWith(keys, addressOf, address)
            case None => forall k :: 0 <= k < |keys| ==> addressOf(keys[k]) != Some(address)
            case Some(i) =>
              && i < |keys| && addressOf(keys[i]) == Some(address)
              && forall k :: 0 <= k < i ==> addressOf(keys[k]) != Some(address)
  {
    if keys != [] {
      FirstWithIsFirst(keys[1..], addressOf, address);
      assert forall k :: 0 < k < |keys| ==> keys[k] == keys[1..][k - 1];
    }
  }

  /** Exactly the signers whose address some listed key has are found, at the first such key; the others
      get an error, an index past the end of the public keys if there are too few of them. */
  lemma FindKIff(msd: MultisigData, pub: string, addressOf: string -> Option<string>)
    ensures var found := (i: nat) =>
              i < |msd.kList| && i < |msd.pubKeys| && addressOf(msd.pubKeys[i]) == addressOf(pub);
            && (FindK(msd, pub, addressOf).Success? <==> addressOf(pub).Some? && exists i: nat :: found(i))
            && (FindK(msd, pub, addressOf).Success? ==>
                  var (k, i) := FindK(msd, pub, addressOf).value;
                  found(i) && k == msd.kList[i] && forall j: nat :: j < i ==> !found(j))
            && (FindK(msd, pub, addressOf) == Failure(IndexOutOfRange)
                <==> addressOf(pub).Some? && |msd.pubKeys| < |msd.kList| && !exists i: nat :: found(i))
  {
    var keys := Listed(msd);
    assert forall i :: 0 <= i < |keys| ==> keys[i] == msd.pubKeys[i];
    if addressOf(pub).Some? {
      FirstWithIsFirst(keys, addressOf, addressOf(pub).value);
      var found := (i: nat) => i < |msd.kList| && i < |msd.pubKeys| && addressOf(msd.pubKeys[i]) == addressOf(pub);
      match FirstWith(keys, addressOf, addressOf(pub).value) {
        case Some(i) => assert found(i);
        case None => assert forall i: nat :: i < |keys| ==> keys[i] == msd.pubKeys[i] && !found(i);
      }
    }
  }

  /** The listed keys all parse, to different addresses. */
  ghost predicate DistinctKeys(keys: seq<string>, addressOf: string -> Option<string>) {
    && (forall i :: 0 <= i < |keys| ==> addressOf(keys[i]).Some?)
    && (forall i, j :: 0 <= i < j < |keys| ==> addressOf(keys[i]) != addressOf(keys[j]))
  }

  /** Then every party finds its own place: listed key i gets random value i and index i. */
  lemma EachFindsItself(msd: MultisigData, addressOf: string -> Option<string>, i: nat)
    requires |msd.kList| == |msd.pubKeys| && DistinctKeys(msd.pubKeys, addressOf) && i < |msd.pubKeys|
    ensures FindK(msd, msd.pubKeys[i], addressOf) == Success((msd.kList[i], i))
  {
    FirstWithIsFirst(msd.pubKeys, addressOf, addressOf(msd.pubKeys[i]).value);
  }

  // ---------- placing the partial signatures ----------

  /** The first file that cannot be used decides the error; a file is None if it does not load. */
  function PlaceError(files: seq<Option<PartialSign>>, n: int): Option<Error> {
    if files == [] then None
    else if PlaceError(files[..|files| - 1], n).Some? then PlaceError(files[..|files| - 1], n)
    else
      match files[|files| - 1]
      case None => Some(ErrFile)
      case Some(psi) => if psi.index > n - 1 || psi.index < 0 then Some(ErrIndex) else None
  }

  ghost predicate Usable(files: seq<Option<PartialSign>>, n: int) {
    forall k :: 0 <= k < |files| ==> files[k].Some? && 0 <= files[k].value.index < n
  }

  lemma {:induction false} PlaceErrorIff(files: seq<Option<PartialSign>>, n: int)
    ensures PlaceError(files, n) == None <==> Usable(files, n)
  {
    if files != [] {
      PlaceErrorIff(files[..|files| - 1], n);
    }
  }

  /** And the first unusable file decides which error it is. */
  lemma {:induction false} PlaceErrorIsFirst(files: seq<Option<PartialSign>>, n: int)
    ensures PlaceError(files, n).Some? ==>
              exists k :: && 0 <= k < |files| && Usable(files[..k], n) && !Usable(files[..k + 1], n)
                          && PlaceError(files, n) == Some(if files[k].None? then ErrFile else ErrIndex)
  {
    if files != [] {
      var front := files[..|files| - 1];
      PlaceErrorIsFirst(front, n);
      PlaceErrorIff(front, n);
      if PlaceError(front, n).Some? {
        var k :| && 0 <= k < |front| && Usable(front[..k], n) && !Usable(front[..k + 1], n)
                 && PlaceError(front, n) == Some(if front[k].None? then ErrFile else ErrIndex);
        assert front[..k] == files[..k] && front[..k + 1] == files[..k + 1];
      } else if PlaceError(files, n).Some? {
        assert files[..|files| - 1 + 1] == files;
        PlaceErrorIff(files, n);
      }
    }
  }

  lemma {:induction false} FirstErrorStays(files: seq<Option<PartialSign>>, n: int, k: nat)
    requires k <= |files| && PlaceError(files[..k], n).Some?
    ensures PlaceError(files, n) == PlaceError(files[..k], n)
    decreases |files| - k
  {
    if k == |files| {
      assert files[..k] == files;
    } else {
      assert files[..k + 1][..k] == files[..k];
      FirstErrorStays(files, n, k + 1);
    }
  }

  /** Slot j after placing the files in order: the last one with that index, nil if there is none. */
  function Slot(files: seq<Option<PartialSign>>, j: int): Option<ByteString> {
    if files == [] then None
    else
      match files[|files| - 1]
      case Some(psi) => if psi.index == j then Some(psi.si) else Slot(files[..|files| - 1], j)
      case None => Slot(files[..|files| - 1], j)
  }

  ghost predicate GoesTo(file: Option<PartialSign>, j: int) {
    file.Some? && file.value.index == j
  }

  /** A slot is filled by the last file for it, and is nil exactly when there is none. */
  lemma {:induction false} SlotIsLast(files: seq<Option<PartialSign>>, j: int)
    ensures Slot(files, j) == None <==> forall k :: 0 <= k < |files| ==> !GoesTo(files[k], j)
    ensures Slot(files, j).Some? ==>
              exists k :: && 0 <= k < |files| && GoesTo(files[k], j) && Slot(files, j) == Some(files[k].value.si)
                          && forall k' :: k < k' < |files| ==> !GoesTo(files[k'], j)
  {
    if files != [] {
      var front := files[..|files| - 1];
      if GoesTo(files[|files| - 1], j) {
        assert Slot(files, j) == Some(files[|files| - 1].value.si);
      } else {
        SlotIsLast(front, j);
        assert forall k :: 0 <= k < |front| ==> front[k] == files[k];
      }
    }
  }

  /** The part of sendXuper up to the filled list; a nil slot is None. */
  method PlaceSigns(msd: MultisigData, signFiles: seq<Option<PartialSign>>)
    returns (err: Option<Error>, siList: array<Option<ByteString>>)
    ensures fresh(siList)
    ensures var n := |msd.kList|;
            err == if n <= 1 then Some(ErrParties)
                   else if |signFiles| != n then Some(ErrFileCount)
                   else PlaceError(signFiles, n)
    ensures err == None ==>
              && siList.Length == |msd.kList|
              && forall j :: 0 <= j < siList.Length ==> siList[j] == Slot(signFiles, j)
  {
    var needLen := |msd.kList|;
    siList := new Option<ByteString>[needLen](_ => None);
    if needLen <= 1 {
      return Some(ErrParties), siList;
    }
    if |signFiles| != needLen {
      return Some(ErrFileCount), siList;
    }
    var k := 0;
    while k < |signFiles|
      invariant 0 <= k <= |signFiles|
      invariant fresh(siList) && siList.Length == needLen
      invariant PlaceError(signFiles[..k], needLen) == None
      invariant forall j :: 0 <= j < needLen ==> siList[j] == Slot(signFiles[..k], j)
    {
      assert signFiles[..k + 1][..k] == signFiles[..k];
      var file := signFiles[k];
      if file.None? {
        FirstErrorStays(signFiles, needLen, k + 1);
        return Some(ErrFile), siList;
      }
      var psi := file.value;
      if psi.index > needLen - 1 || psi.index < 0 {
        FirstErrorStays(signFiles, needLen, k + 1);
        return Some(ErrIndex), siList;
      }
      siList[psi.index] := Some(psi.si);
      k := k + 1;
    }
    assert signFiles[..|signFiles|] == signFiles;
    err := None;
  }

  // ---------- when every slot is filled ----------

  ghost predicate DistinctIndices(files: seq<Option<PartialSign>>)
    requires forall k :: 0 <= k < |files| ==> files[k].Some?
  {
    forall i, j :: 0 <= i < j < |files| ==> files[i].value.index != files[j].value.index
  }

  lemma {:induction false} SlotOfDistinct(files: seq<Option<PartialSign>>, k: nat)
    requires (forall i :: 0 <= i < |files| ==> files[i].Some?) && DistinctIndices(files) && k < |files|
    ensures Slot(files, files[k].value.index) == Some(files[k].value.si)
  {
    if k < |files| - 1 {
      assert files[k].value.index != files[|files| - 1].value.index;
      SlotOfDistinct(files[..|files| - 1], k);
    }
  }

  lemma {:induction false} SlotComesFromFile(files: seq<Option<PartialSign>>, j: int)
    requires forall k :: 0 <= k < |files| ==> files[k].Some?
    ensures Slot(files, j).Some? ==>
              exists k :: 0 <= k < |files| && files[k].value.index == j && Slot(files, j) == Some(files[k].value.si)
  {
    if files != [] && files[|files| - 1].value.index != j {
      SlotComesFromFile(files[..|files| - 1], j);
    }
  }

  function Indices(files: seq<Option<PartialSign>>): set<int> {
    set k | 0 <= k < |files| && files[k].Some? :: files[k].value.index
  }

  function Below(n: nat): (r: set<int>)
    ensures forall j :: j in r <==> 0 <= j < n
    ensures |r| == n
  {
    if n == 0 then {} else Below(n - 1) + {n - 1}
  }

  /** The set of indices has as many elements as there are files exactly when no two agree. */
  lemma {:induction false} IndicesSize(files: seq<Option<PartialSign>>)
    requires forall k :: 0 <= k < |files| ==> files[k].Some?
    ensures |Indices(files)| <= |files|
    ensures |Indices(files)| == |files| <==> DistinctIndices(files)
  {
    if files == [] {
      assert Indices(files) == {};
    } else {
      hide Indices, DistinctIndices;
      IndicesSize(files[..|files| - 1]);
      OneMoreIndex(files);
    }
  }

  lemma OneMoreIndex(files: seq<Option<PartialSign>>)
    requires files != [] && forall k :: 0 <= k < |files| ==> files[k].Some?
    ensures var front, last := files[..|files| - 1], files[|files| - 1].value.index;
            && Indices(files) == Indices(front) + {last}
            && (DistinctIndices(files) <==> DistinctIndices(front) && last !in Indices(front))
  {
    var front, last := files[..|files| - 1], files[|files| - 1].value.index;
    assert last in Indices(files);
    assert forall k :: 0 <= k < |front| ==> front[k] == files[k] && front[k].value.index in Indices(front);
  }

  ghost predicate AllFilled(files: seq<Option<PartialSign>>, n: nat) {
    forall j :: 0 <= j < n ==> Slot(files, j).Some?
  }

  lemma DistinctFills(files: seq<Option<PartialSign>>, n: nat)
    requires Usable(files, n) && |files| == n && DistinctIndices(files)
    ensures AllFilled(files, n)
  {
    IndicesSize(files);
    EqualBySize(Indices(files), Below(n));
    forall j | 0 <= j < n
      ensures Slot(files, j).Some?
    {
      assert j in Below(n);
      var k :| 0 <= k < |files| && files[k].value.index == j;
      SlotOfDistinct(files, k);
    }
  }

  lemma FilledIsDistinct(files: seq<Option<PartialSign>>, n: nat)
    requires Usable(files, n) && |files| == n && AllFilled(files, n)
    ensures DistinctIndices(files)
  {
    forall j | j in Below(n)
      ensures j in Indices(files)
    {
      SlotComesFromFile(files, j);
      var k :| 0 <= k < |files| && files[k].value.index == j;
      assert files[k].value.index in Indices(files);
    }
    assert Indices(files) == Below(n);
    IndicesSize(files);
  }

  /** As many usable files as parties fill every slot if and only if no two carry the same index. */
  lemma AllSlotsFilledIff(files: seq<Option<PartialSign>>, n: nat)
    requires Usable(files, n) && |files| == n
    ensures AllFilled(files, n) <==> DistinctIndices(files)
  {
    if DistinctIndices(files) {
      DistinctFills(files, n);
    }
    if AllFilled(files, n) {
      FilledIsDistinct(files, n);
    }
  }

  lemma EqualBySize(a: set<int>, b: set<int>)
    requires a <= b && |a| == |b|
    ensures a == b
  {
    assert b == a + (b - a);
    assert |b| == |a| + |b - a|;
    assert b - a == {};
  }

  /** With distinct indices the result does not depend on the order of the files. */
  lemma OrderIsIrrelevant(files: seq<Option<PartialSign>>, other: seq<Option<PartialSign>>, n: nat, j: int)
    requires Usable(files, n) && Usable(other, n)
    requires DistinctIndices(files) && multiset(files) == multiset(other)
    ensures Slot(files, j) == Slot(other, j)
  {
    SlotComesFromFile(files, j);
    SlotComesFromFile(other, j);
    if Slot(other, j).Some? {
      var k :| 0 <= k < |other| && other[k].value.index == j && Slot(other, j) == Some(other[k].value.si);
      assert other[k] in multiset(files);
      var i :| 0 <= i < |files| && files[i] == other[k];
      SlotOfDistinct(files, i);
    } else if Slot(files, j).Some? {
      var k :| 0 <= k < |files| && files[k].value.index == j;
      assert files[k] in multiset(other);
      var i :| 0 <= i < |other| && other[i] == files[k];
      SlotHit(other, i);
    }
  }

  lemma {:induction false} SlotHit(files: seq<Option<PartialSign>>, i: nat)
    requires i < |files| && files[i].Some?
    ensures Slot(files, files[i].value.index).Some?
  {
    if i < |files| - 1 {
      SlotHit(files[..|files| - 1], i);
    }
  }

  /** The whole round: the listed parties each sign once with the index they find, and
      hand in their files in any order; slot i then holds what party i signed. */
  lemma RoundFillsEverySlot(msd: MultisigData, addressOf: string -> Option<string>, sis: seq<ByteString>,
                            files: seq<Option<PartialSign>>)
    requires |msd.kList| == |msd.pubKeys| == |sis| && DistinctKeys(msd.pubKeys, addressOf)
    requires multiset(files) == multiset(InKeyOrder(msd, addressOf, sis))
    ensures |files| == |msd.kList| && PlaceError(files, |msd.kList|) == None
    ensures forall i :: 0 <= i < |msd.kList| ==> Slot(files, i) == Some(sis[i])
  {
    var ordered, n := InKeyOrder(msd, addressOf, sis), |msd.kList|;
    assert |files| == |multiset(files)| == |ordered|;
    forall i | 0 <= i < n
      ensures ordered[i] == Some(PartialSign(sis[i], i))
    {
      EachFindsItself(msd, addressOf, i);
    }
    forall k | 0 <= k < |files|
      ensures files[k].Some? && 0 <= files[k].value.index < n
    {
      assert files[k] in multiset(ordered);
    }
    PlaceErrorIff(files, n);
    forall i | 0 <= i < n
      ensures Slot(files, i) == Some(sis[i])
    {
      SlotOfDistinct(ordered, i);
      OrderIsIrrelevant(ordered, files, n, i);
    }
  }

  /** What the parties write, in the order of the listed keys. */
  function InKeyOrder(msd: MultisigData, addressOf: string -> Option<string>, sis: seq<ByteString>)
    : seq<Option<PartialSign>>
    requires |sis| == |msd.pubKeys|
  {
    seq(|sis|, i requires 0 <= i < |sis| => SignMulti(msd, addressOf, msd.pubKeys[i], sis[i]))
  }

  /** signMulti: the party's partial signature under the index that findKFromKList returns. */
  function SignMulti(msd: MultisigData, addressOf: string -> Option<string>, pub: string, si: ByteString)
    : Option<PartialSign>
  {
    match FindK(msd, pub, addressOf)
    case Failure(_) => None
    case Success((_, i)) => Some(PartialSign(si, i))
  }
}
