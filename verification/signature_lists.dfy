/** The signature lists of a transaction as Go slices. GenRealTx assigns ONE slice to both
    InitiatorSigns and AuthRequireSigns, and GenCompleteTxAndPost then appends to the second. */
module SignatureLists {

  import opened Pb
  import opened CommonTransactions
  import opened Compliance
  import opened ComplianceArithmetic

  /** A Go slice: the first `len` elements of a backing array that others may share. */
  datatype Slice = Slice(backing: array<SignatureInfo>, len: nat)

  predicate Fits(s: Slice) {
    s.len <= s.backing.Length
  }

  function View(s: Slice): seq<SignatureInfo>
    requires Fits(s)
    reads s.backing
  {
    s.backing[..s.len]
  }

  /** append: into the spare capacity of the shared array if there is some, else into a
      larger copy. Either way the elements before `len` stay what they were. */
  method Append(s: Slice, x: SignatureInfo) returns (r: Slice)
    requires Fits(s)
    modifies s.backing
    ensures Fits(r) && View(r) == old(View(s)) + [x]
    ensures View(s) == old(View(s))
    ensures if s.len < s.backing.Length then r.backing == s.backing else fresh(r.backing)
  {
    if s.len < s.backing.Length {
      s.backing[s.len] := x;
      assert s.backing[..s.len + 1] == s.backing[..s.len] + [x];
      r := Slice(s.backing, s.len + 1);
    } else {
      var bigger := new SignatureInfo[2 * s.len + 1](_ => x);
      for i := 0 to s.len
        invariant s.backing[..] == old(s.backing[..])
        invariant forall k :: 0 <= k < i ==> bigger[k] == s.backing[k]
        invariant bigger[s.len] == x
      {
        bigger[i] := s.backing[i];
      }
      assert bigger[..s.len + 1] == s.backing[..s.len] + [x];
      r := Slice(bigger, s.len + 1);
    }
  }

  /** With one slice serving as both lists, the endorser's signature arrives in the second
      list only, whatever capacity the slice has. */
  method EndorseShared(signInfos: Slice, sign: SignatureInfo) returns (initiatorSigns: Slice, authRequireSigns: Slice)
    requires Fits(signInfos)
    modifies signInfos.backing
    ensures Fits(initiatorSigns) && View(initiatorSigns) == old(View(signInfos))
    ensures Fits(authRequireSigns) && View(authRequireSigns) == old(View(signInfos)) + [sign]
  {
    initiatorSigns := signInfos;
    authRequireSigns := signInfos;
    authRequireSigns := Append(authRequireSigns, sign);
  }

  /** The lists of the endorsed real transaction are the ones its value form has. */
  method EndorseReal(t: CommTrans, response: InvokeResponse, f: Tx, nonce: string, sign: SignatureInfo)
    returns (initiatorSigns: Slice, authRequireSigns: Slice)
    requires RealTx(t, response, f, nonce).Success?
    ensures var endorsed := WithEndorsement(RealTx(t, response, f, nonce).value, sign);
            && Fits(initiatorSigns) && View(initiatorSigns) == endorsed.initiatorSigns
            && Fits(authRequireSigns) && View(authRequireSigns) == endorsed.authRequireSigns
  {
    var tx := RealTx(t, response, f, nonce).value;
    var literal := new SignatureInfo[1](_ => SignTx(t.keys, tx));
    assert literal[..1] == [SignTx(t.keys, tx)];
    initiatorSigns, authRequireSigns := EndorseShared(Slice(literal, 1), sign);
  }
}
