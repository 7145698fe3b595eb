/** The messages of service/pb/xchain.proto that carry value or authorization. */
module Pb {

  import opened Wrappers
  import opened Amounts

  datatype TxOutput = TxOutput(toAddr: string, amount: seq<Byte>, frozenHeight: int)

  datatype TxInput = TxInput(refTxid: TxId, refOffset: int, fromAddr: string, amount: seq<Byte>)

  datatype KeyPair = KeyPair(publicKey: string, secretKey: string)

  /** An ideal signature: it names the secret key and the exact content signed. */
  datatype Signature = Signature(secretKey: string, digest: Tx)

  datatype SignatureInfo = SignatureInfo(publicKey: string, sign: Signature)

  datatype Tx = Tx(
    inputs: seq<TxInput>,
    outputs: seq<TxOutput>,
    initiator: string,
    authRequire: seq<string>,
    initiatorSigns: seq<SignatureInfo>,
    authRequireSigns: seq<SignatureInfo>,
    nonce: string,
    xuperSign: Option<XuperSignature> := None)

  /** One signature combined from those of several parties. */
  datatype XuperSignature = XuperSignature(publicKeys: seq<string>, signature: seq<Byte>)

  /** An ideal hash: equal transaction ids mean equal transactions. */
  datatype TxId = TxId(tx: Tx)

  datatype Utxo = Utxo(refTxid: TxId, refOffset: int, toAddr: string, amount: seq<Byte>)

  datatype UtxoOutput = UtxoOutput(utxoList: seq<Utxo>, totalSelected: string)

  /** An ideal signature of a lock message, whose hash is the message itself. */
  datatype LockSign = LockSign(secretKey: int, message: string)

  /** A request for unspent outputs; totalNeed is a decimal string. */
  datatype UtxoInput = UtxoInput(
    bcname: string,
    address: string,
    totalNeed: string,
    needLock: bool,
    publickey: string,
    userSign: Option<LockSign>)

  /** The reply to a UtxoInput; Refused stands for a transport error or an error code. */
  datatype SelectReply = Selected(out: UtxoOutput) | Refused

  /** The part of a pre-execution result that moves value; `failed` if some contract
      returned an error status. */
  datatype InvokeResponse = InvokeResponse(
    gasUsed: int,
    utxoInputs: seq<TxInput>,
    utxoOutputs: seq<TxOutput>,
    failed: bool := false)

  // ---------- signing ----------

  /** The content that a signature covers: the transaction without its signatures. */
  function DigestOf(tx: Tx): Tx {
    tx.(initiatorSigns := [], authRequireSigns := [], xuperSign := None)
  }

  /** KeyPair.SignTx. */
  function SignTx(k: KeyPair, tx: Tx): SignatureInfo {
    SignatureInfo(k.publicKey, Signature(k.secretKey, DigestOf(tx)))
  }

  /** Two signatures agree exactly when they come from the same keys and the two transactions agree
      in everything but their signatures: value, parties, requirements and nonce. */
  lemma SignatureCovers(k: KeyPair, a: Tx, k': KeyPair, b: Tx)
    ensures SignTx(k, a) == SignTx(k', b)
            <==> && k == k' && a.inputs == b.inputs && a.outputs == b.outputs && a.initiator == b.initiator
                 && a.authRequire == b.authRequire && a.nonce == b.nonce
  {
  }

  // ---------- sums of encoded amounts ----------

  function Sum(amounts: seq<seq<Byte>>): nat {
    if amounts == [] then 0 else Sum(amounts[..|amounts| - 1]) + SetBytes(amounts[|amounts| - 1])
  }

  function InAmounts(s: seq<TxInput>): seq<seq<Byte>> {
    seq(|s|, i requires 0 <= i < |s| => s[i].amount)
  }

  function OutAmounts(s: seq<TxOutput>): seq<seq<Byte>> {
    seq(|s|, i requires 0 <= i < |s| => s[i].amount)
  }

  function UtxoAmounts(s: seq<Utxo>): seq<seq<Byte>> {
    seq(|s|, i requires 0 <= i < |s| => s[i].amount)
  }

  function SumInputs(s: seq<TxInput>): nat { Sum(InAmounts(s)) }

  function SumOutputs(s: seq<TxOutput>): nat { Sum(OutAmounts(s)) }

  function SumUtxos(s: seq<Utxo>): nat { Sum(UtxoAmounts(s)) }

  /** What a transaction consumes is what it creates. */
  predicate Balanced(tx: Tx) {
    SumInputs(tx.inputs) == SumOutputs(tx.outputs)
  }

  lemma {:induction false} SumAppend(a: seq<seq<Byte>>, b: seq<seq<Byte>>)
    ensures Sum(a + b) == Sum(a) + Sum(b)
  {
    if b == [] {
      assert a + b == a;
    } else {
      var front := b[..|b| - 1];
      assert (a + b)[..|a + b| - 1] == a + front;
      SumAppend(a, front);
    }
  }

  lemma SumOutputsAppend(a: seq<TxOutput>, b: seq<TxOutput>)
    ensures SumOutputs(a + b) == SumOutputs(a) + SumOutputs(b)
  {
    assert OutAmounts(a + b) == OutAmounts(a) + OutAmounts(b);
    SumAppend(OutAmounts(a), OutAmounts(b));
  }

  lemma SumInputsAppend(a: seq<TxInput>, b: seq<TxInput>)
    ensures SumInputs(a + b) == SumInputs(a) + SumInputs(b)
  {
    assert InAmounts(a + b) == InAmounts(a) + InAmounts(b);
    SumAppend(InAmounts(a), InAmounts(b));
  }

  lemma SumUtxosAppend(a: seq<Utxo>, b: seq<Utxo>)
    ensures SumUtxos(a + b) == SumUtxos(a) + SumUtxos(b)
  {
    assert UtxoAmounts(a + b) == UtxoAmounts(a) + UtxoAmounts(b);
    SumAppend(UtxoAmounts(a), UtxoAmounts(b));
  }

  lemma SumOutputsOne(o: TxOutput)
    ensures SumOutputs([o]) == SetBytes(o.amount)
  {
    assert OutAmounts([o]) == [o.amount];
    assert Sum([o.amount][..0]) == 0;
  }

  lemma SumInputsOne(i: TxInput)
    ensures SumInputs([i]) == SetBytes(i.amount)
  {
    assert InAmounts([i]) == [i.amount];
    assert Sum([i.amount][..0]) == 0;
  }

  lemma SumUtxosOne(u: Utxo)
    ensures SumUtxos([u]) == SetBytes(u.amount)
  {
    assert UtxoAmounts([u]) == [u.amount];
    assert Sum([u.amount][..0]) == 0;
  }

  // ---------- inputs from utxos ----------

  function InputOf(u: Utxo): TxInput {
    TxInput(u.refTxid, u.refOffset, u.toAddr, u.amount)
  }

  /** The inputs that spend the listed outputs, in the order listed. */
  function InputsOf(list: seq<Utxo>): seq<TxInput> {
    seq(|list|, i requires 0 <= i < |list| => InputOf(list[i]))
  }

  lemma SumInputsOf(list: seq<Utxo>)
    ensures SumInputs(InputsOf(list)) == SumUtxos(list)
  {
    assert InAmounts(InputsOf(list)) == UtxoAmounts(list);
  }
}
