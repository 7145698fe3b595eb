/** The ledger the transactions are posted to: a map from (txid, offset) to the
    unspent output there. A transaction is accepted only if it is new and its
    inputs name distinct unspent outputs; whether it balances is NOT checked, so
    that conservation has to come from the code that builds the transactions. */
module Ledgers {

  import opened Wrappers
  import opened Amounts
  import opened Pb

  datatype Ref = Ref(txid: TxId, offset: int)

  /** `spent` is the history of all the references ever consumed. */
  datatype Ledger = Ledger(utxos: map<Ref, TxOutput>, accepted: set<TxId>, spent: seq<Ref>)

  predicate Distinct<T(==)>(s: seq<T>) {
    forall i, j :: 0 <= i < j < |s| ==> s[i] != s[j]
  }

  function RefOf(i: TxInput): Ref { Ref(i.refTxid, i.refOffset) }

  function Refs(inputs: seq<TxInput>): (s: seq<Ref>)
    ensures |s| == |inputs|
  {
    seq(|inputs|, i requires 0 <= i < |inputs| => RefOf(inputs[i]))
  }

  predicate Accepts(l: Ledger, tx: Tx) {
    && TxId(tx) !in l.accepted
    && Distinct(Refs(tx.inputs))
    && forall r :: r in Refs(tx.inputs) ==> r in l.utxos
  }

  /** The first n outputs of a transaction as ledger entries. */
  function Created(tx: Tx, n: nat): map<Ref, TxOutput>
    requires n <= |tx.outputs|
  {
    map i | 0 <= i < n :: Ref(TxId(tx), i) := tx.outputs[i]
  }

  function Consumed(l: map<Ref, TxOutput>, refs: seq<Ref>): map<Ref, TxOutput> {
    map r | r in l && r !in refs :: l[r]
  }

  function Post(l: Ledger, tx: Tx): Ledger {
    Ledger(Consumed(l.utxos, Refs(tx.inputs)) + Created(tx, |tx.outputs|),
           l.accepted + {TxId(tx)},
           l.spent + Refs(tx.inputs))
  }

  /** The ledger right after a genesis transaction. */
  function Genesis(g: Tx): Ledger {
    Ledger(Created(g, |g.outputs|), {TxId(g)}, [])
  }

  /** The output that a reference names, whether or not it is still unspent. */
  predicate Exists(r: Ref) {
    0 <= r.offset < |r.txid.tx.outputs|
  }

  function Named(r: Ref): TxOutput
    requires Exists(r)
  {
    r.txid.tx.outputs[r.offset]
  }

  /** An input that states the owner and the amount of the output it names. */
  predicate Truthful(i: TxInput) {
    && Exists(RefOf(i))
    && Named(RefOf(i)).toAddr == i.fromAddr
    && Named(RefOf(i)).amount == i.amount
  }

  ghost predicate AllTruthful(inputs: seq<TxInput>) {
    forall i :: i in inputs ==> Truthful(i)
  }

  /** Inputs and outputs that move value without making or losing any. */
  ghost predicate Even(inputs: seq<TxInput>, outputs: seq<TxOutput>) {
    SumInputs(inputs) == SumOutputs(outputs) && AllTruthful(inputs)
  }

  ghost predicate Sound(tx: Tx) {
    Even(tx.inputs, tx.outputs)
  }

  lemma EvenAppend(ins: seq<TxInput>, outs: seq<TxOutput>, ins': seq<TxInput>, outs': seq<TxOutput>)
    requires Even(ins, outs) && Even(ins', outs')
    ensures Even(ins + ins', outs + outs')
  {
    SumInputsAppend(ins, ins');
    SumOutputsAppend(outs, outs');
  }

  ghost predicate Valid(l: Ledger) {
    && (forall r :: r in l.utxos ==> r.txid in l.accepted && Exists(r) && l.utxos[r] == Named(r))
    && Distinct(l.spent)
    && (forall r :: r in l.spent ==> r.txid in l.accepted && r !in l.utxos)
    && (forall id, i :: id in l.accepted && i in id.tx.inputs ==> i.refTxid in l.accepted)
  }

  // ---------- the total value of a ledger ----------

  ghost function Total(m: map<Ref, TxOutput>): nat {
    if m == map[] then 0
    else
      var r :| r in m;
      SetBytes(m[r].amount) + Total(m - {r})
  }

  lemma {:induction false} TotalRemove(m: map<Ref, TxOutput>, r: Ref)
    requires r in m
    ensures Total(m) == SetBytes(m[r].amount) + Total(m - {r})
    decreases |m|
  {
    var p :| p in m && Total(m) == SetBytes(m[p].amount) + Total(m - {p});
    if p != r {
      TotalRemove(m - {p}, r);
      TotalRemove(m - {r}, p);
      assert m - {p} - {r} == m - {r} - {p};
    }
  }

  lemma {:induction false} TotalConsumed(m: map<Ref, TxOutput>, inputs: seq<TxInput>)
    requires Distinct(Refs(inputs))
    requires forall i :: i in inputs ==> RefOf(i) in m && m[RefOf(i)].amount == i.amount
    ensures Total(m) == Total(Consumed(m, Refs(inputs))) + SumInputs(inputs)
  {
    if inputs == [] {
      assert Consumed(m, Refs(inputs)) == m;
    } else {
      var front, last := inputs[..|inputs| - 1], inputs[|inputs| - 1];
      assert inputs == front + [last];
      assert Refs(inputs) == Refs(front) + [RefOf(last)];
      assert Distinct(Refs(front)) by {
        assert forall i :: 0 <= i < |front| ==> Refs(front)[i] == Refs(inputs)[i];
      }
      TotalConsumed(m, front);
      var rest := Consumed(m, Refs(front));
      assert RefOf(last) !in Refs(front) by {
        forall k | 0 <= k < |front|
          ensures Refs(front)[k] != RefOf(last)
        {
          assert Refs(inputs)[k] != Refs(inputs)[|front|];
        }
      }
      TotalRemove(rest, RefOf(last));
      assert rest - {RefOf(last)} == Consumed(m, Refs(inputs));
      SumInputsAppend(front, [last]);
      SumInputsOne(last);
    }
  }

  lemma TotalInsert(m: map<Ref, TxOutput>, r: Ref, o: TxOutput)
    requires r !in m
    ensures Total(m[r := o]) == Total(m) + SetBytes(o.amount)
  {
    TotalRemove(m[r := o], r);
    assert m[r := o] - {r} == m;
  }

  lemma CreatedStep(m: map<Ref, TxOutput>, tx: Tx, n: nat)
    requires 0 < n <= |tx.outputs|
    requires forall r :: r in m ==> r.txid != TxId(tx)
    ensures Ref(TxId(tx), n - 1) !in m + Created(tx, n - 1)
    ensures m + Created(tx, n) == (m + Created(tx, n - 1))[Ref(TxId(tx), n - 1) := tx.outputs[n - 1]]
  {
    var a, b := Created(tx, n), Created(tx, n - 1)[Ref(TxId(tx), n - 1) := tx.outputs[n - 1]];
    assert a.Keys == b.Keys;
    assert a == b;
  }

  lemma TotalCreatedNone(m: map<Ref, TxOutput>, tx: Tx)
    ensures Total(m + Created(tx, 0)) == Total(m) + SumOutputs(tx.outputs[..0])
  {
    assert m + Created(tx, 0) == m;
  }

  lemma SumOutputsLast(outs: seq<TxOutput>, n: nat)
    requires 0 < n <= |outs|
    ensures SumOutputs(outs[..n]) == SumOutputs(outs[..n - 1]) + SetBytes(outs[n - 1].amount)
  {
    assert outs[..n] == outs[..n - 1] + [outs[n - 1]];
    SumOutputsAppend(outs[..n - 1], [outs[n - 1]]);
    SumOutputsOne(outs[n - 1]);
  }

  lemma {:induction false} TotalCreated(m: map<Ref, TxOutput>, tx: Tx, n: nat)
    requires n <= |tx.outputs|
    requires forall r :: r in m ==> r.txid != TxId(tx)
    ensures Total(m + Created(tx, n)) == Total(m) + SumOutputs(tx.outputs[..n])
  {
    hide *;
    if n == 0 {
      TotalCreatedNone(m, tx);
    } else {
      TotalCreated(m, tx, n - 1);
      CreatedStep(m, tx, n);
      TotalInsert(m + Created(tx, n - 1), Ref(TxId(tx), n - 1), tx.outputs[n - 1]);
      SumOutputsLast(tx.outputs, n);
    }
  }

  // ---------- what posting keeps ----------

  lemma GenesisIsValid(g: Tx)
    requires g.inputs == []
    ensures Valid(Genesis(g))
    ensures Total(Genesis(g).utxos) == SumOutputs(g.outputs)
  {
    TotalCreated(map[], g, |g.outputs|);
    assert map[] + Created(g, |g.outputs|) == Created(g, |g.outputs|);
    assert g.outputs[..|g.outputs|] == g.outputs;
  }

  lemma SpentStaysDistinct(spent: seq<Ref>, refs: seq<Ref>)
    requires Distinct(spent) && Distinct(refs)
    requires forall r :: r in refs ==> r !in spent
    ensures Distinct(spent + refs)
  {
    var all := spent + refs;
    forall i, j | 0 <= i < j < |all|
      ensures all[i] != all[j]
    {
      if i < |spent| <= j {
        assert all[i] in spent;
        assert all[j] in refs;
      }
    }
  }

  /** Posting keeps the ledger valid; in particular no reference is ever consumed twice. */
  lemma PostKeepsValid(l: Ledger, tx: Tx)
    requires Valid(l) && Accepts(l, tx)
    ensures Valid(Post(l, tx))
  {
    var l' := Post(l, tx);
    var refs := Refs(tx.inputs);
    SpentStaysDistinct(l.spent, refs);
    forall r | r in l'.spent
      ensures r.txid in l'.accepted && r !in l'.utxos
    {
      assert r in l.spent || r in refs;
    }
    forall id, i | id in l'.accepted && i in id.tx.inputs
      ensures i.refTxid in l'.accepted
    {
      if id == TxId(tx) {
        var k :| 0 <= k < |tx.inputs| && tx.inputs[k] == i;
        assert refs[k] == RefOf(i);
        assert RefOf(i) in l.utxos;
      }
    }
  }

  /** Posting a transaction whose inputs are truthful changes the total by exactly
      what it creates minus what it consumes. */
  lemma PostChangesTotal(l: Ledger, tx: Tx)
    requires Valid(l) && Accepts(l, tx)
    requires AllTruthful(tx.inputs)
    ensures Total(Post(l, tx).utxos) == Total(l.utxos) - SumInputs(tx.inputs) + SumOutputs(tx.outputs)
  {
    forall i | i in tx.inputs
      ensures RefOf(i) in l.utxos && l.utxos[RefOf(i)].amount == i.amount
    {
      var k :| 0 <= k < |tx.inputs| && tx.inputs[k] == i;
      assert Refs(tx.inputs)[k] == RefOf(i);
    }
    TotalConsumed(l.utxos, tx.inputs);
    TotalCreated(Consumed(l.utxos, Refs(tx.inputs)), tx, |tx.outputs|);
    assert tx.outputs[..|tx.outputs|] == tx.outputs;
  }

  // ---------- what the node promises when it selects outputs ----------

  /** A selection: distinct unspent outputs of one address, and their exact sum in decimal. */
  ghost predicate Selection(l: Ledger, address: string, out: UtxoOutput) {
    && Distinct(Refs(InputsOf(out.utxoList)))
    && (forall u :: u in out.utxoList ==>
          && Ref(u.refTxid, u.refOffset) in l.utxos
          && l.utxos[Ref(u.refTxid, u.refOffset)].toAddr == u.toAddr == address
          && l.utxos[Ref(u.refTxid, u.refOffset)].amount == u.amount)
    && SetString(out.totalSelected) == Some(SumUtxos(out.utxoList))
  }

  /** Inputs that could be spent here: distinct and unspent. */
  ghost predicate CanSpend(l: Ledger, inputs: seq<TxInput>) {
    Distinct(Refs(inputs)) && forall r :: r in Refs(inputs) ==> r in l.utxos
  }

  lemma SelectionCanBeSpent(l: Ledger, address: string, out: UtxoOutput)
    requires Selection(l, address, out)
    ensures CanSpend(l, InputsOf(out.utxoList))
  {
    forall r | r in Refs(InputsOf(out.utxoList))
      ensures r in l.utxos
    {
      var k :| 0 <= k < |out.utxoList| && Refs(InputsOf(out.utxoList))[k] == r;
      assert out.utxoList[k] in out.utxoList;
    }
  }

  /** Inputs made from a selection stay truthful in every later ledger. */
  lemma SelectionIsTruthful(l: Ledger, address: string, out: UtxoOutput)
    requires Valid(l) && Selection(l, address, out)
    ensures AllTruthful(InputsOf(out.utxoList))
  {
    forall i | i in InputsOf(out.utxoList)
      ensures Truthful(i)
    {
      var k :| 0 <= k < |out.utxoList| && InputsOf(out.utxoList)[k] == i;
      assert out.utxoList[k] in out.utxoList;
    }
  }
}
