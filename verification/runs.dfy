/** Whole runs: any number of the commands that build, sign or post a transaction, compliance
    flows included, interleaved step by step against one ledger. Building reads the ledger
    through an honest node; posting happens later, when other commands may have changed it;
    any step may fail and any reply may be lost. */
module Runs {

  import opened Wrappers
  import opened Amounts
  import opened Pb
  import opened Ledgers
  import opened NodeRpc
  import opened CommonTransactions
  import opened Auth
  import opened CliTransfer
  import opened UtxoSplit
  import opened UtxoMerge
  import opened Compliance
  import opened ComplianceArithmetic
  import opened Endorser
  import opened MultisigTransactions

  /** The commands that build a single transaction and have it posted: by themselves, or, for
      the fee transaction of `multisig get`, by the endorser. */
  datatype Command =
    | TransferCommand(crypto: Crypto, opt: TransferOptions, ak: AKInfo)
    | RawCommand(t: CommTrans, pre: Option<InvokeResponse>)
    | SplitCommand(root: Root, account: string, num: int, path: AccountPath,
                   parse: string -> Option<AddressType>, balanceOf: string -> Option<string>)
    | MergeCommand(crypto: Crypto, root: Root, account: string, path: AccountPath)
    | GetSignCommand(t: CommTrans)

  /** The signed transaction of a command. */
  function BuildTx(cmd: Command, c: Chain, nonce: string): Result<Tx, Error> {
    match cmd
    case TransferCommand(crypto, opt, ak) => TransferTx(c, crypto, opt, ak, nonce)
    case RawCommand(t, pre) =>
      (match GeneratedTx(t, pre, c, nonce)
       case Failure(e) => Failure(e)
       case Success(tx) => Success(SignedByOwner(t, tx)))
    case SplitCommand(root, account, num, path, parse, balanceOf) =>
      SplitTx(root, account, num, path, parse, balanceOf, c, nonce)
    case MergeCommand(crypto, root, account, path) => MergeTx(crypto, root, account, path, c, nonce)
    case GetSignCommand(t) => FeeForSign(t, c, nonce)
  }

  /** The commands that write a transaction to a file instead, for `multisig send` to post. */
  datatype FileCommand =
    | RawFileCommand(t: CommTrans, pre: Option<InvokeResponse>, addrFile: Option<seq<string>>)
    | SplitFileCommand(root: Root, account: string, num: int, path: AccountPath, parse: string -> Option<AddressType>,
                       balanceOf: string -> Option<string>, addrFile: Option<seq<string>>)

  function FileTx(cmd: FileCommand, c: Chain, nonce: string): Result<Tx, Error> {
    match cmd
    case RawFileCommand(t, pre, addrFile) => RawFile(t, pre, addrFile, c, nonce)
    case SplitFileCommand(root, account, num, path, parse, balanceOf, addrFile) =>
      SplitFile(root, account, num, path, parse, balanceOf, addrFile, c, nonce)
  }

  /** A compliance flow after both transactions were built. */
  datatype Pair = Pair(t: CommTrans, response: InvokeResponse, f: Tx, nonce: string, tx: Tx)

  datatype Session =
    | Pending(plain: Tx)
    | PairBuilt(pair: Pair)
    | FeePosted(pair: Pair)
    | Endorsed(pair: Pair, sign: SignatureInfo)
    | RealPosted(pair: Pair, sign: SignatureInfo)
    | PlainPosted(plain: Tx)
    | Filed(file: Tx)
    | Failed

  datatype State = State(ledger: Ledger, sessions: map<nat, Session>)

  datatype Action =
    | Build(id: nat, cmd: Command, c: Chain, buildNonce: string)
    | BuildPair(id: nat, t: CommTrans, c: Chain, response: InvokeResponse, feeNonce: string, nonce: string)
    | PostPlain(id: nat, lost: bool)
    | PostFee(id: nat, lost: bool)
    | Endorse(id: nat, keys: KeyPair)
    | PostReal(id: nat, lost: bool)
    | Save(id: nat, fileCmd: FileCommand, c: Chain, buildNonce: string)
    | SendFile(id: nat, signs: Signatures)
    | Fail(id: nat)

  function PreparedPair(t: CommTrans, c: Chain, response: InvokeResponse, feeNonce: string, nonce: string)
    : Result<Pair, Error>
  {
    match PreExecuted(t, c, response)
    case Failure(e) => Failure(e)
    case Success(utxoOutput) =>
      match BuiltPair(t, utxoOutput, response, feeNonce, nonce)
      case Failure(e) => Failure(e)
      case Success((f, tx)) => Success(Pair(t, response, f, nonce, tx))
  }

  /** The configuration decides whether Transfer goes through the endorser. */
  ghost predicate Enabled(s: State, a: Action) {
    match a
    case Build(id, cmd, c, nonce) =>
      && id !in s.sessions && Honest(c, s.ledger) && BuildTx(cmd, c, nonce).Success?
      && (cmd.RawCommand? ==> !cmd.t.compliance.needed)
    case BuildPair(id, t, c, response, feeNonce, nonce) =>
      && id !in s.sessions && Honest(c, s.ledger) && PreparedPair(t, c, response, feeNonce, nonce).Success?
      && t.compliance.needed
    case PostPlain(id, lost) => id in s.sessions && s.sessions[id].Pending?
    case PostFee(id, lost) => id in s.sessions && s.sessions[id].PairBuilt?
    case Endorse(id, keys) => id in s.sessions && s.sessions[id].FeePosted?
    case PostReal(id, lost) => id in s.sessions && s.sessions[id].Endorsed?
    case Save(id, cmd, c, nonce) => id !in s.sessions && Honest(c, s.ledger) && FileTx(cmd, c, nonce).Success?
    case SendFile(id, signs) => id in s.sessions && s.sessions[id].Filed?
    case Fail(id) => id in s.sessions
  }

  /** Submit one transaction; the session moves on only if it was accepted and the reply arrived. */
  function SubmitStep(s: State, id: nat, tx: Tx, lost: bool, next: Session): State {
    State(Submitted(s.ledger, tx), s.sessions[id := if Accepts(s.ledger, tx) && !lost then next else Failed])
  }

  ghost function Apply(s: State, a: Action): State
    requires Enabled(s, a)
  {
    match a
    case Build(id, cmd, c, nonce) => s.(sessions := s.sessions[id := Pending(BuildTx(cmd, c, nonce).value)])
    case BuildPair(id, t, c, response, feeNonce, nonce) =>
      s.(sessions := s.sessions[id := PairBuilt(PreparedPair(t, c, response, feeNonce, nonce).value)])
    case PostPlain(id, lost) => SubmitStep(s, id, s.sessions[id].plain, lost, PlainPosted(s.sessions[id].plain))
    case PostFee(id, lost) => SubmitStep(s, id, s.sessions[id].pair.f, lost, FeePosted(s.sessions[id].pair))
    case Endorse(id, keys) =>
      s.(sessions := s.sessions[id := Endorsed(s.sessions[id].pair, SignTx(keys, s.sessions[id].pair.tx))])
    case PostReal(id, lost) =>
      var Endorsed(pair, sign) := s.sessions[id];
      SubmitStep(s, id, WithEndorsement(pair.tx, sign), lost, RealPosted(pair, sign))
    case Save(id, cmd, c, nonce) => s.(sessions := s.sessions[id := Filed(FileTx(cmd, c, nonce).value)])
    case SendFile(id, signs) => s.(ledger := Submitted(s.ledger, Signed(s.sessions[id].file, signs)))  // the file stays
    case Fail(id) => s.(sessions := s.sessions[id := Failed])
  }

  ghost predicate IsRun(g: Tx, states: seq<State>, actions: seq<Action>) {
    && g.inputs == []
    && |states| == |actions| + 1
    && states[0] == State(Genesis(g), map[])
    && forall i {:trigger actions[i]} :: 0 <= i < |actions| ==>
         Enabled(states[i], actions[i]) && states[i + 1] == Apply(states[i], actions[i])
  }

  // ---------- safety: F before T ----------

  /** The own inputs of T: everything before the contract's part. */
  function OwnInputs(p: Pair): seq<TxInput> {
    InputsOf(OwnUtxos(TxId(p.f), p.f.outputs, Initiator(p.t)))
  }

  /** T takes its own inputs from F and nowhere else: distinct outputs of F that exist,
      with the owner and the amount F gives them. */
  ghost predicate SpendsFee(p: Pair) {
    && p.tx.inputs == OwnInputs(p) + p.response.utxoInputs
    && AllTruthful(OwnInputs(p)) && Distinct(Refs(OwnInputs(p)))
    && forall i :: i in OwnInputs(p) ==> i.refTxid == TxId(p.f) && i.fromAddr == Initiator(p.t)
  }

  predicate FeeDone(x: Session) {
    x.FeePosted? || x.Endorsed? || x.RealPosted?
  }

  ghost predicate SafeSession(l: Ledger, x: Session) {
    && ((x.PairBuilt? || FeeDone(x)) ==> SpendsFee(x.pair))
    && (FeeDone(x) ==> TxId(x.pair.f) in l.accepted)
    && (x.RealPosted? ==> TxId(WithEndorsement(x.pair.tx, x.sign)) in l.accepted)
  }

  ghost predicate Safe(s: State) {
    && Valid(s.ledger)
    && forall id :: id in s.sessions ==> SafeSession(s.ledger, s.sessions[id])
  }

  lemma SubmittedKeeps(l: Ledger, tx: Tx)
    requires Valid(l)
    ensures Valid(Submitted(l, tx)) && l.accepted <= Submitted(l, tx).accepted
    ensures l.spent <= Submitted(l, tx).spent
  {
    if Accepts(l, tx) {
      PostKeepsValid(l, tx);
    }
  }

  lemma PreparedPairSpendsFee(t: CommTrans, c: Chain, response: InvokeResponse, feeNonce: string, nonce: string)
    requires PreparedPair(t, c, response, feeNonce, nonce).Success?
    ensures SpendsFee(PreparedPair(t, c, response, feeNonce, nonce).value)
  {
    var p := PreparedPair(t, c, response, feeNonce, nonce).value;
    FeeOutputsAreFew(t, PreExecuted(t, c, response).value, feeNonce);
    RealTxShape(t, response, p.f, nonce);
    OwnInputsTruthful(p.f, Initiator(t));
  }

  lemma FeeOutputsAreFew(t: CommTrans, utxoOutput: Option<UtxoOutput>, nonce: string)
    requires FeeTx(t, utxoOutput, nonce).Success?
    ensures |FeeTx(t, utxoOutput, nonce).value.outputs| <= 2
  {
    ServiceOutputs(t);
  }

  /** One session changed, and the ledger only grew. */
  lemma UpdateIsSafe(s: State, l: Ledger, id: nat, x: Session)
    requires Safe(s) && Valid(l) && s.ledger.accepted <= l.accepted && SafeSession(l, x)
    ensures Safe(State(l, s.sessions[id := x]))
  {
    hide Valid, SpendsFee;
  }

  lemma SubmitIsSafe(s: State, id: nat, tx: Tx, lost: bool, next: Session)
    requires Safe(s)
    requires TxId(tx) in Submitted(s.ledger, tx).accepted ==> SafeSession(Submitted(s.ledger, tx), next)
    ensures Safe(SubmitStep(s, id, tx, lost, next))
    ensures s.ledger.spent <= Submitted(s.ledger, tx).spent && s.ledger.accepted <= Submitted(s.ledger, tx).accepted
  {
    hide Valid, SpendsFee;
    SubmittedKeeps(s.ledger, tx);
    var x := if Accepts(s.ledger, tx) && !lost then next else Failed;
    assert SafeSession(Submitted(s.ledger, tx), x);
    UpdateIsSafe(s, Submitted(s.ledger, tx), id, x);
  }

  lemma StepIsSafe(s: State, a: Action)
    requires Safe(s) && Enabled(s, a)
    ensures Safe(Apply(s, a))
    ensures s.ledger.spent <= Apply(s, a).ledger.spent
    ensures s.ledger.accepted <= Apply(s, a).ledger.accepted
  {
    hide Valid, SpendsFee, Accepts, Honest, BuildTx, PreparedPair, FileTx, Signed;
    match a {
      case Build(id, cmd, c, nonce) =>
        UpdateIsSafe(s, s.ledger, id, Pending(BuildTx(cmd, c, nonce).value));
      case BuildPair(id, t, c, response, feeNonce, nonce) =>
        PreparedPairSpendsFee(t, c, response, feeNonce, nonce);
        UpdateIsSafe(s, s.ledger, id, PairBuilt(PreparedPair(t, c, response, feeNonce, nonce).value));
      case PostPlain(id, lost) =>
        SubmitIsSafe(s, id, s.sessions[id].plain, lost, PlainPosted(s.sessions[id].plain));
      case PostFee(id, lost) =>
        var pair := s.sessions[id].pair;
        SubmitIsSafe(s, id, pair.f, lost, FeePosted(pair));
      case Endorse(id, keys) =>
        var pair := s.sessions[id].pair;
        UpdateIsSafe(s, s.ledger, id, Endorsed(pair, SignTx(keys, pair.tx)));
      case PostReal(id, lost) =>
        var Endorsed(pair, sign) := s.sessions[id];
        assert TxId(pair.f) in Submitted(s.ledger, WithEndorsement(pair.tx, sign)).accepted by {
          SubmittedKeeps(s.ledger, WithEndorsement(pair.tx, sign));
        }
        SubmitIsSafe(s, id, WithEndorsement(pair.tx, sign), lost, RealPosted(pair, sign));
      case Save(id, cmd, c, nonce) =>
        UpdateIsSafe(s, s.ledger, id, Filed(FileTx(cmd, c, nonce).value));
      case SendFile(id, signs) =>
        var l := Submitted(s.ledger, Signed(s.sessions[id].file, signs));
        SubmittedKeeps(s.ledger, Signed(s.sessions[id].file, signs));
        assert Apply(s, a) == State(l, s.sessions[id := s.sessions[id]]);
        UpdateIsSafe(s, l, id, s.sessions[id]);
      case Fail(id) =>
        UpdateIsSafe(s, s.ledger, id, Failed);
    }
  }

  lemma RunStep(g: Tx, states: seq<State>, actions: seq<Action>, i: nat)
    requires IsRun(g, states, actions) && i < |actions|
    ensures Enabled(states[i], actions[i]) && states[i + 1] == Apply(states[i], actions[i])
  {
    hide Enabled, Apply, Genesis;
  }

  lemma RunStart(g: Tx, states: seq<State>, actions: seq<Action>)
    requires IsRun(g, states, actions)
    ensures Safe(states[0]) && Conserving(states[0]) && Total(states[0].ledger.utxos) == SumOutputs(g.outputs)
  {
    hide Enabled, Apply;
    GenesisIsValid(g);
  }

  lemma {:induction false} RunIsSafe(g: Tx, states: seq<State>, actions: seq<Action>, n: nat)
    requires IsRun(g, states, actions) && n < |states|
    ensures Safe(states[n])
  {
    hide Enabled, Apply, Safe, Genesis;
    if n == 0 {
      RunStart(g, states, actions);
    } else {
      RunIsSafe(g, states, actions, n - 1);
      RunStep(g, states, actions, n - 1);
      StepIsSafe(states[n - 1], actions[n - 1]);
    }
  }

  /** In every run, whenever the real transaction of a compliance flow is submitted, its fee
      transaction has been accepted, and the real transaction takes its own inputs from
      distinct existing outputs of that fee transaction. */
  lemma FeeBeforeReal(g: Tx, states: seq<State>, actions: seq<Action>, n: nat)
    requires IsRun(g, states, actions) && n < |actions| && actions[n].PostReal?
    ensures var x := states[n].sessions[actions[n].id];
            && TxId(x.pair.f) in states[n].ledger.accepted
            && SpendsFee(x.pair)
  {
    RunIsSafe(g, states, actions, n);
  }

  /** The ledger never holds a transaction without the transactions it spends from: an
      accepted real transaction that takes anything from its fee transaction stands next
      to it, whoever posted it and whatever replies were lost. */
  lemma AcceptedRealHasFee(g: Tx, states: seq<State>, actions: seq<Action>, n: nat, p: Pair, sign: SignatureInfo)
    requires IsRun(g, states, actions) && n < |states|
    requires SpendsFee(p) && OwnInputs(p) != []
    requires TxId(WithEndorsement(p.tx, sign)) in states[n].ledger.accepted
    ensures TxId(p.f) in states[n].ledger.accepted
  {
    RunIsSafe(g, states, actions, n);
    var id := TxId(WithEndorsement(p.tx, sign));
    assert p.tx.inputs[0] == OwnInputs(p)[0];
    assert OwnInputs(p)[0] in OwnInputs(p) && p.tx.inputs[0] in id.tx.inputs;
  }

  /** No output is spent twice in any run, and what is spent stays spent. */
  lemma {:induction false} NothingSpentTwice(g: Tx, states: seq<State>, actions: seq<Action>, m: nat, n: nat)
    requires IsRun(g, states, actions) && m <= n < |states|
    ensures Distinct(states[n].ledger.spent)
    ensures states[m].ledger.spent <= states[n].ledger.spent
    ensures forall r :: r in states[m].ledger.spent ==> r !in states[n].ledger.utxos
    decreases n
  {
    hide Enabled, Apply, Genesis, SafeSession;
    RunIsSafe(g, states, actions, n);
    if m < n {
      NothingSpentTwice(g, states, actions, m, n - 1);
      RunIsSafe(g, states, actions, n - 1);
      RunStep(g, states, actions, n - 1);
      StepIsSafe(states[n - 1], actions[n - 1]);
    }
    assert forall r :: r in states[m].ledger.spent ==> r in states[n].ledger.spent;
  }

  /** F is not paid for nothing: in the ledger right after F was accepted, the endorsed T is
      accepted if and only if its contract inputs are distinct, unspent, and not among the
      outputs it takes from F. Without contract inputs it always is. (Should it take nothing from
      F at all, it must also be new; otherwise it cannot help being new.) */
  lemma RealFollowsFee(l: Ledger, p: Pair, sign: SignatureInfo)
    requires Valid(l) && Accepts(l, p.f) && SpendsFee(p)
    ensures Accepts(Post(l, p.f), WithEndorsement(p.tx, sign))
            <==> && (OwnInputs(p) != [] || TxId(WithEndorsement(p.tx, sign)) !in Post(l, p.f).accepted)
                 && CanSpend(Post(l, p.f), p.response.utxoInputs)
                 && forall r :: r in Refs(p.response.utxoInputs) ==> r !in Refs(OwnInputs(p))
  {
    hide Valid, OwnInputs;
    var paid, endorsed := Post(l, p.f), WithEndorsement(p.tx, sign);
    var own, contract := Refs(OwnInputs(p)), Refs(p.response.utxoInputs);
    if OwnInputs(p) != [] {
      RealIsNew(l, p, sign);
    }
    assert Refs(endorsed.inputs) == own + contract;
    forall r | r in own
      ensures r in paid.utxos
    {
      var k :| 0 <= k < |own| && own[k] == r;
      assert OwnInputs(p)[k] in OwnInputs(p);
      assert r in Created(p.f, |p.f.outputs|);
    }
    DistinctAppend(own, contract);
  }

  lemma DistinctAppend(a: seq<Ref>, b: seq<Ref>)
    ensures Distinct(a + b) <==> Distinct(a) && Distinct(b) && forall r :: r in b ==> r !in a
  {
    if Distinct(a) && Distinct(b) && forall r :: r in b ==> r !in a {
      SpentStaysDistinct(a, b);
    }
    if Distinct(a + b) {
      assert forall i :: 0 <= i < |a| ==> a[i] == (a + b)[i];
      assert forall i :: 0 <= i < |b| ==> b[i] == (a + b)[|a| + i];
    }
  }

  /** T cannot have been accepted before F, nor be F itself. */
  lemma RealIsNew(l: Ledger, p: Pair, sign: SignatureInfo)
    requires Valid(l) && Accepts(l, p.f)
    requires SpendsFee(p) && OwnInputs(p) != []
    ensures TxId(WithEndorsement(p.tx, sign)) !in Post(l, p.f).accepted
  {
    var endorsed := WithEndorsement(p.tx, sign);
    var first := endorsed.inputs[0];
    assert first == OwnInputs(p)[0] && first in OwnInputs(p) && first in endorsed.inputs;
    assert Refs(endorsed.inputs)[0] == RefOf(first);
  }

  // ---------- conservation ----------

  /** What the caller has to see to, step by step: pre-executed contracts are even, a compliance
      flow is started with guarded amounts whose full cost fits in int64, and a service fee
      has an address. */
  ghost predicate Careful(a: Action) {
    match a
    case Build(_, cmd, _, _) => CarefulCommand(cmd)
    case Save(_, cmd, _, _) => cmd.RawFileCommand? ==> Even(PreInputs(cmd.pre), PreOutputs(cmd.pre))
    case BuildPair(_, t, c, response, _, _) =>
      && Even(response.utxoInputs, response.utxoOutputs)
      && Guarded(t) && FeePayable(t)
      && 0 <= response.gasUsed && 1 <= FullCost(t, response.gasUsed) <= MAX_INT64
    case _ => true
  }

  ghost predicate CarefulCommand(cmd: Command) {
    && (cmd.RawCommand? ==> Even(PreInputs(cmd.pre), PreOutputs(cmd.pre)))
    && (cmd.GetSignCommand? ==> FeePayable(cmd.t))
  }

  /** Every transaction still to be posted is sound. */
  ghost predicate SoundSession(x: Session) {
    match x
    case Pending(plain) => Sound(plain)
    case PairBuilt(p) => Sound(p.f) && Sound(p.tx)
    case FeePosted(p) => Sound(p.tx)
    case Endorsed(p, _) => Sound(p.tx)
    case Filed(file) => Sound(file)
    case _ => true
  }

  ghost predicate Conserving(s: State) {
    && Valid(s.ledger)
    && forall id :: id in s.sessions ==> SoundSession(s.sessions[id])
  }

  lemma SubmittedConserves(l: Ledger, tx: Tx)
    requires Valid(l) && Sound(tx)
    ensures Valid(Submitted(l, tx)) && Total(Submitted(l, tx).utxos) == Total(l.utxos)
  {
    if Accepts(l, tx) {
      PostKeepsValid(l, tx);
      PostChangesTotal(l, tx);
    }
  }

  lemma BuiltTxIsSound(cmd: Command, c: Chain, l: Ledger, nonce: string)
    requires Valid(l) && Honest(c, l)
    requires CarefulCommand(cmd)
    requires BuildTx(cmd, c, nonce).Success?
    ensures Sound(BuildTx(cmd, c, nonce).value)
  {
    match cmd {
      case TransferCommand(crypto, opt, ak) => TransferIsSound(c, crypto, opt, ak, l, nonce);
      case RawCommand(t, pre) => RawTxIsSound(t, pre, c, l, nonce);
      case SplitCommand(root, account, num, path, parse, balanceOf) =>
        SplitTxIsSound(root, account, num, path, parse, balanceOf, c, l, nonce);
      case MergeCommand(crypto, root, account, path) => MergeTxIsSound(crypto, root, account, path, c, l, nonce);
      case GetSignCommand(t) => FeeForSignBalances(t, c, l, nonce);
    }
  }

  lemma FileTxIsSound(cmd: FileCommand, c: Chain, l: Ledger, nonce: string)
    requires Valid(l) && Honest(c, l)
    requires cmd.RawFileCommand? ==> Even(PreInputs(cmd.pre), PreOutputs(cmd.pre))
    requires FileTx(cmd, c, nonce).Success?
    ensures Sound(FileTx(cmd, c, nonce).value)
  {
    match cmd {
      case RawFileCommand(t, pre, addrFile) => RawFileIsSound(t, pre, addrFile, c, l, nonce);
      case SplitFileCommand(root, account, num, path, parse, balanceOf, addrFile) =>
        SplitFileIsSound(root, account, num, path, parse, balanceOf, addrFile, c, l, nonce);
    }
  }

  lemma PreparedPairIsSound(t: CommTrans, c: Chain, response: InvokeResponse, feeNonce: string, nonce: string,
                            l: Ledger, id: nat)
    requires Valid(l) && Honest(c, l)
    requires Careful(BuildPair(id, t, c, response, feeNonce, nonce))
    requires PreparedPair(t, c, response, feeNonce, nonce).Success?
    ensures var p := PreparedPair(t, c, response, feeNonce, nonce).value; Sound(p.f) && Sound(p.tx)
  {
    ComplianceIsSound(t, c, l, response, feeNonce, nonce);
  }

  lemma UpdateConserves(s: State, l: Ledger, id: nat, x: Session)
    requires Conserving(s) && Valid(l) && SoundSession(x)
    ensures Conserving(State(l, s.sessions[id := x]))
  {
    hide Valid, Sound;
  }

  lemma SubmitConserves(s: State, id: nat, tx: Tx, lost: bool, next: Session)
    requires Conserving(s) && Sound(tx) && SoundSession(next)
    ensures Conserving(SubmitStep(s, id, tx, lost, next))
    ensures Total(SubmitStep(s, id, tx, lost, next).ledger.utxos) == Total(s.ledger.utxos)
  {
    hide Valid, Sound, Total;
    SubmittedConserves(s.ledger, tx);
    UpdateConserves(s, Submitted(s.ledger, tx), id, if Accepts(s.ledger, tx) && !lost then next else Failed);
  }

  /** Signatures move no value. */
  lemma EndorsedIsSound(tx: Tx, sign: SignatureInfo)
    requires Sound(tx)
    ensures Sound(WithEndorsement(tx, sign))
  {
  }

  lemma SignedIsSound(tx: Tx, signs: Signatures)
    requires Sound(tx)
    ensures Sound(Signed(tx, signs))
  {
  }

  lemma StepConserves(s: State, a: Action)
    requires Conserving(s) && Enabled(s, a) && Careful(a)
    ensures Conserving(Apply(s, a))
    ensures Total(Apply(s, a).ledger.utxos) == Total(s.ledger.utxos)
  {
    hide Valid, Sound, Total, Accepts, Honest, BuildTx, PreparedPair, FileTx, Signed, Submitted;
    match a {
      case Build(id, cmd, c, nonce) =>
        BuiltTxIsSound(cmd, c, s.ledger, nonce);
        UpdateConserves(s, s.ledger, id, Pending(BuildTx(cmd, c, nonce).value));
      case BuildPair(id, t, c, response, feeNonce, nonce) =>
        PreparedPairIsSound(t, c, response, feeNonce, nonce, s.ledger, id);
        UpdateConserves(s, s.ledger, id, PairBuilt(PreparedPair(t, c, response, feeNonce, nonce).value));
      case PostPlain(id, lost) =>
        SubmitConserves(s, id, s.sessions[id].plain, lost, PlainPosted(s.sessions[id].plain));
      case PostFee(id, lost) =>
        SubmitConserves(s, id, s.sessions[id].pair.f, lost, FeePosted(s.sessions[id].pair));
      case Endorse(id, keys) =>
        UpdateConserves(s, s.ledger, id, Endorsed(s.sessions[id].pair, SignTx(keys, s.sessions[id].pair.tx)));
      case PostReal(id, lost) =>
        var Endorsed(pair, sign) := s.sessions[id];
        EndorsedIsSound(pair.tx, sign);
        SubmitConserves(s, id, WithEndorsement(pair.tx, sign), lost, RealPosted(pair, sign));
      case Save(id, cmd, c, nonce) =>
        FileTxIsSound(cmd, c, s.ledger, nonce);
        UpdateConserves(s, s.ledger, id, Filed(FileTx(cmd, c, nonce).value));
      case SendFile(id, signs) =>
        var file := s.sessions[id].file;
        SignedIsSound(file, signs);
        SubmittedConserves(s.ledger, Signed(file, signs));
        assert Apply(s, a) == State(Submitted(s.ledger, Signed(file, signs)), s.sessions[id := Filed(file)]);
        UpdateConserves(s, Submitted(s.ledger, Signed(file, signs)), id, Filed(file));
      case Fail(id) =>
        UpdateConserves(s, s.ledger, id, Failed);
    }
  }

  /** Over any careful run of any commands, interleaved in any way, with any failures, the
      total value of the ledger, fees included, is what the genesis transaction created. */
  lemma {:induction false} RunConserves(g: Tx, states: seq<State>, actions: seq<Action>, n: nat)
    requires IsRun(g, states, actions) && n < |states|
    requires forall i :: 0 <= i < n ==> Careful(actions[i])
    ensures Conserving(states[n])
    ensures Total(states[n].ledger.utxos) == SumOutputs(g.outputs)
  {
    hide Enabled, Apply, Genesis, Conserving, Careful, Total;
    if n == 0 {
      RunStart(g, states, actions);
    } else {
      RunConserves(g, states, actions, n - 1);
      RunStep(g, states, actions, n - 1);
      StepConserves(states[n - 1], actions[n - 1]);
    }
  }
}
