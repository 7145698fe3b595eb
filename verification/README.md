# Moving value in the xchain client and node

This project models how the command line client builds transactions out of unspent
outputs, how the compliance endorser gets paid before it signs, and three small
concurrent protocols of the node, and proves what they keep.

## What is modelled

**Building transactions.** Amounts exist in four forms: unbounded integers (Go's `big.Int`,
a mutable cell here), big-endian bytes without sign, decimal strings, and `int64`
values that saturate when parsed and wrap when added. The builders (`comm_trans.dfy`,
`cli_transfer.dfy`, `utxo_split.dfy`, `utxo_merge.dfy`, `compliance.dfy`) are methods over those
cells, each proved equal to a function; the properties are lemmas about the functions.
Beside the functions, `payments.dfy` says for each transaction, without referring to how it is built, when it
is built, whose outputs it spends, what it pays to whom output by output, who is asked for and who signs.
The node's handlers that a builder talks to (`node_rpc.dfy`) are the repository's own code as
well, so a request really crosses from the client's decimal string to the server's check.

**The ledger.** A map from (txid, offset) to an output. It accepts a transaction that is new and
whose inputs name distinct unspent outputs. It does *not* check that a transaction balances:
that value is neither made nor lost is a property of the builders. An output to the fee
placeholder stays in the map, so fees count in the total.

**Whole runs.** `runs.dfy` interleaves any number of the commands that get a transaction posted,
one step at a time: transfers, raw and contract transactions, splits, merges, compliance
flows, transactions written to a file and sent from it with the signatures of several parties
(`multisig gen` and `send`), and the fee that `multisig get` has the endorser post. A
transaction is posted later than it was built, any step may fail and any reply may get
lost. `flows.dfy` says what one command can expect when nobody interferes, and ties the steps
of a compliance flow to the client's method in both directions.

**Concurrency in the node.** The per-address subscription counter (`event_service.dfy`), the
endorser's client cache with double-checked locking (`client_cache.dfy`), and the start and exit of
the process through channels and a wait group (`startup.dfy`), each as atomic steps under
every interleaving. Partial multi-signatures and their slots are in `multisig.dfy`.

## What is assumed about code outside the repository

- Selection by need (`SelectUTXO` of xupercore's reader) returns distinct unspent outputs of the
  address, their exact decimal sum, and at least what was asked; selection by size is the same
  without the lower bound (`NodeRpc.Honest`).
- The contract inputs and outputs of a pre-execution balance each other, and its inputs state the
  owner and amount of the outputs they name (`Ledgers.Even`).
- The Exit calls that StartupXchain makes return (`Startup.ExitsDone`); otherwise nothing is claimed about
  reaching the end.
- A transaction file is sent as it was written, apart from the signatures.
- Hashes and signatures are ideal: a transaction id determines the transaction, a signature
  names the key and the exact content signed.
- `math/big` and `strconv` behave as documented, including that `ParseInt` returns a saturated
  value with its range error and stops at the digit that overflows.

## What turned out not to hold, and exactly when it does

- A compliance pair balances if and only if the service fee has an address or is zero, the
  selection covers it, the amount is not negative, and what the fee transaction leaves to the payer
  covers fee and amount (`ComplianceArithmetic.ComplianceBalances`). What it leaves is the selection
  less the service fee, or the whole selection if the fee address is the payer's own. A
  negative amount (`ComplianceArithmetic.NegativeAmountExample`) or an uncovered need makes `Bytes` drop a sign.
- The built-in client configuration has a service fee of 400 and no fee address. It asks for no
  endorser, so transfers are not concerned, but `multisig get` builds a fee transaction all
  the same, and without a configuration file that one loses 400
  (`MultisigTransactions.BuiltInConfigLosesFee`). It balances if and only if the service fee has an
  address or is zero (`MultisigTransactions.FeeForSignBalances`).
- The need that the server computes covers the pair if and only if service fee, fee, amount and
  gas together fit in `int64` (`ComplianceArithmetic.ServerNeedCovers`, `OverflowBreaks`); amounts for
  which they do not are in `ComplianceArithmetic.OverflowExample`.
- A transfer is signed by whom it names except for one kind of payer: an account given without an
  account path. Every other payer the node's lock check refuses, unless it is the initiator's own address
  (`CliTransfer.GrantedTransferAligned`, `UnalignedTransferExample`).
- A split without an account path is signed by whom it names if and only if the owner is named by the
  initiator's own address (`UtxoSplit.SplitTxAligned`). It checks the account first, which is enough for
  addresses and accounts (`UtxoSplit.CheckedSplitAligned`), but the check lets every other kind of name
  through (`UtxoSplit.UncheckedSplitExample`), and a split asks for no lock. A merge cannot go wrong: the command
  refuses an account without a path and the node all the rest (`UtxoMerge.GrantedMergeAligned`).
- The limit of streams per address is the configured one if that is positive, none if it is zero,
  and one if it is negative (`EventService.RefusedExactlyAtLimit`).

## Model

| member | source | states |
|---|---|---|
| Amounts.BytesRoundTrip | cmd/client/cmd/types.go:158-162 | decoding the bytes written for an amount gives its absolute value, so exactly the amount when it is not negative; the bytes never start with zero |
| Amounts.MinimalBytesAreCanonical | cmd/client/cmd/types.go:158-162 | decoding then encoding restores every byte string without leading zeros: each amount has one encoding |
| Amounts.StringRoundTrip | service/rpc/api.go:134-161 | printing an integer in decimal and parsing it returns the same integer, negative ones included |
| Amounts.DisplayRoundTrip | cmd/client/cmd/types.go:158-168 | the decimal text shown for an amount in a transaction reads back as that amount |
| Amounts.SampleCodes | cmd/client/cmd/types.go:158-168 | bytes are base 256 with the highest first, text is base 10 with an optional sign, and what is not a number |
| Amounts.WrapIsModular | cmd/client/cmd/comm_trans.go:730-744 | wrapping int64 sums one by one equals wrapping the exact sum once |
| Amounts.ParseIntClamps | cmd/client/cmd/comm_trans.go:282-285 | on every string big.Int accepts, ParseInt returns that integer clamped to 64 bits, with a nil error exactly when nothing was clamped |
| Amounts.ParseIntOkMeansExact | cmd/client/cmd/comm_trans.go:731-743 | ParseInt has no error exactly for the strings big.Int reads as an int64, and then both agree |
| NodeRpc.SelectCovers | service/rpc/api.go:151-189 | a need printed by the client reaches the reader as the same number, and the reply lists outputs of the payer that cover it and add up to the stated total |
| NodeRpc.SelectGranted | models/chain_handle.go:167-193 | a request by need reaches the reader unchanged exactly when chain and need are readable and a lock is for an account or signed, for this chain, address and need, with the key of the address |
| NodeRpc.SelectBySizeGranted | models/chain_handle.go:70-80 | the same for a request by size, signed for the amount zero |
| NodeRpc.LockSignedOnce | models/chain_handle.go:167-193 | a lock signature granted for one need is refused for every other |
| CommonTransactions.OutputLoop | cmd/client/cmd/comm_trans.go:296-322 | the loop the builders share turns accounts into outputs in order and leaves their sum in totalNeed; the first unusable amount decides the error |
| CommonTransactions.BuildOutputsAddsUp | cmd/client/cmd/comm_trans.go:300-320 | the decoded outputs sum to totalNeed, and a trimmed list has no zero amount |
| CommonTransactions.BuildOutputsExact | cmd/client/cmd/cli.go:347-361 | accounts are accepted exactly when every amount is a non-negative decimal, and output i pays account i its amount |
| CommonTransactions.BuildErrorIsFirst | cmd/client/cmd/comm_trans.go:300-309 | the first account that cannot be paid decides the error: unreadable or negative |
| CommonTransactions.TrimmingFilters | cmd/client/cmd/comm_trans.go:305-320 | trimming changes neither acceptance nor need, it only leaves out the zero outputs |
| CommonTransactions.GenTxOutputs | cmd/client/cmd/comm_trans.go:265-323 | outputs for recipient and fee, with the gas check and its errors |
| CommonTransactions.FeeCoversGas | cmd/client/cmd/comm_trans.go:280-320 | with gas to pay, building succeeds exactly when the amounts are readable and the exact fee is at least the gas, fees beyond int64 included; the last output then pays that fee |
| CommonTransactions.GenTxInputs | cmd/client/cmd/comm_trans.go:327-383 | inputs for the whole reply, change for the excess over totalNeed, which is left unchanged; whose they are is in Payments.RawTxPays |
| CommonTransactions.SpendBalances | cmd/client/cmd/comm_trans.go:367-380 | inputs equal payments plus change exactly when the selection covers the need, with change exactly when it exceeds it |
| CommonTransactions.InputsAreSound | cmd/client/cmd/comm_trans.go:327-383 | against an honest node the inputs are truthful, cover the need and equal payments plus change |
| CommonTransactions.GenRawTx | cmd/client/cmd/comm_trans.go:196-250 | the raw transaction: contract part, payments, inputs and change in the source's order, or the first error |
| CommonTransactions.GenerateTx | cmd/client/cmd/comm_trans.go:66-77 | the raw transaction unless a contract failed in pre-execution |
| CommonTransactions.RawTxIsSound | cmd/client/cmd/comm_trans.go:212-233 | every raw transaction built against an honest node with an even contract part balances and states its inputs truthfully |
| CommonTransactions.RawTxChange | cmd/client/cmd/comm_trans.go:219-233 | totalNeed is the sum of the emitted payments, and one change output to the payer follows exactly when more was selected |
| Payments.RawOutputsPaid | cmd/client/cmd/comm_trans.go:265-323 | the outputs are built exactly when recipient and fee can be paid and the fee covers the gas, and pay recipient and fee, zero amounts apart |
| Payments.GasErrors | cmd/client/cmd/comm_trans.go:280-295 | with gas to pay, a missing fee and too small a fee give their own errors, in both builders |
| Payments.RawTxPays | cmd/client/cmd/comm_trans.go:196-250 | when a raw transaction is built; after the contract's part it spends only outputs of the payer (`from`, else the own address) and pays recipient, fee and change, in this order |
| Payments.RawFileAsks | cmd/client/cmd/comm_trans.go:510-525 | a filed raw transaction is the raw transaction asking for exactly the non-empty lines of the address file |
| Auth.ListAKs | cmd/client/cmd/ak.go:67-86 | the directories with an address file, in order, or an error if the root cannot be read |
| Auth.AKsExact | cmd/client/cmd/ak.go:67-86 | the listed AKs are all the directories with an address file and no others, in directory order, each with its address and keys |
| Auth.GenAuthRequirement | cmd/client/cmd/cli.go:408-430 | one requirement per AK of the account, or the payer itself, or the error of the directory |
| Auth.GenAuthRequire | cmd/client/cmd/comm_trans.go:542-566 | the transaction asks for everyone in the address file, empty lines apart |
| Auth.AddressLinesExact | cmd/client/cmd/comm_trans.go:542-566 | exactly the non-empty lines are kept, in order |
| Auth.SignTxForAccount | cmd/client/cmd/cli.go:462-477 | one signature per AK in the same order, an error if a key cannot be read |
| Auth.SignByPath | cmd/client/cmd/cli.go:433-443 | the initiator signs for the empty path, every AK of the account otherwise |
| Auth.AuthorizeAligns | cmd/client/cmd/cli.go:289-299 | requirements and signatures have equal length and the i-th signature is made for the i-th requirement, if and only if there is an account path or the payer is named by the initiator |
| Auth.AuthorizeExact | cmd/client/cmd/cli.go:408-477 | success exactly when the node pre-executes and directory and keys can be read; the initiator signs, and every AK directory of the path has its requirement account/address and its signature over the final transaction, in order |
| Auth.SendTx | cmd/client/cmd/comm_trans.go:411-435 | requirement first, then one signature for both lists, then the id of the signed transaction |
| Auth.SendAligns | cmd/client/cmd/comm_trans.go:417-430 | a sent raw transaction is aligned, asks for exactly account/address or the address, is signed for the initiator, and its value part is untouched |
| Pb.SignatureCovers | cmd/client/cmd/ak.go:178-189 | two signatures agree exactly when keys, value, initiator, requirements and nonce agree |
| CliTransfer.AssembleTxInputsSupportAccount | cmd/client/cmd/cli.go:479-522 | the lock request, the inputs of the reply and the change, or the error |
| CliTransfer.AssembleTxSupportAccount | cmd/client/cmd/cli.go:324-400 | the transfer with its inputs, outputs, change and requirements, or the first error, that of PreExec last |
| CliTransfer.Transfer | cmd/client/cmd/cli.go:271-299 | the signed transfer, the payer defaulting to the initiator |
| CliTransfer.BuildersAgree | cmd/client/cmd/comm_trans.go:265-323 | for a recipient and no gas, the raw builder's outputs are the transfer builder's without the zero ones, with the same need and the same acceptance |
| CliTransfer.LockRequestAgreement | models/chain_handle.go:167-193 | the server grants the client's lock request, for exactly the client's need, if and only if the payer is an account or the initiator's own address |
| CliTransfer.TransferIsSound | cmd/client/cmd/cli.go:346-370 | every transfer built against an honest node balances and states its inputs truthfully |
| CliTransfer.TransferAligned | cmd/client/cmd/cli.go:274-299 | a transfer is aligned exactly when it has an account path or its payer is empty or named by the initiator |
| CliTransfer.GrantedTransferAligned | models/chain_handle.go:167-193 | with the initiator's own keys, a transfer that the node granted is aligned exactly unless its payer is an account without an account path |
| Payments.TransferPays | cmd/client/cmd/cli.go:324-405 | when a transfer is built; it spends only outputs of the payer and pays recipient, fee and change, and for whom it is signed |
| CliTransfer.UnalignedTransferExample | cmd/client/cmd/cli.go:378-380 | such a transfer, posted and not aligned |
| UtxoSplit.SplitUtxoCommand.SetUpAccount | cmd/client/cmd/utxo_split.go:191-210 | the account defaults to the initiator, and which accounts are refused |
| Payments.SplitRefusals | cmd/client/cmd/utxo_split.go:191-210 | why an account is refused, after defaulting: no type, an account without its path, an address that is not one's own |
| UtxoSplit.SplitUtxoCommand.GenSplitOutputs | cmd/client/cmd/utxo_split.go:226-245 | the cells hold the shares in order although one cell is rewritten, the caller's totalNeed ends as the last share, and a refusal leaves it unchanged |
| UtxoSplit.SplitUtxoCommand.SplitUtxo | cmd/client/cmd/utxo_split.go:60-141 | the split transaction, to post or for a file: inputs and change for the whole balance although totalNeed is consumed later; whose they are is in Payments.SplitDraftPays |
| UtxoSplit.SplitIsExact | cmd/client/cmd/utxo_split.go:226-245 | exactly num outputs, all at least 1, all floor(T/num) but the last with the remainder added, summing to T |
| UtxoSplit.GuardNeverStops | cmd/client/cmd/utxo_split.go:237-241 | the guard on rest never ends the loop early |
| UtxoSplit.SplitTxIsSound | cmd/client/cmd/utxo_split.go:82-100 | every posted split balances and states its inputs truthfully |
| UtxoSplit.SplitTxAligned | cmd/client/cmd/utxo_split.go:101-141 | a split is aligned exactly when it has an account path or the owner is named by the initiator |
| UtxoSplit.CheckedSplitAligned | cmd/client/cmd/utxo_split.go:191-210 | thanks to the account check, a split for an address or an account is always aligned |
| UtxoSplit.UncheckedSplitExample | cmd/client/cmd/utxo_split.go:201-208 | a name that is neither an address nor an account passes the check, and its split is posted without being aligned |
| UtxoSplit.SplitFileIsSound | cmd/client/cmd/utxo_split.go:101-132 | a split that is written to a file instead balances and is truthful as well |
| Payments.SplitDraftPays | cmd/client/cmd/utxo_split.go:60-100 | when a split is built; it spends only outputs of the account and pays the shares and the change to the account |
| Payments.SplitTxSigned | cmd/client/cmd/utxo_split.go:101-141 | the posted split is the draft, asked for and signed on behalf of the account |
| Payments.SplitFileAsks | cmd/client/cmd/utxo_split.go:101-132 | the filed split is the draft, unsigned, asking for exactly the non-empty lines of the address file |
| UtxoMerge.GenTxInputsWithMergeUTXO | cmd/client/cmd/comm_trans.go:599-653 | the signed request for everything, its inputs, and one output of the stated total |
| UtxoMerge.MergeUtxoCommand.MergeUtxo | cmd/client/cmd/utxo_merge.go:51-125 | the merge transaction or the first error; an unreadable address file leaves the initiator empty, and is an error only if no account is given |
| UtxoMerge.MergeTxIsSound | cmd/client/cmd/utxo_merge.go:81-93 | every merge built against an honest node balances and states its inputs truthfully |
| UtxoMerge.MergeTxAligned | cmd/client/cmd/utxo_merge.go:51-58 | for any node, a merge is aligned exactly when it has an account path or the owner is empty or named by the initiator |
| UtxoMerge.GrantedMergeAligned | cmd/client/cmd/utxo_merge.go:51-53 | with the initiator's own keys, the command's check and the node's lock check together make every posted merge aligned |
| UtxoMerge.MergeLockAgreement | models/chain_handle.go:70-80 | the request to lock everything is granted if and only if the owner is an account or the key's own address |
| Payments.MergePays | cmd/client/cmd/utxo_merge.go:51-125 | when a merge is built; it spends only the owner's outputs and pays their sum to the owner in one output, and for whom it is signed |
| UtxoMerge.SplitThenMerge | cmd/client/cmd/comm_trans.go:630-652 | merging exactly the shares of a split, in any order, gives one output of the original amount to the same account |
| Flows.SplitThenMergeOnLedger | cmd/client/cmd/utxo_merge.go:51-139 | after a split was accepted and the node selects just its shares, the merge command succeeds with one output of the balance that was split, the ledger accepts it and the shares are gone |
| Compliance.PreExecWithSelectUTXOReq | cmd/client/cmd/comm_trans.go:690-755 | the requested int64 total, or the parse error |
| Compliance.GenPreExeWithSelectUtxoRes | cmd/client/cmd/comm_trans.go:757-795 | the server's reply, unless a contract failed, once the gas is covered |
| Payments.RequestExact | cmd/client/cmd/comm_trans.go:730-744 | the request succeeds exactly for int64 decimals and is their wrapped sum with the service fee |
| Payments.PreExecutedExact | cmd/client/cmd/comm_trans.go:757-795 | the flow gets past pre-execution exactly when amounts are int64 decimals, the node serves and selects for the payer, no contract failed and the fee covers the gas |
| Compliance.GenerateTxOutput | cmd/client/cmd/comm_trans.go:1135-1174 | outputs for an optional recipient and fee |
| Compliance.GenerateTxInput | cmd/client/cmd/comm_trans.go:1095-1133 | inputs for a reply and the change over the service fee |
| Compliance.GenComplianceCheckTx | cmd/client/cmd/comm_trans.go:1037-1093 | the signed fee transaction; without utxos in the reply, a nil dereference |
| Payments.FeeTxPays | cmd/client/cmd/comm_trans.go:1037-1093 | F spends only outputs of the payer, pays the service fee to its address and the rest back, and is asked for and signed on behalf of the payer |
| Compliance.GenerateMultiTxOutputs | cmd/client/cmd/comm_trans.go:934-978 | outputs for oneself, the fee and the contract, or the error |
| Compliance.CollectOwn | cmd/client/cmd/comm_trans.go:834-846 | the payer's outputs of F with their own indices, and their sum |
| Compliance.TotalNeed | cmd/client/cmd/comm_trans.go:852-871 | fee plus amount in one cell, or the error of an unreadable one |
| Compliance.GenRealTx | cmd/client/cmd/comm_trans.go:826-932 | the signed real transaction with its contract part |
| Payments.RealTxPays | cmd/client/cmd/comm_trans.go:826-978 | T takes exactly the payer's outputs of F and pays, in order, the rest to the payer, the fee to the placeholder, the amount to the contract and the contract's own outputs; payer and endorser are asked for and the payer signs |
| ComplianceArithmetic.FeeTxBalances | cmd/client/cmd/comm_trans.go:1037-1053 | F balances exactly when the service fee has an address or is zero and the selection covers it, or when there is nothing to spend and no address |
| ComplianceArithmetic.UnpaidFeeIsLost | cmd/client/cmd/comm_trans.go:1037-1053 | without a fee address F creates less than it consumes by exactly the service fee |
| ComplianceArithmetic.OwnUtxosExact | cmd/client/cmd/comm_trans.go:834-846 | the outputs taken from F keep index, owner and amount, in increasing order, and none of the payer's is missed |
| ComplianceArithmetic.OwnInputsTruthful | cmd/client/cmd/comm_trans.go:980-994 | the inputs that T takes from F name distinct existing outputs of F with their owner and amount |
| ComplianceArithmetic.RealTxBalances | cmd/client/cmd/comm_trans.go:852-900 | T balances exactly when the amount is not negative and the outputs taken from F cover fee and amount |
| ComplianceArithmetic.RealTxSelf | cmd/client/cmd/comm_trans.go:873-950 | the first output of T is the payer's and holds what is left of F |
| ComplianceArithmetic.ComplianceBalances | cmd/client/cmd/comm_trans.go:797-808 | for every reply worth at least 1, F and T both balance exactly when the service fee is payable and covered, the amount is not negative and what F leaves to the payer covers fee and amount |
| ComplianceArithmetic.ServerNeedCovers | service/rpc/api.go:124-138 | the server's need is the full cost if that fits in int64, and covers F and T if and only if it fits |
| ComplianceArithmetic.NoUtxosWhenFree | service/rpc/api.go:124-128 | for guarded amounts that fit in int64, the reply comes without outputs if and only if the full cost is zero |
| ComplianceArithmetic.ComplianceIsSound | cmd/client/cmd/comm_trans.go:797-808 | for guarded amounts whose full cost is at least 1 and fits in int64, every honest reply leads to F and T that balance and are truthful, and T returns at least the gas to the payer |
| ComplianceArithmetic.OverflowBreaks | service/rpc/api.go:124-138 | beyond int64 the server either sends nothing, and the client dereferences nil, or asks for too little: when the node selects just that, the pair balances if and only if the fee goes back to the payer and so little is enough |
| ComplianceArithmetic.OverflowExample | service/rpc/api.go:124-138 | the largest int64 as the fee makes the need negative, and as fee and amount it makes the need 398, less than the service fee |
| ComplianceArithmetic.NegativeAmountExample | cmd/client/cmd/comm_trans.go:873-900 | an amount of -5 is requested and built, F balances, and T creates 10 |
| ComplianceArithmetic.EndorsedAligns | cmd/client/cmd/comm_trans.go:909-927 | with the endorser's signature appended, requirement i is signed by signer i and the initiator's signatures are unchanged |
| SignatureLists.Append | cmd/client/cmd/comm_trans.go:814 | appending through a shared backing array leaves every element of the old slice as it was |
| SignatureLists.EndorseShared | cmd/client/cmd/comm_trans.go:814 | although both lists are one slice, the endorser's signature shows in the second list only |
| SignatureLists.EndorseReal | cmd/client/cmd/comm_trans.go:922-927 | the two slices of the endorsed transaction hold the lists of its value form |
| Endorser.ProcessFee | service/rpc/endorser_service.go:326-348 | the fee is submitted if there is one, and counts as paid exactly when it was accepted or absent |
| Endorser.GenerateTxSign | service/rpc/endorser_service.go:350-368 | a signature over exactly the transaction in the request, or an error |
| Endorser.EndorserCall | service/rpc/endorser_service.go:173-196 | a signature is handed out exactly when the fee was accepted, if there is one, and the data and keys can be read |
| Endorser.ComplianceCheck | cmd/client/cmd/comm_trans.go:996-1035 | the client always sends the fee transaction along |
| Endorser.GenCompleteTxAndPost | cmd/client/cmd/comm_trans.go:797-824 | the flow ends with nothing posted, F alone, or F then T; success means exactly that F and then T were accepted |
| Endorser.Transfer | cmd/client/cmd/comm_trans.go:385-409 | the configuration chooses between the compliance flow and one signed raw transaction; how each ends |
| MultisigTransactions.GenerateMultisigGenRawTx | cmd/client/cmd/comm_trans.go:510-525 | the raw transaction with the requirements of the address file, or the first error |
| MultisigTransactions.RawFileIsSound | cmd/client/cmd/comm_trans.go:510-525 | a raw transaction in a file balances and is truthful like a posted one |
| MultisigTransactions.GetSigns | cmd/client/cmd/multisig_send.go:198-217 | all the signatures of the files in order, or an error |
| MultisigTransactions.Send | cmd/client/cmd/multisig_send.go:71-101 | the file with both lists replaced is submitted, or nothing |
| MultisigTransactions.SignedAddsSignatures | cmd/client/cmd/multisig_send.go:71-163 | sending adds the signatures it is given, as two lists or combined, and changes nothing that was signed |
| MultisigTransactions.SentAligns | cmd/client/cmd/multisig_sign.go:126-137 | signatures made over the file, one per requirement, still sign the transaction that is sent |
| MultisigTransactions.GetComplianceCheckSign | cmd/client/cmd/multisig_get.go:68-157 | the fee transaction is posted before the endorser signs the file, and when there is a signature |
| MultisigTransactions.FeeForSignBalances | cmd/client/cmd/multisig_get.go:101-120 | against an honest node that fee transaction is truthful, and balances exactly when the service fee has an address or is zero |
| Payments.FeeForSignPays | cmd/client/cmd/multisig_get.go:101-120 | when this fee transaction is built: from the payer's outputs selected for the service fee |
| MultisigTransactions.BuiltInConfigLosesFee | cmd/client/cmd/config.go:85-90 | with the built-in configuration the fee transaction of this command loses 400 |
| Runs.FeeBeforeReal | cmd/client/cmd/comm_trans.go:797-850 | in every run, when T is submitted F has been accepted, and T's own inputs name distinct existing outputs of F with their owner and amount |
| Runs.AcceptedRealHasFee | service/rpc/endorser_service.go:326-348 | an accepted T that takes anything from F stands next to F in the ledger, whatever replies were lost |
| Runs.RealFollowsFee | cmd/client/cmd/comm_trans.go:797-824 | right after F the ledger accepts the endorsed T if and only if its contract inputs are distinct, unspent and not among those it takes from F, and T is new in case it takes none |
| Runs.NothingSpentTwice | cmd/client/cmd/comm_trans.go:488-508 | in every run no output is spent twice and a spent one never reappears, which is the ledger's doing; the client's part is Flows.BuiltTxIsAccepted |
| Runs.BuiltTxIsSound | cmd/client/cmd/cli.go:324-405 | whichever single-transaction command built it, the fee transaction of `multisig get` included, the transaction balances and is truthful |
| Runs.RunConserves | cmd/client/cmd/comm_trans.go:196-250 | over every interleaving of the commands that get a transaction posted, with failures, the total value stays what the genesis created |
| Flows.BuiltTxIsAccepted | cmd/client/cmd/comm_trans.go:327-383 | what a command selects is distinct and unspent, so the ledger it was built against accepts its transaction if and only if that is new and its contract inputs, if any, are spendable and not selected again |
| Flows.FeeIsAccepted | cmd/client/cmd/comm_trans.go:1037-1093 | the ledger F was built against accepts it if and only if it is new |
| Flows.UndisturbedFlowSucceeds | cmd/client/cmd/comm_trans.go:797-824 | without faults and interference both transactions are posted if and only if F is new and T's contract inputs are spendable after F and not taken from F |
| Flows.FlowIsItsSteps | cmd/client/cmd/comm_trans.go:797-824 | every ending of the method, with its ledger and its success, is reached by steps that a run can take |
| Flows.StepsAreTheFlow | cmd/client/cmd/comm_trans.go:797-824 | whatever steps a run takes for a flow alone, it stops at a ledger that is an ending of the method |
| Flows.PlainIsItsSteps | cmd/client/cmd/comm_trans.go:385-409 | building and posting as steps give the ledger exactly the command's transaction, a raw one signed by its owner |
| Flows.FileIsItsSteps | cmd/client/cmd/multisig_send.go:71-101 | filing and sending as steps give the ledger the file with the signatures it is sent with |
| EventService.Service.ConnPermit | service/rpc/event_service.go:72-98 | who is permitted and how the counter changes |
| EventService.Service.ReleaseConn | service/rpc/event_service.go:100-112 | the counter after a stream ends |
| EventService.Service.Open | service/rpc/event_service.go:37-47 | a disabled service refuses before the counter is touched |
| EventService.StepKeepsExact | service/rpc/event_service.go:86-111 | every arrival and every end keeps the counter equal to the live streams |
| EventService.CounterIsExact | service/rpc/event_service.go:72-112 | in every reachable state the counter of an address is its number of live streams, a key exists exactly for one or more, and none exceeds the limit |
| EventService.RefusedExactlyAtLimit | service/rpc/event_service.go:82-98 | a stream is refused if and only if the address holds the limit, and a refusal changes nothing |
| EventService.EmptyWhenIdle | service/rpc/event_service.go:107-110 | once all streams ended the map is empty |
| EventService.ArriveThenEnd | service/rpc/event_service.go:43-47 | a stream that comes and goes leaves the counter as it was |
| ClientCache.StepKeepsInv | service/rpc/endorser_service.go:91-111 | every atomic step keeps the mutual exclusion and the agreement of cache, stores and results |
| ClientCache.EntriesArePermanent | service/rpc/endorser_service.go:95-109 | a cache entry never changes and never goes away |
| ClientCache.OneStorePerHost | service/rpc/endorser_service.go:99-109 | under every interleaving at most one client is stored for a host |
| ClientCache.SameClientForAll | service/rpc/endorser_service.go:91-111 | all successful calls for a host return the same client |
| ClientCache.FailedDialLeavesNoTrace | service/rpc/endorser_service.go:104-107 | a failed dial leaves the cache unchanged and frees the mutex |
| ClientCache.HolderCanMove | service/rpc/endorser_service.go:99-100 | whoever holds the mutex can go on, so nobody waits for ever behind a stuck holder |
| ClientCache.ProxyXEndorser.GetClient | service/rpc/endorser_service.go:91-111 | the client returned and the cache left behind, given what others stored while the call waited for the mutex |
| ClientCache.ShortCallIsTheMethod | service/rpc/endorser_service.go:91-97 | without a host a call fails and a cached client is returned at once, whoever holds the mutex; otherwise the caller waits and nothing has changed |
| ClientCache.StepsAreTheMethod | service/rpc/endorser_service.go:97-111 | the atomic steps of a waiting caller, taken in a row, end with the result and the cache of the method and disturb no other caller |
| ClientCache.CallIsTheMethod | service/rpc/endorser_service.go:99-111 | under every interleaving a call that waited and returned held the mutex over a stretch in which the cache changed exactly as the method changes it, with the method's result |
| Startup.StepKeepsInv | cmd/xchain/cmd/startup.go:84-113 | every step keeps the wait group, the loop counter and the channel in agreement with the goroutines |
| Startup.NeverPanics | service/manage.go:56-80 | the wait group never goes negative and no server sends on, or is blocked on, the closed channel |
| Startup.ReturnsOnlyAfterAll | cmd/xchain/cmd/startup.go:110-153 | StartupXchain returns only after the engine's Run and every server's Run have returned |
| Startup.ToldToExit | cmd/xchain/cmd/startup.go:93-107 | between Exit calls, the servers have been told to exit exactly if the engine ended or a signal came, and the engine exactly if the servers ended or a signal came |
| Startup.AlwaysHeard | cmd/xchain/cmd/startup.go:93-107 | between Exit calls the select hears a signal and the end of engine and servers, whatever was heard before |
| Startup.AlwaysCanReturn | cmd/xchain/cmd/startup.go:93-112 | from every reachable state in which those have returned, a bounded number of the program's own steps makes StartupXchain return |
| Multisig.FindKFromKList | cmd/client/cmd/multisig_sign.go:155-182 | the random value and index of the first listed key with the signer's address, or the error |
| Multisig.FindKIff | cmd/client/cmd/multisig_sign.go:155-182 | exactly the signers whose address a listed key has are found, at the first such key, and when the index runs out |
| Multisig.FirstWithIsFirst | cmd/client/cmd/multisig_sign.go:168-180 | the search finds the first match and misses none |
| Multisig.EachFindsItself | cmd/client/cmd/multisig_sign.go:155-182 | with keys of distinct addresses every party finds its own index |
| Multisig.PlaceSigns | cmd/client/cmd/multisig_send.go:116-138 | the filled list, or the error of the counts or of the first unusable file |
| Multisig.PlaceErrorIsFirst | cmd/client/cmd/multisig_send.go:129-137 | the first unusable file decides the error |
| Multisig.SlotIsLast | cmd/client/cmd/multisig_send.go:137-138 | a slot holds the last file for it and is nil exactly when there is none |
| Multisig.AllSlotsFilledIff | cmd/client/cmd/multisig_send.go:128-138 | as many usable files as parties fill every slot if and only if no two carry the same index |
| Multisig.OrderIsIrrelevant | cmd/client/cmd/multisig_send.go:129-138 | with distinct indices the filled list does not depend on the order of the files |
| Multisig.RoundFillsEverySlot | cmd/client/cmd/multisig_sign.go:105-113 | when each listed party signs once, slot i ends with what party i signed, for every order of the files |

## Left out

- File, key and directory reading, gRPC transport, timestamps, configuration loading and printing: their results are parameters. A node that refuses or fails, an account or address list that cannot be read, key files of an account, and the address file in a split or merge can fail in the model; the other local failures (the key directory elsewhere, an address file that exists but cannot be read, encoding and writing) end a command before it posts anything and are not modelled.
- Debug printing and `multisig check`: a transaction that is only shown changes no value.
- The cryptography of `multisig send` between the filled list of partial signatures and the combined one, which a run takes as given.
- The contract fields of a transaction (requests, read and write sets, description) and the statuses of contract responses: they carry no value.
- Transactions are assembled as values in local variables; sharing is modelled where the source relies on it, for amounts, split outputs and signature lists.
- UTXO locks of the node: two commands may select the same outputs, and the ledger then refuses the second.
- The endorser's other request names (PreExecWithFee, CrossQueryPreExec, TxQuery) and unsupported names: they forward to the node or refuse.
- Message-length ambiguity of the lock message and other cryptographic questions: hashes are ideal.
- The iteration of an event stream: a stream is live from its permit to its release.
- Exiting a server before it has started: nothing is claimed about when a Run returns, only what follows when all have.
- ComplianceArithmetic.ComplianceBalances: the reply is worth at least 1, because the server never selects for less.
