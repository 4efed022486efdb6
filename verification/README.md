# A verified model of the Cardano application for Ledger devices

The application is a streaming signer. The host sends a transaction, a native script or a message in many small
requests; state machines decide which element may come next, and rolling hash builders write the elements down as
they arrive. Nothing is ever stored as a whole. This project proves what the stream of accepted requests stands for:
the one script, registration, output, certificate, transaction body, address or message, and that what is hashed and
signed is the CBOR of exactly that.

`dafny verify dfyconfig.toml` checks everything.

## Main results

- **Native scripts.** A stream of requests completes if and only if it is the pre-order of one admissible script, and
  what is hashed is a zero byte and the CBOR of that script; the two counter stacks agree in every reachable state and
  the unchecked index of the builder stays in range (`NativeScript.CompleteRunIsScript`,
  `NativeScriptDerivation.Derivation.HandleFinish`).
- **Transactions.** A signing call ends if and only if its requests are those of one acceptable transaction - the init
  data, the auxiliary data, and a well-formed body with exactly the elements the machine expects - then its
  confirmation, and then as many allowed witnesses as announced (`TxRun.ConfirmedRun`, `TxRun.FinishedRun`). The
  imperative machine accepts exactly what this run function accepts, request by request, with the same new state
  (`SignTx.SigningContext.HandleAPDU`). So in every run the log of builder calls at confirmation is the word of the
  body that was received, and no other announced body has this log (`SignTx.SigningContext.SignedTransaction`,
  `SignTx.SigningContext.SignedBodyUnique`, `TxUnique.WordDeterminesBody`). No assertion of the stage switch fails, the
  union of contexts is always read as it was initialised last, and a rank decreases with every accepted request
  (`TxMachine.StepKept`, `TxMachine.StepDecreases`).
- **What is signed.** No assertion of the transaction hash builder fails on the calls for a complete body. Exactly if
  no legacy output has a reference script, what it hashes is the CBOR of some data item, and then it is that of the
  body: a map with all sizes met (`TxBytes.BodyBytes`, `TxBytes.HashedItem`). An independent reader with the keys,
  tags and codes of the CDDL finds in these bytes exactly the content of the body (`TxContent.BytesRead`), so no two
  transactions, even of different init requests, have the same bytes, but for how keys, addresses and chunks were
  given (`TxContent.BytesDetermineBody`). So every signature of a run is over the hash of the CBOR of the one body
  that was received (`SignTx.SigningContext.SignedBytes`, `SignTx.SigningContext.SignedDocument`).
- **Signing modes.** What is signed in a pool mode is one pool registration and nothing else for which its signatures
  could stand; the signing paths of these modes are given element by element (`SignTx.SigningContext.PoolModeBody`,
  `TxRun.SignedInNumbers`, `TxRun.SignersInNumbers`).
- **Confirmation.** A signing call with an accepted init request can be confirmed, by some requests, if and only if at
  most 1000 collateral inputs and at most 10000 reference inputs are expected (`TxLimits.CanBeConfirmed`).
- **Sub-machines.** For outputs, mint, pool registration and vote registration, a run finishes if and only if its
  requests are those of one well-formed document, with every declared count and size met and all keys in canonical
  order (`TxOutput.FinishedRun` with `TxUnique.OutputReceivedOnce`, `TxMint.FinishedRun`, `TxPool.FinishedRun`,
  `VoteRegistration.FinishedRun`).
- **Pool owners.** In owner mode every signature is made with the path of the only owner given by path; if there is none
  nothing is signed (`SignTx.SigningContext.OwnerModeSignatures`).
- **Auxiliary data.** At the end of every registration both hash streams are the CBOR of the same registration, and the
  path that signs is the one whose key is in the payload (`AuxData.FinishedStreams`,
  `VoteRegistration.RegistrationContext.FinishedRegistration`).
- **Bech32.** The checksum step is multiplication by x modulo the generator of BIP 173 over GF(32). For every length
  the output verifies, its checksum is the only one that does, replacing up to six adjacent symbols is detected, and
  the string reads back as prefix and bytes (`Bech32.StepIsMultiplication`, `Bech32.ChecksumVerifies`,
  `Bech32.BurstDetected`, `Bech32.Encode`).
- **Addresses.** Shelley address bytes determine type, network, credentials and pointer; the magic extracted from a
  Byron address is the one it was printed with; every accepted Byron address is characterised
  (`ShelleyAddress.ReadOfAddressBytes`, `ByronAddress.ExtractedFromPrinted`, `ByronAddress.AddressRead`).
- **Messages.** A run completes if and only if it brings the pieces of one acceptable message, whose length fixes the
  size of every piece (`SignMessage.FinishedRun`); exactly when a confirm request signs a message that has been brought
  (`SignMessage.SignMsgContext.WhatIsSigned`).
- **Accounts.** Of the single account check alone: all paths that one object accepts belong to one account, and a path
  is refused exactly if it is incompatible with one accepted before
  (`SingleAccount.SingleAccountData.ViolatesSingleAccountOrStoreIt`). In the signing machine its outcome is part of
  `allowed`.

## How it is built

Code that changes its state is modelled by classes with the same fields, and its handlers by methods. For each
sub-machine there is a pure `Step` function and the documents it receives; the handlers are proved to accept exactly
what `Step` accepts, and lemmas relate whole runs of `Step` to documents in both directions.

| file | models |
|---|---|
| `Basics.dfy`, `Cbor.dfy`, `BufView.dfy` | bytes, big-endian numbers, texts; CBOR heads and data items with their reader; read and write views |
| `Bip44.dfy`, `SingleAccount.dfy` | derivation paths, their classification; the single account model and the policies that use it |
| `NativeScript.dfy`, `NativeScriptDerivation.dfy` | native scripts as trees and as streams; the hash builder and the driver with their two counter stacks |
| `Bech32.dfy` | the encoder and its checksum over bit vectors, with a reader |
| `AuxData.dfy`, `VoteRegistration.dfy` | CIP-15 and CIP-36 registrations: the two streams of the builder, and the sub-machine that drives it |
| `TokenBundle.dfy`, `TxOutput.dfy`, `TxMint.dfy`, `TxPool.dfy` | token bundles in canonical order; the sub-machines for outputs, mint and pool registration |
| `TxBody.dfy`, `TxUnique.dfy` | transaction bodies with the word of builder calls they stand for, and why the word fixes the body |
| `TxHashBuilder.dfy`, `TxItems.dfy` | the transaction hash builder as a step function; the data items of a body |
| `TxElementBytes.dfy`, `TxEntryBytes.dfy`, `TxOutputBytes.dfy`, `TxPoolBytes.dfy`, `TxBytes.dfy` | what the builder writes for elements, entries and whole bodies |
| `TxReader.dfy`, `TxContent.dfy` | a reader of transaction bodies after the CDDL, and that it finds in the bytes what was received |
| `TxMachine.dfy`, `TxRun.dfy`, `SignTx.dfy`, `TxLimits.dfy` | the main machine as a step function; what its runs stand for, in both directions; the machine itself, with its contexts and handlers; two limits that the init request does not know of |
| `Pointer.dfy`, `ShelleyAddress.dfy`, `ByronAddress.dfy` | pointer numbers, Shelley and Byron addresses with readers |
| `SignMessage.dfy` | CIP-8 message signing: chunks and the signed structure |

## Conventions

- A failed validation, throw or assertion ends the run: the handler returns `false` and promises nothing more. An
  assertion that cannot fail is asserted here, and proved.
- A request and its screens, with an approving user, are one step. Decisions of the security policies and of the user
  that no property depends on are a parameter `allowed`; those that matter are written out.
- A hash context is the sequence of bytes appended to it. Hashing, signing, key derivation and the checksum of Byron
  addresses are function parameters about which nothing is assumed.
- The machines call the transaction hash builder by adding to a log. What the builder does with this log is modelled
  apart, as a step function on its counters and on the bytes hashed.
- What is accepted and written is stated a second time, without the names of the definitions, in the lemmas whose names
  end in `InNumbers`, `InWords` and `InBytes`: codes, limits, path elements and orders as the source has them.
- Integers are unbounded with explicit ranges. Narrowing casts are written out: item counts to 16 bits, the chain of
  a path to 8 bits, pointer numbers to 32 bits. The accumulator of the Bech32 encoder is a 32-bit vector.
- C unions are datatypes with one variant for each member. The union of sub-machine contexts is one object for each
  member and a tag for the one that was initialised last, which is asserted wherever a member is used.
- Where the source reads another member of a union than the one it wrote, the bytes it reads are computed, for the
  layout of the devices: words of 32 bits, least significant byte first.

## Where the code and its intent differ

These are results of the model. Each has an input that shows it and its exact condition among the members below.

- The counts of the init request are narrowed to 16 bits before they are checked: 65537 inputs are one input, and 65537
  voting procedures meet the limit of one. The machine expects what was announced exactly if all counts are below 65536
  (`TxMachine.CountsNarrowed`, `TxMachine.StoredCounts`, `TxMachine.LimitsMeant`, `TxRun.AnnouncedBody`).
- The check of the numbers of owners and relays in a pool registration looks at the fields before they are set, so it
  never refuses. The limit on owners is enforced late, by an assertion in the screen of an owner; the limit on relays is
  never enforced (`TxPool.LimitsNotChecked`, `TxPool.StoredCounts`, `TxPool.OwnersLimited`, `TxPool.RelaysUnlimited`).
- The number of delegations is narrowed to 16 bits before CIP-15 registrations are checked to have none
  (`VoteRegistration.Cip15CountNarrowed`, `VoteRegistration.StoredCount`).
- The label of a collateral input fills its buffer from index 1000 on and that of a reference input from index 10000 on.
  An assertion takes it for a label that has been cut, even if the input is not shown. The init request allows 65535 of
  each. A call that expects more than 1000 collateral or more than 10000 reference inputs is never confirmed
  (`TxLimits.NeverConfirmed`, `TxLimits.CanBeConfirmed`, `TxBody.LabelsFit`).
- No policy refuses a reference script in a legacy output, whose array has no place for it: key and script are written
  behind the array, and what is hashed and signed is not CBOR (`TxLimits.LegacyScriptHashed`, `TxBytes.HashedItem`).
- An output with tokens is refused by an assertion if its address is a third party's and is not zero in its bytes 76 to
  79, which share memory with the token counters (`TxOutput.ResidueRefused`, `TxOutput.HarmlessBytes`,
  `TxOutput.FirstGroup`). No Shelley address is that long.
- A path whose chain is 256 is classified as a payment key path, and likewise for multisig paths
  (`Bip44.WideChainTakenForPayment`, `Bip44.PaymentChain`, `Bip44.WideChainTakenForMultisigPayment`,
  `Bip44.MultisigPaymentChain`).
- Valid address parameters can make the derivation abort: a base address with a pointer, and a reward address of a key
  hash, whose bytes are read as a path (`ShelleyAddress.ValidButNotDerivable`, `ShelleyAddress.DerivableParams`).
- A printed Byron address with the largest 32-bit protocol magic is refused by the extraction
  (`ByronAddress.ExtractedFromPrinted`).
- The extraction does not compare the declared size of the magic, or of the payload, with what it reads, so it also
  accepts addresses that are not well-formed (`ByronAddress.MisdeclaredAccepted`, `ByronAddress.WellFormedIfSizesMet`).
- A comment says that the size check of the first message chunk works for an empty message. No chunk of an empty text is
  accepted, and no text with a space where it is cut (`SignMessage.ReadableText`).
- The confirm request for a message does not look at the stage, and if the payload is a hash not at the number of
  chunks, so it also signs before all of the message, or any of it, has come. An init request in the middle of a
  call does not take back a chunk (`SignMessage.ConfirmedWithoutChunks`, `SignMessage.StaleChunkSigned`,
  `SignMessage.SignMsgContext.WhatIsSigned`, `SignMessage.SignMsgContext.SignedEarly`).

## Model

| member | source | states |
|---|---|---|
| Cbor.ReadTokenOfHead | src/utils/cbor.c:13-172 | a head that was written is parsed back with its type and value, whatever follows it, exactly if it is of a kind that the parser knows: no texts, no simple values, no negative numbers beyond 64 signed bits |
| Cbor.HeadOfReadToken | src/utils/cbor.c:13-107 | every token that is parsed is the head that would be written for it: heads that are not the shortest are refused |
| Cbor.DecodeOfEncode | src/utils/cbor.c:109-201 | the encoding of any data item that fits is read back as that item, leaving what follows |
| Cbor.EncodeOfDecode | src/utils/cbor.c:13-107 | whatever the reader of data items accepts is the encoding of what it returns |
| Cbor.HeadInBytes | src/utils/cbor.c:109-172 | heads byte by byte as section 3 of RFC 8949 lays them out: the type in the high bits of the first byte, the value in its low bits or in one, two, four or eight bytes behind it |
| Cbor.NumberExamples | src/utils/cbor.c:109-172 | the numbers of appendix A of RFC 8949 have the bytes given there |
| Cbor.StringExamples | src/utils/cbor.c:109-172 | the same for byte strings, texts and a tag of appendix A |
| Cbor.ListExamples | src/utils/cbor.c:109-172 | the same for arrays and maps of appendix A |
| NativeScript.PreorderBytes | src/nativeScriptHashBuilder/nativeScriptHashBuilder.c:91-191 | the bytes appended for the pre-order of a script are the CBOR of the script as a tree |
| NativeScript.ScriptAccepted | src/deriveNativeScriptHash/deriveNativeScriptHash.c:25-149 | the pre-order of any script is accepted to the end if and only if it has at most ten nested complex scripts and no n-of-k requires more than it lists |
| NativeScript.CompleteRunIsScript | src/deriveNativeScriptHash/deriveNativeScriptHash.c:25-282 | a sequence of steps completes if and only if it is the pre-order of an admissible script, and then of one only |
| NativeScript.CompleteOnlyAtEnd | src/nativeScriptHashBuilder/nativeScriptHashBuilder.c:37-75 | every prefix is accepted, and the run is complete after the last step and never earlier |
| NativeScript.StreamInjective | src/nativeScriptHashBuilder/nativeScriptHashBuilder.c:77-191 | two scripts with the same hashed bytes are the same script |
| NativeScript.StepInBytes | src/nativeScriptHashBuilder/nativeScriptHashBuilder.c:91-191 | the bytes of a step with the numbers of the CDDL: 0 for a key, 1 to 3 for all, any and n of k, 4 and 5 for the two time locks |
| NativeScript.ExpectedInNumbers | src/deriveNativeScriptHash/deriveNativeScriptHash.c:73-115 | which step is accepted: something must be expected, complex scripts nest ten deep at most, n must not be above k |
| NativeScriptDerivation.HashBuilder.constructor | src/nativeScriptHashBuilder/nativeScriptHashBuilder.c:77-89 | one script is expected and a zero byte has been hashed |
| NativeScriptDerivation.HashBuilder.AdvanceState | src/nativeScriptHashBuilder/nativeScriptHashBuilder.c:37-52 | the state is finished exactly when nothing is expected any more |
| NativeScriptDerivation.HashBuilder.ComplexScriptFinished | src/nativeScriptHashBuilder/nativeScriptHashBuilder.c:54-66 | the popping loop leaves exactly the levels that expect nothing, each counting as one script of the level below |
| NativeScriptDerivation.HashBuilder.SimpleScriptFinished | src/nativeScriptHashBuilder/nativeScriptHashBuilder.c:68-75 | one script of the current level has been received, and finished levels are left |
| NativeScriptDerivation.HashBuilder.EnterLevel | src/nativeScriptHashBuilder/nativeScriptHashBuilder.c:108-114 | a level is opened, and left at once if it is empty; the array index stays in range if the caller keeps it so |
| NativeScriptDerivation.HashBuilder.StartComplexScript | src/nativeScriptHashBuilder/nativeScriptHashBuilder.c:91-148 | the counters and the hashed bytes are those of the step; refused only when finished |
| NativeScriptDerivation.HashBuilder.AddPubKey | src/nativeScriptHashBuilder/nativeScriptHashBuilder.c:150-169 | the counters and the hashed bytes are those of the step; refused only when finished, for a key hash of 28 bytes |
| NativeScriptDerivation.HashBuilder.AddTimelock | src/nativeScriptHashBuilder/nativeScriptHashBuilder.c:171-191 | the counters and the hashed bytes are those of the step; refused only when finished, for a time lock |
| NativeScriptDerivation.HashBuilder.Finalize | src/nativeScriptHashBuilder/nativeScriptHashBuilder.c:195-205 | possible exactly when the whole script has been received |
| NativeScriptDerivation.Derivation.ComplexScriptFinished | src/deriveNativeScriptHash/deriveNativeScriptHash.c:33-49 | the driver's own popping loop has the same effect on its counters |
| NativeScriptDerivation.Derivation.SimpleScriptFinished | src/deriveNativeScriptHash/deriveNativeScriptHash.c:51-61 | the driver's counters after a script has been received |
| NativeScriptDerivation.Derivation.StartInBuilder | src/deriveNativeScriptHash/deriveNativeScriptHash.c:73-115 | given the depth check of the driver, no assertion of the builder fails |
| NativeScriptDerivation.Derivation.StartScript | src/deriveNativeScriptHash/deriveNativeScriptHash.c:79-149 | a complex script that is expected is started in both stacks, which agree again afterwards |
| NativeScriptDerivation.Derivation.HandleComplexScriptStart | src/deriveNativeScriptHash/deriveNativeScriptHash.c:73-149 | accepted exactly if a script is expected, the depth allows it and n does not exceed k; the two counter stacks agree afterwards |
| NativeScriptDerivation.Derivation.HandleSimpleScript | src/deriveNativeScriptHash/deriveNativeScriptHash.c:202-250 | accepted exactly if a script is expected; the two counter stacks agree afterwards |
| NativeScriptDerivation.Derivation.HandleFinish | src/deriveNativeScriptHash/deriveNativeScriptHash.c:259-284 | possible exactly when a whole script has been received and its hash is asked for in one of the two formats; what is hashed is a zero byte and the CBOR of that script |
| NativeScriptDerivation.Derivation.ParseComplex | src/deriveNativeScriptHash/deriveNativeScriptHash.c:117-149 | the data of a request are parsed exactly if they are the wire form of a start step, and as that step |
| NativeScriptDerivation.Derivation.ParseSimple | src/deriveNativeScriptHash/deriveNativeScriptHash.c:153-250 | the data of a request are parsed exactly if they are the wire form of a simple script, and as that script |
| NativeScriptDerivation.Derivation.HandleAPDU | src/deriveNativeScriptHash/deriveNativeScriptHash.c:288-334 | for each of the three requests and any data: a request that adds is accepted exactly if its data stand for a step that is expected, the one that finishes exactly if the script is whole |
| NativeScriptDerivation.RequestUnique | src/deriveNativeScriptHash/deriveNativeScriptHash.c:117-250 | no request stands for two steps |
| NativeScriptDerivation.RequestsInNumbers | src/deriveNativeScriptHash/deriveNativeScriptHash.c:117-282 | the requests, key references and display formats in the numbers of the wire |
| Basics.TextInNumbers | src/utils/textUtils.c:250-280 | unambiguous text: characters 32 to 126, no space at either end and no two together |
| Bip44.ParseFromWire | src/crypto/bip44.c:20-50 | succeeds exactly if some path of at most five elements is a prefix of the data on the wire, and returns that path and its size |
| Bip44.PathToWireInjective | src/crypto/bip44.c:20-50 | the wire form of a path is read in one way only, whatever follows it |
| Bip44.OrdinaryClasses | src/crypto/bip44.c:380-436 | each class of ordinary wallet paths is exactly the set of paths with its shape; payment keys with the chain reduced to eight bits |
| Bip44.OtherWalletClasses | src/crypto/bip44.c:438-522 | the same for multisig, mint, pool cold and vote paths |
| Bip44.PaymentChain | src/crypto/bip44.c:396-405 | a path classified as a payment key has chain 0 or 1 if and only if its chain fits a byte |
| Bip44.WideChainTakenForPayment | src/crypto/bip44.c:396-405 | a path with chain 256 is classified as a payment key |
| Bip44.MultisigPaymentChain | src/crypto/bip44.c:446-456 | a path classified as a multisig payment key has chain 0 if and only if its chain fits a byte |
| Bip44.WireInBytes | src/crypto/bip44.c:40-54 | each element of a path takes four bytes, the most significant first, behind one byte with their number |
| Bip44.ClassesInNumbers | src/crypto/bip44.c:380-436 | the classes of ordinary paths element by element, in numbers: 44' or 1852', 1815', a hardened account, the chain, and whether the last element may be hardened |
| Bip44.OtherClassesInNumbers | src/crypto/bip44.c:438-522 | the same for multisig, mint, pool cold and vote paths: 1854', 1855', 1853' and 1694' |
| Bip44.WideChainTakenForMultisigPayment | src/crypto/bip44.c:446-456 | a multisig path with chain 256 is classified as a payment key |
| SingleAccount.SingleAccountData.ViolatesSingleAccountOrStoreIt | src/signTx/signTxUtils.c:29-60 | a path is refused exactly if it is incompatible with some path accepted before, and recorded otherwise |
| SingleAccount.SingleAccountData.OneAccount | src/signTx/signTxUtils.c:29-60 | all paths accepted in a run share one account, and Byron and Shelley are mixed in account 0 only |
| SingleAccount.CompatibleInNumbers | src/signTx/signTxUtils.c:29-60 | two paths that are checked are compatible if and only if their third elements are equal and they begin alike, or the account is 0 |
| SingleAccount.CheckableWhenReached | src/securityPolicy/securityPolicy.c:595-635 | the assertion on the checked path fails at none of the places where a policy makes the check |
| Bech32.StepPlus | src/crypto/bech32.c:27-32 | the checksum step is linear over exclusive or |
| Bech32.PolymodXor | src/crypto/bech32.c:27-32 | the register after a sum of inputs is the sum of the registers, for every length |
| Bech32.GeneratorMultiple | src/crypto/bech32.c:27-32 | what the step adds for the highest symbol c is c times 29, 22, 20, 21, 29, 18 in GF(32), reduced modulo 41: the generator of BIP 173 |
| Bech32.StepIsMultiplication | src/crypto/bech32.c:27-32 | for every register the step is multiplication by x modulo this generator, symbol by symbol |
| Bech32.ExpandInNumbers | src/crypto/bech32.c:51-69 | the prefix is fed as the quotients of its characters by 32, a zero, and the remainders |
| Bech32.DifferenceSurvives | src/crypto/bech32.c:27-32 | a nonzero difference of registers below 2^30 never vanishes, however many zeros follow |
| Bech32.ChecksumVerifies | src/crypto/bech32.c:45-91 | for every prefix and data, six symbols make the string verify if and only if they are the checksum |
| Bech32.BurstDetected | src/crypto/bech32.c:45-91 | replacing up to six adjacent symbols of a string that verifies, anywhere and for every length, makes it fail |
| Bech32.FeedHigh | src/crypto/bech32.c:51-58 | the first loop feeds the high parts of the prefix and refuses upper case and control characters |
| Bech32.FeedPrefix | src/crypto/bech32.c:60-69 | the second loop feeds the low parts and copies the prefix |
| Bech32.FeedData | src/crypto/bech32.c:70-78 | the data loop feeds every symbol and writes its character |
| Bech32.FeedZeros | src/crypto/bech32.c:79-82 | six zero symbols are fed |
| Bech32.WriteChecksum | src/crypto/bech32.c:83-90 | the six symbols of the register are written |
| Bech32.Encode5Bit | src/crypto/bech32.c:45-91 | the output is the prefix, the separator, the data and the checksum, terminated by zero; exactly when it is refused |
| Bech32.EmitSymbols | src/crypto/bech32.c:118-124 | the inner loop emits the waiting bits five at a time; bits that were shifted out of the accumulator do not matter |
| Bech32.ConvertBits | src/crypto/bech32.c:109-134 | the symbols carry the bits of the bytes in order, padded with zero bits to a whole symbol, in spite of the wrapping accumulator |
| Bech32.SymbolsInBits | src/crypto/bech32.c:109-134 | bit by bit: the bits of the bytes, the highest first, five to a symbol, and zeros behind them |
| Bech32.CharOfSymbol | src/crypto/bech32.c:34-35 | the character of each symbol |
| Bech32.ShortestString | src/test/bech32_test.c:39-39 | the string a12uel5l reads as the prefix a and no bytes |
| Bech32.Encode | src/crypto/bech32.c:97-143 | the string reads back as the prefix and the bytes, and for the prefix a and no bytes it is a12uel5l; its length is the prefix, 7 and the symbols; exactly when it is refused |
| Bech32.ReadInjective | src/crypto/bech32.c:97-143 | a prefix and bytes have one string only |
| Bech32.ChangedStringRefused | src/crypto/bech32.c:45-91 | a readable string in which up to six adjacent symbols are replaced is not readable |
| AuxData.RegistrationBytes | src/auxDataHashBuilder/auxDataHashBuilder.c:126-280 | the bytes written for the events of a registration are the CBOR of its map: every declared size is met |
| AuxData.FinishedStreams | src/auxDataHashBuilder/auxDataHashBuilder.c:90-341 | at the end the payload stream is the CBOR of map(1) of the registration, and the auxiliary stream that of array(2) of the registration, the signature and no scripts |
| AuxData.RegistrationInNumbers | src/signTx/signTxCVoteRegistration.c:113-485 | acceptable registrations in numbers: delegations modulo 65536, the staking key path element by element, an address of 1 to 128 bytes, a purpose for CIP-36 only |
| AuxData.VoteKeyInNumbers | src/securityPolicy/securityPolicy.c:1923-1932 | a vote key given by path comes with CIP-36 only, and its path is 1694'/1815'/account'/0/index |
| AuxData.ItemsInNumbers | src/auxDataHashBuilder/auxDataHashBuilder.c:90-341 | the payload and the auxiliary data with the metadata keys 61284 and 61285 and the entries 1 to 5 |
| AuxData.KeysInWords | src/auxDataHashBuilder/auxDataHashBuilder.c:126-193 | one vote key is written as such, several as an array of pairs of key and weight |
| AuxData.Builder.Enter | src/auxDataHashBuilder/auxDataHashBuilder.c:90-109 | the auxiliary stream is opened, and the registration map in both streams |
| AuxData.Builder.EnterPayload | src/auxDataHashBuilder/auxDataHashBuilder.c:111-124 | the payload map is opened with the size of its format |
| AuxData.Builder.AddVoteKey | src/auxDataHashBuilder/auxDataHashBuilder.c:126-149 | the same bytes go to both streams; exactly when it is refused |
| AuxData.Builder.EnterDelegations | src/auxDataHashBuilder/auxDataHashBuilder.c:151-165 | the same bytes go to both streams; exactly when it is refused, and the number of delegations to come is kept |
| AuxData.Builder.AddDelegation | src/auxDataHashBuilder/auxDataHashBuilder.c:167-193 | the same bytes go to both streams; exactly when it is refused; refused when none remains |
| AuxData.Builder.AddStakingKey | src/auxDataHashBuilder/auxDataHashBuilder.c:195-231 | the same bytes go to both streams; exactly when it is refused; refused while delegations remain |
| AuxData.Builder.AddPaymentAddress | src/auxDataHashBuilder/auxDataHashBuilder.c:233-252 | the same bytes go to both streams; exactly when it is refused |
| AuxData.Builder.AddNonce | src/auxDataHashBuilder/auxDataHashBuilder.c:254-266 | the same bytes go to both streams; exactly when it is refused |
| AuxData.Builder.AddVotingPurpose | src/auxDataHashBuilder/auxDataHashBuilder.c:268-280 | the same bytes go to both streams; exactly when it is refused |
| AuxData.Builder.FinalizePayload | src/auxDataHashBuilder/auxDataHashBuilder.c:282-294 | the preimage is the payload stream |
| AuxData.Builder.AddSignature | src/auxDataHashBuilder/auxDataHashBuilder.c:296-316 | only the auxiliary stream grows, by the signature entry |
| AuxData.Builder.AddAuxiliaryScripts | src/auxDataHashBuilder/auxDataHashBuilder.c:318-328 | only the auxiliary stream grows, by an empty array |
| AuxData.Builder.Finalize | src/auxDataHashBuilder/auxDataHashBuilder.c:330-341 | the preimage is the auxiliary stream |
| VoteRegistration.RegistrationAccepted | src/signTx/signTxCVoteRegistration.c:57-149 | the events of every well-formed registration are accepted to the end |
| VoteRegistration.FinishedRun | src/signTx/signTxCVoteRegistration.c:57-663 | a run finishes if and only if its events are those of a well-formed registration, and then of one only |
| VoteRegistration.EventsInjective | src/signTx/signTxCVoteRegistration.c:57-663 | two registrations with the same events are the same |
| VoteRegistration.ReceivedInNumbers | src/signTx/signTxCVoteRegistration.c:204-404 | in a registration that has been received, the staking key path and every vote key path element by element |
| VoteRegistration.StepDecreases | src/signTx/signTxCVoteRegistration.c:57-108 | every accepted request brings the registration closer to its end |
| VoteRegistration.Cip15CountNarrowed | src/signTx/signTxCVoteRegistration.c:131-136 | a CIP-15 registration that sends 65536 delegations is accepted |
| VoteRegistration.StoredCount | src/signTx/signTxCVoteRegistration.c:131-136 | an accepted init request sent the number of delegations that is expected afterwards, for CIP-15 none, if and only if the number sent fits 16 bits |
| VoteRegistration.RegistrationContext.AdvanceState | src/signTx/signTxCVoteRegistration.c:57-108 | the next state for every state, and the builder calls that go with it |
| VoteRegistration.RegistrationContext.HandleInit | src/signTx/signTxCVoteRegistration.c:113-151 | accepted exactly as the step function says, with the count narrowed to 16 bits before it is checked; sub-machine and builder stay in lockstep and no builder assertion fails |
| VoteRegistration.RegistrationContext.HandleVoteKey | src/signTx/signTxCVoteRegistration.c:204-269 | accepted exactly as the step function says, and builder and sub-machine stay in lockstep: the vote key |
| VoteRegistration.RegistrationContext.HandleDelegation | src/signTx/signTxCVoteRegistration.c:273-342 | accepted exactly as the step function says, and builder and sub-machine stay in lockstep: a delegation, including the counter and advance of its last screen |
| VoteRegistration.RegistrationContext.HandleStakingKey | src/signTx/signTxCVoteRegistration.c:351-404 | accepted exactly as the step function says, and builder and sub-machine stay in lockstep: the staking key path |
| VoteRegistration.RegistrationContext.HandlePaymentAddress | src/signTx/signTxCVoteRegistration.c:431-488 | accepted exactly as the step function says, and builder and sub-machine stay in lockstep: the payment address |
| VoteRegistration.RegistrationContext.HandleNonce | src/signTx/signTxCVoteRegistration.c:492-536 | accepted exactly as the step function says, and builder and sub-machine stay in lockstep: the nonce |
| VoteRegistration.RegistrationContext.HandleVotingPurpose | src/signTx/signTxCVoteRegistration.c:542-602 | accepted exactly as the step function says, and builder and sub-machine stay in lockstep: the voting purpose, which CIP-15 asks for without writing it |
| VoteRegistration.RegistrationContext.SignAndFinalize | src/signTx/signTxCVoteRegistration.c:606-663 | the payload is signed with the staking key and the signature goes into the auxiliary stream |
| VoteRegistration.RegistrationContext.HandleConfirm | src/signTx/signTxCVoteRegistration.c:606-663 | accepted exactly at the confirm state; the streams are complete |
| VoteRegistration.RegistrationContext.HandleAPDU | src/signTx/signTxCVoteRegistration.c:678-743 | accepted exactly as the step function says, whatever the request |
| VoteRegistration.RegistrationContext.FinishedRegistration | src/signTx/signTxCVoteRegistration.c:606-663 | in every finished run there is a registration whose events were received, whose payload item was signed by the path whose key it contains, and whose auxiliary data item has the hash kept |
| TokenBundle.FulfillsCanonicalOrdering | src/utils/cbor.c:176-201 | true exactly if the keys are in strict length-first, then bytewise order |
| TokenBundle.KeyOrder | src/utils/cbor.c:176-201 | this order is a strict total order |
| TokenBundle.KeyOrderInWords | src/utils/cbor.c:176-201 | shorter before longer, and for equal lengths the first byte that differs decides |
| TokenBundle.AscendingOrdered | src/signTx/signTxMint.c:75-88 | comparing each key with the one before it makes every key smaller than all later ones, so all are distinct |
| TokenBundle.AscendingInWords | src/signTx/signTxMint.c:75-88 | comparing neighbours accepts exactly the lists in which any two keys are in this order |
| TokenBundle.GroupsInWords | src/signTx/signTxOutput.c:548-700 | groups are accepted if and only if each has 1 to 65535 tokens and any two policy ids, and any two asset names of a group, are in this order |
| TokenBundle.PairsDistinct | src/signTx/signTxMint.c:59-178 | in accepted groups all pairs of policy id and asset name are distinct |
| TokenBundle.BundleReceived | src/signTx/signTxOutput.c:548-700 | the requests of a token bundle complete if and only if they bring the declared number of accepted groups with their declared numbers of tokens, and those groups are unique |
| TokenBundle.NothingAfterComplete | src/signTx/signTxOutput.c:548-700 | a complete bundle accepts nothing more |
| TokenBundle.AdvanceDecreases | src/signTx/signTxOutput_ui.c:290-299 | every accepted request leaves less to come |
| TxOutput.TotalOfAccepted | src/signTx/signTxOutput.c:835-975 | accepted chunks add up to exactly the declared size |
| TxOutput.RequestsAccepted | src/signTx/signTxOutput.c:59-166 | the requests of every well-formed output are accepted to the end; the states visited are tokens iff there are groups, then datum iff included, then script iff included |
| TxOutput.FinishedRun | src/signTx/signTxOutput.c:59-1060 | a run finishes if and only if its requests are those of a well-formed output: declared counts and sizes are met, and tokens come with a harmless destination only |
| TxUnique.OutputReceivedOnce | src/signTx/signTxOutput.c:59-1060 | and then they are those of one output only |
| TxOutput.HarmlessBytes | src/signTx/signTxOutput.c:66-68 | what the destination leaves in the union is harmless if and only if the device owns it or the bytes 76 to 79 of its address, as far as there are any, are zero |
| TxOutput.ShortAddressHarmless | src/signTx/signTxOutput.c:66-68 | addresses of at most 76 bytes, among them all Shelley addresses, are harmless |
| TxOutput.TopInNumbers | src/signTx/signTxOutput.c:314-361 | the limits on addresses, amounts and groups, and what a collateral output may not have |
| TxOutput.ChunkInNumbers | src/signTx/signTxOutput.c:745-870 | chunks have at most 240 bytes, and where this is asked for no fewer as long as more remain |
| TxOutput.DataInNumbers | src/signTx/signTxOutput.c:745-975 | inline data have less than 1024 bytes and need the later format; a reference script has less than 2^32, one that is shown one less |
| TxOutput.ResidueRefused | src/signTx/signTxOutput.c:66-68 | an address of 77 bytes with which an output with tokens is refused, though it is accepted without tokens, or if the device owns it |
| TxOutput.FirstGroup | src/signTx/signTxOutput.c:64-82 | the first group of an acceptable output with tokens is accepted if and only if its destination is harmless |
| TxOutput.RequestsLog | src/signTx/signTxOutput.c:170-975 | the builder calls of a finished run are those of the output: groups in order with their tokens, datum and script chunks in order |
| TxOutput.InvariantKept | src/signTx/signTxOutput.c:59-166 | every accepted request keeps the counters below their bounds and the union at the variant of its state |
| TxOutput.StepDecreases | src/signTx/signTxOutput.c:59-166 | every accepted request brings the output closer to its end |
| TxOutput.OutputContext.Initialize | src/signTx/signTxOutput.c:47-51 | a fresh sub-machine |
| TxOutput.OutputContext.AdvanceState | src/signTx/signTxOutput.c:59-166 | succeeds exactly if the assertions of the source hold, and moves to the next state |
| TxOutput.OutputContext.ParseTopLevelData | src/signTx/signTxOutput.c:314-361 | what is stored; writing the destination leaves bytes of its address where the counters of the union are |
| TxOutput.OutputContext.HandleTopLevelData | src/signTx/signTxOutput.c:363-545 | accepted exactly as the step function says, with the calls logged |
| TxOutput.OutputContext.HandleAssetGroup | src/signTx/signTxOutput.c:548-617 | accepted exactly as the step function says, with the new state and calls; policy ids in canonical order, at least one token |
| TxOutput.OutputContext.HandleToken | src/signTx/signTxOutput.c:621-700 | accepted exactly as the step function says, with the new state and calls, including the token counter of its last screen; asset names in canonical order |
| TxOutput.OutputContext.HandleDatumHash | src/signTx/signTxOutput.c:704-743 | accepted exactly as the step function says, with the new state and calls: a datum hash |
| TxOutput.OutputContext.HandleInlineDatum | src/signTx/signTxOutput.c:745-804 | accepted exactly as the step function says, with the new state and calls: the first chunk of an inline datum |
| TxOutput.OutputContext.HandleDatumChunk | src/signTx/signTxOutput.c:835-870 | accepted exactly as the step function says, with the new state and calls: a further chunk |
| TxOutput.OutputContext.HandleRefScript | src/signTx/signTxOutput.c:874-935 | accepted exactly as the step function says, with the new state and calls: the first chunk of a reference script, whose size must not be the largest 32-bit number if it is shown |
| TxOutput.OutputContext.HandleRefScriptChunk | src/signTx/signTxOutput.c:937-975 | accepted exactly as the step function says, with the new state and calls: a further chunk |
| TxOutput.OutputContext.HandleConfirm | src/signTx/signTxOutput.c:979-1059 | accepted exactly as the step function says, with the new state and calls: the confirmation |
| TxOutput.OutputContext.HandleAPDU | src/signTx/signTxOutput.c:1063-1197 | a request is accepted exactly as the step function says, and the log grows by its calls |
| TxOutput.OutputContext.FinishedOutput | src/signTx/signTxOutput.c:23-45 | a finished sub-machine has received one well-formed output and logged its calls |
| TxMint.FinishedRun | src/signTx/signTxMint.c:29-214 | a run finishes if and only if its requests are those of a mint with its declared groups and tokens, policy ids and asset names in order, and then of one only |
| TxMint.RequestsInjective | src/signTx/signTxMint.c:29-214 | two mints with the same requests are the same |
| TxMint.RequestsLog | src/signTx/signTxMint.c:29-178 | the builder calls of a finished run are those of the mint |
| TxMint.InvariantKept | src/signTx/signTxMint_ui.c:21-66 | every accepted request keeps the counters below their bounds |
| TxMint.StepDecreases | src/signTx/signTxMint_ui.c:21-66 | every accepted request brings the mint closer to its end |
| TxMint.MintContext.Initialize | src/signTx/signTxMint.c:236-240 | a fresh sub-machine |
| TxMint.MintContext.AdvanceState | src/signTx/signTxMint_ui.c:21-66 | succeeds exactly if the assertions of the source hold, and moves to the next state |
| TxMint.MintContext.HandleTopLevelData | src/signTx/signTxMint.c:29-57 | accepted exactly as the step function says, with the calls logged |
| TxMint.MintContext.HandleAssetGroup | src/signTx/signTxMint.c:59-111 | accepted exactly as the step function says, with the new state and calls: an asset group |
| TxMint.MintContext.HandleToken | src/signTx/signTxMint.c:113-178 | accepted exactly as the step function says, with the new state and calls: a token, including the counter of its last screen |
| TxMint.MintContext.HandleConfirm | src/signTx/signTxMint.c:180-214 | accepted exactly as the step function says, with the new state and calls: the confirmation |
| TxMint.MintContext.HandleAPDU | src/signTx/signTxMint.c:242-272 | a request is accepted exactly as the step function says, and the log grows by its calls |
| TxMint.MintContext.FinishedMint | src/signTx/signTxMint.c:274-291 | a finished sub-machine has received one mint and logged its calls |
| TxPool.FinishedRun | src/signTx/signTxPoolRegistration.c:67-890 | a run finishes if and only if its requests are those of an acceptable certificate, with at most 1000 owners and exactly the declared owners and relays, and then of one only; its log and owner path are those of the certificate |
| TxPool.RequestsInjective | src/signTx/signTxPoolRegistration.c:67-890 | two certificates with the same requests are the same |
| TxPool.LimitsNotChecked | src/signTx/signTxPoolRegistration.c:95-103 | an init request that sends 1001 owners and 1001 relays is accepted |
| TxPool.StoredCounts | src/signTx/signTxPoolRegistration.c:95-110 | the counts stored by an accepted init request are within the limits if and only if the sent ones are so modulo 65536, and are the sent ones if and only if these are below 65536 |
| TxPool.OwnersLimited | src/ui/bagl/uiScreens_bagl.c:565-575 | a certificate is finished only if its owners are within the limit, which the screen of an owner enforces |
| TxPool.RelaysUnlimited | src/signTx/signTxPoolRegistration.c:95-103 | the limit on relays is never enforced: with any number of relays below 65536 a certificate is finished all the same |
| TxPool.OneOwnerByPath | src/signTx/signTxPoolRegistration.c:480-559 | in accepted owners at most one is given by path, and its path is the one kept |
| TxPool.NoOwnerByPath | src/signTx/signTxPoolRegistration.c:480-559 | if no owner is given by path no path is kept |
| TxPool.OwnersInNumbers | src/securityPolicy/securityPolicy.c:1283-1313 | acceptable owners: at most one path, that of a stake key and in owner mode only |
| TxPool.CertificateInNumbers | src/signTx/signTxPoolRegistration.c:67-850 | acceptable certificates: counts, the form of the pool key in each mode, limits on pledge, cost and margin, and metadata links |
| TxPool.RewardAccountInNumbers | src/signTx/signTxPoolRegistration.c:360-450 | the first byte of a reward account, given or derived, and the path of one |
| TxPool.RelayInNumbers | src/signTx/signTxPoolRegistration.c:627-735 | the three kinds of relays with their ports, addresses and names |
| TxPool.StepExtends | src/signTx/signTxPoolRegistration_ui.c:31-91 | calls are only added, and every accepted request brings the certificate closer to its end |
| TxPool.PoolContext.Initialize | src/signTx/signTxPoolRegistration.c:53-57 | a fresh sub-machine |
| TxPool.PoolContext.AdvanceState | src/signTx/signTxPoolRegistration_ui.c:31-91 | the fall-through from the reward account over empty lists; succeeds exactly if the assertions of the source hold |
| TxPool.PoolContext.HandleInit | src/signTx/signTxPoolRegistration.c:67-121 | accepted exactly as the step function says: the counts are narrowed to 16 bits, and the check of their size looks at the fields before they are set |
| TxPool.PoolContext.HandlePoolKey | src/signTx/signTxPoolRegistration.c:168-237 | accepted exactly as the step function says, with the new state and calls: the pool key |
| TxPool.PoolContext.HandleVrfKey | src/signTx/signTxPoolRegistration.c:241-290 | accepted exactly as the step function says, with the new state and calls: the VRF key |
| TxPool.PoolContext.HandleFinancials | src/signTx/signTxPoolRegistration.c:297-356 | accepted exactly as the step function says, with the new state and calls: pledge, cost and margin |
| TxPool.PoolContext.HandleRewardAccount | src/signTx/signTxPoolRegistration.c:360-450 | accepted exactly as the step function says, with the new state and calls: a reward account given by bytes with the header of one and the network of the call, or by the path of a stake key; it opens the lists |
| TxPool.PoolContext.TakeOwner | src/signTx/signTxPoolRegistration.c:480-559 | the owner policy and the path kept; a second owner by path is refused |
| TxPool.PoolContext.HandleOwner | src/signTx/signTxPoolRegistration.c:480-559 | accepted exactly as the step function says, with the new state and calls, including the counter and the index assertion of its screen |
| TxPool.PoolContext.HandleRelay | src/signTx/signTxPoolRegistration.c:627-735 | accepted exactly as the step function says, with the new state and calls: a relay |
| TxPool.PoolContext.HandleMetadata | src/signTx/signTxPoolRegistration.c:738-850 | accepted exactly as the step function says, with the new state and calls: the metadata |
| TxPool.PoolContext.HandleConfirm | src/signTx/signTxPoolRegistration.c:854-890 | accepted exactly as the step function says, with the new state and calls: the confirmation |
| TxPool.PoolContext.HandleAPDU | src/signTx/signTxPoolRegistration.c:907-984 | a request is accepted exactly as the step function says |
| TxPool.PoolContext.FinishedCertificate | src/signTx/signTxPoolRegistration.c:31-51 | a finished sub-machine has received one acceptable certificate, logged its calls and kept its owner path |
| TxBody.FlatAppend | src/signTx/signTx.c:112-320 | the calls of consecutive elements are the calls of their concatenation |
| TxBody.Added | src/signTx/signTx.c:112-320 | an element received in a section adds exactly its own calls to the word of the body and nothing elsewhere |
| TxBody.CompleteBody | src/signTx/signTx.c:321-334 | past the last section the body has exactly the elements that the init request announced |
| TxBody.BodyInNumbers | src/signTx/signTx.c:1722-2557 | well-formed bodies: withdrawals in canonical order, the limits on labels, a donation of at least 1 |
| TxBody.SizesInNumbers | src/signTx/signTxMint.c:113-140 | asset names of 32 bytes, links of 128 and paths of five elements can be received |
| TxBody.Next | src/signTx/signTx.c:112-320 | the next section that waits for requests: all sections skipped expect nothing |
| TxUnique.FlatUnique | src/signTx/signTx.c:112-320 | lists of the same length over a code in which no word begins another are read in one way only, whatever follows |
| TxUnique.OutputUnique | src/signTx/signTxOutput.c:170-975 | the builder calls of an output do not begin with those of another one: declared groups, tokens and sizes fix where it ends, and everything but how the address was given |
| TxUnique.MintUnique | src/signTx/signTxMint.c:29-178 | the builder calls of a mint do not begin with those of another one |
| TxUnique.PoolUnique | src/signTx/signTxPoolRegistration.c:67-850 | the builder calls of a pool registration fix the certificate, but for keys given by path or by hash |
| TxUnique.WordDeterminesBody | src/signTx/signTx.c:63-346 | bodies announced by the same init request with the same builder calls are the same, but for keys given by path or by hash and addresses given by bytes or by parameters |
| TxMachine.StoredCounts | src/signTx/signTx.c:613-621 | the counts that the machine expects are those sent if and only if all of them are below 65536 |
| TxMachine.CountsNarrowed | src/signTx/signTx.c:613-641 | an accepted init request that sends 65537 inputs and 65537 voting procedures, of which one each is expected |
| TxMachine.LimitsMeant | src/signTx/signTx.c:613-641 | for an accepted init request, the limits on voting procedures and on certificates in the pool modes hold of the numbers sent if and only if these are below 65536 |
| TxMachine.InitInNumbers | src/securityPolicy/securityPolicy.c:341-405 | which init requests are accepted, in numbers: network and magic, inputs, votes, and for each signing mode what may not be announced |
| TxMachine.StoredInNumbers | src/signTx/signTx.c:475-621 | every flag and count is stored in its own field |
| TxMachine.ElementInWords | src/signTx/signTx.c:858-2557 | for each of the fourteen kinds of elements: at which stage and under which condition it is accepted, and which field of the body it becomes part of |
| TxMachine.WitnessInNumbers | src/securityPolicy/securityPolicy.c:1542-1618 | the paths that may sign in each pool mode, element by element |
| TxMachine.StepKept | src/signTx/signTx.c:2721-2814 | every accepted request keeps the invariant: the body received is well-formed, complete before its section and within it in its section, and every sub-machine at work has run as its own requests say |
| TxMachine.RunKept | src/signTx/signTx.c:2721-2814 | so does every sequence of accepted requests |
| TxMachine.PollKept | src/signTx/signTx.c:384-456 | taking over what a finished sub-machine received keeps the invariant |
| TxMachine.RankAfter | src/signTx/signTx.c:112-334 | an element completed in a section is progress, whichever section comes next |
| TxMachine.StepDecreases | src/signTx/signTx.c:2721-2814 | every accepted request makes the rank smaller |
| TxMachine.RunBounded | src/signTx/signTx.c:2721-2814 | so a run has at most as many requests as the rank of its first state |
| TxRun.RunTells | src/signTx/signTx.c:2721-2814 | at every point of a run the requests accepted so far are exactly those that the auxiliary data, the body, the sub-machine at work and the signatures of the state stand for |
| TxRun.TransactionAccepted | src/signTx/signTx.c:63-346 | the requests of every acceptable transaction, whose collateral and reference inputs can all be labelled, are accepted to the confirmation, at which exactly this transaction has been received |
| TxRun.ConfirmedRun | src/signTx/signTx.c:2576-2630 | a confirm request is accepted if and only if the requests before it are those of an acceptable transaction, and then of one only, which is what has been received |
| TxRun.FinishedRun | src/signTx/signTx.c:2576-2715 | a signing call ends if and only if its requests are those of an acceptable transaction, its confirmation, and as many allowed witnesses as announced, and then of one transaction and one list of witnesses only |
| TxRun.SignedInNumbers | src/securityPolicy/securityPolicy.c:341-405 | for every run after its confirmation: in the pool modes there is one pool registration and nothing else that may not be there, in ordinary and multisig mode no collateral, no reference inputs and no pool registration |
| TxRun.SignersInNumbers | src/securityPolicy/securityPolicy.c:1542-1618 | for every run after its confirmation: what the signing paths of the pool modes look like, element by element |
| TxRun.AnnouncedBody | src/signTx/signTx.c:613-621 | the body of an acceptable transaction has as many elements as the init request sent if and only if no count was narrowed |
| SignTx.Entered | src/signTx/signTx.c:112-320 | moving on from a complete section adds exactly the calls that open the next one |
| SignTx.OrderChecked | src/signTx/signTx.c:1722-1784 | comparing with the account kept from the previous request is comparing with the last withdrawal |
| SignTx.ElementReceived | src/signTx/signTx.c:858-2557 | an element of one request adds its one call to the log, and the counters agree with the body again |
| SignTx.ParseTxOptions | src/signTx/signTx.c:466-473 | only the one known flag is accepted |
| SignTx.PolicyForSignTxInit | src/securityPolicy/securityPolicy.c:341-440 | which combinations of body elements each signing mode denies |
| SignTx.CheckInit | src/signTx/signTx.c:475-665 | exactly which init requests are accepted, with all counts narrowed to 16 bits before they are checked |
| SignTx.PolicyForSignTxWitness | src/securityPolicy/securityPolicy.c:1542-1618 | in the pool modes, exactly which paths may sign |
| SignTx.SigningContext.constructor | src/signTx/signTx.c:2762-2776 | a new call starts in the initial stage, with the invariant |
| SignTx.SigningContext.LeaveInputs | src/signTx/signTx.c:112-124 | no assertion fails; the log and stage are those of the next section that waits |
| SignTx.SigningContext.LeaveOutputs | src/signTx/signTx.c:126-131 | no assertion fails on leaving the section; the log and the stage are those of the next section that waits |
| SignTx.SigningContext.LeaveFee | src/signTx/signTx.c:133-142 | no assertion fails on leaving the section; the log and the stage are those of the next section that waits, falling through if there is no time to live |
| SignTx.SigningContext.LeaveTtl | src/signTx/signTx.c:144-155 | no assertion fails on leaving the section; the log and the stage are those of the next section that waits |
| SignTx.SigningContext.LeaveCertificates | src/signTx/signTx.c:157-167 | no assertion fails on leaving the section; the log and the stage are those of the next section that waits |
| SignTx.SigningContext.LeaveWithdrawals | src/signTx/signTx.c:169-187 | no assertion fails on leaving the section; the log and the stage are those of the next section that waits; the hash of the auxiliary data goes in here, if and only if included |
| SignTx.SigningContext.LeaveValidityInterval | src/signTx/signTx.c:189-202 | no assertion fails on leaving the section; the log and the stage are those of the next section that waits; the mint sub-machine is initialised |
| SignTx.SigningContext.LeaveMint | src/signTx/signTx.c:204-214 | no assertion fails on leaving the section; the log and the stage are those of the next section that waits |
| SignTx.SigningContext.LeaveScriptDataHash | src/signTx/signTx.c:216-227 | no assertion fails on leaving the section; the log and the stage are those of the next section that waits |
| SignTx.SigningContext.LeaveCollateralInputs | src/signTx/signTx.c:229-238 | no assertion fails on leaving the section; the log and the stage are those of the next section that waits |
| SignTx.SigningContext.LeaveRequiredSigners | src/signTx/signTx.c:240-253 | no assertion fails on leaving the section; the log and the stage are those of the next section that waits; the network id goes in here, if and only if included |
| SignTx.SigningContext.LeaveCollateralOutput | src/signTx/signTx.c:255-265 | no assertion fails on leaving the section; the log and the stage are those of the next section that waits |
| SignTx.SigningContext.LeaveTotalCollateral | src/signTx/signTx.c:267-278 | no assertion fails on leaving the section; the log and the stage are those of the next section that waits |
| SignTx.SigningContext.LeaveReferenceInputs | src/signTx/signTx.c:280-289 | no assertion fails on leaving the section; the log and the stage are those of the next section that waits |
| SignTx.SigningContext.LeaveVotingProcedures | src/signTx/signTx.c:291-299 | no assertion fails on leaving the section; the log and the stage are those of the next section that waits |
| SignTx.SigningContext.LeaveTreasury | src/signTx/signTx.c:301-311 | no assertion fails on leaving the section; the log and the stage are those of the next section that waits |
| SignTx.SigningContext.LeaveDonation | src/signTx/signTx.c:313-319 | the confirm stage is reached |
| SignTx.SigningContext.LeaveAuxData | src/signTx/signTx.c:78-110 | the body context is initialised, the builder and the inputs are opened |
| SignTx.SigningContext.AdvanceBody | src/signTx/signTx.c:63-346 | the switch over the stages of the body, with no failing assertion |
| SignTx.SigningContext.AdvanceStage | src/signTx/signTx.c:63-346 | from a complete section the invariant holds again afterwards, at the next section that waits |
| SignTx.SigningContext.Take | src/signTx/signTx.c:858-2557 | an element of one request becomes part of the body and of the log, and the invariant holds at the next stage |
| SignTx.SigningContext.HandleInit | src/signTx/signTx.c:475-700 | accepted exactly in the initial stage if the narrowed counts and the policy allow it; the first stage |
| SignTx.SigningContext.HandleAuxDataHash | src/signTx/signTx.c:705-803 | accepted exactly in its stage; the given hash is kept |
| SignTx.SigningContext.HandleAuxDataRegistration | src/signTx/signTx.c:705-803 | the registration sub-machine takes over |
| SignTx.SigningContext.HandleRegistrationAPDU | src/signTx/signTx.c:705-735 | a request is handed to the sub-machine exactly in its stage |
| SignTx.SigningContext.HandleInput | src/signTx/signTx.c:858-897 | accepted exactly in its stage; the body grows by the input, the invariant holds, and the next stage |
| SignTx.SigningContext.HandleFee | src/signTx/signTx.c:926-983 | accepted exactly in its stage; the body grows by the fee, the invariant holds, and the next stage |
| SignTx.SigningContext.HandleTtl | src/signTx/signTx.c:987-1041 | accepted exactly in its stage; the body grows by the time to live, the invariant holds, and the next stage |
| SignTx.SigningContext.HandleCertificate | src/signTx/signTx.c:1640-1718 | accepted exactly in its stage; the body grows by a certificate, which the pool modes deny, the invariant holds, and the next stage |
| SignTx.SigningContext.CountCertificate | src/signTx/signTx.c:350-373 | the counter moves on, and the stage if it was the last certificate |
| SignTx.SigningContext.HandlePoolCertificate | src/signTx/signTx.c:1588-1599 | the pool sub-machine takes over, in the pool modes only |
| SignTx.SigningContext.HandlePoolAPDU | src/signTx/signTx.c:1640-1662 | a request is handed to the sub-machine exactly in its stage; its calls go to the log |
| SignTx.SigningContext.AddWithdrawalToTxHash | src/signTx/signTx.c:1722-1784 | accepted exactly if the account is in canonical order after the one kept |
| SignTx.SigningContext.CountWithdrawal | src/signTx/signTx_ui.c:1126-1138 | the counter moves on, and the stage if it was the last withdrawal |
| SignTx.SigningContext.HandleWithdrawal | src/signTx/signTx.c:1786-1849 | accepted exactly in its stage if the account is in canonical order after the last withdrawal |
| SignTx.SigningContext.HandleValidityIntervalStart | src/signTx/signTx.c:1853-1909 | accepted exactly in its stage; the body grows by the element, the invariant holds, and the next stage |
| SignTx.SigningContext.HandleScriptDataHash | src/signTx/signTx.c:1932-1993 | accepted exactly in its stage; the body grows by the element, the invariant holds, and the next stage |
| SignTx.SigningContext.HandleCollateralInput | src/signTx/signTx.c:2006-2046 | accepted exactly in its stage for the first 1000 collateral inputs, whose labels fit; the body grows by the element, the invariant holds, and the next stage |
| SignTx.SigningContext.HandleRequiredSigner | src/signTx/signTx.c:2050-2127 | accepted exactly in its stage; the body grows by the element, the invariant holds, and the next stage |
| SignTx.SigningContext.HandleTotalCollateral | src/signTx/signTx.c:2154-2212 | accepted exactly in its stage; the body grows by the element, the invariant holds, and the next stage |
| SignTx.SigningContext.HandleReferenceInput | src/signTx/signTx.c:2225-2265 | accepted exactly in its stage for the first 10000 reference inputs, whose labels fit; the body grows by the element, the invariant holds, and the next stage |
| SignTx.SigningContext.HandleVotingProcedure | src/signTx/signTx.c:2327-2438 | accepted exactly in its stage; the body grows by the element, the invariant holds, and the next stage |
| SignTx.SigningContext.HandleTreasury | src/signTx/signTx.c:2442-2497 | accepted exactly in its stage; the body grows by the element, the invariant holds, and the next stage |
| SignTx.SigningContext.HandleDonation | src/signTx/signTx.c:2501-2557 | accepted exactly in its stage; the body grows by the element, the invariant holds, and the next stage; a donation of zero is refused |
| SignTx.SigningContext.HandleOutputAPDU | src/signTx/signTx.c:901-922 | a request starts the sub-machine or is handed to it, exactly as its step function says; its calls go to the log |
| SignTx.SigningContext.HandleMintAPDU | src/signTx/signTx.c:1913-1928 | a request starts the sub-machine or is handed to it, exactly as its step function says; its calls go to the log: the mint |
| SignTx.SigningContext.HandleCollateralOutputAPDU | src/signTx/signTx.c:2131-2150 | a request starts the sub-machine or is handed to it, exactly as its step function says; its calls go to the log: the collateral output |
| SignTx.SigningContext.HandleConfirm | src/signTx/signTx.c:2576-2630 | accepted exactly in its stage; the hash is over the whole log, which is the word of a body with everything announced |
| SignTx.SigningContext.HandleWitness | src/signTx/signTx.c:2634-2715 | accepted exactly in its stage if the witness policy allows the path; one signature of the hash is added |
| SignTx.SigningContext.FinishOutput | src/signTx/signTx.c:388-399 | the output whose requests were received is appended to the body |
| SignTx.SigningContext.FinishMint | src/signTx/signTx.c:435-442 | the mint whose requests were received becomes part of the body |
| SignTx.SigningContext.FinishCollateralOutput | src/signTx/signTx.c:444-451 | the collateral output whose requests were received becomes part of the body |
| SignTx.SigningContext.FinishPool | src/signTx/signTx.c:403-411 | the certificate whose requests were received is appended to the body |
| SignTx.SigningContext.FinishRegistration | src/signTx/signTx.c:415-433 | the hash of the finished registration is kept and the body begins |
| SignTx.SigningContext.CheckForFinishedSubmachines | src/signTx/signTx.c:384-456 | what a finished sub-machine received is taken over exactly as the polling function says |
| SignTx.SigningContext.HandleElement | src/signTx/signTx.c:2721-2760 | for each of the fourteen kinds of elements: accepted exactly if the step function accepts it, and the new state is the one it says |
| SignTx.SigningContext.HandlePart | src/signTx/signTx.c:2721-2760 | requests to sub-machines: accepted exactly if the step function accepts them, and the new state is the one it says, down to the requests that the sub-machine has received |
| SignTx.SigningContext.PollOutputs | src/signTx/signTx.c:384-401 | a finished output, or collateral output, is taken over exactly as the polling function says |
| SignTx.SigningContext.PollCertificatesAndMint | src/signTx/signTx.c:403-442 | likewise a finished pool certificate or mint |
| SignTx.SigningContext.HandleControl | src/signTx/signTx.c:2721-2760 | requests that open or close a part of the run: accepted exactly if the step function accepts them, and the new state is the one it says |
| SignTx.SigningContext.Handle | src/signTx/signTx.c:2721-2760 | every request: accepted exactly if the step function accepts it, and the new state is the one it says |
| SignTx.SigningContext.HandleAPDU | src/signTx/signTx.c:2762-2814 | every request: accepted exactly if the step function accepts it in the current state; the new state is the one it says, the log is the word of it, the requests grow by this one, the rank decreases, and once the hash has been computed only witnesses change |
| SignTx.SigningContext.LogIs | src/signTx/signTx.c:63-346 | in every reachable state the log is the word of what has been received |
| SignTx.SigningContext.SignedTransaction | src/signTx/signTx.c:2576-2715 | whenever something may be signed, the requests of the run are those of one acceptable transaction, its confirmation and its witnesses; the log is the word of its body, and every signature is over the hash of this log |
| SignTx.SigningContext.SignedBody | src/signTx/signTx.c:2576-2715 | the body that is signed is well-formed, has everything that was announced, and all of the log is its word |
| SignTx.SigningContext.SignedBodyUnique | src/signTx/signTx.c:2576-2715 | no other body announced by the same init request has the log that is signed, but for keys given by path or by hash and addresses given by bytes or by parameters |
| SignTx.SigningContext.NothingSignedBefore | src/signTx/signTx.c:2634-2715 | nothing is signed before the hash has been computed |
| SignTx.SigningContext.OwnerModeSignatures | src/securityPolicy/securityPolicy.c:1542-1564 | in owner mode every signature is made with the path of the only owner given by path; if there is none, nothing is signed |
| SignTx.SigningContext.OwnerModeCertificate | src/securityPolicy/securityPolicy.c:366-393 | in the pool modes the body has one certificate, an acceptable pool registration |
| SignTx.SigningContext.PoolModeBody | src/securityPolicy/securityPolicy.c:366-393 | a body that is signed in a pool mode is one pool registration: no withdrawals, mint, script data hash, collateral, required signers, reference inputs, votes, treasury or donation |
| SignTx.SigningContext.OrdinaryModeBody | src/securityPolicy/securityPolicy.c:395-402 | a body that is signed in ordinary or multisig mode has no collateral, no reference inputs and no pool registration |
| SignTx.SigningContext.PoolModeSignatures | src/securityPolicy/securityPolicy.c:1542-1587 | in owner mode all signatures are by stake keys, in operator mode by payment keys and pool cold keys |
| SignTx.SigningContext.AuxDataSigned | src/signTx/signTx.c:415-433 | the hash in the signed body is the given one, or that of the CBOR of the registration received, signed with its staking key |
| BufView.WriteView.AppendBuffer | src/bufView.h:70-78 | refused exactly if it does not fit; the contents grow by the data |
| BufView.WriteView.AppendToken | src/bufView.h:64-68 | refused exactly if the head does not fit; the contents grow by the head |
| BufView.ReadView.Skip | src/bufView.h:43-52 | refused exactly if not enough is left |
| BufView.ReadView.ParseToken | src/bufView.h:80-84 | the head at the front, if there is one, is taken away |
| BufView.ReadView.ParseBuffer | src/bufView.h:88-94 | refused exactly if not enough is left; the bytes at the front are taken away |
| Pointer.ReadOfVarUInt | src/addressUtils/addressUtilsShelley.c:235-266 | reading base 128 gives the number written, whatever follows |
| Pointer.VarUIntShortest | src/addressUtils/addressUtilsShelley.c:235-266 | no shorter bytes are read as the same number |
| Pointer.VarUIntLength | src/addressUtils/addressUtilsShelley.c:235-266 | 32-bit numbers take one to five bytes |
| Pointer.PointerExample | src/addressUtils/addressUtilsShelley.c:235-266 | the pointer given as an example in CIP-19 has the bytes given there |
| Pointer.Chunks | src/addressUtils/addressUtilsShelley.c:245-255 | the loop splits a number into its 7-bit chunks |
| Pointer.AppendChunks | src/addressUtils/addressUtilsShelley.c:256-265 | the second loop writes the chunks, the most significant first |
| Pointer.AppendVariableLengthUInt | src/addressUtils/addressUtilsShelley.c:235-266 | what is written for any 64-bit value, and exactly when it is refused: only the low 32 bits are used |
| ShelleyAddress.HeaderRead | src/addressUtils/addressUtilsShelley.c:10-79 | type and network id are read back from the header |
| ShelleyAddress.ReadOfPointerBytes | src/addressUtils/addressUtilsShelley.c:290-298 | the three numbers of a pointer are uniquely decodable |
| ShelleyAddress.ReadOfAddressBytes | src/addressUtils/addressUtilsShelley.c:177-365 | address bytes determine the type, the network, the credentials and the pointer |
| ShelleyAddress.AddressLength | src/addressUtils/addressUtilsShelley.c:177-365 | an address has 29 to 57 bytes |
| ShelleyAddress.ParamsInNumbers | src/addressUtils/addressUtilsShelley.c:636-688 | valid parameters: the network, which staking data go with which type, and both paths element by element, the payment path under 44' for Byron addresses only |
| ShelleyAddress.OrdinaryBaseAddress | src/addressUtils/addressUtilsShelley.c:410-444 | the ordinary base address of the first account is derived into 57 bytes, and refused with a payment path under 44' |
| ShelleyAddress.AddressInBytes | src/addressUtils/addressUtilsShelley.c:10-79 | the first byte for each type and network, and the credentials behind it |
| ShelleyAddress.DerivableParams | src/addressUtils/addressUtilsShelley.c:410-444 | for valid parameters the derivation succeeds if and only if it is not a base address with a pointer, nor a reward address of a key hash of which the first 24 bytes do not read as a stake key path |
| ShelleyAddress.StakePathRead | src/addressUtils/addressUtilsShelley.c:340-365 | the bytes of a hash read as a path are a stake key path if and only if they are the numbers of one, with its length behind them |
| ShelleyAddress.ValidButNotDerivable | src/addressUtils/addressUtilsShelley.c:213-230 | two valid parameters for which the derivation aborts: a base address with a pointer, and a reward address of the zero hash |
| ShelleyAddress.StaleOnlyUnderPointer | src/addressUtils/addressUtilsShelley.c:340-365 | what the union held before matters for reward addresses with a pointer only |
| ShelleyAddress.AppendPayment | src/addressUtils/addressUtilsShelley.c:195-211 | the payment credential is appended |
| ShelleyAddress.AppendBase | src/addressUtils/addressUtilsShelley.c:177-233 | refused exactly for staking data that are not a credential |
| ShelleyAddress.AppendPointer | src/addressUtils/addressUtilsShelley.c:268-300 | the payment credential and the pointer are appended |
| ShelleyAddress.AppendNumbers | src/addressUtils/addressUtilsShelley.c:290-298 | the three numbers are appended; refused exactly if they do not fit |
| ShelleyAddress.AppendReward | src/addressUtils/addressUtilsShelley.c:330-365 | the key hash of the path read from the union, or the script hash read from it; exactly when it aborts |
| ShelleyAddress.DeriveAddress | src/addressUtils/addressUtilsShelley.c:410-444 | for every output view and all parameters: the bytes are those of the address that the parameters stand for; a payment path is one under 1852'; exactly when it aborts |
| ByronAddress.InnerEncoded | src/addressUtils/addressUtilsByron.c:58-106 | the tokens of an inner address are the CBOR of array(3) of root, attributes and type |
| ByronAddress.EncodePubkeyAddressInner | src/addressUtils/addressUtilsByron.c:58-106 | the bytes written are those of the inner address; refused exactly if they do not fit |
| ByronAddress.RawAddressLength | src/addressUtils/addressUtilsByron.c:159-170 | the inner address always fits 40 bytes, and 40 is reached exactly for magics above 16 bits other than that of the main network |
| ByronAddress.PackRawAddressWithChecksum | src/addressUtils/addressUtilsByron.c:108-135 | the bytes written are the CBOR of the tagged bytes and their checksum |
| ByronAddress.DeriveAddressByron | src/addressUtils/addressUtilsByron.c:159-170 | the whole address is written, refused exactly if it does not fit; the buffer of 40 bytes for the inner address is never too small |
| ByronAddress.AddressLength | src/addressUtils/addressUtilsByron.c:159-170 | a printed address takes at most 50 bytes |
| ByronAddress.RawAddressInBytes | src/addressUtils/addressUtilsByron.c:58-106 | the inner address byte by byte, with no attribute for magic 764824073 and else the magic under key 2 |
| ByronAddress.AddressInBytes | src/addressUtils/addressUtilsByron.c:108-135 | a printed address byte by byte |
| ByronAddress.DeclaredInNumbers | src/addressUtils/addressUtilsByron.c:236-268 | when attributes declare a magic and which: at most one with key 2, below the largest 32-bit number and not that of the main network |
| ByronAddress.ParseEnvelope | src/addressUtils/addressUtilsByron.c:213-218 | the first three tokens are read as their functional reading says |
| ByronAddress.ParseInner | src/addressUtils/addressUtilsByron.c:221-273 | the inner address is read as its functional reading says |
| ByronAddress.ParseAttributes | src/addressUtils/addressUtilsByron.c:236-268 | the loop over the attributes refines its recursive reading |
| ByronAddress.ExtractProtocolMagic | src/addressUtils/addressUtilsByron.c:203-288 | the result is that of the functional reading, for every address |
| ByronAddress.AddressRead | src/addressUtils/addressUtilsByron.c:203-288 | every accepted address has its tokens in their places, its checksum is over the bytes of its payload, and the magic extracted is the one its attributes declare |
| ByronAddress.WellFormedIfSizesMet | src/addressUtils/addressUtilsByron.c:244-268 | an accepted address is the well-formed address of what was read from it if and only if the declared sizes of its values and of its payload are met |
| ByronAddress.MisdeclaredAccepted | src/addressUtils/addressUtilsByron.c:244-268 | for every root and checksum function, an address that is accepted although its payload is not the encoding of any data item: its magic is declared to take no bytes |
| ByronAddress.ExtractedFromAddress | src/addressUtils/addressUtilsByron.c:203-288 | from every well-formed address with at most three attributes the magic it declares is extracted; it is refused exactly if it declares two, one that is too large, or that of the main network |
| ByronAddress.ExtractedFromPrinted | src/addressUtils/addressUtilsByron.c:58-288 | the magic extracted from a printed address is the one it was printed with, for every root and every magic but the largest 32-bit number, for which it is refused |
| SignMessage.MessageAccepted | src/signMsg/signMsg.c:83-159 | the chunks of every acceptable message are accepted to the end |
| SignMessage.FinishedRun | src/signMsg/signMsg.c:83-159 | a run completes if and only if its requests are the chunks of an acceptable message, whose length fixes the size of every chunk; this message is what has been hashed, so there is only one; this holds after a first and after a repeated init request |
| SignMessage.ReadableText | src/signMsg/signMsg.c:105-131 | a text is acceptable exactly if it is unambiguous and has no space where it is cut; the empty text is not |
| SignMessage.ChunkInNumbers | src/signMsg/signMsg.c:83-159 | the one size that each chunk may have: 198 or 99 for the first, 250 for the others, or what there is |
| SignMessage.StructuresInBytes | src/signMsg/signMsg.c:182-332 | the protected header and the signed structure byte by byte |
| SignMessage.SignableInNumbers | src/securityPolicy/securityPolicy.c:2034-2072 | which paths may sign a message, element by element, and for which types of addresses |
| SignMessage.SignMsgContext.SigningPath | src/securityPolicy/securityPolicy.c:2034-2072 | as soon as a message has been begun, what the signing path looks like, element by element |
| SignMessage.RunProgress | src/signMsg/signMsg.c:123-125 | the bytes received and remaining always add up to the message |
| SignMessage.HeaderEncoded | src/signMsg/signMsg.c:182-236 | the tokens of the protected header are the CBOR of its map |
| SignMessage.SigStructureEncoded | src/signMsg/signMsg.c:238-332 | the tokens of the signed structure are its CBOR |
| SignMessage.CreateProtectedHeader | src/signMsg/signMsg.c:182-236 | the header is built in a buffer that is never filled |
| SignMessage.BuildSigStructure | src/signMsg/signMsg.c:238-332 | the structure is built in a buffer that is never filled, and never has the size of a transaction hash |
| SignMessage.PolicyForSignMsg | src/securityPolicy/securityPolicy.c:2034-2072 | exactly which paths and address types are denied |
| SignMessage.PrepareAddressField | src/signMsg/signMsg.c:162-180 | the address field is the address of the parameters, or the key hash of the path; exactly when it aborts |
| SignMessage.SignMsgContext.HandleInit | src/signMsg/signMsg.c:22-81 | accepted, at every stage of a call, exactly if the policy allows the path and the address and the address can be derived |
| SignMessage.SignMsgContext.HandleMsgChunk | src/signMsg/signMsg.c:83-159 | accepted exactly for a chunk of the one size allowed; the invariant holds |
| SignMessage.SignMsgContext.HandleConfirm | src/signMsg/signMsg.c:238-332 | the signature is over the CBOR of the structure with the address or key hash and the payload; accepted exactly if there has been an init request and either the payload is a hash or one chunk has been received |
| SignMessage.SignMsgContext.WholeMessage | src/signMsg/signMsg.c:83-159 | when all chunks have been received, what is signed stands for the one message they bring |
| SignMessage.SignMsgContext.WhatIsSigned | src/signMsg/signMsg.c:238-332 | what a confirm request signs, at either stage that lets it through, stands for a message that the chunks since the init request have brought if and only if no bytes remain and there has been a chunk |
| SignMessage.SignMsgContext.SignedEarly | src/signMsg/signMsg.c:238-332 | before the first chunk, what would be signed is the hash of nothing, or the chunk received before the init request; it stands for no message |
| SignMessage.ConfirmedWithoutChunks | src/signMsg/signMsg.c:238-332 | a run in which five bytes are announced, to be hashed, and confirmed at once is accepted and signs the hash of nothing |
| SignMessage.StaleChunkSigned | src/signMsg/signMsg.c:22-81 | a run in which an init request follows a chunk is accepted and signs this chunk for the new path |
| TxBody.LabelsFit | src/signTx/signTx.c:832-840 | every input can be labelled, a collateral input exactly if its index is below 1000 and a reference input exactly if its index is below 10000 |
| SignTx.ConstructInputLabel | src/signTx/signTx.c:832-840 | the label is cut to its buffer, and accepted exactly if it is one character shorter than would fit |
| TxLimits.SomeTransactionAccepted | src/signTx/signTx.c:578-713 | for every accepted init request within the limits on labels there is an acceptable transaction |
| TxLimits.CanBeConfirmed | src/signTx/signTx.c:832-840 | after an accepted init request some requests lead to an accepted confirmation if and only if at most 1000 collateral inputs and 10000 reference inputs are expected |
| TxLimits.NeverConfirmed | src/signTx/signTx.c:832-840 | an accepted init request with 1001 collateral inputs after which no requests lead to a confirmation |
| TxLimits.LegacyScriptHashed | src/txHashBuilder/txHashBuilder.c:583-621 | a transaction with a legacy output and a reference script is confirmed, and no data item has the bytes that are hashed |
| TxHashBuilder.NumItems | src/txHashBuilder/txHashBuilder.c:260-322 | the size of the body map is within the bounds that are asserted |
| TxElementBytes.InputEncoded | src/txHashBuilder/txHashBuilder.c:55-70 | the bytes of an input are the CBOR of a pair of hash and index |
| TxElementBytes.PlainCertificateEncoded | src/txHashBuilder/txHashBuilder.c:726-1042 | the bytes of each of twelve kinds of certificates are the CBOR of an array with its number and fields, with the declared size |
| TxElementBytes.VotingEncoded | src/txHashBuilder/txHashBuilder.c:1967-2038 | the bytes of a vote are the CBOR of the voter and a map from the action to vote and anchor |
| TxElementBytes.VotingInBytes | src/txHashBuilder/txHashBuilder.c:1967-2038 | a vote byte by byte, with the numbers of voters and votes: without an anchor it ends in 82, then 00 for no, 01 for yes or 02 for abstain, then f6 |
| TxEntryBytes.PassedOver | src/txHashBuilder/txHashBuilder.c:676-692 | from an entry that can be left, one that is not expected is passed over |
| TxEntryBytes.ListRun | src/txHashBuilder/txHashBuilder.c:350-360 | if each element of a list is let through and written as its items, so are all of them, and as many fewer are expected |
| TxEntryBytes.ListEntry | src/txHashBuilder/txHashBuilder.c:337-368 | a list with as many elements as expected is entered, taken and can be left; its key, its head and its elements are the CBOR of the entry |
| TxOutputBytes.TokensEncoded | src/txHashBuilder/txHashBuilder.c:448-483 | the tokens of a group are let through and written as the entries of its map |
| TxOutputBytes.GroupsEncoded | src/txHashBuilder/txHashBuilder.c:402-483 | the groups of a bundle are let through and written as the entries of its map, and none remains |
| TxOutputBytes.DatumParts | src/txHashBuilder/txHashBuilder.c:503-581 | an accepted datum is let through with all its chunks and written as the items of its format |
| TxOutputBytes.ScriptParts | src/txHashBuilder/txHashBuilder.c:583-630 | a reference script is let through with all its chunks and written as a key and embedded bytes |
| TxOutputBytes.OutputEncoded | src/txHashBuilder/txHashBuilder.c:72-170 | the bytes of an output are the CBOR of its array or map with all sizes met and, behind a legacy output, of a reference script |
| TxOutputBytes.OutputTaken | src/txHashBuilder/txHashBuilder.c:384-630 | all calls of a well-formed output are let through where one is expected, write its items, and leave it complete |
| TxOutputBytes.CollateralEntry | src/txHashBuilder/txHashBuilder.c:1814-1866 | all calls of the collateral output are let through and write its entry |
| TxOutputBytes.MintEntry | src/txHashBuilder/txHashBuilder.c:1561-1632 | all calls of the mint are let through and write its entry, with signed amounts |
| TxPoolBytes.RelayEncoded | src/txHashBuilder/txHashBuilder.c:1205-1341 | the bytes of an acceptable relay are the CBOR of its array, the words of an IPv6 address in reverse |
| TxPoolBytes.PoolEncoded | src/txHashBuilder/txHashBuilder.c:1048-1407 | the bytes of a pool registration are the CBOR of an array of its ten fields |
| TxPoolBytes.PoolTaken | src/txHashBuilder/txHashBuilder.c:1048-1407 | all calls of an acceptable pool registration are let through where a certificate is expected, and write its items |
| TxBytes.EntryTaken | src/txHashBuilder/txHashBuilder.c:362-2110 | from the entry before it, the word of each entry of a complete body is let through and writes its key and value, or nothing if it is not expected |
| TxBytes.BodyBytes | src/txHashBuilder/txHashBuilder.c:217-2129 | no assertion fails on the word of a complete body, up to the last one; hashed are the head of a map with the number of its entries and the data items of the body, two more for each legacy output with a reference script |
| TxBytes.HashedItem | src/txHashBuilder/txHashBuilder.c:217-2129 | what is hashed for a complete body is the encoding of some data item if and only if no legacy output has a reference script, and then it is that of the map of the body |
| TxContent.EntriesRead | src/txHashBuilder/txHashBuilder.h:115-137 | the reader finds the value of every entry under the key that the CDDL gives it, and nothing else |
| TxContent.VotingRead | src/txHashBuilder/txHashBuilder.h:104-108 | the reader finds voter, action, vote and anchor of every vote |
| TxContent.PlainRead | src/txHashBuilder/txHashBuilder.c:726-1042 | the reader finds each of the twelve kinds of certificates in its fields |
| TxContent.PoolRead | src/txHashBuilder/txHashBuilder.c:1048-1407 | the reader finds every acceptable pool registration in its fields, with keys by their hashes |
| TxContent.OutputRead | src/txHashBuilder/txHashBuilder.c:72-630 | the reader finds every output in its data item, in either format |
| TxContent.UnsignedInNumbers | src/txHashBuilder/txHashBuilder.c:448-483 | an amount below zero in an output is written as its complement to 2^64 |
| TxContent.BytesRead | src/txHashBuilder/txHashBuilder.c:217-2129 | the bytes that are hashed for a complete body, read with the keys, tags and codes of the CDDL, are a transaction with exactly its content, its hash of auxiliary data and its network id |
| TxContent.PlainInjective | src/txHashBuilder/txHashBuilder.c:726-1042 | certificates with the same fields are the same |
| TxContent.PoolInjective | src/txHashBuilder/txHashBuilder.c:1048-1407 | pool registrations with the same fields are the same, but for how keys were given |
| TxContent.OutputInjective | src/txHashBuilder/txHashBuilder.c:72-630 | outputs with the same data item are the same, but for how their address was given and their data were cut into chunks |
| TxContent.BytesDetermineBody | src/txHashBuilder/txHashBuilder.c:217-2129 | complete bodies, also of different init requests, for which the same bytes are hashed have the same content, tags, hash of auxiliary data and network id |
| SignTx.SigningContext.SignedBytes | src/signTx/signTx.c:2576-2715 | whenever something may be signed, the hash is that of the CBOR of the body received, unless a legacy output has a reference script |
| SignTx.SigningContext.SignedContent | src/signTx/signTx.c:2576-2715 | no other complete body, of whatever init request, has the bytes whose hash is signed |
| SignTx.SigningContext.SignedDocument | src/signTx/signTx.c:2576-2715 | whenever something may be signed and no legacy output has a reference script, the reader finds the body received in the bytes whose hash is signed |

## Left out

- Screens, strings for display, logging, memory wiping and request I/O: only the counters, the stage changes and the
  assertions on counts and sizes of screens are modelled.
- Swap mode, which bypasses the policies and exits the application.
- Cryptography and key derivation: function parameters.
- The vote-cast hash builder.
- TxHashBuilder.Step: the transaction hash builder is modelled on values, as a step function on its counters and on the
  bytes hashed, and not as an object whose fields are updated in place. That its assertions hold is shown for the calls
  of complete bodies, not for those of a run that is given up in the middle.
- signCVote, signOpCert, getPublicKeys, getVersion and getSerial: small linear handlers that would add easy members.
- Policies on which no run property depends (what is shown, warned about or hidden), the token registry and expert mode.
- Parsing of transaction requests: the handlers take the parsed fields. Native script requests and paths are parsed.
- humanReadableAddress and the parsing of address parameters. base58.c is not part of this model: that the text of an
  address that is shown fits its 150 characters is part of `allowed`, for outputs as for payment addresses of
  registrations.
- The list of certificate types that each policy allows.
- SingleAccount.CheckableWhenReached: the places that check the account are listed with what each policy has
  established by then; the policies around them are not modelled, and in the signing machine the outcome of the check
  is part of `allowed`.
- SignTx.SigningContext.HandleCertificate: of a certificate other than a pool registration, what its builder call
  receives; how its keys were given and its policies are part of `allowed`.
- SignTx.SigningContext.HandleVotingProcedure: of a vote, what its builder call receives; how the voter was given and
  the policy are part of `allowed`.
- TxPool.PoolContext.Initialize: a sub-machine that is entered while the path of an owner is kept; the signing machine
  never does so, because the pool modes have one certificate only.
- BufView.ReadView.ParseToken: the markers of indefinite length are refused here instead of by the callers, none of
  which asks for them.
