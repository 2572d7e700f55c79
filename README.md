# Signature-request processor of the bridge validator

A Dafny model of the validator's signature-request processor: the function that
`processSignatureRequestsBuilder(config)` returns. For each `SignatureRequest`
event observed on the home chain, it builds the message to sign, signs it, and
dry-runs the home bridge's `submitSignature` call through `estimateGas`. The
outcome of the dry run decides what happens to the event:

- success: a pending transaction `{data, gasEstimate, transactionReference, to}` is appended to the batch;
- a failure whose text contains `Invalid JSON RPC response`: the whole cycle fails with an RPC connection error;
- any other failure: the event is taken as already processed by another validator and is skipped silently.

The home bridge's required message length is fetched by the first call whose
query succeeds, then kept in module-level state for the life of the process; a
call whose query fails leaves it unset, so the next call queries again.

Files:

- `wrappers.dfy`: `Option` and `Result`.
- `text.dfy`: `Includes`, JavaScript's `String.prototype.includes`, proved equal to "occurs at some position".
- `signature_requests.dfy`: the entities, the `Oracle` that stands for the outside world, and the classification of one event (`Classify`, `HandleRequest`). Also `Batch`, the specification of a whole cycle, and the lemmas about batches.
- `processor.dfy`: the imperative part. `CollectPendingTransactions` is the loop that fills `txToSend`, proved equal to `Batch`. `MessageLengthCache` is the module-level `expectedMessageLength`. `SignatureRequestProcessor` is the builder's closure, and its `ProcessSignatureRequests` is the cycle.

The outside world is the value `Oracle`. It holds the answer of
`requiredMessageLength()` (a length or an error message), `createMessage`, the
signer (the private key is captured inside it), `estimateGas` (a gas amount or
the failure's message) and `encodeABI` (the sending address is captured inside
both). The module-level cache is its own object, `MessageLengthCache`, because
every processor built in one process shares it. Its ghost field `queries`
counts the length queries.

Three behaviours of the code worth knowing:

- Any dry-run failure that is not a transport fault is read as "already processed" and skipped, including failure text the code does not recognise (src/events/processSignatureRequests.js:54-58).
- The cache is checked once per call, before any event is handled. Two calls that overlap in time can both query the length, because nothing guards the first resolution (src/events/processSignatureRequests.js:20-22). The sequential model cannot show this race.
- A transport fault rejects the whole call at once, through `Promise.all`, without waiting for the other events to finish (src/events/processSignatureRequests.js:74).

## Model

| member | source | states |
|---|---|---|
| `Text.IncludesIff` | src/events/processSignatureRequests.js:49 | the substring test used on the failure text holds exactly when the marker occurs at some position of the text |
| `SignatureRequests.Classify` | src/events/processSignatureRequests.js:44-59 | a successful estimate is accepted with its gas; a failure is a transport fault exactly when its text contains "Invalid JSON RPC response" at some position, and is "already processed" exactly when it does not |
| `SignatureRequests.HandleRequest` | src/events/processSignatureRequests.js:26-70 | one event aborts, is skipped or emits exactly as its estimate classifies; the emitted record names the event's hash, targets the home bridge, carries the estimated gas and encodes the same signature and message that were estimated; the message is built from the event's recipient, value and hash, the foreign bridge address and the cached length |
| `SignatureRequests.FailureIsFinal` | src/events/processSignatureRequests.js:48-53 | once the events handled so far have failed the cycle, handling more events cannot turn it back into a success or change the error |
| `SignatureRequests.FailsIffTransportFault` | src/events/processSignatureRequests.js:48-53 | a cycle fails exactly when some event's estimate hits a transport fault (both directions), and it then fails with the RPC connection error |
| `SignatureRequests.EntriesComeFromEvents` | src/events/processSignatureRequests.js:43-70 | a successful batch has at most as many entries as there are events, and each entry is what handling one of the input events emitted |
| `SignatureRequests.EntryShape` | src/events/processSignatureRequests.js:33-70 | each entry of a successful batch targets the home bridge address and carries the hash of one input event; its gas is what that event's estimate returned, and its data encodes the signature and message that were estimated |
| `SignatureRequests.EveryEventAccountedFor` | src/events/processSignatureRequests.js:24-75 | on success no event is lost or duplicated: the batch's references plus the skipped events' hashes equal the input hashes as a multiset |
| `SignatureRequests.SkippedEventAbsent` | src/events/processSignatureRequests.js:54-58 | when event hashes are distinct, an event whose estimate failed without a transport fault never appears in a successful batch |
| `SignatureRequests.AllAcceptedFullBatch` | src/events/processSignatureRequests.js:24-75 | when every estimate succeeds, the cycle succeeds with exactly one entry per event, and its references equal the input hashes as a multiset |
| `Processor.CollectPendingTransactions` | src/events/processSignatureRequests.js:18-75 | the per-event loop starts from an empty `txToSend`. Its outcome is the cycle specification `Batch`: skipped events add nothing, accepted ones append one record, and the first transport fault fails the call |
| `Processor.MessageLengthCache.constructor` | src/events/processSignatureRequests.js:12 | the cached length starts out null and no query has been made |
| `Processor.SignatureRequestProcessor.constructor` | src/events/processSignatureRequests.js:14-17 | a processor is bound to one configuration and to the shared length cache |
| `Processor.SignatureRequestProcessor.ProcessSignatureRequests` | src/events/processSignatureRequests.js:17-22 | the length is queried exactly when the cache is null. A successful answer is cached and never changes afterwards. A failed query fails the call and leaves the cache null. Otherwise the result is the batch for the cached length, built from an empty batch |
| `Processor.ConsecutiveCycles` | src/events/processSignatureRequests.js:20-22 | after a successful first cycle, the length has been queried once if the cache was empty before and not at all otherwise, so the second cycle makes no new length query; an already cached length is unchanged, and both cycles use the same cached length, whatever the outside world would now answer |

## Left out

- Concurrency. `promise-limit` and `Promise.all` run the events concurrently, with at most `MAX_CONCURRENT_EVENTS` in flight. The model handles them one after another in input order. It does not model the in-flight bound or completion order. It also does not model sibling tasks that keep running after a rejection. Batch properties are stated as membership and multiset counts, never as order.
- The outside world is the `Oracle` value. This covers web3 contract construction, the `requiredMessageLength()` call, `estimateGas` and `encodeABI`, all of which are network or ABI calls. Within one call each answer is a fixed function of its inputs. The model does not capture a node that answers differently on a later request in the same cycle.
- `createMessage` (src/utils/message.js) is not part of this model. It is an uninterpreted function of its five inputs, so claims about the message's fixed length and byte layout are not stated.
- ECDSA signing through `web3Home.eth.accounts.sign` is an uninterpreted function of the message.
- Loading the environment (dotenv, `VALIDATOR_ADDRESS`, `VALIDATOR_ADDRESS_PRIVATE_KEY`) is configuration I/O. The key and the address are captured inside the oracle's functions. The builder's `homeBridgeAbi` is not modelled.
- Logging has no effect on behaviour and is not modelled.
- Exceptions thrown by the signer or by `encodeABI` are not modelled; both are taken as total. A rejected estimate whose error has no `message` would make `includes` throw a `TypeError`; that case is not modelled either.
- Values are unbounded naturals. web3 returns the length and amounts as decimal strings or big numbers.
