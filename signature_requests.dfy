/**
 * The decision logic of the validator's signature-request processing:
 * the entities it handles, the outside world it consults (as an oracle of
 * function values), how one event is classified, and the batch a whole
 * cycle produces. The imperative loop and the message-length cache that
 * realise this specification live in module Processor.
 */
module SignatureRequests {
  import opened Wrappers
  import opened Text

  type Address = string
  type TxHash = string
  type Message = string
  type Signature = string
  type CallData = string

  /** Text of a chain-client failure that signals a transport fault rather than a rejected submission. */
  const INVALID_JSON_RPC_RESPONSE := "Invalid JSON RPC response"

  /** Text of the error a cycle fails with when a gas estimate hits a transport fault. */
  const RPC_CONNECTION_ERROR := "RPC Connection Error: submitSignature Gas Estimate cannot be obtained."

  /** A JavaScript `Error`, reduced to its message. */
  datatype Failure = Failure(message: string)

  /** One `SignatureRequest` event of the home bridge: its transaction hash and `returnValues`. */
  datatype SignatureRequest = SignatureRequest(transactionHash: TxHash, recipient: Address, value: nat)

  /** The part of the builder's configuration the processor reads. */
  datatype Config = Config(homeBridgeAddress: Address, foreignBridgeAddress: Address)

  /** One transaction ready for the sender: call data, gas estimate, correlation id and target. */
  datatype PendingTx = PendingTx(data: CallData, gasEstimate: nat, transactionReference: TxHash, to: Address)

  /**
   * Everything the processor asks of the outside world, as it answers during one cycle:
   * the home bridge's `requiredMessageLength()` call, the message encoder, the validator's
   * signer (key and address are captured), the dry run of `submitSignature` through
   * `estimateGas` (a gas amount, or the message of the error it failed with) and the
   * ABI encoder of the same call.
   */
  datatype Oracle = Oracle(
    requiredMessageLength: Result<nat, string>,
    createMessage: (Address, nat, TxHash, Address, nat) -> Message,
    sign: Message -> Signature,
    estimateGas: (Signature, Message) -> Result<nat, string>,
    encodeAbi: (Signature, Message) -> CallData)

  /** How a gas estimate is read. */
  datatype Verdict = Accepted(gas: nat) | AlreadyProcessed | TransportFault

  /** What handling one event contributes to the cycle. */
  datatype Step = Abort | Skip | Emit(tx: PendingTx)

  /** Classification of a dry run: success accepts with its gas; a failure whose text
      contains the transport-fault marker is a transport fault; every other failure
      means another validator already submitted this signature. */
  function Classify(estimate: Result<nat, string>): (v: Verdict)
    ensures v.Accepted? <==> estimate.Ok?
    ensures v.Accepted? ==> v.gas == estimate.value
    ensures v.TransportFault? <==>
      estimate.Err? && exists i: nat :: OccursAt(estimate.error, INVALID_JSON_RPC_RESPONSE, i)
    ensures v.AlreadyProcessed? <==>
      estimate.Err? && forall i: nat :: !OccursAt(estimate.error, INVALID_JSON_RPC_RESPONSE, i)
  {
    match estimate
    case Ok(gas) => Accepted(gas)
    case Err(message) =>
      IncludesIff(message, INVALID_JSON_RPC_RESPONSE);
      if Includes(message, INVALID_JSON_RPC_RESPONSE) then TransportFault else AlreadyProcessed
  }

  /** The message signed for `request`, built with the cached length `len`. */
  function MessageFor(config: Config, oracle: Oracle, len: nat, request: SignatureRequest): Message
  {
    oracle.createMessage(request.recipient, request.value, request.transactionHash, config.foreignBridgeAddress, len)
  }

  /** The gas estimate of submitting the validator's signature for `request`. */
  function EstimateFor(config: Config, oracle: Oracle, len: nat, request: SignatureRequest): Result<nat, string>
  {
    var message := MessageFor(config, oracle, len, request);
    oracle.estimateGas(oracle.sign(message), message)
  }

  /**
   * Handling of one event: build and sign its message, dry-run the submission,
   * and either abort the cycle, skip the event, or emit a pending transaction
   * that carries the event's hash, the home bridge as target, the gas the dry
   * run returned and the encoding of the very call that was dry-run.
   */
  function HandleRequest(config: Config, oracle: Oracle, len: nat, request: SignatureRequest): (s: Step)
    ensures var message := MessageFor(config, oracle, len, request);
            var signature := oracle.sign(message);
            var verdict := Classify(oracle.estimateGas(signature, message));
            && (s.Abort? <==> verdict.TransportFault?)
            && (s.Skip? <==> verdict.AlreadyProcessed?)
            && (s.Emit? <==> verdict.Accepted?)
            && (s.Emit? ==>
                  && s.tx.transactionReference == request.transactionHash
                  && s.tx.to == config.homeBridgeAddress
                  && oracle.estimateGas(signature, message) == Ok(s.tx.gasEstimate)
                  && s.tx.data == oracle.encodeAbi(signature, message))
  {
    var message := MessageFor(config, oracle, len, request);
    var signature := oracle.sign(message);
    match Classify(oracle.estimateGas(signature, message))
    case TransportFault => Abort
    case AlreadyProcessed => Skip
    case Accepted(gas) =>
      Emit(PendingTx(oracle.encodeAbi(signature, message), gas, request.transactionHash, config.homeBridgeAddress))
  }

  /**
   * The outcome of one cycle over `requests` once the message length is known:
   * the events are handled one after another, starting from an empty batch;
   * the first transport fault fails the cycle.
   */
  function Batch(config: Config, oracle: Oracle, len: nat, requests: seq<SignatureRequest>): Result<seq<PendingTx>, Failure>
    decreases |requests|
  {
    if requests == [] then Ok([])
    else
      var prior := Batch(config, oracle, len, requests[..|requests| - 1]);
      if prior.Err? then prior
      else
        match HandleRequest(config, oracle, len, requests[|requests| - 1])
        case Abort => Err(Failure(RPC_CONNECTION_ERROR))
        case Skip => prior
        case Emit(tx) => Ok(prior.value + [tx])
  }

  /** The transaction hashes of `requests`. */
  function Hashes(requests: seq<SignatureRequest>): seq<TxHash>
    decreases |requests|
  {
    if requests == [] then []
    else Hashes(requests[..|requests| - 1]) + [requests[|requests| - 1].transactionHash]
  }

  /** The correlation ids of a batch. */
  function References(batch: seq<PendingTx>): seq<TxHash>
    decreases |batch|
  {
    if batch == [] then []
    else References(batch[..|batch| - 1]) + [batch[|batch| - 1].transactionReference]
  }

  /** The hashes of the events found to be already processed. */
  function SkippedHashes(config: Config, oracle: Oracle, len: nat, requests: seq<SignatureRequest>): seq<TxHash>
    decreases |requests|
  {
    if requests == [] then []
    else
      var last := requests[|requests| - 1];
      SkippedHashes(config, oracle, len, requests[..|requests| - 1])
        + (if HandleRequest(config, oracle, len, last).Skip? then [last.transactionHash] else [])
  }

  /** Once a prefix of the events has failed the cycle, the whole cycle fails the same way. */
  lemma {:induction false} FailureIsFinal(config: Config, oracle: Oracle, len: nat, requests: seq<SignatureRequest>, k: nat)
    requires k <= |requests|
    requires Batch(config, oracle, len, requests[..k]).Err?
    ensures Batch(config, oracle, len, requests) == Batch(config, oracle, len, requests[..k])
    decreases |requests| - k
  {
    if k < |requests| {
      var init := requests[..|requests| - 1];
      assert init[..k] == requests[..k];
      FailureIsFinal(config, oracle, len, init, k);
    } else {
      assert requests[..k] == requests;
    }
  }

  /** A cycle fails exactly when some event's gas estimate hits a transport fault,
      and then it fails with the RPC connection error. */
  lemma {:induction false} FailsIffTransportFault(config: Config, oracle: Oracle, len: nat, requests: seq<SignatureRequest>)
    ensures Batch(config, oracle, len, requests).Err? <==>
      exists i :: 0 <= i < |requests| && HandleRequest(config, oracle, len, requests[i]).Abort?
    ensures Batch(config, oracle, len, requests).Err? ==>
      Batch(config, oracle, len, requests).error == Failure(RPC_CONNECTION_ERROR)
    decreases |requests|
  {
    if requests != [] {
      var n := |requests|;
      var init := requests[..n - 1];
      FailsIffTransportFault(config, oracle, len, init);
      assert forall i :: 0 <= i < n - 1 ==> init[i] == requests[i];
      if HandleRequest(config, oracle, len, requests[n - 1]).Abort? {
        assert Batch(config, oracle, len, requests).Err?;
      }
    }
  }

  /** Every entry of a successful batch is what handling one of the input events emitted;
      there are never more entries than events. */
  lemma {:induction false} EntriesComeFromEvents(config: Config, oracle: Oracle, len: nat, requests: seq<SignatureRequest>)
    requires Batch(config, oracle, len, requests).Ok?
    ensures |Batch(config, oracle, len, requests).value| <= |requests|
    ensures forall tx :: tx in Batch(config, oracle, len, requests).value ==>
      exists i :: 0 <= i < |requests| && HandleRequest(config, oracle, len, requests[i]) == Emit(tx)
    decreases |requests|
  {
    if requests != [] {
      var n := |requests|;
      var init := requests[..n - 1];
      EntriesComeFromEvents(config, oracle, len, init);
      assert forall i :: 0 <= i < n - 1 ==> init[i] == requests[i];
    }
  }

  /** The shape of each entry of a successful batch: it names its source event's hash,
      targets the home bridge, carries the gas the dry run returned and encodes the same
      signature and message that were dry-run. */
  lemma {:induction false} EntryShape(config: Config, oracle: Oracle, len: nat, requests: seq<SignatureRequest>, tx: PendingTx)
    requires Batch(config, oracle, len, requests).Ok?
    requires tx in Batch(config, oracle, len, requests).value
    ensures tx.to == config.homeBridgeAddress
    ensures exists i :: 0 <= i < |requests| && (
              var request := requests[i];
              var message := MessageFor(config, oracle, len, request);
              var signature := oracle.sign(message);
              && tx.transactionReference == request.transactionHash
              && oracle.estimateGas(signature, message) == Ok(tx.gasEstimate)
              && tx.data == oracle.encodeAbi(signature, message))
  {
    EntriesComeFromEvents(config, oracle, len, requests);
    var i :| 0 <= i < |requests| && HandleRequest(config, oracle, len, requests[i]) == Emit(tx);
  }

  /** No event is lost or duplicated: the correlation ids of a successful batch together
      with the hashes of the skipped events are exactly the input hashes, counted with
      multiplicity. */
  lemma {:induction false} EveryEventAccountedFor(config: Config, oracle: Oracle, len: nat, requests: seq<SignatureRequest>)
    requires Batch(config, oracle, len, requests).Ok?
    ensures multiset(References(Batch(config, oracle, len, requests).value))
              + multiset(SkippedHashes(config, oracle, len, requests))
            == multiset(Hashes(requests))
    decreases |requests|
  {
    if requests != [] {
      var n := |requests|;
      var init := requests[..n - 1];
      EveryEventAccountedFor(config, oracle, len, init);
      var prior := Batch(config, oracle, len, init).value;
      match HandleRequest(config, oracle, len, requests[n - 1])
      case Skip =>
      case Emit(tx) =>
        assert (prior + [tx])[..|prior|] == prior;
    }
  }

  /** With distinct event hashes, an event found to be already processed never appears in
      a successful batch. */
  lemma {:induction false} SkippedEventAbsent(config: Config, oracle: Oracle, len: nat, requests: seq<SignatureRequest>, k: nat)
    requires forall i, j :: 0 <= i < j < |requests| ==> requests[i].transactionHash != requests[j].transactionHash
    requires k < |requests|
    requires HandleRequest(config, oracle, len, requests[k]).Skip?
    requires Batch(config, oracle, len, requests).Ok?
    ensures forall tx :: tx in Batch(config, oracle, len, requests).value ==>
      tx.transactionReference != requests[k].transactionHash
    decreases |requests|
  {
    var n := |requests|;
    var init := requests[..n - 1];
    var prior := Batch(config, oracle, len, init);
    assert forall i :: 0 <= i < n - 1 ==> init[i] == requests[i];
    if k == n - 1 {
      EntriesComeFromEvents(config, oracle, len, init);
      forall tx | tx in prior.value ensures tx.transactionReference != requests[k].transactionHash {
        var i :| 0 <= i < n - 1 && HandleRequest(config, oracle, len, init[i]) == Emit(tx);
      }
    } else {
      SkippedEventAbsent(config, oracle, len, init, k);
    }
  }

  /** Whether the dry run for `request` succeeds. */
  predicate EstimateSucceeds(config: Config, oracle: Oracle, len: nat, request: SignatureRequest)
  {
    EstimateFor(config, oracle, len, request).Ok?
  }

  /** When every gas estimate succeeds, the cycle succeeds with exactly one entry per event,
      carrying each event's hash once. */
  lemma {:induction false} AllAcceptedFullBatch(config: Config, oracle: Oracle, len: nat, requests: seq<SignatureRequest>)
    requires forall i :: 0 <= i < |requests| ==> EstimateSucceeds(config, oracle, len, requests[i])
    ensures Batch(config, oracle, len, requests).Ok?
    ensures |Batch(config, oracle, len, requests).value| == |requests|
    ensures multiset(References(Batch(config, oracle, len, requests).value)) == multiset(Hashes(requests))
    decreases |requests|
  {
    if requests != [] {
      var n := |requests|;
      var init := requests[..n - 1];
      assert forall i :: 0 <= i < n - 1 ==> init[i] == requests[i];
      AllAcceptedFullBatch(config, oracle, len, init);
      assert EstimateSucceeds(config, oracle, len, requests[n - 1]);
      var prior := Batch(config, oracle, len, init).value;
      var tx := HandleRequest(config, oracle, len, requests[n - 1]).tx;
      assert (prior + [tx])[..|prior|] == prior;
    }
  }
}
