/**
 * The signature-request processor itself: the module-level message-length
 * cache, the processor a builder returns for one bridge configuration, and
 * the loop that turns a list of events into a batch of pending transactions.
 */
module Processor {
  import opened Wrappers
  import opened Text
  import opened SignatureRequests

  /**
   * The loop over the events of one cycle: each event's message is built,
   * signed and dry-run; a transport fault fails the cycle, any other failed
   * dry run skips the event, and a successful one appends a pending
   * transaction to `txToSend`, which starts empty. The events are handled in
   * input order (the JavaScript runs them concurrently under `promise-limit`).
   */
  method CollectPendingTransactions(config: Config, oracle: Oracle, len: nat, requests: seq<SignatureRequest>)
    returns (r: Result<seq<PendingTx>, Failure>)
    ensures r == Batch(config, oracle, len, requests)
  {
    var txToSend: seq<PendingTx> := [];
    var i := 0;
    while i < |requests|
      invariant 0 <= i <= |requests|
      invariant Batch(config, oracle, len, requests[..i]) == Ok(txToSend)
    {
      var request := requests[i];
      var message := MessageFor(config, oracle, len, request);
      var signature := oracle.sign(message);
      var gasEstimate := oracle.estimateGas(signature, message);
      assert requests[..i + 1][..i] == requests[..i];
      match gasEstimate {
        case Err(error) =>
          if Includes(error, INVALID_JSON_RPC_RESPONSE) {
            FailureIsFinal(config, oracle, len, requests, i + 1);
            return Err(Failure(RPC_CONNECTION_ERROR));
          }
          // already processed by another validator: the event is skipped
        case Ok(gas) =>
          var data := oracle.encodeAbi(signature, message);
          txToSend := txToSend + [PendingTx(data, gas, request.transactionHash, config.homeBridgeAddress)];
      }
      i := i + 1;
    }
    assert requests[..i] == requests;
    return Ok(txToSend);
  }

  /**
   * The module-level `expectedMessageLength`: null when the module is loaded,
   * set by the first cycle whose length query succeeds, never reset. It is
   * shared by every processor built in the process. `queries` counts the
   * `requiredMessageLength()` calls made so far.
   */
  class MessageLengthCache {
    var expectedMessageLength: Option<nat>
    ghost var queries: nat

    constructor ()
      ensures expectedMessageLength == None && queries == 0
    {
      expectedMessageLength := None;
      queries := 0;
    }
  }

  /** The function a builder returns for one bridge configuration. */
  class SignatureRequestProcessor {
    const config: Config
    const cache: MessageLengthCache

    constructor (config: Config, cache: MessageLengthCache)
      ensures this.config == config && this.cache == cache
    {
      this.config := config;
      this.cache := cache;
    }

    /**
     * One processing cycle. The home bridge is asked for the message length
     * only while the cache is empty; a failed query fails the cycle and leaves
     * the cache empty. With the length known, the cycle's outcome is `Batch`
     * over the events, from an empty batch: the cache is the only state one
     * cycle passes to the next.
     */
    method ProcessSignatureRequests(oracle: Oracle, requests: seq<SignatureRequest>)
      returns (r: Result<seq<PendingTx>, Failure>)
      modifies cache
      ensures old(cache.expectedMessageLength).Some? ==>
        cache.expectedMessageLength == old(cache.expectedMessageLength) && cache.queries == old(cache.queries)
      ensures old(cache.expectedMessageLength).None? ==>
        && cache.queries == old(cache.queries) + 1
        && cache.expectedMessageLength == (match oracle.requiredMessageLength
                                           case Ok(len) => Some(len)
                                           case Err(_) => None)
      ensures cache.expectedMessageLength.None? ==>
        oracle.requiredMessageLength.Err? && r == Err(Failure(oracle.requiredMessageLength.error))
      ensures cache.expectedMessageLength.Some? ==>
        r == Batch(config, oracle, cache.expectedMessageLength.value, requests)
    {
      if cache.expectedMessageLength.None? {
        cache.queries := cache.queries + 1;
        match oracle.requiredMessageLength {
          case Err(error) =>
            return Err(Failure(error));
          case Ok(len) =>
            cache.expectedMessageLength := Some(len);
        }
      }
      r := CollectPendingTransactions(config, oracle, cache.expectedMessageLength.value, requests);
    }
  }

  /**
   * Two cycles in a row on one processor, with the outside world possibly
   * answering differently the second time: once the first cycle has
   * succeeded, the message length has been asked for only if it was not cached
   * before, the second cycle asks for it no more, and both cycles used the same
   * cached length, whatever the second length query would have answered.
   */
  method ConsecutiveCycles(processor: SignatureRequestProcessor, first: Oracle, second: Oracle,
                           firstRequests: seq<SignatureRequest>, secondRequests: seq<SignatureRequest>)
    returns (r1: Result<seq<PendingTx>, Failure>, r2: Result<seq<PendingTx>, Failure>)
    modifies processor.cache
    ensures r1.Ok? ==>
      && processor.cache.expectedMessageLength.Some?
      && processor.cache.queries
           == old(processor.cache.queries) + (if old(processor.cache.expectedMessageLength).None? then 1 else 0)
      && (old(processor.cache.expectedMessageLength).Some? ==>
            processor.cache.expectedMessageLength == old(processor.cache.expectedMessageLength))
      && r1 == Batch(processor.config, first, processor.cache.expectedMessageLength.value, firstRequests)
      && r2 == Batch(processor.config, second, processor.cache.expectedMessageLength.value, secondRequests)
  {
    r1 := processor.ProcessSignatureRequests(first, firstRequests);
    r2 := processor.ProcessSignatureRequests(second, secondRequests);
  }
}
