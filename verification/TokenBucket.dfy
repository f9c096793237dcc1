/** The bucket that rations overload retries (driver/src/client.rs:785-822). A client without
    adaptive retries has no bucket, and every retry is admitted.
 */
module TokenBucket {
  import opened Wrappers

  const MAX_BUCKET_CAPACITY: nat := 10_000
  const RETRY_TOKEN_RETURN_RATE: nat := 1
  const RETRY_TOKEN_CONSUME_RATE: nat := 10

  datatype BucketOp = Nothing | Consume | DepositSuccess(isRetry: bool) | DepositRetryError

  function Deposited(op: BucketOp): nat {
    match op
    case DepositSuccess(isRetry) => RETRY_TOKEN_RETURN_RATE + if isRetry then 10 else 0
    case DepositRetryError => RETRY_TOKEN_RETURN_RATE
    case _ => 0
  }

  predicate Admits(tokens: Option<nat>) { tokens.None? || tokens.value >= RETRY_TOKEN_CONSUME_RATE }

  function Min(a: nat, b: nat): nat { if a < b then a else b }

  function TokensAfter(tokens: Option<nat>, op: BucketOp): Option<nat> {
    if tokens.None? || op.Nothing? then tokens
    else if op.Consume? then (if Admits(tokens) then Some(tokens.value - RETRY_TOKEN_CONSUME_RATE) else tokens)
    else Some(Min(tokens.value + Deposited(op), MAX_BUCKET_CAPACITY))
  }

  newtype u16 = x: int | 0 <= x < 0x1_0000

  class Bucket {
    var tokens: Option<u16>

    predicate Valid()
      reads this
    {
      tokens.Some? ==> tokens.value as int <= MAX_BUCKET_CAPACITY
    }

    function Value(): Option<nat>
      reads this
    {
      if tokens.Some? then Some(tokens.value as int) else None
    }

    constructor (adaptiveRetries: bool)
      ensures Valid() && Value() == if adaptiveRetries then Some(MAX_BUCKET_CAPACITY) else None
    {
      tokens := if adaptiveRetries then Some(10_000) else None;
    }

    method Take() returns (admitted: bool)
      requires Valid()
      modifies this
      ensures Valid()
      ensures admitted == Admits(old(Value())) && Value() == TokensAfter(old(Value()), Consume)
      ensures admitted <==> (old(tokens).Some? ==> old(tokens).value >= 10)
      ensures tokens == if old(tokens).Some? && admitted then Some(old(tokens).value - 10) else old(tokens)
    {
      if tokens.None? { return true; }
      if tokens.value >= 10 {
        tokens := Some(tokens.value - 10);
        return true;
      }
      return false;
    }

    method Success(isRetry: bool)
      requires Valid()
      modifies this
      ensures Valid() && Value() == TokensAfter(old(Value()), DepositSuccess(isRetry))
      ensures Value() == if old(tokens).None? then None
                         else Some(Min(old(tokens).value as int + if isRetry then 11 else 1, 10_000))
    {
      if tokens.None? { return; }
      var deposit: u16 := 1;
      if isRetry { deposit := deposit + 10; }
      tokens := Some(if tokens.value + deposit < 10_000 then tokens.value + deposit else 10_000);
    }

    method RetryError()
      requires Valid()
      modifies this
      ensures Valid() && Value() == TokensAfter(old(Value()), DepositRetryError)
      ensures Value() == if old(tokens).None? then None else Some(Min(old(tokens).value as int + 1, 10_000))
    {
      if tokens.None? { return; }
      tokens := Some(if tokens.value + 1 < 10_000 then tokens.value + 1 else 10_000);
    }
  }
}
