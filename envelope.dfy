/**
 * The response envelope every service call returns (class BaseInfo<D>):
 * an error code, an execution time, a message and a payload.
 */
module Envelope {
  import opened Wrappers

  /** Java's 32-bit `int`. */
  newtype int32 = x: int | -0x8000_0000 <= x < 0x8000_0000

  /** `msg` is a Java String and may be null, hence an Option. */
  datatype BaseInfo<D> = BaseInfo(errNo: int32, exeTime: int32, msg: Option<string>, result: D)
  {
    /** A call succeeded exactly when the service reported error code 0. */
    predicate IsSuccess(): (ok: bool)
      ensures ok <==> errNo == 0
    {
      errNo == 0
    }
  }

  /** Replacing an envelope's error code by any code other than 0 makes it fail. */
  lemma OnlyZeroCodeSucceeds<D>(b: BaseInfo<D>)
    ensures forall c: int32 :: c != 0 ==> !b.(errNo := c).IsSuccess()
  {
  }

  /** Every nonzero code fails, whatever its sign. */
  lemma NonzeroCodeFails<D>(b: BaseInfo<D>)
    requires b.errNo < 0 || b.errNo > 0
    ensures !b.IsSuccess()
  {
  }

  /** The verdict depends on the error code alone: execution time, message and payload do not matter. */
  lemma SuccessReadsOnlyErrNo<D>(b: BaseInfo<D>, exeTime: int32, msg: Option<string>, result: D)
    ensures b.(exeTime := exeTime, msg := msg, result := result).IsSuccess() == b.IsSuccess()
  {
  }

  /** Two envelopes with the same error code get the same verdict. */
  lemma SuccessAgreesOnErrNo<D>(a: BaseInfo<D>, b: BaseInfo<D>)
    requires a.errNo == b.errNo
    ensures a.IsSuccess() == b.IsSuccess()
  {
  }
}
