/** Business faults (frame/panics/panic.go): a handler raises one with
    `panic(panics.NewBizPanic(...))` to report a user-facing error. */
module Panics {

  /** The code that `NewBizPanic` stores when none is given. */
  const DefaultCode: int := -1

  /** A business fault carries exactly a message and an application code. */
  datatype BizPanic = BizPanic(message: string, code: int) {

    /** The text of a business fault is its message; the code plays no part. */
    function String(): (s: string)
      ensures s == message
    {
      message
    }
  }

  function NewBizPanic(message: string): (p: BizPanic)
    ensures p.message == message && p.code == DefaultCode
  {
    BizPanic(message, DefaultCode)
  }

  function NewBizPanicWithCode(message: string, code: int): (p: BizPanic)
    ensures p.message == message && p.code == code
  {
    BizPanic(message, code)
  }

  /** The one-argument constructor is the two-argument one at code -1. */
  lemma NewBizPanicIsDefaultCode(message: string)
    ensures NewBizPanic(message) == NewBizPanicWithCode(message, -1)
  {
  }

  /** Two faults built from the same message print the same, whatever their codes. */
  lemma StringIgnoresCode(message: string, c1: int, c2: int)
    ensures NewBizPanicWithCode(message, c1).String() == NewBizPanicWithCode(message, c2).String()
    ensures NewBizPanic(message).String() == message
  {
  }
}
