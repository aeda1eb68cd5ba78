/**
 * The vendor servo SDK as every other module sees it: a packet handler that
 * accepts commands (ping, register reads and writes, EEPROM unlock/lock,
 * position moves) and answers each with a communication result.  The wire
 * format, checksum and port timing live inside the SDK and are not modelled;
 * the handler only records the commands it was given, in order, and takes
 * the reply to its k-th command from an oracle.
 */
module Bus {
  import opened Wrappers
  import opened DataParser

  /** One call into the SDK packet handler. */
  datatype Cmd =
    | Ping(id: int)                                          // ping
    | Read(id: int, address: int, length: int)                // readTxRx
    | Write(id: int, address: int, length: int, data: seq<int>) // writeTxRx
    | Write1(id: int, address: int, value: int)               // write1ByteTxRx
    | Unlock(id: int)                                         // unLockEprom
    | Lock(id: int)                                           // LockEprom
    | MovePos(id: int, position: int, speed: int, acc: int, torque: Option<int>) // WritePosEx
    | ReadPos(id: int)                                        // ReadPos
    | ReadSpeed(id: int)                                      // ReadSpeed
    | EnableTorque(id: int, enable: int)                      // EnableTorque

  /**
   * The SDK's answer to one call: either the call raised, or it returned a
   * communication result together with the value it reports (model number,
   * position or speed) and the bytes it read (empty when it read none).
   */
  datatype Reply =
    | Raised
    | Done(result: int, value: int, data: seq<Byte>)

  /** Which optional methods the handler class offers (Python `hasattr`). */
  datatype Caps = Caps(writePosEx: bool, readPos: bool, readSpeed: bool)

  /**
   * What a sequence of calls sees of a handler: the oracle, the commands
   * issued so far, whether a handler is present at all, and its optional
   * methods.  Command number k is answered by answer(k).
   */
  datatype Trace = Trace(answer: nat -> Reply, log: seq<Cmd>, online: bool, caps: Caps)

  /**
   * Issue one command.  A missing handler (Python `None`) raises on every
   * attribute access, so offline the call raises and nothing is sent.
   */
  function Issue(t: Trace, c: Cmd): (r: (Trace, Reply))
    ensures t.online ==> r.0.log == t.log + [c] && r.1 == t.answer(|t.log|)
    ensures !t.online ==> r.0 == t && r.1 == Raised
    ensures r.0.answer == t.answer && r.0.online == t.online && r.0.caps == t.caps
  {
    if t.online then (t.(log := t.log + [c]), t.answer(|t.log|)) else (t, Raised)
  }

  /** `hasattr(handler, m)`: false for a missing handler. */
  predicate Has(t: Trace, cap: bool)
  {
    t.online && cap
  }

  /** The reply counts as a success of the SDK call: result == COMM_SUCCESS. */
  predicate Succeeded(r: Reply)
  {
    r.Done? && r.result == 0
  }

  /**
   * The result code of a call made inside a `try` whose handler reports
   * ERROR_OPERATION_FAILED (-102).
   */
  function ResultOf(r: Reply): int
  {
    if r.Raised? then -102 else r.result
  }

  predicate AllZero(s: seq<int>)
  {
    forall k :: 0 <= k < |s| ==> s[k] == 0
  }

  lemma AllZeroAppend(a: seq<int>, r: int)
    ensures AllZero(a + [r]) <==> AllZero(a) && r == 0
  {
    if AllZero(a + [r]) {
      assert (a + [r])[|a|] == r;
      forall k | 0 <= k < |a| ensures a[k] == 0 {
        assert (a + [r])[k] == a[k];
      }
    }
  }

  /** The reply to the j-th command issued after t. */
  function At(t: Trace, j: nat): Reply
  {
    t.answer(|t.log| + j)
  }

  /** The SDK packet handler object. */
  class Handler {
    var log: seq<Cmd>
    const answer: nat -> Reply
    const caps: Caps

    constructor (answer: nat -> Reply, caps: Caps)
      ensures log == [] && this.answer == answer && this.caps == caps
    {
      log := [];
      this.answer := answer;
      this.caps := caps;
    }

    /** The trace of a handler that is present. */
    function State(): Trace
      reads this
    {
      Trace(answer, log, true, caps)
    }

    /** Send one command and return the SDK's reply to it. */
    method Send(c: Cmd) returns (r: Reply)
      modifies this
      ensures (State(), r) == Issue(old(State()), c)
    {
      r := answer(|log|);
      log := log + [c];
    }
  }
}
