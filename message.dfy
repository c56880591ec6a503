/**
 * StreamingDataMessage: the envelope every queue hop carries, a body (a Java byte array,
 * possibly null) and the time the message entered the system.  The Java constructor and
 * getters are this datatype's constructor and destructors, so a message reports exactly the
 * body and timestamp it was built with.
 */
module StreamingMessage {
  import opened Common

  /** Java `byte`. */
  newtype Byte = x: int | -128 <= x < 128

  datatype StreamingDataMessage = StreamingDataMessage(body: Option<seq<Byte>>, timestamp: int)

  /** The run loop forwards a message only when the message and its body are both present. */
  predicate HasBody(m: Option<StreamingDataMessage>) {
    m.Some? && m.value.body.Some?
  }
}
