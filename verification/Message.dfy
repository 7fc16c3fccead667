/**
 * The Service Bus message as the trigger binding sees it, and the boxed values that binding
 * data holds. SDK types whose contents this core never inspects are opaque records.
 */
module ServiceBusMessage {
  import opened Wrappers
  import Messaging

  type Int32 = x: int | -0x8000_0000 <= x < 0x8000_0000
  type Int64 = x: int | -0x8000_0000_0000_0000 <= x < 0x8000_0000_0000_0000

  /** A `DateTime`, kept opaque. */
  datatype DateTime = DateTime(ticks: int)

  /** The message's `IDictionary<string, object>` of user properties, kept opaque. */
  datatype UserPropertyBag = UserPropertyBag(id: nat)

  /** An `IMessageSession`, kept opaque. */
  datatype SessionHandle = SessionHandle(id: nat)

  /** A .NET string, which may be null. */
  datatype NullableString = NullString | NonNullString(s: string)

  /**
   * The message properties read into binding data. Each getter either returns (`Some`) or throws
   * (`None`); the SDK's system-property getters throw on a message that was never received.
   * `isLockTokenSet` is a plain flag and does not throw.
   */
  datatype Message = Message(
    deliveryCount: Option<Int32>,
    deadLetterSource: Option<NullableString>,
    isLockTokenSet: bool,
    lockToken: Option<string>,
    expiresAtUtc: Option<DateTime>,
    enqueuedTimeUtc: Option<DateTime>,
    messageId: Option<NullableString>,
    contentType: Option<NullableString>,
    replyTo: Option<NullableString>,
    sequenceNumber: Option<Int64>,
    to: Option<NullableString>,
    messageLabel: Option<NullableString>,
    correlationId: Option<NullableString>,
    userProperties: Option<UserPropertyBag>)

  /** An object stored as a binding-data value. */
  datatype Value =
    | Null
    | Int32Value(i: Int32)
    | Int64Value(l: Int64)
    | StringValue(s: string)
    | DateTimeValue(d: DateTime)
    | UserPropertiesValue(p: UserPropertyBag)
    | ReceiverValue(receiver: Messaging.MessageReceiver)
    | SessionValue(session: SessionHandle)
    | OtherValue(id: nat)

  function BoxString(s: NullableString): Value
  {
    match s
    case NullString => Null
    case NonNullString(chars) => StringValue(chars)
  }

  function BoxReceiver(receiver: Option<Messaging.MessageReceiver>): Value
  {
    match receiver
    case None => Null
    case Some(r) => ReceiverValue(r)
  }

  function BoxSession(session: Option<SessionHandle>): Value
  {
    match session
    case None => Null
    case Some(s) => SessionValue(s)
  }
}
