/** The rows of the four tables and the values their columns hold. */
module Entities {

  /** A snowflake id: an int64 written in decimal in the tables. */
  type Id = int

  /** An instant, in nanoseconds since the Unix epoch. */
  type Time = int

  const MILLISECOND: int := 1_000_000
  const HOUR: int := 3_600_000 * MILLISECOND
  const DAY: int := 24 * HOUR

  newtype byte = x: int | 0 <= x < 256

  /** Text as the program handles it: a Go string is a sequence of bytes. */
  type Bytes = seq<byte>

  datatype Option<+T> = None | Some(value: T)

  datatype MessageType = Sms | Mail

  datatype Provider = Mitake | Sendgrid

  /** Kafka topics `notify-sms` and `notify-mail`. */
  datatype Topic = NotifySms | NotifyMail

  /**
    One status type for messages, queues and targets: the fan-out writes its queue
    statuses into all three tables.  `Blank` is the empty string, which an unknown
    provider code is mapped to.
   */
  datatype Status =
    | Pending | Scheduled | Process | Enqueued | Sending
    | Sent | Success | Failed | Canceled | Blank

  /** A section name in the SMS provider's answer: `DEFAULT`, a decimal id, or any other text. */
  datatype Section = Default | TargetSection(id: Id) | OtherSection(name: string)

  /** What `provider_trace_id` may hold: nothing, a section name, or the mail provider's header. */
  datatype ProviderTrace = NoTrace | SectionTrace(section: Section) | HeaderTrace(text: string)

  datatype Message = Message(
    mtype: MessageType, data: Bytes, scheduledAt: Option<Time>,
    status: Status, createdAt: Time, deleted: bool)

  datatype Queue = Queue(messageId: Id, status: Status, createdAt: Time, deleted: bool)

  datatype Target = Target(
    messageId: Id, queueId: Id, receiver: string, receiverHash: string, provider: Provider,
    status: Status, driverTraceId: Option<Id>, providerTraceId: ProviderTrace,
    createdAt: Time, deleted: bool)

  /** An event row without its id, data and timestamps. */
  datatype Event = Event(provider: Provider, status: Status, trace: ProviderTrace, queueId: Id)

  /** A queue as the fan-out sees it. */
  datatype QueueRef = QueueRef(id: Id, messageId: Id)

  /** A Kafka record: the JSON of one queue, keyed by a fresh trace id. */
  datatype Record = Record(topic: Topic, queueId: Id, traceId: Id)

  function TopicOf(t: MessageType): Topic {
    match t case Sms => NotifySms case Mail => NotifyMail
  }

  function ProviderOf(t: MessageType): Provider {
    match t case Sms => Mitake case Mail => Sendgrid
  }

  function SetOf<T(==)>(s: seq<T>): set<T> { set x | x in s }

  function ValuesOf<K, V(==)>(m: map<K, V>): set<V> { set k | k in m :: m[k] }

  predicate Distinct<T(==)>(s: seq<T>) {
    forall i, j :: 0 <= i < j < |s| ==> s[i] != s[j]
  }
}
