// src/conversation/types.ts: the conversation record and what it is made of.
module ConversationTypes {
  import opened Wrappers
  import opened StatusTracker
  import opened ErrorClass

  type Handle = string
  type Line = string

  datatype Channel = IMessage | Sms | Rcs | UnknownChannel
  datatype StateName = Idle | Buffering | Processing | Sending
  datatype Kind = Message | Media | Reply | Reaction | Silence

  // Conversation keys carry the Sendblue line they belong to.
  datatype Key = Direct(line: Line, phone: string) | Group(line: Line, groupId: string)

  datatype Inbound = Inbound(handle: Handle, content: string)

  // A chat action in the form it is queued in, before it gets an id.
  datatype QueuedAction = QueuedAction(
    kind: Kind,
    content: Option<string>,
    mediaUrl: Option<string>,
    reaction: Option<string>,
    replyTo: Option<string>,
    target: Option<string>)

  // What Sendblue answers to a send.
  datatype SendResult = Returned(handle: Option<Handle>) | Threw(error: SendError)

  // The source writes ids as "<milliseconds>-<position>".
  datatype ItemId = ItemId(stamp: int, position: nat)

  datatype Item = Item(
    id: ItemId,
    action: QueuedAction,
    messageHandle: Option<Handle>,
    retryCount: nat,
    skipped: bool)

  datatype Record = Record(
    state: StateName,
    channel: Channel,
    smsDowngraded: bool,
    inboundBuffer: seq<Inbound>,
    lateArrivals: seq<Inbound>,
    lastInboundHandles: seq<Handle>,
    queue: seq<Item>,
    delivered: seq<string>,
    cancelled: seq<string>,
    index: nat,
    handle: Option<Handle>,
    reprocessCount: nat)

  function IdleRecord(channel: Channel): Record {
    Record(Idle, channel, false, [], [], [], [], [], [], 0, None, 0)
  }

  function Handles(messages: seq<Inbound>): (r: seq<Handle>)
    ensures |r| == |messages|
  {
    seq(|messages|, i requires 0 <= i < |messages| => messages[i].handle)
  }

  function ApplyChannel(r: Record, channel: Channel, wasDowngraded: bool): Record {
    r.(channel := if channel != UnknownChannel then channel else r.channel,
       smsDowngraded :=
         if channel == IMessage then false
         else if wasDowngraded || channel == Sms then true
         else r.smsDowngraded)
  }

  // iMessage and RCS confirm delivery; SMS only reports that it was sent.
  function SuccessStatus(r: Record): Status {
    if r.smsDowngraded || r.channel == Sms then SENT else DELIVERED
  }

  predicate SupportsRichActions(r: Record) {
    r.channel == IMessage && !r.smsDowngraded
  }
}
