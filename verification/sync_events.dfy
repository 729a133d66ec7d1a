/** Vocabulary shared by the server's event streams and the client's projection. */
module SyncEvents {

  type Id = string

  datatype Option<+T> = None | Some(value: T)

  datatype Status = Sent | Delivered | Read

  /** Message content: text, or the JSON note of a file message.  `detail` is every field of the
      note beyond the file id. */
  datatype Content = Text(text: string) | FileNote(fileId: Id, detail: string)

  const BLANK: Content := Text("")

  /** What one event says.  `Terminal` stands for both "recall" and "burn": `burn` is the
      event type, which the client derives from the operator (coordinator.cpp MapEvent). */
  datatype Body =
    | Message(id: Id, conv: Id, sender: Id, clientMsgId: Id, number: nat, isFile: bool,
              text: Content, createdAt: int, recalled: bool, burned: bool, unread: nat)
    | Terminal(id: Id, conv: Id, operator: Id, ts: int, burn: bool)
    | ReadCount(id: Id, conv: Id, count: nat)
    | Delivery(id: Id, conv: Id, user: Id, status: Status, sentAt: int, deliveredAt: int)
    | Receipt(conv: Id, reader: Id, lastRead: nat, readAt: int)
    | Conversation(conv: Id, title: string, owner: Id, members: seq<Id>, updatedAt: int)
    | File(id: Id, conv: Id, transferred: nat, completed: bool, version: nat, updatedAt: int)
    | Unsupported

  datatype Event = Event(position: nat, eventId: Id, body: Body)

  /** Primary key (kind, id) of the client's object table. */
  datatype Key =
    | MessageKey(id: Id)
    | TerminalKey(id: Id)
    | CountKey(id: Id)
    | DeliveryKey(id: Id, user: Id)
    | ReceiptKey(conv: Id, reader: Id)
    | ConversationKey(conv: Id)
    | FileKey(id: Id)

  /** Body b competes for the last-writer-wins slot k.  A message also opens its own read count. */
  predicate Claims(b: Body, k: Key) {
    match k
    case CountKey(id) => (b.Message? || b.ReadCount?) && b.id == id
    case DeliveryKey(id, user) => b.Delivery? && b.id == id && b.user == user
    case ReceiptKey(conv, reader) => b.Receipt? && b.conv == conv && b.reader == reader && b.lastRead > 0
    case ConversationKey(conv) => b.Conversation? && b.conv == conv
    case FileKey(id) => b.File? && b.id == id
    case _ => false
  }

  /** Largest position the client's integer column can hold. */
  const MAX_POSITION: nat := 0x7FFF_FFFF_FFFF_FFFF

  /** The entity id a projection would be saved under; empty ids are refused. */
  predicate Supported(b: Body) {
    match b
    case Message(id, _, _, _, _, _, _, _, _, _, _) => id != ""
    case Terminal(id, _, _, _, _) => id != ""
    case ReadCount(id, _, _) => id != ""
    case Delivery(_, _, _, _, _, _) => true
    case Receipt(_, _, _, _) => true
    case Conversation(conv, _, _, _, _) => conv != ""
    case File(id, _, _, _, _, _) => id != ""
    case Unsupported => false
  }

  predicate Sound(e: Event) {
    0 < e.position <= MAX_POSITION && e.eventId != "" && Supported(e.body)
  }

  /** Two different events that one user's stream may both contain. */
  predicate Compatible(e: Event, f: Event) {
    && e.position != f.position
    && e.eventId != f.eventId
    && !(e.body.Message? && f.body.Message? && e.body.id == f.body.id)
    && (e.body.Message? && f.body.ReadCount? && e.body.id == f.body.id ==> e.position < f.position)
    && (e.body.ReadCount? && f.body.Message? && e.body.id == f.body.id ==> f.position < e.position)
    && (e.body.Receipt? && f.body.Receipt? && e.body.conv == f.body.conv && e.body.reader == f.body.reader
        ==> e.body.lastRead != f.body.lastRead)
    && (e.body.File? && f.body.File? && e.body.id == f.body.id ==> e.body.version != f.body.version)
  }

  /** A set of events drawn from one well-formed stream. */
  ghost predicate WellFormed(events: set<Event>) {
    && (forall e :: e in events ==> Sound(e))
    && (forall e, f :: e in events && f in events && e != f ==> Compatible(e, f))
  }
}
