/** The outbound message and its identity (`models/message.py`, `models/drafting.py`). */
module Messages {

  datatype Channel = Email | Sms

  datatype Status = Drafted | PendingApproval | Sent | Delivered | Failed | Rejected

  /** How far along the send lifecycle a status is (`STATUS_RANK`). */
  function Rank(s: Status): nat {
    match s
    case Drafted => 0
    case PendingApproval => 1
    case Sent => 2
    case Delivered => 3
    case Failed => 3
    case Rejected => 3
  }

  /** The fields of a message that are not volatile: what `semantic_send_args` keeps. */
  datatype Content = Content(
    channel: Channel,
    recipient: string,
    subject: string,
    body: string,
    templateRef: string,
    contactId: string,
    listingKey: string,
    transactionId: string)

  datatype DraftContext = DraftContext(
    channel: Channel,
    recipient: string,
    templateRef: string,
    params: map<string, string>,
    contactId: string,
    listingKey: string,
    transactionId: string)

  datatype Args = SendArgs(content: Content) | DraftArgs(context: DraftContext)

  /** `idempotency_key`: the digest is taken to be injective, so a key is its preimage. */
  datatype Key = Key(run: string, tool: string, args: Args)

  /** A row id: a digest, or a random one outside a run. */
  datatype Id = Hash(key: Key) | Uuid(n: nat)

  datatype Message = Message(id: Id, content: Content, status: Status, providerId: string)

  function SendTool(c: Channel): string {
    match c
    case Email => "send_email"
    case Sms => "send_sms"
  }

  /** The dedupe key of a send; `run` is non-empty. */
  function SendKey(run: string, content: Content): Key {
    Key(run, SendTool(content.channel), SendArgs(content))
  }
}
