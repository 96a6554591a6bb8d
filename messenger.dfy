/**
 * The values exchanged with the messaging platform: the decoded webhook
 * callback, the outbound messages the bot sends, and the platform's answers.
 */
module Messenger {

  datatype Option<T> = None | Some(value: T)

  /** An inbound message. Only `text` is consulted by the bot. */
  datatype Message = Message(mid: string, text: string)

  /** A button click. Only `payload` is consulted by the bot. */
  datatype Postback = Postback(title: string, payload: string)

  /**
   * One messaging event. Message and postback are distinguished by which of
   * the two optional parts is present; nothing forbids both or neither.
   */
  datatype Event = Event(
    sender: string,
    recipient: string,
    timestamp: int,
    message: Option<Message>,
    postback: Option<Postback>)
  {
    /** A message is present; the postback is not consulted. */
    predicate IsMessage(): (r: bool)
      ensures r <==> message != None
    {
      message.Some?
    }

    /** A postback is present; the message is not consulted. */
    predicate IsPostback(): (r: bool)
      ensures r <==> postback != None
    {
      postback.Some?
    }
  }

  datatype Entry = Entry(id: string, time: int, events: seq<Event>)

  /** The decoded body of a webhook POST. */
  datatype Callback = Callback(objectType: string, entries: seq<Entry>)

  /**
   * What an outbound message carries, with the attachment payloads reduced
   * to the one value that varies: a reusable image by URL, or the media
   * template showing an uploaded image by its attachment id.
   */
  datatype MessageKind =
    | Text(text: string)
    | Image(url: string)
    | GopherTemplate(attachmentId: string)

  /** One call of the platform's send API: who it goes to and what it says. */
  datatype Send = Send(recipient: string, kind: MessageKind)

  /** The platform's answer to a send: the echoed attachment id, or an error. */
  datatype SendResult = Success(attachmentId: string) | Failure

  /**
   * The platform's behaviour, which the bot cannot see: the answer it gives
   * to the k-th send of the process (counting from 0).
   */
  type Vendor = nat -> SendResult

  /** What an HTTP handler leaves on the wire: a status and body, or nothing
      at all when the handler panicked and the connection was dropped. */
  datatype Response = Written(code: int, body: string) | Dropped
}
