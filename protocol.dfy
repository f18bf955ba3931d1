/**
 The messages exchanged between the connection handlers and the storage actor
 (src/modules/database/types.rs), and the chat records they carry.
 ChatMessage, WebMessage and UserInfo are used by the server but not defined in
 src/modules/database/types.rs; they are given here with the fields the server
 reads.
 */
module Protocol {
  /** A chat turn: who spoke (`"user"` or the responder's role) and what was said. */
  datatype ChatMessage = ChatMessage(role: string, content: string)

  /** A stored chat turn: `WebMessage::new(message, timestamp, id)`. */
  datatype WebMessage = WebMessage(message: ChatMessage, timestamp: nat, id: string)

  /** `UserInfo::new(email, name, token)`. */
  datatype UserInfo = UserInfo(email: string, name: string, token: string)

  /** Replies from the storage actor to one connection. `Timestamp` is a `u64`. */
  datatype DatabaseMessage =
    | Chats(chats: seq<string>)
    | Messages(chatId: string, messages: seq<WebMessage>)
    | Email(email: string)
    | Token(token: string)
    | Timestamp(timestamp: nat)
    /** A stored message, as the text `get_audio` synthesises from. */
    | Message(content: string)
    | AudioPath(path: string)
    | UserInfo(info: UserInfo)
    | Deleted(chatId: string)
    | NewChat(chatId: string)
    | Ok
    | Err

  /** Requests to the storage actor; `conn` is the requesting connection's id. */
  datatype NetworkMessage =
    | ChatRequest(conn: string, token: string, chatId: string)
    | LoginRequest(conn: string, email: string, passwordHash: string)
    | TokenValidation(conn: string, token: string)
    | NewChat(conn: string, email: string)
    | NewMessage(conn: string, token: string, sender: string, chatId: string, content: string, messageId: string)
    | GetChats(conn: string, email: string)
    | DeleteChat(conn: string, token: string, chatId: string)
    | RegisterUser(conn: string, name: string, email: string, password: string)
    | GetMessage(conn: string, messageId: string)
    | GetAudioPath(conn: string, messageId: string)
    | RecordAudioPath(messageId: string, path: string)
}
