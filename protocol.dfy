/**
 The values exchanged between DChat peers: a user's identity, a chat-log
 entry, and the three actions broadcast on a room's pub/sub channel
 (src/App.tsx:15-29). The JSON wire encoding of an action is not part of
 this model: actions travel as values of the `Action` datatype.
 */
module Protocol {

  /** Opaque peer identifier handed out by the transport. */
  type PeerId = string

  /** A user's display identity, chosen once per process. */
  datatype User = User(name: string, color: string)

  /** One line of the chat log: who said it and what. */
  datatype Entry = Entry(user: User, message: string)

  datatype Option<T> = None | Some(value: T)

  /** The `type` field of an action record (src/App.tsx:20-24). */
  datatype ActionType = JoinType | ConfirmJoinType | MessageType

  /** The tag's string on the wire. */
  function Tag(t: ActionType): string
  {
    match t
    case JoinType => "join"
    case ConfirmJoinType => "confirm-join"
    case MessageType => "message"
  }

  /** Reads a record's `type` field: one of the three tags names its action
      type, and every other string names none. */
  function TypeOf(tag: string): (r: Option<ActionType>)
    ensures r.Some? ==> Tag(r.value) == tag
    ensures r.None? <==> tag != Tag(JoinType) && tag != Tag(ConfirmJoinType) && tag != Tag(MessageType)
  {
    if tag == "join" then Some(JoinType)
    else if tag == "confirm-join" then Some(ConfirmJoinType)
    else if tag == "message" then Some(MessageType)
    else None
  }

  /** The three protocol actions with their payloads. */
  datatype Action =
    | Join(newPeerId: PeerId, otherUser: map<PeerId, User>)
    | ConfirmJoin(id: PeerId, user: User)
    | Message(user: User, message: string)
  {
    /** The action type whose payload this is. */
    function Type(): ActionType
    {
      match this
      case Join(_, _) => JoinType
      case ConfirmJoin(_, _) => ConfirmJoinType
      case Message(_, _) => MessageType
    }
  }

  /** Decoding a tag gives back the action type it was written for. */
  lemma TypeOfTag(t: ActionType)
    ensures TypeOf(Tag(t)) == Some(t)
  {
  }

  /** Distinct action types have distinct tags, so the tag decides the variant. */
  lemma TagInjective(t: ActionType, u: ActionType)
    ensures Tag(t) == Tag(u) <==> t == u
  {
  }
}
