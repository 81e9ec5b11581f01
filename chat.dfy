/**
 The DChat component's state and its event handlers, updating that state
 in place. Each handler performs what `Session.Step` describes for its
 event, and `room.broadcast` appends to `outbox`.
 */
module Chat {
  import opened Protocol
  import opened Updaters
  import opened Session

  class App {
    var id: PeerId
    const me: User
    var room: bool
    var users: map<PeerId, User>
    var messages: seq<Entry>
    var value: string
    /** Every action broadcast so far, oldest first. */
    var outbox: seq<Action>

    /** The component's state as a value. */
    ghost function State(): Peer
      reads this
    {
      Peer(id, me, room, users, messages, value)
    }

    /** The initial `useState` values: no id, no room, no users, no messages. */
    constructor (me: User, value: string)
      ensures State() == Initial(me, value)
      ensures outbox == []
    {
      this.id := "";
      this.me := me;
      this.room := false;
      this.users := map[];
      this.messages := [];
      this.value := value;
      this.outbox := [];
    }

    /** `room.broadcast`: the action goes out on the channel. */
    method Broadcast(a: Action)
      modifies this`outbox
      ensures outbox == old(outbox) + [a]
    {
      outbox := outbox + [a];
    }

    /** The node is ready: remember our peer id and the room. */
    method OnReady(id: PeerId)
      modifies this
      ensures State() == Ready(old(State()), id)
      ensures outbox == old(outbox)
    {
      this.id := id;
      room := true;
    }

    /** Transport `peer joined`: ask the newcomer who it is, telling it who we are. */
    method OnPeerJoined(peer: PeerId)
      modifies this
      ensures State() == Step(old(State()), PeerJoined(peer)).state
      ensures outbox == old(outbox) + Step(old(State()), PeerJoined(peer)).out
      ensures outbox == old(outbox) + [Join(peer, map[id := me])]
    {
      Broadcast(Join(peer, map[id := me]));
    }

    /** Transport `peer left`: forget that peer. */
    method OnPeerLeft(peer: PeerId)
      modifies this
      ensures State() == Step(old(State()), PeerLeft(peer)).state
      ensures outbox == old(outbox) + Step(old(State()), PeerLeft(peer)).out
      ensures peer !in users && outbox == old(outbox)
    {
      users := Without(users, peer);
    }

    /** Transport `subscribed`: the map restarts as just ourselves. */
    method OnSubscribed()
      modifies this
      ensures State() == Step(old(State()), Subscribed).state
      ensures outbox == old(outbox) + Step(old(State()), Subscribed).out
      ensures users == map[id := me] && outbox == old(outbox)
    {
      users := map[id := me];
    }

    /** An action record arrived on the channel: `tag` is its `type` field. */
    method OnMessage(tag: string, action: Action)
      modifies this
      ensures Inbound(tag, action) == None ==> State() == old(State()) && outbox == old(outbox)
      ensures Inbound(tag, action) == Some(Received(action)) ==>
                State() == Step(old(State()), Received(action)).state &&
                outbox == old(outbox) + Step(old(State()), Received(action)).out
    {
      if TypeOf(tag) != Some(action.Type()) {
        return;
      }
      match action
      case Join(newPeerId, otherUser) =>
        if newPeerId == id {
          Broadcast(ConfirmJoin(id, me));
          users := Merge(users, otherUser);
        }
      case ConfirmJoin(peer, user) =>
        users := Upsert(users, peer, user);
      case Message(user, message) =>
        messages := Prepend(messages, Entry(user, message));
    }

    /** The text box changed. */
    method OnInput(text: string)
      modifies this
      ensures State() == Step(old(State()), Input(text)).state
      ensures outbox == old(outbox) + Step(old(State()), Input(text)).out
    {
      value := text;
    }

    /** The send form was submitted; `next` is the placeholder that replaces the sent text. */
    method OnSubmit(next: string)
      modifies this
      ensures State() == Step(old(State()), Submit(next)).state
      ensures outbox == old(outbox) + Step(old(State()), Submit(next)).out
      ensures messages == old(messages) && users == old(users)
    {
      // The form is only rendered while someone besides us is known.
      if |users| > 1 {
        if value == "" || !room {
          return;
        }
        Broadcast(Message(me, value));
        value := next;
      }
    }
  }
}
