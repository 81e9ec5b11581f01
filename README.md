# DChat room membership and chat log, in Dafny

DChat is a serverless chat. Peers find each other in a named room of an IPFS
pub/sub channel and talk only by broadcast. This project models the state
machine inside the `App` component of `src/App.tsx`, which has three parts:

- the local peer id;
- the membership map from peer id to `User {name, color}`;
- the newest-first chat log.

The machine reacts to these events:

- the transport events `peer joined`, `peer left` and `subscribed`;
- the three inbound actions `join`, `confirm-join` and `message`;
- the guarded send form.

Modules:

- `Protocol` (`protocol.dfy`): `User`, a chat `Entry`, `ActionType` with its wire tags and their decoder, and the `Action` datatype.
- `Updaters` (`updaters.dfy`): the copy-and-return updaters that the handlers pass to `setUsers` and `setMessages`. These are delete-from-copy, spread-merge, spread-upsert and prepend.
- `Session` (`session.dfy`): the handlers as a pure reducer.
  - `Step` takes a state and an event to a new state and the actions broadcast.
  - `Inbound` is the `switch` on a received record's `type` field. It maps the record to an event, or to none when the type is unknown.
  - `Run` folds `Step` over a trace of events.
  - The lemmas state each handler's effect, the properties that hold over traces, and the two-peer handshake.
- `Chat` (`chat.dfy`): the class `App`. Its fields are the component's state, and `outbox` records every `room.broadcast`. Each handler is a method that updates the fields in place. Each event handler's `ensures` ties the new state and outbox to `Session.Step`; `OnReady`'s ties them to `Session.Ready`, and `Broadcast` only appends to the outbox.

The process-wide identity `USER` is a random constant in the source. Here it is the immutable field `me`, so two peers in one lemma can have different identities.

Three behaviours of the code are easy to misread. The model follows the code:

- A `join` carries only the sender's own entry `{[id]: USER}` (src/App.tsx:81), not the sender's whole membership map.
- An inbound `join` that arrives before `subscribed` is merged and then wiped by the reset at `subscribed`. The code has no guard against this ordering.
- Switching rooms does not clear the chat log. The cleanup closure captures a stale `room`, so there is no stale-session guard to model (see "Left out").

## Model

| member | source | states |
|---|---|---|
| `Protocol.TypeOf` | src/App.tsx:20-24 | decoding a `type` string yields an action type only for that type's own tag; it yields none exactly when the string is none of "join", "confirm-join", "message" |
| `Protocol.TypeOfTag` | src/App.tsx:20-24 | decoding an action type's tag gives that action type back |
| `Protocol.TagInjective` | src/App.tsx:20-24 | two tags are equal exactly when the action types are, so a tag decides the variant |
| `Updaters.Without` | src/App.tsx:90-94 | the copy has the old keys minus the departed peer, with every remaining value unchanged |
| `Updaters.Merge` | src/App.tsx:120 | the merged map has every key of either map; incoming values win on a collision, other keys keep the old value |
| `Updaters.Upsert` | src/App.tsx:126 | the entry for the named id is the given user, the keys are the old ones plus that id, and every other entry is unchanged |
| `Updaters.Prepend` | src/App.tsx:130 | the log grows by one, the new entry comes first, and the old entries follow in their order |
| `Updaters.WithoutIdempotent` | src/App.tsx:90-94 | deleting the same peer twice equals deleting it once |
| `Updaters.WithoutAbsent` | src/App.tsx:90-94 | deleting an absent peer leaves the map as it was |
| `Updaters.UpsertIdempotent` | src/App.tsx:126 | writing the same entry twice equals writing it once |
| `Updaters.UpsertIsMerge` | src/App.tsx:120-126 | an upsert equals a merge of a one-entry map |
| `Updaters.MergeIdempotent` | src/App.tsx:120 | merging the same map twice equals merging it once |
| `Updaters.MergeKeepsEverything` | src/App.tsx:120 | a merge loses no old key, and every incoming entry is present as sent |
| `Session.Step` | src/App.tsx:68-133 | for any event: id, identity and room are unchanged; the draft text changes only on typing or sending; the log gains exactly the entry the event delivers, in front; a new key is the own id or one an inbound action names; at most one broadcast, which speaks only for this peer |
| `Session.Run` | src/App.tsx:104-133 | over any trace: id, identity and room are unchanged; the log is the delivered entries, newest first, in front of the old log, so nothing is removed or reordered; there are no more broadcasts than events, and each speaks for this peer |
| `Session.RunNamesMembers` | src/App.tsx:97-133 | over any trace the map gains only the own id and ids that an inbound `join` for us or a `confirm-join` names |
| `Session.Inbound` | src/App.tsx:104-133 | a received record becomes the event for its action exactly when its `type` field is that action's tag |
| `Session.UnknownTypeIgnored` | src/App.tsx:107-132 | a record whose `type` is none of the three tags matches no case of the `switch`, so it is no event |
| `Session.InboundTagged` | src/App.tsx:78-84 | a record as this program broadcasts it, with `type` the action's tag, is received as that action |
| `Session.SubscribedResets` | src/App.tsx:97-102 | after `subscribed` the map is exactly {id: USER}; earlier entries are discarded; log unchanged; nothing broadcast |
| `Session.PeerLeftRemoves` | src/App.tsx:88-95 | after `peer left p`, p is absent, every other key stays with its value, the log is unchanged and nothing is broadcast |
| `Session.PeerLeftIdempotent` | src/App.tsx:88-95 | a second `peer left p`, or one for an absent p, changes nothing and broadcasts nothing |
| `Session.ConfirmJoinUpserts` | src/App.tsx:125-127 | after `confirm-join {id, user}`, users[id] == user, every other entry is unchanged, and the keys are the old ones plus id |
| `Session.ConfirmJoinIdempotent` | src/App.tsx:125-127 | receiving the same `confirm-join` twice gives the same state and outbox as receiving it once |
| `Session.JoinForMe` | src/App.tsx:108-121 | a `join` naming the local id yields the old map overridden by `otherUser`, keeps the log, and broadcasts exactly one `confirm-join {id, USER}` |
| `Session.JoinForOther` | src/App.tsx:108-122 | a `join` naming another peer leaves users, log and outbox unchanged |
| `Session.JoinTwice` | src/App.tsx:108-121 | the same `join` for us delivered twice leaves the state as the first delivery left it and is answered again |
| `Session.JoinsCommute` | src/App.tsx:108-121 | `join`s for us from different members, whose `otherUser` maps have disjoint keys, give the same state in either order; that state holds every sender's entry |
| `Session.MessagePrepends` | src/App.tsx:129-131 | an inbound `message` becomes the first log entry, the old entries follow in order, and users are untouched |
| `Session.PeerJoinedAnnounces` | src/App.tsx:68-86 | `peer joined q` broadcasts exactly `join {newPeerId: q, otherUser: {id: USER}}` and changes no state |
| `Session.SubmitGuard` | src/App.tsx:180-195 | a `message {USER, value}` is broadcast if and only if there are more than one users, the value is non-empty and the room exists; otherwise nothing changes; the log and users are never modified by sending |
| `Session.RunKeepsSelf` | src/App.tsx:88-133 | once present, the local id stays in the map through any trace with no `peer left` naming it |
| `Session.LocalEventsKeepLog` | src/App.tsx:182-195 | a trace with no inbound action (sends, typing, joins, departures) leaves the log as it was |
| `Session.MembersAreNamed` | src/App.tsx:97-133 | from a fresh component, every key in the map is the own id or was named by an inbound `join` for us or a `confirm-join` |
| `Session.Handshake` | src/App.tsx:68-127 | two subscribed peers x != y: y's `join` for x, x's `confirm-join` reply, and y's upsert leave both maps equal to {x: ux, y: uy} |
| `Chat.App.constructor` | src/App.tsx:32-42 | the initial state: empty id, no room, no users, no messages, the initial text, nothing broadcast |
| `Chat.App.Broadcast` | src/App.tsx:77-85 | a broadcast appends the action to the outbox and changes nothing else |
| `Chat.App.OnReady` | src/App.tsx:60-66 | readiness sets the peer id and the room and keeps users, log and outbox |
| `Chat.App.OnPeerJoined` | src/App.tsx:68-86 | the new state and outbox are those of `Step` for `peer joined`: exactly one `join` is appended |
| `Chat.App.OnPeerLeft` | src/App.tsx:88-95 | the new state is that of `Step` for `peer left`: the peer is absent and nothing is broadcast |
| `Chat.App.OnSubscribed` | src/App.tsx:97-102 | the new state is that of `Step` for `subscribed`: users is {id: USER} |
| `Chat.App.OnMessage` | src/App.tsx:104-133 | a record of unknown type changes nothing; otherwise the new state and outbox are those of `Step` for the received action |
| `Chat.App.OnInput` | src/App.tsx:200-202 | the text box value becomes the typed text |
| `Chat.App.OnSubmit` | src/App.tsx:180-195 | the new state and outbox are those of `Step` for a submit; the log and users are unchanged |

## Left out

- IPFS node construction, swarm addresses, `ipfs.id()` and the creation of the pub/sub room (src/App.tsx:47-66). These are network calls. The peer id arrives as the parameter of `OnReady`. Transport activity arrives as events.
- JSON encoding and decoding of actions (src/App.tsx:78, 105). An inbound record is its `type` string and an `Action` payload. The code does not catch a parse error, so no "malformed payload is dropped" behaviour is modelled.
- Session.Inbound: a record with a known `type` but a payload of another shape is treated as no event. The code would read the missing fields as `undefined`, which this model does not represent. No peer of this program sends such a record.
- The `useEffect` lifecycle, switching rooms and the asynchronous `room.leave()` cleanup (src/App.tsx:44, 136-142). These are React scheduling and async teardown. The closure's `room` is stale, so no stale-session guard exists to model. Room isolation is therefore not a property of this model.
- Random names, colours and sentences from `faker` (src/App.tsx:8-11, 36, 194). `USER` is the `me` parameter. The fresh sentence after a send is the `next` parameter.
- JSX rendering, `console.log` and `room.getPeers()` diagnostics (src/App.tsx:144-225). The only rendering fact kept is that the send form exists only while more than one user is known (src/App.tsx:180).
- Delivery across peers over an unordered, lossy broadcast network. This is concurrent and distributed. Only the two-peer handshake is stated, built from single-peer steps.
- Order of React state updates: each handler's `setUsers`/`setMessages` is applied at once, in handler order. React's batching does not change the final state here.
