/**
 The room-membership and chat-log state machine of one DChat peer, written
 as a reducer: `Step` takes the peer's state and one event (a transport
 event, an inbound action, or a user action on the send form) to the new
 state and the actions the peer broadcasts in response. `Run` folds `Step`
 over a sequence of events. The class `Chat.App` performs the same updates
 in place.
 */
module Session {
  import opened Protocol
  import opened Updaters

  /** What the component keeps between events. `me` is the process-wide
      identity USER; `room` records whether the room object exists yet. */
  datatype Peer = Peer(
    id: PeerId,
    me: User,
    room: bool,
    users: map<PeerId, User>,
    messages: seq<Entry>,
    value: string)

  /** The events a peer reacts to once its room has been created. */
  datatype Event =
    | PeerJoined(peer: PeerId)     // transport: a peer appeared in the room
    | PeerLeft(peer: PeerId)       // transport: a peer left the room
    | Subscribed                   // transport: our subscription is live
    | Received(action: Action)     // transport: an action of one of the three types arrived
    | Input(text: string)          // user: edits the text box
    | Submit(next: string)         // user: submits the form; `next` is the fresh placeholder sentence

  /** The new state and what was broadcast, in order. */
  datatype Reaction = Reaction(state: Peer, out: seq<Action>)

  /** The component's state before the node is ready. */
  function Initial(me: User, value: string): Peer
  {
    Peer("", me, false, map[], [], value)
  }

  /** The node became ready: its peer id is known and the room object exists. */
  function Ready(s: Peer, id: PeerId): Peer
  {
    s.(id := id, room := true)
  }

  /** The send form's guard: someone besides us is known, the text is non-empty, the room exists. */
  predicate CanSend(s: Peer)
  {
    |s.users| > 1 && s.value != "" && s.room
  }

  /** An action this peer could have broadcast: it speaks only for itself. */
  predicate Authored(a: Action, id: PeerId, me: User)
  {
    match a
    case Join(_, other) => other == map[id := me]
    case ConfirmJoin(i, u) => i == id && u == me
    case Message(u, _) => u == me
  }

  /** The chat entry an event delivers, if any. */
  function Arrived(e: Event): seq<Entry>
  {
    if e.Received? && e.action.Message? then [Entry(e.action.user, e.action.message)] else []
  }

  /** The peer ids an event may add to the membership map of peer `id`. */
  function Named(id: PeerId, e: Event): set<PeerId>
  {
    match e
    case Received(Join(n, other)) => if n == id then other.Keys else {}
    case Received(ConfirmJoin(i, _)) => {i}
    case _ => {}
  }

  /** The `switch` on a received record's `type` field: a record whose type
      is one of the three tags, with a payload of that type, is the event
      `Received(action)`; any other type matches no case and is no event. */
  function Inbound(tag: string, a: Action): (r: Option<Event>)
    ensures r.Some? <==> tag == Tag(a.Type())
    ensures r.Some? ==> r.value == Received(a)
  {
    if TypeOf(tag) == Some(a.Type()) then Some(Received(a)) else None
  }

  /** Handling of an action that arrived on the channel. */
  function Receive(s: Peer, a: Action): Reaction
  {
    match a
    case Join(newPeerId, otherUser) =>
      if newPeerId == s.id then
        Reaction(s.(users := Merge(s.users, otherUser)), [ConfirmJoin(s.id, s.me)])
      else
        Reaction(s, [])
    case ConfirmJoin(id, user) =>
      Reaction(s.(users := Upsert(s.users, id, user)), [])
    case Message(user, message) =>
      Reaction(s.(messages := Prepend(s.messages, Entry(user, message))), [])
  }

  /** One event. The peer's id, identity and room never change, and only the
      user's own actions change the draft text; the log only
      grows by the entry the event delivers; a key only enters the map when
      it is the peer's own id or an inbound action names it; every broadcast
      speaks for this peer alone. */
  function Step(s: Peer, e: Event): (r: Reaction)
    ensures r.state.id == s.id && r.state.me == s.me && r.state.room == s.room
    ensures !(e.Input? || e.Submit?) ==> r.state.value == s.value
    ensures r.state.messages == Arrived(e) + s.messages
    ensures r.state.users.Keys <= s.users.Keys + {s.id} + Named(s.id, e)
    ensures |r.out| <= 1
    ensures forall a :: a in r.out ==> Authored(a, s.id, s.me)
  {
    match e
    case PeerJoined(peer) => Reaction(s, [Join(peer, map[s.id := s.me])])
    case PeerLeft(peer) => Reaction(s.(users := Without(s.users, peer)), [])
    case Subscribed => Reaction(s.(users := map[s.id := s.me]), [])
    case Received(a) => Receive(s, a)
    case Input(text) => Reaction(s.(value := text), [])
    case Submit(next) =>
      if CanSend(s) then Reaction(s.(value := next), [Message(s.me, s.value)])
      else Reaction(s, [])
  }

  /** The entries a sequence of events delivers, newest first. */
  function Arrivals(evs: seq<Event>): seq<Entry>
  {
    if evs == [] then [] else Arrivals(evs[1..]) + Arrived(evs[0])
  }

  /** The peer ids a sequence of events may add to the map of peer `id`. */
  function NamedAll(id: PeerId, evs: seq<Event>): set<PeerId>
  {
    if evs == [] then {} else Named(id, evs[0]) + NamedAll(id, evs[1..])
  }

  /** A sequence of events, processed in order. Over any trace the log is the
      delivered entries, newest first, in front of the old log (entries are
      never removed or reordered), there are no more broadcasts than events,
      and every broadcast speaks for this peer. */
  function Run(s: Peer, evs: seq<Event>): (r: Reaction)
    ensures r.state.id == s.id && r.state.me == s.me && r.state.room == s.room
    ensures r.state.messages == Arrivals(evs) + s.messages
    ensures |r.out| <= |evs|
    ensures forall a :: a in r.out ==> Authored(a, s.id, s.me)
    decreases |evs|
  {
    if evs == [] then Reaction(s, [])
    else
      var first := Step(s, evs[0]);
      var rest := Run(first.state, evs[1..]);
      assert rest.state.messages == Arrivals(evs[1..]) + (Arrived(evs[0]) + s.messages);
      Reaction(rest.state, first.out + rest.out)
  }

  // ---------------------------------------------------------------------
  // One event at a time

  /** On `subscribed` the map becomes exactly {id: USER}; earlier entries are gone. */
  lemma SubscribedResets(s: Peer)
    ensures Step(s, Subscribed).state.users.Keys == {s.id}
    ensures Step(s, Subscribed).state.users[s.id] == s.me
    ensures Step(s, Subscribed).state.messages == s.messages
    ensures Step(s, Subscribed).out == []
  {
  }

  /** `peer left` removes that key and keeps every other entry. */
  lemma PeerLeftRemoves(s: Peer, p: PeerId)
    ensures p !in Step(s, PeerLeft(p)).state.users
    ensures forall k :: k != p ==> (k in Step(s, PeerLeft(p)).state.users <==> k in s.users)
    ensures forall k :: k in Step(s, PeerLeft(p)).state.users ==> Step(s, PeerLeft(p)).state.users[k] == s.users[k]
    ensures Step(s, PeerLeft(p)).state.messages == s.messages
    ensures Step(s, PeerLeft(p)).out == []
  {
  }

  /** A second `peer left` for the same peer, or one for an absent peer, changes nothing. */
  lemma PeerLeftIdempotent(s: Peer, p: PeerId)
    ensures Step(Step(s, PeerLeft(p)).state, PeerLeft(p)) == Reaction(Step(s, PeerLeft(p)).state, [])
    ensures p !in s.users ==> Step(s, PeerLeft(p)) == Reaction(s, [])
  {
    WithoutIdempotent(s.users, p);
    if p !in s.users {
      WithoutAbsent(s.users, p);
    }
  }

  /** An inbound `confirm-join` sets that entry and keeps every other one. */
  lemma ConfirmJoinUpserts(s: Peer, id: PeerId, user: User)
    ensures Step(s, Received(ConfirmJoin(id, user))).state.users[id] == user
    ensures Step(s, Received(ConfirmJoin(id, user))).state.users.Keys == s.users.Keys + {id}
    ensures forall k :: k in s.users && k != id ==> Step(s, Received(ConfirmJoin(id, user))).state.users[k] == s.users[k]
    ensures Step(s, Received(ConfirmJoin(id, user))).state.messages == s.messages
    ensures Step(s, Received(ConfirmJoin(id, user))).out == []
  {
  }

  /** Receiving the same `confirm-join` twice is receiving it once. */
  lemma ConfirmJoinIdempotent(s: Peer, id: PeerId, user: User)
    ensures var once := Step(s, Received(ConfirmJoin(id, user)));
            Step(once.state, Received(ConfirmJoin(id, user))) == once
  {
    UpsertIdempotent(s.users, id, user);
  }

  /** A `join` naming this peer merges the sender's map over ours (incoming
      entries win, nothing is lost) and is answered by exactly one
      `confirm-join` carrying our id and identity. */
  lemma JoinForMe(s: Peer, other: map<PeerId, User>)
    ensures var r := Step(s, Received(Join(s.id, other)));
            && r.state.users.Keys == s.users.Keys + other.Keys
            && (forall k :: k in other ==> r.state.users[k] == other[k])
            && (forall k :: k in s.users && k !in other ==> r.state.users[k] == s.users[k])
            && r.state.messages == s.messages
            && r.out == [ConfirmJoin(s.id, s.me)]
  {
  }

  /** A `join` naming another peer is ignored: no state change, no broadcast. */
  lemma JoinForOther(s: Peer, newPeerId: PeerId, other: map<PeerId, User>)
    requires newPeerId != s.id
    ensures Step(s, Received(Join(newPeerId, other))) == Reaction(s, [])
  {
  }

  /** The same `join` for us delivered twice leaves the map as the first
      delivery left it; each delivery is answered. */
  lemma JoinTwice(s: Peer, other: map<PeerId, User>)
    ensures var once := Step(s, Received(Join(s.id, other)));
            var twice := Step(once.state, Received(Join(s.id, other)));
            twice.state == once.state && twice.out == once.out
  {
    MergeIdempotent(s.users, other);
  }

  /** `join`s for us from different members (each carrying its sender's own
      entry) may arrive in either order: the map ends the same, holding
      every sender's entry. */
  lemma JoinsCommute(s: Peer, a: map<PeerId, User>, b: map<PeerId, User>)
    requires a.Keys !! b.Keys
    ensures var ab := Step(Step(s, Received(Join(s.id, a))).state, Received(Join(s.id, b))).state;
            var ba := Step(Step(s, Received(Join(s.id, b))).state, Received(Join(s.id, a))).state;
            && ab == ba
            && ab.users.Keys == s.users.Keys + a.Keys + b.Keys
            && (forall k :: k in a ==> ab.users[k] == a[k])
            && (forall k :: k in b ==> ab.users[k] == b[k])
  {
  }

  /** A record whose `type` is none of the three tags falls through the
      `switch`: it is no event, so nothing changes and nothing is sent. */
  lemma UnknownTypeIgnored(tag: string, a: Action)
    requires tag != "join" && tag != "confirm-join" && tag != "message"
    ensures Inbound(tag, a) == None
  {
  }

  /** A record that a peer of this program sends, whose `type` is its
      action's tag, is received as that action. */
  lemma InboundTagged(a: Action)
    ensures Inbound(Tag(a.Type()), a) == Some(Received(a))
  {
    TypeOfTag(a.Type());
  }

  /** An inbound `message` is put in front of the log; the older entries keep
      their order and the map is untouched. */
  lemma MessagePrepends(s: Peer, user: User, message: string)
    ensures var r := Step(s, Received(Message(user, message)));
            && |r.state.messages| == |s.messages| + 1
            && r.state.messages[0] == Entry(user, message)
            && r.state.messages[1..] == s.messages
            && r.state.users == s.users
            && r.out == []
  {
  }

  /** A transport `peer joined q` broadcasts exactly one `join` naming q and
      carrying only our own entry; the state is unchanged. */
  lemma PeerJoinedAnnounces(s: Peer, q: PeerId)
    ensures Step(s, PeerJoined(q)).out == [Join(q, map[s.id := s.me])]
    ensures Step(s, PeerJoined(q)).state == s
  {
  }

  /** Submitting broadcasts our message exactly when someone else is known,
      the text is non-empty and the room exists; sending never touches the
      log or the map. */
  lemma SubmitGuard(s: Peer, next: string)
    ensures var r := Step(s, Submit(next));
            && (r.out != [] <==> |s.users| > 1 && s.value != "" && s.room)
            && (r.out != [] ==> r.out == [Message(s.me, s.value)] && r.state.value == next)
            && (r.out == [] ==> r.state == s)
            && r.state.messages == s.messages
            && r.state.users == s.users
  {
  }

  // ---------------------------------------------------------------------
  // Traces

  /** Our own entry survives every event except a `peer left` naming us. */
  lemma {:induction false} RunKeepsSelf(s: Peer, evs: seq<Event>)
    requires s.id in s.users
    requires forall i :: 0 <= i < |evs| ==> evs[i] != PeerLeft(s.id)
    ensures s.id in Run(s, evs).state.users
    decreases |evs|
  {
    if evs != [] {
      var first := Step(s, evs[0]);
      assert s.id in first.state.users;
      RunKeepsSelf(first.state, evs[1..]);
    }
  }

  /** A trace without inbound actions delivers nothing. */
  lemma {:induction false} NothingReceivedNothingArrives(evs: seq<Event>)
    requires forall i :: 0 <= i < |evs| ==> !evs[i].Received?
    ensures Arrivals(evs) == []
    decreases |evs|
  {
    if evs != [] {
      NothingReceivedNothingArrives(evs[1..]);
    }
  }

  /** Sending (and typing, joins and departures) never writes the local log:
      our own message reaches it only by coming back over the channel. */
  lemma LocalEventsKeepLog(s: Peer, evs: seq<Event>)
    requires forall i :: 0 <= i < |evs| ==> !evs[i].Received?
    ensures Run(s, evs).state.messages == s.messages
  {
    NothingReceivedNothingArrives(evs);
  }

  /** Over any trace the map gains only the own id and the ids that inbound
      actions name. */
  lemma {:induction false} RunNamesMembers(s: Peer, evs: seq<Event>)
    ensures Run(s, evs).state.users.Keys <= s.users.Keys + {s.id} + NamedAll(s.id, evs)
    decreases |evs|
  {
    if evs != [] {
      var first := Step(s, evs[0]);
      RunNamesMembers(first.state, evs[1..]);
    }
  }

  /** From a fresh component, every member key is our own id or was named by
      an inbound `join` for us or a `confirm-join`. */
  lemma MembersAreNamed(me: User, value: string, id: PeerId, evs: seq<Event>)
    ensures Run(Ready(Initial(me, value), id), evs).state.users.Keys <= {id} + NamedAll(id, evs)
  {
    RunNamesMembers(Ready(Initial(me, value), id), evs);
  }

  // ---------------------------------------------------------------------
  // Two peers

  /** The handshake between two subscribed peers x and y with y already in
      the room: y's transport reports x, y announces itself to x, x answers
      with its identity, and both maps end as {x: ux, y: uy}. Swapping the
      names gives the other arrival order. */
  lemma Handshake(x: PeerId, y: PeerId, ux: User, uy: User, vx: string, vy: string)
    requires x != y
    ensures var px := Step(Ready(Initial(ux, vx), x), Subscribed).state;
            var py := Step(Ready(Initial(uy, vy), y), Subscribed).state;
            var announce := Step(py, PeerJoined(x));
            var reply := Step(px, Received(Join(x, map[y := uy])));
            var confirmed := Step(announce.state, Received(ConfirmJoin(x, ux)));
            && announce.out == [Join(x, map[y := uy])]
            && reply.out == [ConfirmJoin(x, ux)]
            && reply.state.users == map[x := ux, y := uy]
            && confirmed.state.users == map[x := ux, y := uy]
  {
  }
}
