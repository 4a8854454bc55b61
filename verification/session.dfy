/**
 * The chat page's session store (`Home` in app/page.tsx): the current room,
 * the ordered room list, the user list and the ordered messages of the
 * room on screen, and the handlers that replace them. Every handler is an
 * append, a `filter` or a `map`; the list edits are the functions below and
 * the handlers are the methods of `ChatSession`.
 */
module Session {
  import opened Wrappers
  import opened Text
  import opened Lists
  import opened Emotions
  import opened Utils
  import Composer

  datatype RoomKind = General | Temporary

  datatype Room = Room(id: string, name: string, kind: RoomKind, participants: int, isActive: bool)

  datatype Status = Online | Idle | Dnd | Offline

  /** A member of the user list; an absent `isHost` is `false`. */
  datatype User = User(id: string, name: string, status: Status, isHost: bool)

  datatype Sender = Sender(id: string, name: string, avatar: Option<string>, status: Option<Status>)

  /** A chat message; `timestamp` is the instant in milliseconds since the epoch. */
  datatype ChatMessage = ChatMessage(id: string, content: string, sender: Sender, timestamp: int, emotion: Option<Emotion>)

  const GeneralId: string := "general"

  /** The sender id the page gives to everything typed in this browser. */
  const CurrentUserId: string := "current-user"

  const GeneralRoom: Room := Room(GeneralId, "General Chat", General, 5, true)

  const SeedUsers: seq<User> := [
    User("1", "SwiftPanda#1234", Online, true),
    User("2", "BrightEagle#5678", Online, false),
    User("3", "CleverDolphin#9012", Idle, false),
    User("4", "WittyPhoenix#3456", Online, false),
    User("5", "CharmingTiger#7890", Dnd, false)
  ]

  /** The four welcome messages, stamped 60, 45, 30 and 15 seconds before `now`. */
  function SeedMessages(now: int): (ms: seq<ChatMessage>)
    ensures |ms| == 4
    ensures forall i :: 0 <= i < |ms| ==> ms[i].timestamp == now - 60000 + 15000 * i
    ensures forall i :: 0 <= i < |ms| ==> ms[i].sender.status == Some(Online) && ms[i].sender.avatar.None?
  {
    [ ChatMessage("1", "Welcome to PingRoom! \U{1F389} This is the general chat room where everyone can hang out.",
                  Sender("system", "System", None, Some(Online)), now - 60000, None),
      ChatMessage("2", "Hey everyone! How's it going?",
                  Sender("1", "SwiftPanda#1234", None, Some(Online)), now - 45000, Some(Happy)),
      ChatMessage("3", "Pretty good! Just exploring this new chat app.",
                  Sender("2", "BrightEagle#5678", None, Some(Online)), now - 30000, Some(Excited)),
      ChatMessage("4", "The emotion tagging feature is really cool! \U{1F60A}",
                  Sender("4", "WittyPhoenix#3456", None, Some(Online)), now - 15000, Some(Happy)) ]
  }

  /** The page's `isOwn` for a message: it was sent from this browser. */
  predicate IsOwn(m: ChatMessage) {
    m.sender.id == CurrentUserId
  }

  /** None of the welcome messages counts as the reader's own. */
  lemma SeedMessagesNotOwn(now: int)
    ensures forall i :: 0 <= i < |SeedMessages(now)| ==> !IsOwn(SeedMessages(now)[i])
  {
    var ms := SeedMessages(now);
    assert ms[0].sender.id[0] == 's' && ms[1].sender.id[0] == '1';
    assert ms[2].sender.id[0] == '2' && ms[3].sender.id[0] == '4';
  }

  /** The message `handleSendMessage` builds; the page reads the clock once for its id and once for its timestamp, here one instant. */
  function OutgoingMessage(content: string, emotion: Option<Emotion>, now: nat, guestName: string): (m: ChatMessage)
    ensures IsOwn(m) && m.content == content && m.emotion == emotion
    ensures AllDigits(m.id) && ParseDecimal(m.id) == now && m.timestamp == now
    ensures m.sender.name == guestName && m.sender.status == Some(Online) && m.sender.avatar.None?
  {
    ParseDecimalString(now);
    ChatMessage(DecimalString(now), content, Sender(CurrentUserId, guestName, None, Some(Online)), now, emotion)
  }

  /** The room `handleCreateRoom` adds for a fresh code. */
  function TemporaryRoom(id: string): (r: Room)
    ensures r.id == id && r.kind == Temporary && r.participants == 1 && r.isActive
    ensures r.name == "Room " + id
  {
    Room(id, "Room " + id, Temporary, 1, true)
  }

  // ---- the room list -------------------------------------------------------

  /**
   * What every room of the list satisfies from the first render on: a
   * non-empty name, the id "general" exactly on the general room, and a
   * six-character code on every temporary room.
   */
  predicate RoomWellFormed(r: Room) {
    r.name != [] && (r.id == GeneralId <==> r.kind == General) && (r.kind == Temporary ==> IsRoomId(r.id))
  }

  predicate RoomsWellFormed(rooms: seq<Room>) {
    forall i :: 0 <= i < |rooms| ==> RoomWellFormed(rooms[i])
  }

  function RoomIdIsNot(id: string): Room -> bool {
    (r: Room) => r.id != id
  }

  /** `rooms.filter(room => room.id !== id)`: every room with that id goes, the rest stay in order. */
  function RoomsWithout(rooms: seq<Room>, id: string): (r: seq<Room>)
    ensures forall i :: 0 <= i < |r| ==> r[i] in rooms && r[i].id != id
    ensures forall i :: 0 <= i < |rooms| && rooms[i].id != id ==> rooms[i] in r
  {
    Filter(rooms, RoomIdIsNot(id))
  }

  /** Removal keeps the order of the remaining rooms and every copy of each, and no room with the id. */
  lemma RoomsWithoutOrder(rooms: seq<Room>, id: string)
    ensures IsSubsequence(RoomsWithout(rooms, id), rooms)
    ensures forall x :: multiset(RoomsWithout(rooms, id))[x] == if x.id != id then multiset(rooms)[x] else 0
  {
    FilterSubsequence(rooms, RoomIdIsNot(id));
    FilterCounts(rooms, RoomIdIsNot(id));
  }

  /** Removing an id no room has changes nothing; removing twice is removing once. */
  lemma RoomsWithoutNoOp(rooms: seq<Room>, id: string)
    ensures (forall i :: 0 <= i < |rooms| ==> rooms[i].id != id) ==> RoomsWithout(rooms, id) == rooms
    ensures RoomsWithout(RoomsWithout(rooms, id), id) == RoomsWithout(rooms, id)
  {
    if forall i :: 0 <= i < |rooms| ==> rooms[i].id != id {
      FilterKeepsAll(rooms, RoomIdIsNot(id));
    }
    FilterIdempotent(rooms, RoomIdIsNot(id));
  }

  function RenameIfId(id: string, name: string): Room -> Room {
    (r: Room) => if r.id == id then r.(name := name) else r
  }

  /** `rooms.map(room => room.id === id ? { ...room, name } : room)`. */
  function RenameRooms(rooms: seq<Room>, id: string, name: string): (r: seq<Room>)
    ensures |r| == |rooms|
    ensures forall i :: 0 <= i < |r| ==>
              r[i].id == rooms[i].id && r[i].kind == rooms[i].kind
              && r[i].participants == rooms[i].participants && r[i].isActive == rooms[i].isActive
    ensures forall i :: 0 <= i < |r| ==> if rooms[i].id == id then r[i].name == name else r[i] == rooms[i]
  {
    Map(rooms, RenameIfId(id, name))
  }

  /** Every list edit keeps the room list well formed (a rename only with a non-empty name). */
  lemma RoomEditsKeepWellFormed(rooms: seq<Room>, id: string, name: string, code: string)
    requires RoomsWellFormed(rooms)
    ensures RoomsWellFormed(RoomsWithout(rooms, id))
    ensures name != [] ==> RoomsWellFormed(RenameRooms(rooms, id, name))
    ensures IsRoomId(code) ==> RoomsWellFormed(rooms + [TemporaryRoom(code)])
  {
    if IsRoomId(code) {
      assert |code| != |GeneralId|;
    }
  }

  // ---- the message list ----------------------------------------------------

  function MessageIdIsNot(id: string): ChatMessage -> bool {
    (m: ChatMessage) => m.id != id
  }

  function HasMessageId(id: string): ChatMessage -> bool {
    (m: ChatMessage) => m.id == id
  }

  function MessageId(m: ChatMessage): string {
    m.id
  }

  /** `messages.filter(m => m.id !== id)`: every message with that id goes, the rest stay in order. */
  function MessagesWithout(ms: seq<ChatMessage>, id: string): (r: seq<ChatMessage>)
    ensures forall i :: 0 <= i < |r| ==> r[i] in ms && r[i].id != id
    ensures forall i :: 0 <= i < |ms| && ms[i].id != id ==> ms[i] in r
  {
    Filter(ms, MessageIdIsNot(id))
  }

  /** Deletion keeps the order and multiplicity of the other messages; deleting an absent id or deleting twice changes nothing more. */
  lemma MessagesWithoutFacts(ms: seq<ChatMessage>, id: string)
    ensures IsSubsequence(MessagesWithout(ms, id), ms)
    ensures forall x :: multiset(MessagesWithout(ms, id))[x] == if x.id != id then multiset(ms)[x] else 0
    ensures (forall i :: 0 <= i < |ms| ==> ms[i].id != id) ==> MessagesWithout(ms, id) == ms
    ensures MessagesWithout(MessagesWithout(ms, id), id) == MessagesWithout(ms, id)
  {
    FilterSubsequence(ms, MessageIdIsNot(id));
    FilterCounts(ms, MessageIdIsNot(id));
    if forall i :: 0 <= i < |ms| ==> ms[i].id != id {
      FilterKeepsAll(ms, MessageIdIsNot(id));
    }
    FilterIdempotent(ms, MessageIdIsNot(id));
  }

  function ReplaceContentIfId(id: string, content: string): ChatMessage -> ChatMessage {
    (m: ChatMessage) => if m.id == id then m.(content := content) else m
  }

  /** `messages.map(m => m.id === id ? { ...m, content } : m)`. */
  function EditContent(ms: seq<ChatMessage>, id: string, content: string): (r: seq<ChatMessage>)
    ensures |r| == |ms|
    ensures forall i :: 0 <= i < |r| ==>
              r[i].id == ms[i].id && r[i].sender == ms[i].sender
              && r[i].timestamp == ms[i].timestamp && r[i].emotion == ms[i].emotion
    ensures forall i :: 0 <= i < |r| ==> if ms[i].id == id then r[i].content == content else r[i] == ms[i]
  {
    Map(ms, ReplaceContentIfId(id, content))
  }

  function SetEmotionIfId(id: string, e: Emotion): ChatMessage -> ChatMessage {
    (m: ChatMessage) => if m.id == id then m.(emotion := Some(e)) else m
  }

  /** `messages.map(m => m.id === id ? { ...m, emotion } : m)`. */
  function SetEmotion(ms: seq<ChatMessage>, id: string, e: Emotion): (r: seq<ChatMessage>)
    ensures |r| == |ms|
    ensures forall i :: 0 <= i < |r| ==>
              r[i].id == ms[i].id && r[i].sender == ms[i].sender
              && r[i].timestamp == ms[i].timestamp && r[i].content == ms[i].content
    ensures forall i :: 0 <= i < |r| ==> if ms[i].id == id then r[i].emotion == Some(e) else r[i] == ms[i]
  {
    Map(ms, SetEmotionIfId(id, e))
  }

  /** Edits and reactions keep the ids in their order, and change nothing when no message has the id. */
  lemma {:induction false} MessageMapsKeepIds(ms: seq<ChatMessage>, id: string, content: string, e: Emotion)
    ensures Map(EditContent(ms, id, content), MessageId) == Map(ms, MessageId)
    ensures Map(SetEmotion(ms, id, e), MessageId) == Map(ms, MessageId)
    ensures (forall i :: 0 <= i < |ms| ==> ms[i].id != id) ==> EditContent(ms, id, content) == ms && SetEmotion(ms, id, e) == ms
  {
    var ids := Map(ms, MessageId);
    var edited := EditContent(ms, id, content);
    var reacted := SetEmotion(ms, id, e);
    assert forall i :: 0 <= i < |ids| ==> Map(edited, MessageId)[i] == ids[i];
    assert forall i :: 0 <= i < |ids| ==> Map(reacted, MessageId)[i] == ids[i];
    if forall i :: 0 <= i < |ms| ==> ms[i].id != id {
      assert forall i :: 0 <= i < |ms| ==> edited[i] == ms[i];
      assert forall i :: 0 <= i < |ms| ==> reacted[i] == ms[i];
    }
  }

  /** A second reaction replaces the first: only the latest emotion remains. */
  lemma ReactOverwrites(ms: seq<ChatMessage>, id: string, e1: Emotion, e2: Emotion)
    ensures SetEmotion(SetEmotion(ms, id, e1), id, e2) == SetEmotion(ms, id, e2)
  {
  }

  /** Deleting a message discards any edit made to it before. */
  lemma {:induction false} DeleteForgetsEdit(ms: seq<ChatMessage>, id: string, content: string)
    ensures MessagesWithout(EditContent(ms, id, content), id) == MessagesWithout(ms, id)
  {
    if ms != [] {
      DeleteForgetsEdit(ms[1..], id, content);
      assert EditContent(ms, id, content)[1..] == EditContent(ms[1..], id, content);
    }
  }

  // ---- the store -----------------------------------------------------------

  /** The state of `Home`; `users` is never replaced after the first render. */
  class ChatSession {
    var currentRoom: string
    var rooms: seq<Room>
    var users: seq<User>
    var messages: seq<ChatMessage>

    predicate Valid()
      reads this
    {
      RoomsWellFormed(rooms)
    }

    /** The first render: the general room only, the five sample users and no messages yet. */
    constructor ()
      ensures currentRoom == GeneralId && rooms == [GeneralRoom] && users == SeedUsers && messages == []
      ensures Valid()
    {
      currentRoom := GeneralId;
      rooms := [GeneralRoom];
      users := SeedUsers;
      messages := [];
    }

    /** The effect that runs once the page is on the client: the welcome messages replace the list. */
    method LoadInitialMessages(now: int)
      modifies this
      ensures messages == SeedMessages(now)
      ensures currentRoom == old(currentRoom) && rooms == old(rooms) && users == old(users)
      ensures Valid() == old(Valid())
    {
      messages := SeedMessages(now);
    }

    /**
     * `handleSendMessage`: exactly one message is appended, holding the
     * given content and emotion as they come (no emptiness test here), sent
     * by `current-user` under a fresh guest name.
     */
    method SendMessage(content: string, emotion: Option<Emotion>, now: nat, adjDraw: nat, nounDraw: nat, numDraw: nat)
      requires adjDraw < |Adjectives| && nounDraw < |Nouns| && numDraw < NumberRange
      modifies this
      ensures messages == old(messages) + [OutgoingMessage(content, emotion, now, GuestName(adjDraw, nounDraw, numDraw))]
      ensures IsOwn(messages[|messages| - 1])
      ensures currentRoom == old(currentRoom) && rooms == old(rooms) && users == old(users)
      ensures Valid() == old(Valid())
    {
      var m := OutgoingMessage(content, emotion, now, GuestName(adjDraw, nounDraw, numDraw));
      messages := messages + [m];
    }

    /**
     * The composer wired to `handleSendMessage`: a send from the composer
     * appends exactly one message, holding the trimmed draft, and empties
     * the composer; a blank draft appends nothing and leaves the composer
     * as it was. So no blank message is ever sent from it.
     */
    method SendFromComposer(input: Composer.ChatInput, now: nat, adjDraw: nat, nounDraw: nat, numDraw: nat)
      requires adjDraw < |Adjectives| && nounDraw < |Nouns| && numDraw < NumberRange
      modifies this, input
      ensures AllWhitespace(old(input.message)) ==> messages == old(messages)
      ensures !AllWhitespace(old(input.message)) ==>
                messages == old(messages) + [OutgoingMessage(Trim(old(input.message)), old(input.selectedEmotion), now,
                                                             GuestName(adjDraw, nounDraw, numDraw))]
      ensures forall i :: |old(messages)| <= i < |messages| ==> !AllWhitespace(messages[i].content)
      ensures currentRoom == old(currentRoom) && rooms == old(rooms) && users == old(users)
      ensures AllWhitespace(old(input.message)) ==>
                input.message == old(input.message) && input.selectedEmotion == old(input.selectedEmotion)
      ensures !AllWhitespace(old(input.message)) ==> input.message == [] && input.selectedEmotion.None?
      ensures input.showEmotions == old(input.showEmotions)
    {
      var sent := input.HandleSend();
      if sent.Some? {
        SendMessage(sent.value.text, sent.value.emotion, now, adjDraw, nounDraw, numDraw);
      }
    }

    /**
     * `handleCreateRoom`: a fresh code from six alphabet draws, a temporary
     * room for it after the existing ones, which becomes current with an
     * empty message list. The code is not checked against existing rooms.
     */
    method CreateRoom(draws: seq<nat>) returns (id: string)
      requires |draws| == RoomIdLength && ValidDraws(draws)
      modifies this
      ensures id == RoomIdFrom(draws) && IsRoomId(id)
      ensures rooms == old(rooms) + [TemporaryRoom(id)]
      ensures currentRoom == id && messages == [] && users == old(users)
      ensures old(Valid()) ==> Valid()
    {
      id := GenerateRoomId(draws);
      if Valid() {
        RoomEditsKeepWellFormed(rooms, id, "Room", id);
      }
      rooms := rooms + [TemporaryRoom(id)];
      currentRoom := id;
      messages := [];
    }

    /** `handleRoomSelect`: the room becomes current, whether or not the list holds it. */
    method SelectRoom(roomId: string)
      modifies this
      ensures currentRoom == roomId
      ensures rooms == old(rooms) && messages == old(messages) && users == old(users)
    {
      currentRoom := roomId;
    }

    /**
     * `handleEndRoom`: every room with the id leaves the list, and the view
     * falls back to the general room exactly when the ended room was current.
     * Nothing protects the general room itself.
     */
    method EndRoom(roomId: string)
      modifies this
      ensures rooms == RoomsWithout(old(rooms), roomId)
      ensures old(currentRoom) == roomId ==> currentRoom == GeneralId
      ensures old(currentRoom) != roomId ==> currentRoom == old(currentRoom)
      ensures messages == old(messages) && users == old(users)
      ensures old(Valid()) ==> Valid()
    {
      if Valid() {
        RoomEditsKeepWellFormed(rooms, roomId, "Room", "");
      }
      rooms := RoomsWithout(rooms, roomId);
      if currentRoom == roomId {
        currentRoom := GeneralId;
      }
    }

    /**
     * `handleEditRoom` with the answer to its prompt (`None` when cancelled):
     * a non-empty answer renames every room with the id; an empty or
     * cancelled one changes nothing.
     */
    method EditRoom(roomId: string, reply: Option<string>)
      modifies this
      ensures reply.Some? && reply.value != [] ==> rooms == RenameRooms(old(rooms), roomId, reply.value)
      ensures reply.None? || reply.value == [] ==> rooms == old(rooms)
      ensures currentRoom == old(currentRoom) && messages == old(messages) && users == old(users)
      ensures old(Valid()) ==> Valid()
    {
      if reply.Some? && reply.value != [] {
        if Valid() {
          RoomEditsKeepWellFormed(rooms, roomId, reply.value, "");
        }
        rooms := RenameRooms(rooms, roomId, reply.value);
      }
    }

    /**
     * `handleMessageEdit`: the prompt is only shown when some message has
     * the id, and a non-empty answer replaces the content of every message
     * with that id; otherwise nothing changes.
     */
    method EditMessage(messageId: string, reply: Option<string>)
      modifies this
      ensures (exists i :: 0 <= i < |old(messages)| && old(messages)[i].id == messageId) && reply.Some? && reply.value != []
              ==> messages == EditContent(old(messages), messageId, reply.value)
      ensures !((exists i :: 0 <= i < |old(messages)| && old(messages)[i].id == messageId) && reply.Some? && reply.value != [])
              ==> messages == old(messages)
      ensures currentRoom == old(currentRoom) && rooms == old(rooms) && users == old(users)
      ensures Valid() == old(Valid())
    {
      var found := Find(messages, HasMessageId(messageId));
      if found.Some? {
        if reply.Some? && reply.value != [] {
          messages := EditContent(messages, messageId, reply.value);
        }
      }
    }

    /** `handleMessageDelete`: every message with the id leaves the list. */
    method DeleteMessage(messageId: string)
      modifies this
      ensures messages == MessagesWithout(old(messages), messageId)
      ensures currentRoom == old(currentRoom) && rooms == old(rooms) && users == old(users)
      ensures Valid() == old(Valid())
    {
      messages := MessagesWithout(messages, messageId);
    }

    /** `handleMessageReact`: every message with the id takes the emotion, replacing any earlier one. */
    method ReactMessage(messageId: string, e: Emotion)
      modifies this
      ensures messages == SetEmotion(old(messages), messageId, e)
      ensures currentRoom == old(currentRoom) && rooms == old(rooms) && users == old(users)
      ensures Valid() == old(Valid())
    {
      messages := SetEmotion(messages, messageId, e);
    }
  }
}
