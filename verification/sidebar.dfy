/**
 * The chat sidebar (components/chat/Sidebar.tsx): the current-room panel
 * and its options menu, the room list, the online count, and the footer
 * naming whoever is using the page. What it shows is computed from the
 * page's state; its own state is the options menu, the user-list switch and
 * the guest name drawn when it mounts.
 */
module Sidebar {
  import opened Wrappers
  import opened Text
  import opened Lists
  import opened Utils
  import opened Session
  import opened AuthContext

  function IsOnlineUser(): User -> bool {
    (u: User) => u.status == Online
  }

  /** `users.filter(u => u.status === 'online').length`. */
  function OnlineCount(users: seq<User>): (n: nat)
    ensures n <= |users|
  {
    |Filter(users, IsOnlineUser())|
  }

  /** The count is zero exactly when nobody is online, and the whole list exactly when everybody is. */
  lemma {:induction false} OnlineCountExtremes(users: seq<User>)
    ensures OnlineCount(users) == 0 <==> forall i :: 0 <= i < |users| ==> users[i].status != Online
    ensures OnlineCount(users) == |users| <==> forall i :: 0 <= i < |users| ==> users[i].status == Online
  {
    if users != [] {
      OnlineCountExtremes(users[1..]);
      assert forall i :: 1 <= i < |users| ==> users[i] == users[1..][i - 1];
    }
  }

  /** Counting a joined list counts each part. */
  lemma OnlineCountAppend(a: seq<User>, b: seq<User>)
    ensures OnlineCount(a + b) == OnlineCount(a) + OnlineCount(b)
  {
    FilterAppend(a, b, IsOnlineUser());
  }

  /** Three of the five sample users are online. */
  lemma SeedOnlineCount()
    ensures OnlineCount(SeedUsers) == 3
  {
    var s := SeedUsers;
    assert s == [s[0], s[1]] + ([s[2]] + [s[3], s[4]]);
    OnlineCountAppend([s[0], s[1]], [s[2]] + [s[3], s[4]]);
    OnlineCountAppend([s[2]], [s[3], s[4]]);
    OnlineCountAppend([s[0]], [s[1]]);
    OnlineCountAppend([s[3]], [s[4]]);
  }

  function RoomHasId(id: string): Room -> bool {
    (r: Room) => r.id == id
  }

  /**
   * `rooms.find(room => room.id === currentRoom)`: the first room with the
   * current id; the panel is drawn exactly when there is one.
   */
  function CurrentRoomData(rooms: seq<Room>, currentRoom: string): (data: Option<Room>)
    ensures data.None? <==> forall i :: 0 <= i < |rooms| ==> rooms[i].id != currentRoom
    ensures data.Some? ==> data.value in rooms && data.value.id == currentRoom
  {
    Find(rooms, RoomHasId(currentRoom))
  }

  /** The entries of the room options menu. */
  datatype RoomOption = EditRoomOption | EndRoomOption

  /**
   * The menu for the current room: Edit when the page passed an edit
   * handler, End when it passed an end handler and the room is temporary.
   */
  function OfferedOptions(data: Room, canEdit: bool, canEnd: bool): (options: seq<RoomOption>)
    ensures EditRoomOption in options <==> canEdit
    ensures EndRoomOption in options <==> canEnd && data.kind == Temporary
    ensures |options| <= 2
  {
    (if canEdit then [EditRoomOption] else []) + (if canEnd && data.kind == Temporary then [EndRoomOption] else [])
  }

  /**
   * In a well-formed room list End is only ever offered for a room with a
   * six-character code as id, so never for the general room.
   */
  lemma GeneralNeverEndable(rooms: seq<Room>, currentRoom: string, canEdit: bool, canEnd: bool)
    requires RoomsWellFormed(rooms)
    ensures CurrentRoomData(rooms, currentRoom).Some? && EndRoomOption in OfferedOptions(CurrentRoomData(rooms, currentRoom).value, canEdit, canEnd)
            ==> IsRoomId(currentRoom) && currentRoom != GeneralId
  {
    var data := CurrentRoomData(rooms, currentRoom);
    if data.Some? && data.value.kind == Temporary {
      var i :| 0 <= i < |rooms| && rooms[i] == data.value;
      assert RoomWellFormed(rooms[i]);
      assert |currentRoom| != |GeneralId|;
    }
  }

  /** One button of the room list. */
  datatype RoomRow = RoomRow(name: string, highlighted: bool, tempBadge: bool, activeIcon: bool, participants: int)

  function RowFor(currentRoom: string): Room -> RoomRow {
    (r: Room) => RoomRow(r.name, r.id == currentRoom, r.kind == Temporary, r.isActive, r.participants)
  }

  /**
   * `rooms.map(room => <button ...>)`: one row per room in list order; a
   * row is highlighted exactly when its room is current, and carries the
   * TEMP badge exactly when its room is temporary; its signal icon shows
   * whether the room is active.
   */
  function RoomRows(rooms: seq<Room>, currentRoom: string): (rows: seq<RoomRow>)
    ensures |rows| == |rooms|
    ensures forall i :: 0 <= i < |rows| ==> rows[i].name == rooms[i].name && rows[i].participants == rooms[i].participants
    ensures forall i :: 0 <= i < |rows| ==> (rows[i].highlighted <==> rooms[i].id == currentRoom)
    ensures forall i :: 0 <= i < |rows| ==> (rows[i].tempBadge <==> rooms[i].kind == Temporary)
    ensures forall i :: 0 <= i < |rows| ==> rows[i].activeIcon == rooms[i].isActive
  {
    Map(rooms, RowFor(currentRoom))
  }

  /** In a well-formed list only the general room's row goes without the TEMP badge. */
  lemma TempBadgeIffNotGeneral(rooms: seq<Room>, currentRoom: string)
    requires RoomsWellFormed(rooms)
    ensures forall i :: 0 <= i < |rooms| ==> (RoomRows(rooms, currentRoom)[i].tempBadge <==> rooms[i].id != GeneralId)
  {
    assert forall i :: 0 <= i < |rooms| ==> RoomWellFormed(rooms[i]);
  }

  /**
   * The footer name `user?.name || guestName || 'Guest'`: the signed-in
   * name when it is non-empty, else the guest name when it is non-empty,
   * else "Guest"; never empty.
   */
  function FooterName(user: Option<AuthUser>, guestName: string): (shown: string)
    ensures shown != []
    ensures user.Some? && user.value.name != [] ==> shown == user.value.name
    ensures !(user.Some? && user.value.name != []) && guestName != [] ==> shown == guestName
    ensures !(user.Some? && user.value.name != []) && guestName == [] ==> shown == "Guest"
  {
    if user.Some? && user.value.name != [] then user.value.name
    else if guestName != [] then guestName
    else "Guest"
  }

  /**
   * The avatar letter `user?.name?.charAt(0).toUpperCase() ||
   * guestName?.charAt(0).toUpperCase() || 'G'`: one character.
   */
  function FooterInitial(user: Option<AuthUser>, guestName: string): (letter: string)
    ensures |letter| == 1
  {
    var fromUser := if user.Some? then Initial(user.value.name) else [];
    if fromUser != [] then fromUser
    else if Initial(guestName) != [] then Initial(guestName)
    else "G"
  }

  /** The avatar letter is always the upper-cased first letter of the name beside it. */
  lemma FooterInitialMatchesName(user: Option<AuthUser>, guestName: string)
    ensures FooterInitial(user, guestName) == Initial(FooterName(user, guestName))
  {
  }

  class SidebarState {
    var showUserList: bool
    var showRoomOptions: Option<string>
    var guestName: string

    /** The user list open, no menu, and no guest name until the mount effect runs. */
    constructor ()
      ensures showUserList && showRoomOptions.None? && guestName == []
    {
      showUserList := true;
      showRoomOptions := None;
      guestName := [];
    }

    /** The mount effect: a guest name is drawn once. */
    method MountGuestName(adjDraw: nat, nounDraw: nat, numDraw: nat)
      requires adjDraw < |Adjectives| && nounDraw < |Nouns| && numDraw < NumberRange
      modifies this
      ensures guestName == GuestName(adjDraw, nounDraw, numDraw)
      ensures showUserList == old(showUserList) && showRoomOptions == old(showRoomOptions)
    {
      guestName := GuestName(adjDraw, nounDraw, numDraw);
    }

    /** The users button shows or hides the user list. */
    method ToggleUserList()
      modifies this
      ensures showUserList == !old(showUserList)
      ensures showRoomOptions == old(showRoomOptions) && guestName == old(guestName)
    {
      showUserList := !showUserList;
    }

    /** The options button: closes the menu when it is open for the current room, opens it for that room otherwise. */
    method ToggleRoomOptions(currentRoom: string)
      modifies this
      ensures old(showRoomOptions) == Some(currentRoom) ==> showRoomOptions.None?
      ensures old(showRoomOptions) != Some(currentRoom) ==> showRoomOptions == Some(currentRoom)
      ensures showUserList == old(showUserList) && guestName == old(guestName)
    {
      showRoomOptions := if showRoomOptions == Some(currentRoom) then None else Some(currentRoom);
    }

    /** Edit in the menu: the page's rename handler runs for the current room, then the menu closes. */
    method ChooseEditRoom(session: ChatSession, reply: Option<string>)
      requires showRoomOptions == Some(session.currentRoom)
      modifies this, session
      ensures reply.Some? && reply.value != [] ==> session.rooms == RenameRooms(old(session.rooms), old(session.currentRoom), reply.value)
      ensures reply.None? || reply.value == [] ==> session.rooms == old(session.rooms)
      ensures session.currentRoom == old(session.currentRoom) && session.messages == old(session.messages)
      ensures session.users == old(session.users)
      ensures old(session.Valid()) ==> session.Valid()
      ensures showRoomOptions.None? && showUserList == old(showUserList) && guestName == old(guestName)
    {
      session.EditRoom(session.currentRoom, reply);
      showRoomOptions := None;
    }

    /**
     * End in the menu, which is only there for a temporary current room: the
     * room is ended, which in a well-formed session is never the general
     * room, the view returns to the general room, and the menu closes.
     */
    method ChooseEndRoom(session: ChatSession)
      requires showRoomOptions == Some(session.currentRoom)
      requires CurrentRoomData(session.rooms, session.currentRoom).Some?
      requires CurrentRoomData(session.rooms, session.currentRoom).value.kind == Temporary
      requires session.Valid()
      modifies this, session
      ensures old(session.currentRoom) != GeneralId
      ensures session.rooms == RoomsWithout(old(session.rooms), old(session.currentRoom))
      ensures session.currentRoom == GeneralId && session.Valid()
      ensures session.messages == old(session.messages) && session.users == old(session.users)
      ensures showRoomOptions.None? && showUserList == old(showUserList) && guestName == old(guestName)
    {
      GeneralNeverEndable(session.rooms, session.currentRoom, true, true);
      session.EndRoom(session.currentRoom);
      showRoomOptions := None;
    }

    /** A room row's click: that room becomes current and its row is the highlighted one. */
    method ClickRoomRow(session: ChatSession, i: nat)
      requires i < |session.rooms|
      modifies session
      ensures session.rooms == old(session.rooms) && session.messages == old(session.messages)
      ensures session.users == old(session.users)
      ensures session.currentRoom == old(session.rooms)[i].id
      ensures RoomRows(session.rooms, session.currentRoom)[i].highlighted
    {
      session.SelectRoom(session.rooms[i].id);
    }
  }
}
