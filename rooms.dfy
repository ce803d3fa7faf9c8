/**
  The rooms tab: a list of rooms keyed by a caller-chosen id, a room draft with
  an editing flag, and per-room menu settings (at most one per room) edited in
  a modal form.
 */
module Rooms {
  import opened Collections
  import opened Forms

  datatype Room = Room(id: string, name: string, isActive: bool, createdAt: Option<string>)

  datatype Menu = Menu(id: int, name: string, description: string)

  /**
    A setting's `menu_id`: a number when it comes from a menu record, text when
    it comes from the menu select (whose empty option is '').
   */
  datatype MenuIdValue = Num(n: int) | Text(s: string)

  datatype RoomMenuSetting = RoomMenuSetting(
    roomId: string, showMenu: bool, menuId: MenuIdValue,
    menuDescription: string, createdAt: Option<string>)

  function RoomKey(r: Room): string { r.id }
  function SettingKey(s: RoomMenuSetting): string { s.roomId }
  function MenuKey(m: Menu): int { m.id }

  const RequiredAlert := "Room ID and name are required"
  const DuplicateAlert := "A room with this ID already exists"
  const UnknownName := "Unknown"

  /** The room draft after a reset. */
  const EmptyRoom := Room("", "", true, None)
  /** The settings draft before any room's settings are opened. */
  const EmptySetting := RoomMenuSetting("", true, Text(""), "", None)

  /**
    The settings draft opened for `roomId`: the room's saved setting if it has
    one, else a new one showing the first available menu.
   */
  function SettingFormFor(settings: seq<RoomMenuSetting>, menus: seq<Menu>, roomId: string)
    : (s: RoomMenuSetting)
    ensures s.roomId == roomId
    ensures AnyWithKey(settings, SettingKey, roomId) ==>
              s == settings[IndexOf(settings, SettingKey, roomId)]
    ensures !AnyWithKey(settings, SettingKey, roomId) ==>
              && s.showMenu && s.menuDescription == "" && s.createdAt == None
              && s.menuId == (if |menus| > 0 then Num(menus[0].id) else Text(""))
  {
    match Find(settings, SettingKey, roomId)
    case Some(existing) => existing
    case None =>
      RoomMenuSetting(roomId, true, if |menus| > 0 then Num(menus[0].id) else Text(""), "", None)
  }

  /** The name of the first room with id `roomId`, or "Unknown". */
  function RoomName(rooms: seq<Room>, roomId: string): (name: string)
    ensures AnyWithKey(rooms, RoomKey, roomId) ==> name == rooms[IndexOf(rooms, RoomKey, roomId)].name
    ensures !AnyWithKey(rooms, RoomKey, roomId) ==> name == UnknownName
  {
    match Find(rooms, RoomKey, roomId)
    case Some(room) => room.name
    case None => UnknownName
  }

  // ---------------------------------------------------------------------
  // `parseInt(menuId, 10)` and the text a menu select gives for a menu id.
  // ---------------------------------------------------------------------

  predicate IsDigit(c: char) { '0' <= c <= '9' }

  function DigitValue(c: char): nat
    requires IsDigit(c)
  {
    (c as int) - ('0' as int)
  }

  function DigitChar(d: nat): (c: char)
    requires d < 10
    ensures IsDigit(c) && DigitValue(c) == d
  {
    ('0' as int + d) as char
  }

  /** How many characters at the front of `s` are decimal digits. */
  function LeadingDigits(s: string): (n: nat)
    ensures n <= |s|
    ensures forall i :: 0 <= i < n ==> IsDigit(s[i])
    ensures n < |s| ==> !IsDigit(s[n])
  {
    if s == [] || !IsDigit(s[0]) then 0 else 1 + LeadingDigits(s[1..])
  }

  /** The value of a string of decimal digits. */
  function DigitsValue(s: string): nat
    requires forall i :: 0 <= i < |s| ==> IsDigit(s[i])
  {
    if s == [] then 0 else DigitsValue(s[..|s| - 1]) * 10 + DigitValue(s[|s| - 1])
  }

  /** `parseInt(s, 10)` for text without leading blanks: an optional '-', then the longest digit prefix; NaN is None. */
  function ParseDecimal(s: string): (r: Option<int>)
    ensures r.None? <==>
              var body := if |s| > 0 && s[0] == '-' then s[1..] else s;
              body == [] || !IsDigit(body[0])
    ensures r.Some? ==> |s| > 0 && (r.value < 0 ==> s[0] == '-')
  {
    var negative := |s| > 0 && s[0] == '-';
    var body := if negative then s[1..] else s;
    var n := LeadingDigits(body);
    if n == 0 then None
    else
      var v: int := DigitsValue(body[..n]);
      Some(if negative then -v else v)
  }

  /** `parseInt(menuId, 10)`: a number converts to itself. */
  function ParseMenuId(v: MenuIdValue): (r: Option<int>)
    ensures v.Num? ==> r == Some(v.n)
    ensures v.Text? ==> r == ParseDecimal(v.s)
    ensures v == Text("") ==> r.None?
  {
    match v
    case Num(n) => Some(n)
    case Text(s) => ParseDecimal(s)
  }

  /** The decimal text of a natural number, as a select option's value renders it. */
  function NatText(n: nat): (s: string)
    ensures |s| > 0
    ensures forall i :: 0 <= i < |s| ==> IsDigit(s[i])
  {
    if n < 10 then [DigitChar(n)] else NatText(n / 10) + [DigitChar(n % 10)]
  }

  /** `String(n)` for an integer id. */
  function IntText(n: int): (s: string)
    ensures |s| > 0
    ensures s[0] == '-' <==> n < 0
    ensures forall i :: (if n < 0 then 1 else 0) <= i < |s| ==> IsDigit(s[i])
  {
    if n < 0 then "-" + NatText(-n) else NatText(n)
  }

  lemma {:induction false} NatTextValue(n: nat)
    ensures DigitsValue(NatText(n)) == n
  {
    var s := NatText(n);
    if n >= 10 {
      NatTextValue(n / 10);
      assert s[..|s| - 1] == NatText(n / 10);
    }
  }

  /** Parsing the text a menu select produces for an id gives that id back. */
  lemma ParseIntText(n: int)
    ensures ParseDecimal(IntText(n)) == Some(n)
  {
    var m: nat := if n < 0 then -n else n;
    var digits := NatText(m);
    NatTextValue(m);
    var s := IntText(n);
    var body := if n < 0 then s[1..] else s;
    assert body == digits;
    assert LeadingDigits(body) == |digits|;
    assert body[..|digits|] == digits;
  }

  /** The name of the first menu whose id equals `parseInt(menuId, 10)`, or "Unknown". */
  function MenuName(menus: seq<Menu>, menuId: MenuIdValue): (name: string)
    ensures ParseMenuId(menuId).None? ==> name == UnknownName
    ensures ParseMenuId(menuId).Some? ==>
              var n := ParseMenuId(menuId).value;
              name == if AnyWithKey(menus, MenuKey, n)
                      then menus[IndexOf(menus, MenuKey, n)].name else UnknownName
  {
    match ParseMenuId(menuId)
    case None => UnknownName
    case Some(n) =>
      match Find(menus, MenuKey, n)
      case Some(menu) => menu.name
      case None => UnknownName
  }

  /** A menu id picked in the select names the same menu as the number itself. */
  lemma MenuNameOfSelected(menus: seq<Menu>, id: int)
    ensures MenuName(menus, Text(IntText(id))) == MenuName(menus, Num(id))
  {
    ParseIntText(id);
  }

  /**
    The tab's state. `Valid` is what every handler keeps: room ids are
    distinct and there is at most one setting per room. Whether every setting
    belongs to an existing room is stated separately, because deleting the
    room whose settings form is open breaks it.
   */
  class RoomsTab {
    var rooms: seq<Room>
    var currentRoom: Room
    var isEditingRoom: bool
    var availableMenus: seq<Menu>
    var roomMenuSettings: seq<RoomMenuSetting>
    var currentRoomMenuSetting: RoomMenuSetting
    var showRoomMenuSettingsForm: bool

    ghost predicate Valid()
      reads this
    {
      && DistinctKeys(rooms, RoomKey)
      && DistinctKeys(roomMenuSettings, SettingKey)
    }

    /** Every saved setting belongs to a listed room. */
    ghost predicate SavedSettingsBelongToRooms()
      reads this
    {
      forall i :: 0 <= i < |roomMenuSettings| ==> AnyWithKey(rooms, RoomKey, roomMenuSettings[i].roomId)
    }

    /** The settings form, when open, is for a listed room. */
    ghost predicate OpenSettingBelongsToRoom()
      reads this
    {
      showRoomMenuSettingsForm ==> AnyWithKey(rooms, RoomKey, currentRoomMenuSetting.roomId)
    }

    ghost predicate SettingsBelongToRooms()
      reads this
    {
      SavedSettingsBelongToRooms() && OpenSettingBelongsToRoom()
    }

    constructor ()
      ensures Valid() && SettingsBelongToRooms()
      ensures rooms == [] && availableMenus == [] && roomMenuSettings == []
      ensures currentRoom == EmptyRoom && !isEditingRoom
      ensures currentRoomMenuSetting == EmptySetting && !showRoomMenuSettingsForm
    {
      rooms := [];
      currentRoom := EmptyRoom;
      isEditingRoom := false;
      availableMenus := [];
      roomMenuSettings := [];
      currentRoomMenuSetting := EmptySetting;
      showRoomMenuSettingsForm := false;
    }

    /** Clear the room draft and leave edit mode (also the Cancel button). */
    method ResetRoomForm()
      requires Valid()
      modifies this
      ensures Valid()
      ensures currentRoom == EmptyRoom && !isEditingRoom
      ensures rooms == old(rooms) && availableMenus == old(availableMenus)
      ensures roomMenuSettings == old(roomMenuSettings)
      ensures currentRoomMenuSetting == old(currentRoomMenuSetting)
      ensures showRoomMenuSettingsForm == old(showRoomMenuSettingsForm)
    {
      currentRoom := EmptyRoom;
      isEditingRoom := false;
    }

    /**
      Submit the room form: reject a missing id or name; in edit mode replace
      the room with the draft's id; otherwise reject a taken id or append the
      draft stamped with `now`. A saved submit resets the form.
     */
    method HandleRoomSubmit(now: string) returns (outcome: Outcome)
      requires Valid()
      modifies this
      ensures Valid()
      ensures old(SettingsBelongToRooms()) ==> SettingsBelongToRooms()
      ensures outcome == Saved <==>
                old(currentRoom.id != "" && currentRoom.name != ""
                    && (isEditingRoom || !AnyWithKey(rooms, RoomKey, currentRoom.id)))
      ensures old(currentRoom.id == "" || currentRoom.name == "") ==> outcome == Rejected(RequiredAlert)
      ensures old(currentRoom.id != "" && currentRoom.name != "" && !isEditingRoom) ==>
                old(AnyWithKey(rooms, RoomKey, currentRoom.id)) ==> outcome == Rejected(DuplicateAlert)
      ensures outcome.Rejected? ==>
                rooms == old(rooms) && currentRoom == old(currentRoom) && isEditingRoom == old(isEditingRoom)
      ensures outcome == Saved ==> currentRoom == EmptyRoom && !isEditingRoom
      ensures outcome == Saved && old(isEditingRoom) ==>
                rooms == ReplaceByKey(old(rooms), RoomKey, old(currentRoom.id), old(currentRoom))
      ensures outcome == Saved && !old(isEditingRoom) ==>
                rooms == old(rooms) + [old(currentRoom).(createdAt := Some(now))]
      ensures availableMenus == old(availableMenus) && roomMenuSettings == old(roomMenuSettings)
      ensures currentRoomMenuSetting == old(currentRoomMenuSetting)
      ensures showRoomMenuSettingsForm == old(showRoomMenuSettingsForm)
    {
      if currentRoom.id == "" || currentRoom.name == "" {
        outcome := Rejected(RequiredAlert);
        return;
      }
      if isEditingRoom {
        ReplaceKeepsKeys(rooms, RoomKey, currentRoom.id, currentRoom);
        rooms := ReplaceByKey(rooms, RoomKey, currentRoom.id, currentRoom);
      } else {
        if AnyWithKey(rooms, RoomKey, currentRoom.id) {
          outcome := Rejected(DuplicateAlert);
          return;
        }
        var newRoom := currentRoom.(createdAt := Some(now));
        AppendFreshKeepsDistinct(rooms, RoomKey, newRoom);
        forall k ensures AnyWithKey(rooms, RoomKey, k) ==> AnyWithKey(rooms + [newRoom], RoomKey, k) {
          AppendKeepsKeys(rooms, RoomKey, newRoom, k);
        }
        rooms := rooms + [newRoom];
      }
      ResetRoomForm();
      outcome := Saved;
    }

    /** Load `room` into the draft and enter edit mode (the id field is then disabled). */
    method EditRoom(room: Room)
      requires Valid()
      modifies this
      ensures Valid()
      ensures isEditingRoom && currentRoom == room
      ensures rooms == old(rooms) && availableMenus == old(availableMenus)
      ensures roomMenuSettings == old(roomMenuSettings)
      ensures currentRoomMenuSetting == old(currentRoomMenuSetting)
      ensures showRoomMenuSettingsForm == old(showRoomMenuSettingsForm)
    {
      isEditingRoom := true;
      currentRoom := room;
    }

    /**
      Delete, once confirmed, every room with id `id` and every menu setting of
      that room. The settings form is left as it was: the row's Delete button
      stays reachable by keyboard under the form's overlay, and when the form
      is open for the deleted room it is then a form for a room that no longer
      exists.
     */
    method DeleteRoom(id: string, confirmed: bool)
      requires Valid()
      modifies this
      ensures Valid()
      ensures confirmed ==> rooms == RemoveByKey(old(rooms), RoomKey, id)
      ensures confirmed ==> roomMenuSettings == RemoveByKey(old(roomMenuSettings), SettingKey, id)
      ensures !confirmed ==> rooms == old(rooms) && roomMenuSettings == old(roomMenuSettings)
      ensures currentRoom == old(currentRoom) && isEditingRoom == old(isEditingRoom)
      ensures availableMenus == old(availableMenus)
      ensures currentRoomMenuSetting == old(currentRoomMenuSetting)
      ensures showRoomMenuSettingsForm == old(showRoomMenuSettingsForm)
      ensures old(SavedSettingsBelongToRooms()) ==> SavedSettingsBelongToRooms()
      ensures old(OpenSettingBelongsToRoom()) && (!confirmed || old(currentRoomMenuSetting.roomId) != id) ==>
                OpenSettingBelongsToRoom()
      ensures confirmed && showRoomMenuSettingsForm && currentRoomMenuSetting.roomId == id ==>
                !OpenSettingBelongsToRoom()
    {
      if confirmed {
        RemoveRoomAndItsSettings(id);
      }
    }

    /**
      The delete as evidently intended: as `DeleteRoom`, and a settings form
      open for the deleted room is closed with it.
     */
    method DeleteRoomClosingItsSettings(id: string, confirmed: bool)
      requires Valid()
      modifies this
      ensures Valid()
      ensures old(SettingsBelongToRooms()) ==> SettingsBelongToRooms()
      ensures confirmed ==> rooms == RemoveByKey(old(rooms), RoomKey, id)
      ensures confirmed ==> roomMenuSettings == RemoveByKey(old(roomMenuSettings), SettingKey, id)
      ensures !confirmed ==> rooms == old(rooms) && roomMenuSettings == old(roomMenuSettings)
      ensures currentRoom == old(currentRoom) && isEditingRoom == old(isEditingRoom)
      ensures availableMenus == old(availableMenus)
      ensures currentRoomMenuSetting == old(currentRoomMenuSetting)
      ensures showRoomMenuSettingsForm ==
                (old(showRoomMenuSettingsForm) && !(confirmed && old(currentRoomMenuSetting.roomId) == id))
    {
      if confirmed {
        RemoveRoomAndItsSettings(id);
        if currentRoomMenuSetting.roomId == id {
          showRoomMenuSettingsForm := false;
        }
      }
    }

    /** The two filters both deletes share. */
    method RemoveRoomAndItsSettings(id: string)
      requires Valid()
      modifies this
      ensures Valid()
      ensures rooms == RemoveByKey(old(rooms), RoomKey, id)
      ensures roomMenuSettings == RemoveByKey(old(roomMenuSettings), SettingKey, id)
      ensures currentRoom == old(currentRoom) && isEditingRoom == old(isEditingRoom)
      ensures availableMenus == old(availableMenus)
      ensures currentRoomMenuSetting == old(currentRoomMenuSetting)
      ensures showRoomMenuSettingsForm == old(showRoomMenuSettingsForm)
      ensures old(SavedSettingsBelongToRooms()) ==> SavedSettingsBelongToRooms()
      ensures forall k :: k != id ==> (old(AnyWithKey(rooms, RoomKey, k)) ==> AnyWithKey(rooms, RoomKey, k))
      ensures !AnyWithKey(rooms, RoomKey, id)
    {
      var keptRooms := RemoveByKey(rooms, RoomKey, id);
      var keptSettings := RemoveByKey(roomMenuSettings, SettingKey, id);
      RemoveKeepsDistinct(rooms, RoomKey, id);
      RemoveKeepsDistinct(roomMenuSettings, SettingKey, id);
      RemoveDropsKey(rooms, RoomKey, id);
      forall k | k != id
        ensures AnyWithKey(rooms, RoomKey, k) ==> AnyWithKey(keptRooms, RoomKey, k)
      {
        RemoveKeepsOtherKeys(rooms, RoomKey, id, k);
      }
      if SavedSettingsBelongToRooms() {
        forall i | 0 <= i < |keptSettings|
          ensures AnyWithKey(keptRooms, RoomKey, keptSettings[i].roomId)
        {
          var j :| 0 <= j < |roomMenuSettings| && roomMenuSettings[j] == keptSettings[i];
        }
      }
      rooms := keptRooms;
      roomMenuSettings := keptSettings;
    }

    /** Open the settings form for `roomId` (the room of the row whose button was clicked). */
    method ManageRoomMenuSettings(roomId: string)
      requires Valid()
      modifies this
      ensures Valid()
      ensures currentRoomMenuSetting == SettingFormFor(roomMenuSettings, availableMenus, roomId)
      ensures showRoomMenuSettingsForm
      ensures OpenSettingBelongsToRoom() <==> AnyWithKey(rooms, RoomKey, roomId)
      ensures SavedSettingsBelongToRooms() == old(SavedSettingsBelongToRooms())
      ensures rooms == old(rooms) && availableMenus == old(availableMenus)
      ensures roomMenuSettings == old(roomMenuSettings)
      ensures currentRoom == old(currentRoom) && isEditingRoom == old(isEditingRoom)
    {
      currentRoomMenuSetting := SettingFormFor(roomMenuSettings, availableMenus, roomId);
      showRoomMenuSettingsForm := true;
    }

    /**
      Save the open settings form, stamped with `now`: overwrite the room's
      existing setting at its index, else append; then close the form. A form
      for a room that is no longer listed is saved all the same.
     */
    method HandleRoomMenuSettingSubmit(now: string)
      requires Valid()
      requires showRoomMenuSettingsForm
      modifies this
      ensures Valid()
      ensures roomMenuSettings ==
                UpsertByKey(old(roomMenuSettings), SettingKey, old(currentRoomMenuSetting).(createdAt := Some(now)))
      ensures !showRoomMenuSettingsForm
      ensures old(SettingsBelongToRooms()) ==> SettingsBelongToRooms()
      ensures !old(OpenSettingBelongsToRoom()) ==> !SavedSettingsBelongToRooms()
      ensures rooms == old(rooms) && availableMenus == old(availableMenus)
      ensures currentRoom == old(currentRoom) && isEditingRoom == old(isEditingRoom)
      ensures currentRoomMenuSetting == old(currentRoomMenuSetting)
    {
      var saved := currentRoomMenuSetting.(createdAt := Some(now));
      var existingSettingIndex := IndexOf(roomMenuSettings, SettingKey, currentRoomMenuSetting.roomId);
      var updated := roomMenuSettings;
      if existingSettingIndex >= 0 {
        updated := updated[existingSettingIndex := saved];
      } else {
        updated := updated + [saved];
      }
      UpsertKeepsDistinct(roomMenuSettings, SettingKey, saved);
      var savedAt := if existingSettingIndex >= 0 then existingSettingIndex else |roomMenuSettings|;
      assert updated[savedAt] == saved;
      if SettingsBelongToRooms() {
        forall i | 0 <= i < |updated| ensures AnyWithKey(rooms, RoomKey, updated[i].roomId) {
          if i >= |roomMenuSettings| || i == existingSettingIndex {
            assert updated[i] == saved;
          }
        }
      }
      roomMenuSettings := updated;
      showRoomMenuSettingsForm := false;
    }

    /** Close the settings form without saving. */
    method CancelRoomMenuSettingForm()
      requires Valid()
      modifies this
      ensures Valid()
      ensures SettingsBelongToRooms() == old(SavedSettingsBelongToRooms())
      ensures !showRoomMenuSettingsForm
      ensures rooms == old(rooms) && availableMenus == old(availableMenus)
      ensures roomMenuSettings == old(roomMenuSettings)
      ensures currentRoom == old(currentRoom) && isEditingRoom == old(isEditingRoom)
      ensures currentRoomMenuSetting == old(currentRoomMenuSetting)
    {
      showRoomMenuSettingsForm := false;
    }
  }

  /**
    A client of the specifications above: a room is added, its menu settings
    are saved twice, and it is then deleted together with its setting.
   */
  method TriviaNightScenario() {
    var tab := new RoomsTab();
    tab.currentRoom := Room("trivia1", "Trivia Night", true, None);
    var added := tab.HandleRoomSubmit("t0");
    assert added == Saved;
    assert tab.rooms == [Room("trivia1", "Trivia Night", true, Some("t0"))];
    assert RoomKey(tab.rooms[0]) == "trivia1";

    tab.currentRoom := Room("trivia1", "Duplicate", true, None);
    var again := tab.HandleRoomSubmit("t1");
    assert again == Rejected(DuplicateAlert);

    tab.ManageRoomMenuSettings("trivia1");
    tab.HandleRoomMenuSettingSubmit("t2");
    assert |tab.roomMenuSettings| == 1;
    tab.ManageRoomMenuSettings("trivia1");
    assert tab.currentRoomMenuSetting.roomId == "trivia1";
    assert SettingKey(tab.roomMenuSettings[0]) == "trivia1";
    tab.HandleRoomMenuSettingSubmit("t3");
    assert |tab.roomMenuSettings| == 1;

    tab.ManageRoomMenuSettings("trivia1");
    tab.DeleteRoomClosingItsSettings("trivia1", true);
    assert |tab.rooms| <= 1 && |tab.roomMenuSettings| <= 1;
    assert tab.rooms == [] && tab.roomMenuSettings == [];
    assert !tab.showRoomMenuSettingsForm;
    assert tab.SettingsBelongToRooms();
  }

  /**
    The delete as written, reached while the settings form of the same room is
    open: saving the form afterwards stores a setting for a room that no longer
    exists.
   */
  method OrphanSettingScenario() {
    var tab := new RoomsTab();
    tab.currentRoom := Room("quiz", "Quiz Night", true, None);
    var added := tab.HandleRoomSubmit("t0");
    assert added == Saved;
    assert tab.SettingsBelongToRooms();

    tab.ManageRoomMenuSettings("quiz");
    tab.DeleteRoom("quiz", true);
    assert tab.showRoomMenuSettingsForm && tab.rooms == [];

    tab.HandleRoomMenuSettingSubmit("t1");
    assert tab.roomMenuSettings == [tab.currentRoomMenuSetting.(createdAt := Some("t1"))];
    assert tab.roomMenuSettings[0].roomId == "quiz";
    assert !AnyWithKey(tab.rooms, RoomKey, "quiz");
    assert !tab.SettingsBelongToRooms();
  }
}
