# Pub-quiz dashboard tabs: id-keyed collections in Dafny

This project models the client-side collection management of the pub-quiz
administration dashboard: the rooms tab, the menu tab and the questions tab.
Each tab keeps a list of records keyed by id, a draft record shown in the
form, and an "editing" flag. Its handlers validate the draft, add a record
(checking a caller-chosen id for uniqueness, or allocating the largest id
plus one), replace a record by id on edit, delete by id after a
confirmation, and reset the form. The rooms tab also keeps per-room menu
settings: deleting a room deletes its settings, and saving a setting
overwrites the room's existing setting in place or appends a new one.

Layout:

- `collections.dfy` (module `Collections`): the list operations the handlers
  use (`some`, `findIndex`, `find`, the replacing `map`, the deleting
  `filter`, the index-assign-or-append save, the `max + 1` id allocator),
  generic over the record type and a key function. It also holds the lemmas
  about keys, order and uniqueness.
- `forms.dfy` (module `Forms`): the outcome of a submit. It is either saved,
  or rejected with the alert text.
- `rooms.dfy` (module `Rooms`): the `RoomsTab` class with the rooms tab's
  state fields and handlers, and the name lookups `getRoomName` and
  `getMenuName`. It includes `parseInt(menuId, 10)` on the text a menu
  select produces.
- `menu.dfy` (module `Menu`): the `MenuTab` class.
- `questions.dfy` (module `Questions`): the `QuestionsTab` class.

Each tab is a class. Its fields are the component's state variables, and each
handler is a method whose `ensures` gives the new value of every field.
`Valid()` is what every handler keeps. For all three tabs, ids are pairwise
distinct. For the rooms tab, there is also at most one menu setting per room.
Whether every setting, saved or open in the form, belongs to a listed room
(`SettingsBelongToRooms`) is stated per handler. `ManageRoomMenuSettings`
keeps it when it opens the form for a listed room, which is what every row's
"Menu Settings" button does: it passes its own `room.id`
(src/components/RoomsTab.js:340). `DeleteRoom` breaks it when it deletes the
room whose settings form is open (see "## Findings"). Every other handler
keeps it.
The new-list computations are functions in `Collections`, and the handler
contracts are written in terms of them.

Modelling choices:

- `window.confirm` is a `confirmed: bool` parameter. `alert(msg)` is the
  result `Rejected(msg)`. `new Date().toISOString()` is a `now: string`
  parameter.
- The menu and question drafts start with a null id, and the draft has the
  same record shape as the stored rows. So their `id` is an `Option<int>`.
  The id allocator reads a null id as 0, as `Math.max` coerces `null`.
- A menu item's price is `Blank` (the `''` that `parseFloat(value) || ''`
  leaves) or an `Amount` in cents. `!price` holds for `Blank` and for
  `Amount(0)`.
- A room setting's `menu_id` is a number (`Num`) when it comes from a menu
  record, and text (`Text`) when it comes from the select, whose empty
  option is `''`.
- The one precondition that comes from the rendering:
  `HandleRoomMenuSettingSubmit` needs the settings form to be shown, because
  the form is only rendered then (src/components/RoomsTab.js:368-375).
- The settings overlay (src/components/RoomsTab.js:369) covers the table
  visually but does not trap keyboard focus. So the table's buttons, and
  `DeleteRoom` among them, stay reachable while the form is open, and the
  model does not require the form to be closed.

## Model

| member | source | states |
|---|---|---|
| `Collections.AnyWithKey` | src/components/RoomsTab.js:97 | `some` over ids is true exactly when some index holds the key |
| `Collections.IndexOf` | src/components/RoomsTab.js:157-159 | `findIndex` gives -1 exactly when no record has the key; otherwise it gives the first index holding it |
| `Collections.Find` | src/components/RoomsTab.js:137 | `find` gives nothing exactly when no record has the key; otherwise it gives a record with the key at an index before which none has it |
| `Collections.ReplaceByKey` | src/components/MenuTab.js:48-52 | the edit `map` keeps the length; every record with the key becomes the draft and every other record is unchanged |
| `Collections.RemoveByKey` | src/components/RoomsTab.js:120-122 | the delete `filter` keeps no record with the key, and only records of the input; what it keeps is stated by `RemoveKeepsOthers` and `RemoveKeepsOrder` |
| `Collections.UpsertByKey` | src/components/RoomsTab.js:157-176 | the settings save keeps the length if the key is present and grows it by one otherwise; the first slot with the key is overwritten and every other slot is unchanged; an append puts the setting last |
| `Collections.MaxKey` | src/components/MenuTab.js:57 | `Math.max` of the ids bounds every id and is one of them |
| `Collections.NextId` | src/components/QuestionsTab.js:54 | the allocated id exceeds every existing id; it is 1 for an empty list and otherwise one more than an existing id |
| `Collections.AppendFreshKeepsDistinct` | src/components/RoomsTab.js:96-107 | appending a record whose id is absent keeps ids distinct and leaves the earlier records in place |
| `Collections.AppendKeepsKeys` | src/components/RoomsTab.js:107 | after an append, a key is present exactly when it was present before or is the new record's key |
| `Collections.ReplaceKeepsKeys` | src/components/RoomsTab.js:88-94 | an edit whose draft carries the matched id keeps the key at every index, so distinct ids stay distinct and the set of present keys is unchanged |
| `Collections.ReplaceMissingIsIdentity` | src/components/RoomsTab.js:90-93 | an edit whose id matches no record leaves the list unchanged |
| `Collections.RemoveKeepsOthers` | src/components/MenuTab.js:72 | a delete keeps every record with another key, as many times as it occurred |
| `Collections.RemoveKeepsOrder` | src/components/QuestionsTab.js:69 | the records a delete keeps appear in their original order (a subsequence of the input) |
| `Collections.RemoveMissingIsIdentity` | src/components/QuestionsTab.js:67-71 | a delete whose id matches no record leaves the list unchanged |
| `Collections.RemoveKeepsDistinct` | src/components/MenuTab.js:70-74 | a delete keeps ids pairwise distinct |
| `Collections.RemoveKeepsOtherKeys` | src/components/RoomsTab.js:118-124 | a delete leaves the presence of every other key unchanged (a setting of a remaining room keeps its room) |
| `Collections.RemoveDropsKey` | src/components/RoomsTab.js:120 | after a delete no record holds the deleted key |
| `Collections.UpsertKeepsDistinct` | src/components/RoomsTab.js:153-176 | a save never creates a second setting for a room, and afterwards the room has a setting |
| `Collections.UpsertKeepsOtherKeys` | src/components/RoomsTab.js:161-176 | a save leaves the presence of every other room's setting unchanged |
| `Collections.UpsertOverwrites` | src/components/RoomsTab.js:161-168 | saving twice for the same room equals saving the second setting once |
| `Collections.NextIdIsFresh` | src/components/MenuTab.js:57 | no record already holds the allocated id |
| `Rooms.SettingFormFor` | src/components/RoomsTab.js:135-149 | the opened settings draft is for the requested room; it is the room's saved setting if one exists, else shown, with the first menu's id (or `''`) and an empty description |
| `Rooms.RoomName` | src/components/RoomsTab.js:186-189 | the name of the first room with the id, else "Unknown" |
| `Rooms.MenuName` | src/components/RoomsTab.js:192-195 | "Unknown" when `parseInt` gives NaN; otherwise the name of the first menu with the parsed id, else "Unknown" |
| `Rooms.ParseDecimal` | src/components/RoomsTab.js:193 | `parseInt(s, 10)` is NaN exactly when no digit follows the optional '-'; a negative result comes only from a leading '-' |
| `Rooms.ParseMenuId` | src/components/RoomsTab.js:193 | a numeric `menu_id` parses to itself, a text one as `parseInt` reads it, and the select's empty option `''` to NaN |
| `Rooms.IntText` | src/components/RoomsTab.js:407 | `String(menu.id)` as an option value is non-empty, starts with '-' exactly for a negative id, and is otherwise all digits |
| `Rooms.LeadingDigits` | src/components/RoomsTab.js:193 | `parseInt` reads the longest prefix of decimal digits |
| `Rooms.NatText` | src/components/RoomsTab.js:407 | the decimal text of a menu id used as an option value is non-empty and all digits |
| `Rooms.NatTextValue` | src/components/RoomsTab.js:407 | reading back the digits of a natural number gives the number |
| `Rooms.ParseIntText` | src/components/RoomsTab.js:193 | `parseInt` of an id's decimal text gives the id |
| `Rooms.MenuNameOfSelected` | src/components/RoomsTab.js:193 | a menu picked in the select (a text id) names the same menu as its numeric id |
| `Rooms.RoomsTab.constructor` | src/components/RoomsTab.js:6-25 | initial state: no rooms, menus or settings, an empty draft, not editing, form closed; every setting belongs to a room |
| `Rooms.RoomsTab.ResetRoomForm` | src/components/RoomsTab.js:71-78 | the draft becomes `{id:'', name:'', is_active:true}` and edit mode ends; nothing else changes |
| `Rooms.RoomsTab.HandleRoomSubmit` | src/components/RoomsTab.js:80-111 | settings stay tied to rooms; saved exactly when id and name are non-empty and (editing, or the id is free); a missing field or a taken id gives its alert and changes nothing; an edit replaces by id; an add appends the stamped draft; a save resets the form |
| `Rooms.RoomsTab.EditRoom` | src/components/RoomsTab.js:113-116 | edit mode with the chosen room as the draft |
| `Rooms.RoomsTab.DeleteRoom` | src/components/RoomsTab.js:118-124 | a confirmed delete removes the room's records and its settings and leaves the settings form as it was; ids stay distinct and saved settings stay tied to rooms; an open form stays tied to a room unless it is for the deleted one, and then it is not; an unconfirmed delete changes nothing |
| `Rooms.RoomsTab.DeleteRoomClosingItsSettings` | src/components/RoomsTab.js:118-124 | the corrected delete: as `DeleteRoom`, and it closes a settings form open for the deleted room, so every setting, saved or open, stays tied to a room |
| `Rooms.RoomsTab.RemoveRoomAndItsSettings` | src/components/RoomsTab.js:120-122 | the two filters of a delete: the room and its settings are gone, every other room stays listed, and saved settings stay tied to rooms |
| `Rooms.RoomsTab.ManageRoomMenuSettings` | src/components/RoomsTab.js:135-151 | the settings draft is the room's setting or the default one, and the form opens; the open form belongs to a room exactly when the requested room is listed |
| `Rooms.RoomsTab.HandleRoomMenuSettingSubmit` | src/components/RoomsTab.js:153-179 | the settings list becomes the save of the stamped draft, at most one setting per room is kept, and the form closes; settings stay tied to rooms, except that saving a form for an unlisted room stores a setting with no room |
| `Rooms.RoomsTab.CancelRoomMenuSettingForm` | src/components/RoomsTab.js:181-183 | the form closes and nothing else changes, so settings are tied to rooms exactly when the saved ones are |
| `Menu.NumericId` | src/components/MenuTab.js:57 | `Math.max` reads an item's id as itself, and a null id as 0 |
| `Menu.IsFalsyPrice` | src/components/MenuTab.js:41 | `!price` is false exactly for a non-zero amount, so both `''` and 0 count as missing |
| `Menu.AllocateItemId` | src/components/MenuTab.js:57 | a new item's id is held by no item and exceeds every item id; it is one more than some item's id, or 1 for an empty list |
| `Menu.MenuTab.constructor` | src/components/MenuTab.js:5-17 | initial state: the three starting items, not editing, the empty draft |
| `Menu.MenuTab.ResetForm` | src/components/MenuTab.js:27-36 | the draft becomes `{id:null, category:'Food'}` with empty fields, and edit mode ends |
| `Menu.MenuTab.HandleSubmit` | src/components/MenuTab.js:38-63 | saved exactly when the name is non-empty and the price is not falsy (0 counts as missing); a rejection changes nothing; an edit replaces by id; an add appends under a fresh id; ids stay distinct; a save resets the form |
| `Menu.MenuTab.EditItem` | src/components/MenuTab.js:65-68 | edit mode with the chosen item as the draft |
| `Menu.MenuTab.DeleteItem` | src/components/MenuTab.js:70-74 | a confirmed delete is the `filter` on the id and keeps ids distinct; an unconfirmed one changes nothing |
| `Questions.NumericId` | src/components/QuestionsTab.js:54 | `Math.max` reads a question's id as itself, and a null id as 0 |
| `Questions.IsComplete` | src/components/QuestionsTab.js:38 | a draft is rejected exactly when its text, category or answer is empty |
| `Questions.AllocateQuestionId` | src/components/QuestionsTab.js:54 | a new question's id is held by no question and exceeds every question id; it is one more than some question's id, or 1 for an empty list |
| `Questions.QuestionsTab.constructor` | src/components/QuestionsTab.js:5-17 | initial state: the three starting questions, not editing, the empty draft |
| `Questions.QuestionsTab.ResetForm` | src/components/QuestionsTab.js:24-33 | the draft becomes `{id:null, difficulty:'Easy'}` with empty text, category and answer, and edit mode ends |
| `Questions.QuestionsTab.HandleSubmit` | src/components/QuestionsTab.js:35-60 | saved exactly when text, category and answer are non-empty (difficulty is not checked); a rejection changes nothing; an edit replaces by id; an add appends under a fresh id; a save resets the form |
| `Questions.QuestionsTab.EditQuestion` | src/components/QuestionsTab.js:62-65 | edit mode with the chosen question as the draft |
| `Questions.QuestionsTab.DeleteQuestion` | src/components/QuestionsTab.js:67-71 | a confirmed delete is the `filter` on the id and keeps ids distinct; an unconfirmed one changes nothing |

## Findings

| source | as written | input that shows it | evidently intended | confidence | as-written member | corrected member |
|---|---|---|---|---|---|---|
| src/components/RoomsTab.js:118-124 | `deleteRoom` removes the room and its saved settings but leaves the settings form open, even when the form is for that room; a later "Save Settings" (lines 153-179) appends a setting for a room that no longer exists | add room "quiz"; click its "Menu Settings"; Tab under the overlay to its "Delete" and confirm; press "Save Settings": the settings list is one setting with room id "quiz" and the room list is empty (`Rooms.OrphanSettingScenario`) | deleting a room also closes a settings form open for it, so that no setting outlives its room (the cascade at line 121) | medium, not executed | `Rooms.RoomsTab.DeleteRoom` | `Rooms.RoomsTab.DeleteRoomClosingItsSettings` |

## Left out

- Features that are not in these three tabs: server-assigned ids, refused deletes of menus or categories that still have children, item-option cascades, and relabelling of multiple-choice options. In these tabs every id is allocated or checked on the client and no server call is made. The model follows that code.
- The HTTP service modules (`src/services/api.js`, `questionsApi.js`, `roomsApi.js`): network I/O with no client-side list logic.
- JSX rendering, styling, and the input-change handlers (`handleRoomInputChange`, `handleRoomMenuSettingInputChange`, `handleInputChange`). These copy one DOM field into the draft. In the model the draft is a public field that a caller assigns. That the room id cannot change while editing (src/components/RoomsTab.js:219) is not needed for the invariants: an edit keeps every key whatever the draft's id is.
- The mock-data load in the rooms tab's `useEffect` (src/components/RoomsTab.js:28-60). The model starts from the `useState` initial values.
- `Dashboard.js` tab switching and `App.js` login: trivial UI state.
- Floating point: prices are whole cents, and `toFixed` display is not modelled.
- Collections.NextId, Menu.AllocateItemId, Questions.AllocateQuestionId, Rooms.ParseMenuId, Rooms.IntText, Rooms.ParseIntText, Rooms.MenuNameOfSelected: JavaScript numbers (ids and `menu_id`) are modelled as unbounded integers, not IEEE doubles. Three effects are left out. At or above 2^53, `Math.max(...ids) + 1` can equal the largest id, so the new id would not be fresh. The spread `Math.max(...)` throws a RangeError on a very long list. At or above 1e21, `String(n)` switches to exponent form, so `parseInt` of it is no longer `n`. None of these is reachable from the tabs: ids start at 1 to 3, grow by one per add, and no input sets a menu or question id.
- Rooms.ParseDecimal: models `parseInt(s, 10)` only for text without leading white space or a `+` sign. The values a menu select produces never have them.
- The room, menu-setting and other `created_at` timestamps are opaque strings supplied by the caller.
