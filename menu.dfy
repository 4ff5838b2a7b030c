/**
 * The inline-keyboard navigation of the catalogue: decoding the callback
 * data a button sends back, and building the menu for one level of the
 * user's item tree. A keyboard is a list of one-button rows; a button is its
 * label and its token. Telegram delivers a button's token as the callback
 * data behind a form-feed byte, which decoding strips again.
 */
module Menu {
  import opened Wrappers
  import opened Models
  import opened Strings
  import Ltree
  import Database
  import Bot

  const ROOT_TITLE := "📍 Locations"
  const EMPTY_HINT := "\n\n(Empty - click ➕ to add items)"
  const ADD_SOON := "Add item feature - coming soon!"
  const UNKNOWN_ACTION := "Unknown action"
  const INVALID_ACTION := "Invalid action"
  const LOAD_ERROR := "Error loading items"
  const NAV := "nav:"
  const ADD := "add:"

  datatype Button = Button(caption: string, token: string)

  /** What the bot shows: a callback toast, or a message with its keyboard. */
  datatype Screen = Toast(text: string) | Keyboard(title: string, rows: seq<Button>)

  /** The /menu screen: the one button that opens the catalogue root. */
  const MAIN_MENU: Screen := Keyboard("Main Menu:", [Button(ROOT_TITLE, "menu_locations")])

  /** The callback data Telegram sends for a button token. */
  function CallbackData(token: string): string
  {
    [12 as char] + token
  }

  // ---- decoding ----

  /** At most one leading byte below 32 is dropped. */
  function StripControl(data: string): (r: string)
    ensures |data| > 0 && (data[0] as int) < 32 ==> r == data[1..]
    ensures !(|data| > 0 && (data[0] as int) < 32) ==> r == data
  {
    if |data| > 0 && (data[0] as int) < 32 then data[1..] else data
  }

  datatype Action = Navigate | AddItem | UnknownAction

  /** HandleCallback's choice on the cleaned data: `nav:`, then `add:`, else unknown. */
  function Dispatch(data: string): (a: Action)
    ensures a == Navigate <==> HasPrefix(StripControl(data), NAV)
    ensures a == AddItem <==> HasPrefix(StripControl(data), ADD)
  {
    var clean := StripControl(data);
    if HasPrefix(clean, NAV) then Navigate
    else if HasPrefix(clean, ADD) then AddItem
    else UnknownAction
  }

  /** HandleNavigationCallback's path: the cleaned data without `nav:`, or none. */
  function NavigationPath(data: string): (p: Option<string>)
    ensures p.Some? <==> HasPrefix(StripControl(data), NAV)
    ensures p.Some? ==> StripControl(data) == NAV + p.value
  {
    var clean := StripControl(data);
    if HasPrefix(clean, NAV) then Some(TrimPrefix(clean, NAV)) else None
  }

  /** A `nav:` token decodes to its path, whether or not Telegram's form feed precedes it. */
  lemma NavigationRoundTrip(p: string)
    ensures Dispatch(CallbackData(NAV + p)) == Navigate && NavigationPath(CallbackData(NAV + p)) == Some(p)
    ensures Dispatch(NAV + p) == Navigate && NavigationPath(NAV + p) == Some(p)
  {
    assert StripControl(CallbackData(NAV + p)) == NAV + p;
    assert HasPrefix(NAV + p, NAV);
    assert (NAV + p)[|NAV|..] == p;
  }

  /** An `add:` token is the coming-soon action. */
  lemma AddRoundTrip(p: string)
    ensures Dispatch(CallbackData(ADD + p)) == AddItem
  {
    assert StripControl(CallbackData(ADD + p)) == ADD + p;
    assert HasPrefix(ADD + p, ADD);
  }

  /** Only one control byte is stripped: behind two, a `nav:` token is an unknown action. */
  lemma SecondControlByteIsKept(c1: char, c2: char, token: string)
    requires (c1 as int) < 32 && (c2 as int) < 32
    ensures Dispatch([c1, c2] + token) == UnknownAction
    ensures NavigationPath([c1, c2] + token) == None
  {
    var rest := [c2] + token;
    assert StripControl([c1, c2] + token) == rest;
    assert rest[0] == c2 && NAV[0] == 'n' && ADD[0] == 'a';
    assert !HasPrefix(rest, NAV) && !HasPrefix(rest, ADD);
  }

  /** Whatever HandleCallback routes to navigation has a path; "Invalid action" is never reached from it. */
  lemma NavigateHasPath(data: string)
    requires Dispatch(data) == Navigate
    ensures NavigationPath(data).Some?
  {
  }

  // ---- the level menu ----

  /** The dish icon for an item bound to a product, the folder icon otherwise. */
  function Icon(item: UserCommonItem): string
  {
    if item.productUuid.Some? then "🍽️" else "📁"
  }

  function ItemButton(item: UserCommonItem): Button
  {
    Button(Icon(item) + " " + item.name, NAV + item.path)
  }

  function AddButton(parentPath: string): Button
  {
    Button("➕ Add item", ADD + parentPath)
  }

  function BackButton(parentPath: string): Button
  {
    Button("⬅️ Back", NAV + Ltree.BackPath(parentPath))
  }

  function Title(parentPath: string, empty: bool): string
  {
    (if parentPath == "" then ROOT_TITLE else "📂 " + parentPath) + (if empty then EMPTY_HINT else "")
  }

  /**
   * The level screen for a listing: one button per item in listing order,
   * then the add button, then the back button below the root.
   */
  ghost predicate IsLevelScreen(s: Screen, items: seq<UserCommonItem>, parentPath: string)
  {
    && s.Keyboard?
    && s.title == Title(parentPath, items == [])
    && |s.rows| == |items| + 1 + (if parentPath != "" then 1 else 0)
    && (forall k :: 0 <= k < |items| ==> s.rows[k] == ItemButton(items[k]))
    && s.rows[|items|] == AddButton(parentPath)
    && (parentPath != "" ==> s.rows[|items| + 1] == BackButton(parentPath))
  }

  /** The level query as the handler sees it: a dead connection fails it. */
  ghost function Listing(store: Database.Store, login: string, parentPath: string): Result<seq<UserCommonItem>, Database.DbError>
    reads store
    requires store.Valid()
  {
    if store.online then store.ItemsAtLevel(login, parentPath) else Failure(Database.ConnectionFailed)
  }

  /** showLocationsLevel: list the sender's items at the level and lay out the keyboard. */
  method ShowLocationsLevel(store: Database.Store, sender: Sender, parentPath: string) returns (s: Screen)
    requires store.Valid()
    ensures Listing(store, Bot.Login(sender), parentPath).Failure? ==> s == Toast(LOAD_ERROR)
    ensures Listing(store, Bot.Login(sender), parentPath).Success? ==>
      IsLevelScreen(s, Listing(store, Bot.Login(sender), parentPath).value, parentPath)
  {
    var login := Bot.Login(sender);
    var listing := store.GetUserCommonItemsAtLevel(login, parentPath);
    match listing
    case Failure(_) =>
      return Toast(LOAD_ERROR);
    case Success(items) =>
      s := LevelKeyboard(items, parentPath);
  }

  /** The keyboard loop of showLocationsLevel: item rows in order, then add, then back. */
  method LevelKeyboard(items: seq<UserCommonItem>, parentPath: string) returns (s: Screen)
    ensures IsLevelScreen(s, items, parentPath)
  {
    var rows: seq<Button> := [];
    for k := 0 to |items|
      invariant |rows| == k
      invariant forall j :: 0 <= j < k ==> rows[j] == ItemButton(items[j])
    {
      rows := rows + [ItemButton(items[k])];
    }
    rows := rows + [AddButton(parentPath)];
    if parentPath != "" {
      rows := rows + [BackButton(parentPath)];
    }
    s := Keyboard(Title(parentPath, |items| == 0), rows);
  }

  /** The Locations button of the main menu opens the root level. */
  method HandleLocationsCallback(store: Database.Store, sender: Sender) returns (s: Screen)
    requires store.Valid()
    ensures Listing(store, Bot.Login(sender), "").Failure? ==> s == Toast(LOAD_ERROR)
    ensures Listing(store, Bot.Login(sender), "").Success? ==>
      IsLevelScreen(s, Listing(store, Bot.Login(sender), "").value, "")
  {
    s := ShowLocationsLevel(store, sender, "");
  }

  method HandleNavigationCallback(store: Database.Store, sender: Sender, data: string) returns (s: Screen)
    requires store.Valid()
    ensures NavigationPath(data).None? ==> s == Toast(INVALID_ACTION)
    ensures NavigationPath(data).Some? ==>
      var p := NavigationPath(data).value; var l := Listing(store, Bot.Login(sender), p);
      (l.Failure? ==> s == Toast(LOAD_ERROR)) && (l.Success? ==> IsLevelScreen(s, l.value, p))
  {
    var clean := StripControl(data);
    if !HasPrefix(clean, NAV) {
      return Toast(INVALID_ACTION);
    }
    var path := TrimPrefix(clean, NAV);
    s := ShowLocationsLevel(store, sender, path);
  }

  /** Every other callback: navigate, answer "coming soon", or "Unknown action". */
  method HandleCallback(store: Database.Store, sender: Sender, data: string) returns (s: Screen)
    requires store.Valid()
    ensures Dispatch(data) == AddItem ==> s == Toast(ADD_SOON)
    ensures Dispatch(data) == UnknownAction ==> s == Toast(UNKNOWN_ACTION)
    ensures Dispatch(data) == Navigate ==>
      var p := NavigationPath(data).value; var l := Listing(store, Bot.Login(sender), p);
      (l.Failure? ==> s == Toast(LOAD_ERROR)) && (l.Success? ==> IsLevelScreen(s, l.value, p))
  {
    var clean := StripControl(data);
    if HasPrefix(clean, NAV) {
      s := HandleNavigationCallback(store, sender, data);
      return;
    }
    if HasPrefix(clean, ADD) {
      return Toast(ADD_SOON);
    }
    s := Toast(UNKNOWN_ACTION);
  }

  // ---- where the buttons lead ----

  /** On a successful listing, each item button leads one level down, to that item's own path. */
  lemma ItemButtonsLeadToChildren(store: Database.Store, login: string, parentPath: string, k: nat)
    requires store.Valid() && (parentPath == "" || Ltree.IsPath(parentPath))
    requires store.ItemsAtLevel(login, parentPath).Success?
    requires k < |store.ItemsAtLevel(login, parentPath).value|
    ensures var item := store.ItemsAtLevel(login, parentPath).value[k];
      && NavigationPath(CallbackData(ItemButton(item).token)) == Some(item.path)
      && item.login == login && item in store.items
      && (parentPath == "" ==> Ltree.IsLabel(item.path))
      && (parentPath != "" ==> Ltree.IsChildPath(item.path, parentPath))
  {
    var items := store.ItemsAtLevel(login, parentPath).value;
    var item := items[k];
    NavigationRoundTrip(item.path);
    assert item in items;
    assert multiset(items)[item] > 0;
  }

  /** The back button of a level below the top leads to the parent path. */
  lemma BackLeadsToParent(parentPath: string)
    requires Ltree.IsPath(parentPath) && Ltree.NLevel(parentPath) >= 2
    ensures var q := NavigationPath(CallbackData(BackButton(parentPath).token));
      q.Some? && q.value != "" && Ltree.IsChildPath(parentPath, q.value)
  {
    Ltree.BackPathIsParent(parentPath);
    NavigationRoundTrip(Ltree.BackPath(parentPath));
  }

  /** The back button of a top-level path leads to the root, the Locations level. */
  lemma BackFromTopLevelLeadsToRoot(parentPath: string)
    requires Ltree.IsLabel(parentPath)
    ensures NavigationPath(CallbackData(BackButton(parentPath).token)) == Some("")
  {
    Ltree.BackPathOfTopLevel(parentPath);
    NavigationRoundTrip("");
  }

  /** A level's add button carries the `add:` action, and no item or back button does. */
  lemma OnlyAddButtonAdds(s: Screen, items: seq<UserCommonItem>, parentPath: string, k: nat)
    requires IsLevelScreen(s, items, parentPath) && k < |s.rows|
    ensures Dispatch(CallbackData(s.rows[k].token)) == AddItem <==> k == |items|
  {
    if k < |items| {
      NavigationRoundTrip(items[k].path);
    } else if k == |items| {
      AddRoundTrip(parentPath);
    } else {
      NavigationRoundTrip(Ltree.BackPath(parentPath));
    }
  }
}
