/** `src/components/EmployeeManager.tsx`: the six permission check boxes of the
    employee form, how they are read from and written to a user's stored
    permission list, and how the list is shown in the table. */
module EmployeeManager {
  import opened JsText
  import opened Schema

  datatype Key = SALES | PRODUCTS | CLIENTS | EXPENSES | REPORTS | SETTINGS

  /** The keys in the order the permissions object declares them. */
  const KeyOrder: seq<Key> := [SALES, PRODUCTS, CLIENTS, EXPENSES, REPORTS, SETTINGS]

  function Name(k: Key): string {
    match k
    case SALES => "sales"
    case PRODUCTS => "products"
    case CLIENTS => "clients"
    case EXPENSES => "expenses"
    case REPORTS => "reports"
    case SETTINGS => "settings"
  }

  /** The form's permission flags. */
  datatype Perms = Perms(sales: bool, products: bool, clients: bool, expenses: bool, reports: bool, settings: bool)

  function Get(f: Perms, k: Key): bool {
    match k
    case SALES => f.sales
    case PRODUCTS => f.products
    case CLIENTS => f.clients
    case EXPENSES => f.expenses
    case REPORTS => f.reports
    case SETTINGS => f.settings
  }

  /** `handlePermissionChange(key)`: `{ ...prev, [key]: !prev[key] }`. */
  function Toggle(f: Perms, k: Key): Perms {
    match k
    case SALES => f.(sales := !f.sales)
    case PRODUCTS => f.(products := !f.products)
    case CLIENTS => f.(clients := !f.clients)
    case EXPENSES => f.(expenses := !f.expenses)
    case REPORTS => f.(reports := !f.reports)
    case SETTINGS => f.(settings := !f.settings)
  }

  /** A change negates exactly one flag; changing it again undoes it. */
  lemma ToggleEffect(f: Perms, k: Key)
    ensures Get(Toggle(f, k), k) == !Get(f, k)
    ensures forall j :: j != k ==> Get(Toggle(f, k), j) == Get(f, j)
    ensures Toggle(Toggle(f, k), k) == f
  {
  }

  /** The flags `resetForm` (and a fresh form) starts from. */
  const ResetPerms: Perms := Perms(true, false, false, false, false, false)

  lemma ResetOnlySales()
    ensures forall k :: Get(ResetPerms, k) <==> k == SALES
  {
  }

  /** The flags `startEditing` derives from a permission list. */
  function FlagsFrom(list: seq<string>): Perms {
    Perms("sales" in list, "products" in list, "clients" in list, "expenses" in list, "reports" in list, "settings" in list)
  }

  /** `user.permissions ? JSON.parse(user.permissions) : []`, with a failed
      parse leaving the empty list; `parse` stands for `JSON.parse`. */
  function StoredList(permissions: Option<string>, parse: string -> Option<seq<string>>): seq<string> {
    if Truthy(permissions) then
      match parse(permissions.value)
      case Some(list) => list
      case None => []
    else []
  }

  function StartEditing(permissions: Option<string>, parse: string -> Option<seq<string>>): Perms {
    FlagsFrom(StoredList(permissions, parse))
  }

  /** Each flag is set iff the stored list names it; absent, empty or
      unparsable permissions give no flag at all. */
  lemma StartEditingFlags(permissions: Option<string>, parse: string -> Option<seq<string>>)
    ensures forall k :: Get(StartEditing(permissions, parse), k) <==> Name(k) in StoredList(permissions, parse)
    ensures !Truthy(permissions) || parse(permissions.value).None? ==>
      forall k :: !Get(StartEditing(permissions, parse), k)
  {
  }

  /** Distinct keys have distinct names. */
  lemma NameInjective(j: Key, k: Key)
    requires Name(j) == Name(k)
    ensures j == k
  {
  }

  /** `Object.entries(perms).filter(([_, on]) => on).map(([key]) => key)` over
      the given keys. */
  function Active(keys: seq<Key>, f: Perms): (r: seq<string>)
    ensures |r| <= |keys|
    ensures forall k :: Name(k) in r <==> k in keys && Get(f, k)
  {
    if keys == [] then []
    else
      var rest := Active(keys[1..], f);
      var r := (if Get(f, keys[0]) then [Name(keys[0])] else []) + rest;
      assert forall k :: Name(k) in r <==> (Get(f, keys[0]) && Name(k) == Name(keys[0])) || Name(k) in rest;
      assert forall k :: Name(k) == Name(keys[0]) ==> k == keys[0] by {
        forall k | Name(k) == Name(keys[0]) ensures k == keys[0] { NameInjective(k, keys[0]); }
      }
      assert forall k :: k in keys <==> k == keys[0] || k in keys[1..];
      r
  }

  /** The list `handleSubmit` stores: the enabled keys, in declaration order. */
  function ActiveKeys(f: Perms): seq<string> {
    Active(KeyOrder, f)
  }

  /** The submitted list names exactly the enabled flags. */
  lemma ActiveKeysExact(f: Perms)
    ensures forall k :: Name(k) in ActiveKeys(f) <==> Get(f, k)
  {
    forall k ensures k in KeyOrder {
      match k
      case SALES => assert KeyOrder[0] == k;
      case PRODUCTS => assert KeyOrder[1] == k;
      case CLIENTS => assert KeyOrder[2] == k;
      case EXPENSES => assert KeyOrder[3] == k;
      case REPORTS => assert KeyOrder[4] == k;
      case SETTINGS => assert KeyOrder[5] == k;
    }
  }

  /** One step of the filter: the first key, if enabled, then the rest. */
  lemma ActiveCons(k: Key, rest: seq<Key>, f: Perms)
    ensures Active([k] + rest, f) == (if Get(f, k) then [Name(k)] else []) + Active(rest, f)
  {
    assert ([k] + rest)[1..] == rest;
  }

  /** `[name]` when the flag is on, else nothing. */
  function Flag(on: bool, name: string): seq<string> {
    if on then [name] else []
  }

  /** The filter over the last two keys. */
  lemma ActiveLastTwo(f: Perms)
    ensures Active([REPORTS, SETTINGS], f) == Flag(f.reports, "reports") + Flag(f.settings, "settings")
  {
    ActiveCons(SETTINGS, [], f);
    assert [SETTINGS] + [] == [SETTINGS];
    ActiveCons(REPORTS, [SETTINGS], f);
    assert [REPORTS] + [SETTINGS] == [REPORTS, SETTINGS];
  }

  /** The filter over the last four keys. */
  lemma ActiveLastFour(f: Perms)
    ensures Active([CLIENTS, EXPENSES, REPORTS, SETTINGS], f) ==
      Flag(f.clients, "clients") + (Flag(f.expenses, "expenses") + (Flag(f.reports, "reports") + Flag(f.settings, "settings")))
  {
    ActiveLastTwo(f);
    ActiveCons(EXPENSES, [REPORTS, SETTINGS], f);
    assert [EXPENSES] + [REPORTS, SETTINGS] == [EXPENSES, REPORTS, SETTINGS];
    ActiveCons(CLIENTS, [EXPENSES, REPORTS, SETTINGS], f);
    assert [CLIENTS] + [EXPENSES, REPORTS, SETTINGS] == [CLIENTS, EXPENSES, REPORTS, SETTINGS];
  }

  /** The submitted list is the enabled keys in declaration order ("sales",
      "products", "clients", "expenses", "reports", "settings"). */
  lemma ActiveKeysOrder(f: Perms)
    ensures ActiveKeys(f) ==
      Flag(f.sales, "sales") + (Flag(f.products, "products") + (Flag(f.clients, "clients") +
      (Flag(f.expenses, "expenses") + (Flag(f.reports, "reports") + Flag(f.settings, "settings")))))
  {
    ActiveLastFour(f);
    ActiveCons(PRODUCTS, [CLIENTS, EXPENSES, REPORTS, SETTINGS], f);
    assert [PRODUCTS] + [CLIENTS, EXPENSES, REPORTS, SETTINGS] == [PRODUCTS, CLIENTS, EXPENSES, REPORTS, SETTINGS];
    ActiveCons(SALES, [PRODUCTS, CLIENTS, EXPENSES, REPORTS, SETTINGS], f);
    assert KeyOrder == [SALES] + [PRODUCTS, CLIENTS, EXPENSES, REPORTS, SETTINGS];
  }

  /** Saving the flags and opening the user again shows the same flags. */
  lemma SubmitThenEditRoundTrip(f: Perms)
    ensures FlagsFrom(ActiveKeys(f)) == f
  {
    ActiveKeysExact(f);
    assert "sales" in ActiveKeys(f) <==> Get(f, SALES);
    assert "products" in ActiveKeys(f) <==> Get(f, PRODUCTS);
    assert "clients" in ActiveKeys(f) <==> Get(f, CLIENTS);
    assert "expenses" in ActiveKeys(f) <==> Get(f, EXPENSES);
    assert "reports" in ActiveKeys(f) <==> Get(f, REPORTS);
    assert "settings" in ActiveKeys(f) <==> Get(f, SETTINGS);
  }

  /** What the permissions column shows. */
  datatype PermissionCell = FullAccess | Listed(keys: seq<string>) | NoPermissions

  function PermissionDisplay(role: string, permissions: Option<string>, parse: string -> Option<seq<string>>): PermissionCell {
    var list := StoredList(permissions, parse);
    if role == ADMIN then FullAccess else if |list| > 0 then Listed(list) else NoPermissions
  }

  /** "Acceso Total" for an ADMIN whatever is stored; otherwise the stored list
      when it is non-empty, else "Sin permisos". */
  lemma PermissionDisplayCases(role: string, permissions: Option<string>, parse: string -> Option<seq<string>>)
    ensures var cell := PermissionDisplay(role, permissions, parse);
      && (cell == FullAccess <==> role == "ADMIN")
      && (cell.Listed? ==> cell.keys == StoredList(permissions, parse) && cell.keys != [])
      && (cell == NoPermissions <==> role != "ADMIN" && StoredList(permissions, parse) == [])
  {
  }
}
