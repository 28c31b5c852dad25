/** `src/components/DashboardLayout.tsx`: which side-menu entries a user sees,
    and which one is highlighted. */
module DashboardLayout {
  import opened JsText
  import opened Schema

  datatype MenuItem = MenuItem(name: string, href: string, permission: string)

  /** The logged-in user as the layout receives it; `permissions` is absent
      when the session carries none. */
  datatype SessionUser = SessionUser(role: string, permissions: Option<seq<string>>)

  const Any: string := "any"
  /** The appointments entry, hidden in this edition. */
  const Appointments: string := "Citas"

  /** The entries in menu order; the appointments entry is commented out. */
  const AllMenuItems: seq<MenuItem> := [
    MenuItem("Inicio", "/", "any"),
    MenuItem("Ventas", "/sales", "sales"),
    MenuItem("Inventario", "/products", "products"),
    MenuItem("Clientes", "/clients", "clients"),
    MenuItem("Gastos", "/expenses", "expenses"),
    MenuItem("Reportes", "/reports", "reports"),
    MenuItem("Configuración", "/settings", "settings")]

  /** The body of the `allMenuItems.filter` callback. */
  predicate Visible(item: MenuItem, user: Option<SessionUser>) {
    if item.name == Appointments then false
    else if user.Some? && user.value.role == ADMIN then true
    else if item.permission == Any then true
    else user.Some? && user.value.permissions.Some? && item.permission in user.value.permissions.value
  }

  function MenuItems(items: seq<MenuItem>, user: Option<SessionUser>): (r: seq<MenuItem>)
    ensures forall x :: x in r <==> x in items && Visible(x, user)
  {
    if items == [] then []
    else (if Visible(items[0], user) then [items[0]] else []) + MenuItems(items[1..], user)
  }

  /** The filtered menu keeps the original order. */
  lemma {:induction false} MenuKeepsOrder(items: seq<MenuItem>, user: Option<SessionUser>)
    ensures SubsequenceOf(MenuItems(items, user), items)
  {
    if items != [] {
      MenuKeepsOrder(items[1..], user);
      var rest := MenuItems(items[1..], user);
      if Visible(items[0], user) {
        assert MenuItems(items, user) == [items[0]] + rest;
        assert ([items[0]] + rest)[1..] == rest;
      } else {
        assert MenuItems(items, user) == rest;
      }
    }
  }

  /** 'Citas' is never shown; an ADMIN sees every other entry; 'any' entries are
      always shown; others iff the user's list names their permission. */
  lemma VisibleCases(item: MenuItem, user: Option<SessionUser>)
    ensures item.name == "Citas" ==> !Visible(item, user)
    ensures item.name != "Citas" && user.Some? && user.value.role == "ADMIN" ==> Visible(item, user)
    ensures item.name != "Citas" && item.permission == "any" ==> Visible(item, user)
    ensures item.name != "Citas" && item.permission != "any" && (user.None? || user.value.role != "ADMIN") ==>
      (Visible(item, user) <==> user.Some? && user.value.permissions.Some? && item.permission in user.value.permissions.value)
  {
  }

  /** When every entry passes the filter, the menu is the list itself. */
  lemma {:induction false} AllVisibleKeepsAll(items: seq<MenuItem>, user: Option<SessionUser>)
    requires forall x :: x in items ==> Visible(x, user)
    ensures MenuItems(items, user) == items
  {
    if items != [] {
      AllVisibleKeepsAll(items[1..], user);
    }
  }

  /** An ADMIN gets the whole menu. */
  lemma MenuForAdmin(permissions: Option<seq<string>>)
    ensures MenuItems(AllMenuItems, Some(SessionUser("ADMIN", permissions))) == AllMenuItems
  {
    var user := Some(SessionUser("ADMIN", permissions));
    forall x | x in AllMenuItems ensures Visible(x, user) {
      assert x.name != Appointments by {
        assert forall i :: 0 <= i < |AllMenuItems| ==> AllMenuItems[i].name[0] != 'C' || |AllMenuItems[i].name| != 4;
      }
    }
    AllVisibleKeepsAll(AllMenuItems, user);
  }

  /** Without a user only the "any" entry, "Inicio", is left. */
  lemma MenuForGuest()
    ensures MenuItems(AllMenuItems, None) == [MenuItem("Inicio", "/", "any")]
  {
    var rest := AllMenuItems[1..];
    GuestSeesNoneOf(rest);
    NoneVisible(rest, None);
    assert AllMenuItems == [AllMenuItems[0]] + rest;
  }

  lemma GuestSeesNoneOf(rest: seq<MenuItem>)
    requires rest == AllMenuItems[1..]
    ensures forall i :: 0 <= i < |rest| ==> !Visible(rest[i], None)
  {
    forall i | 0 <= i < |rest| ensures !Visible(rest[i], None) {
      assert |rest[i].permission| != |Any|;
    }
  }

  /** When no entry passes the filter, the menu is empty. */
  lemma NoneVisible(items: seq<MenuItem>, user: Option<SessionUser>)
    requires forall i :: 0 <= i < |items| ==> !Visible(items[i], user)
    ensures MenuItems(items, user) == []
  {
    var r := MenuItems(items, user);
    assert forall i :: 0 <= i < |r| ==> r[i] in r;
  }

  /** `pathname === item.href`. */
  predicate IsActive(pathname: string, item: MenuItem) {
    pathname == item.href
  }

  /** Menu links are distinct, so at most one entry is highlighted, and a
      sub-page such as "/sales/3" highlights none. */
  lemma AtMostOneActive(pathname: string)
    ensures forall i, j :: 0 <= i < j < |AllMenuItems| ==> !(IsActive(pathname, AllMenuItems[i]) && IsActive(pathname, AllMenuItems[j]))
    ensures forall i :: 0 <= i < |AllMenuItems| ==> !IsActive("/sales/3", AllMenuItems[i])
  {
  }
}
