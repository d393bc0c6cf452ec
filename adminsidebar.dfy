/**
 * The admin sidebar (components/admin/layout/admin-sidebar.tsx): the menu
 * entries, the rule that marks an entry active, and the collapse toggle.
 */
module AdminSidebar {

  import opened Text
  import Middleware

  datatype MenuItem = MenuItem(caption: string, href: string)

  const MenuItems: seq<MenuItem> := [
    MenuItem("Dashboard", "/admin"),
    MenuItem("Gestión de Doctores", "/admin/doctores"),
    MenuItem("Gestión de Especialidades", "/admin/especialidades"),
    MenuItem("Usuarios", "/admin/usuarios"),
    MenuItem("Citas", "/admin/citas"),
    MenuItem("Pagos", "/admin/pagos"),
    MenuItem("Reportes", "/admin/reportes"),
    MenuItem("Configuración", "/admin/configuracion")
  ]

  /** `pathname === href || pathname.startsWith(href + "/")`: the middleware's route test. */
  predicate IsActive(path: string, href: string) {
    Middleware.MatchesRoute(path, href)
  }

  /** The Dashboard entry is active on every page below /admin. */
  lemma DashboardActiveBelowAdmin(rest: string)
    ensures IsActive("/admin/" + rest, "/admin")
  {
    assert ("/admin/" + rest)[..|"/admin/"|] == "/admin/";
  }

  /** A path that merely extends an href, without a "/", does not activate it. */
  lemma SharedPrefixInactive()
    ensures !IsActive("/admin/doctoresX", "/admin/doctores")
    ensures IsActive("/admin/doctores/3", "/admin/doctores")
  {
    assert "/admin/doctores/3"[..|"/admin/doctores/"|] == "/admin/doctores/";
    assert "/admin/doctoresX"[15] != "/admin/doctores/"[15];
  }

  /** An index at which the hrefs of two different entries after Dashboard differ. */
  function Distinguisher(j: int, k: int): (i: nat)
    requires 1 <= j < |MenuItems| && 1 <= k < |MenuItems| && j != k
    ensures i < |MenuItems[j].href| && i < |MenuItems[k].href|
    ensures MenuItems[j].href[i] != MenuItems[k].href[i]
  {
    if (j == 4 && k == 7) || (j == 7 && k == 4) then 8 else 7
  }

  /**
   * On one entry's page, or below it, exactly two entries are active: the
   * Dashboard and that entry.
   */
  lemma ActiveEntries(k: int, rest: string)
    requires 1 <= k < |MenuItems|
    requires rest == [] || rest[0] == '/'
    ensures forall j :: 0 <= j < |MenuItems| ==>
      (IsActive(MenuItems[k].href + rest, MenuItems[j].href) <==> j == 0 || j == k)
  {
    var path := MenuItems[k].href + rest;
    var hk := MenuItems[k].href;
    assert path[..|hk|] == hk;
    forall j | 0 <= j < |MenuItems|
      ensures IsActive(path, MenuItems[j].href) <==> j == 0 || j == k
    {
      if j == 0 {
        assert path[..|"/admin/"|] == hk[..|"/admin/"|] == "/admin/";
      } else if j == k {
        if rest != [] {
          assert path[..|hk + "/"|] == hk + "/";
        }
      } else {
        var i := Distinguisher(j, k);
        assert path[i] == hk[i];
        Middleware.DiffersAt(path, MenuItems[j].href, i);
      }
    }
  }

  class Sidebar {
    var isOpen: bool

    constructor ()
      ensures isOpen
    {
      isOpen := true;
    }

    /** The collapse button. */
    method Toggle()
      modifies this
      ensures isOpen == !old(isOpen)
    {
      isOpen := !isOpen;
    }
  }

  /** Two clicks on the collapse button restore the sidebar. */
  method ToggleTwice(s: Sidebar)
    modifies s
    ensures s.isOpen == old(s.isOpen)
  {
    s.Toggle();
    s.Toggle();
  }
}
