/** The admin menu's active-item rule (src/components/admin/main-sidebar.tsx). */
module MainSidebar {
  import opened JsString

  /** A menu entry: the link target and the text shown for it (the source's `label`, a reserved
      word in Dafny). */
  datatype MenuItem = MenuItem(href: string, caption: string)

  const MenuItems: seq<MenuItem> := [
    MenuItem("/admin", "Dashboard"),
    MenuItem("/admin/messages", "Messages"),
    MenuItem("/admin/registrations", "Registrations"),
    MenuItem("/admin/blog", "Blog Posts"),
    MenuItem("/admin/classes", "Classes"),
    MenuItem("/admin/deploy", "Deploy"),
    MenuItem("/admin/settings", "Settings")
  ]

  /** `isActive` of a menu item for the current pathname. */
  predicate IsActive(pathname: string, href: string) {
    StartsWith(pathname, href) && (href != "/admin" || pathname == "/admin")
  }

  /** The Dashboard item is active exactly on "/admin". */
  lemma DashboardActive(pathname: string)
    ensures IsActive(pathname, MenuItems[0].href) <==> pathname == "/admin"
  {
  }

  /** Every other item is active exactly when the pathname starts with its href. */
  lemma OtherItemActive(pathname: string, i: nat)
    requires 1 <= i < |MenuItems|
    ensures IsActive(pathname, MenuItems[i].href) <==> StartsWith(pathname, MenuItems[i].href)
  {
  }

  /** Every non-dashboard href is "/admin/" followed by a letter no other href has there. */
  lemma HrefShape(i: nat)
    requires 1 <= i < |MenuItems|
    ensures |MenuItems[i].href| > 7 && MenuItems[i].href[..7] == "/admin/"
    ensures forall j :: 1 <= j < |MenuItems| && j != i ==> MenuItems[j].href[7] != MenuItems[i].href[7]
  {
    var h := MenuItems[i].href;
    assert |h| > 7 && h[..7] == "/admin/";
    forall j | 1 <= j < |MenuItems| && j != i
      ensures MenuItems[j].href[7] != h[7]
    {
    }
  }

  /** No pathname makes two menu items active at once. */
  lemma AtMostOneActive(pathname: string, i: nat, j: nat)
    requires i < j < |MenuItems|
    requires IsActive(pathname, MenuItems[i].href)
    ensures !IsActive(pathname, MenuItems[j].href)
  {
    HrefShape(j);
    if i == 0 {
      assert |pathname| == 6;
    } else {
      HrefShape(i);
    }
  }

  /** The test is a raw prefix test, so "/admin/blogx" makes Blog Posts active. */
  lemma RawPrefixActivates(pathname: string)
    requires pathname == "/admin/blogx"
    ensures IsActive(pathname, MenuItems[3].href)
  {
    assert pathname[..11] == "/admin/blog";
  }
}
