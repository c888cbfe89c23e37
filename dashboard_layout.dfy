/** The dashboard frame: which navigation links are highlighted for the
    current path, and the mobile navigation sheet that closes whenever the
    path changes. */
module DashboardLayout {
  import opened Seqs
  import opened Strings

  datatype NavItem = NavItem(name: string, href: string)

  const Navigation: seq<NavItem> := [
    NavItem("Dashboard", "/dashboard"),
    NavItem("Properties", "/dashboard/properties"),
    NavItem("Rooms", "/dashboard/rooms"),
    NavItem("Bookings", "/dashboard/bookings"),
    NavItem("Guests", "/dashboard/guests"),
    NavItem("Inventory", "/dashboard/inventory"),
    NavItem("Finance", "/dashboard/finance"),
    NavItem("Users & Roles", "/dashboard/users"),
    NavItem("Settings", "/dashboard/settings")
  ]

  /** A link is highlighted on its own path and on every path below it. */
  predicate IsActive(pathname: string, href: string)
    ensures IsActive(pathname, href) ==> StartsWith(pathname, href)
  {
    assert StartsWith(pathname, href + "/") ==> pathname[..|href|] == (href + "/")[..|href|] == href;
    pathname == href || StartsWith(pathname, href + "/")
  }

  /** `href` lies below `parent` on a `/` boundary. */
  predicate Below(href: string, parent: string) {
    StartsWith(href, parent + "/")
  }

  /** Two links highlighted on the same path are the same link, or one lies
      below the other. */
  lemma ActiveLinksNested(pathname: string, h1: string, h2: string)
    requires IsActive(pathname, h1) && IsActive(pathname, h2)
    ensures h1 == h2 || Below(h1, h2) || Below(h2, h1)
  {
    if pathname != h1 && pathname != h2 {
      if |h1| < |h2| {
        assert h2[..|h1| + 1] == pathname[..|h1| + 1] == h1 + "/";
      } else if |h2| < |h1| {
        assert h1[..|h2| + 1] == pathname[..|h2| + 1] == h2 + "/";
      } else {
        assert h1 + "/" == pathname[..|h1| + 1] == h2 + "/";
        assert h1 == (h1 + "/")[..|h1|];
        assert h2 == (h2 + "/")[..|h2|];
      }
    }
  }

  /** A shared prefix without a `/` boundary highlights nothing; a path
      below a link highlights it. */
  lemma BoundaryExamples()
    ensures !IsActive("/dashboard/usersx", "/dashboard/users")
    ensures IsActive("/dashboard/users/roles/new", "/dashboard/users")
    ensures IsActive("/dashboard/users", "/dashboard/users")
  {
    assert "/dashboard/usersx"[16] != ("/dashboard/users" + "/")[16];
    assert StartsWith("/dashboard/users/roles/new", "/dashboard/users" + "/") by {
      assert "/dashboard/users/roles/new"[..17] == "/dashboard/users/";
    }
  }

  /** "Dashboard" is highlighted on every path below it, so alongside the
      section the path belongs to. */
  lemma DashboardAlwaysActive(pathname: string)
    requires StartsWith(pathname, "/dashboard/")
    ensures IsActive(pathname, Navigation[0].href)
  {
  }

  /** The letter that follows "/dashboard/" in each section's link. */
  const SectionInitials: string := "prbgifus"

  lemma SectionLinkShapes()
    ensures forall i :: 1 <= i < |Navigation| ==>
              |Navigation[i].href| > 12 && Navigation[i].href[11] == SectionInitials[i - 1]
  {
  }

  /** A link below another agrees with it at every position the other
      has. */
  lemma BelowAgrees(h1: string, h2: string, k: nat)
    requires k < |h2|
    ensures Below(h1, h2) ==> k < |h1| && h1[k] == h2[k]
  {
    if Below(h1, h2) {
      assert h1[k] == (h2 + "/")[k];
    }
  }

  /** Apart from "Dashboard", no link lies below another. */
  lemma SectionsUnrelated()
    ensures forall i, j :: 1 <= i < |Navigation| && 1 <= j < |Navigation| && i != j ==>
              Navigation[i].href != Navigation[j].href && !Below(Navigation[i].href, Navigation[j].href)
  {
    SectionLinkShapes();
    forall i, j | 1 <= i < |Navigation| && 1 <= j < |Navigation| && i != j
      ensures Navigation[i].href != Navigation[j].href && !Below(Navigation[i].href, Navigation[j].href)
    {
      assert SectionInitials[i - 1] != SectionInitials[j - 1];
      BelowAgrees(Navigation[i].href, Navigation[j].href, 11);
    }
  }

  /** On any path at most one link other than "Dashboard" is highlighted. */
  lemma AtMostOneSection(pathname: string)
    ensures forall i, j :: (1 <= i < |Navigation| && 1 <= j < |Navigation| &&
              IsActive(pathname, Navigation[i].href) && IsActive(pathname, Navigation[j].href)) ==> i == j
  {
    SectionsUnrelated();
    forall i, j | 1 <= i < |Navigation| && 1 <= j < |Navigation| &&
                  IsActive(pathname, Navigation[i].href) && IsActive(pathname, Navigation[j].href)
      ensures i == j
    {
      ActiveLinksNested(pathname, Navigation[i].href, Navigation[j].href);
    }
  }

  /** The highlighted links, in menu order. */
  function ActiveItems(pathname: string): (r: seq<NavItem>)
    ensures forall item :: item in r <==> item in Navigation && IsActive(pathname, item.href)
  {
    Filter(Navigation, (item: NavItem) => IsActive(pathname, item.href))
  }

  // ---------------------------------------------------------------------
  // The frame
  // ---------------------------------------------------------------------

  class DashboardFrame {
    var pathname: string
    var open: bool
    var selectedProperty: string

    /** The frame as first shown on `pathname`: sheet closed, property "1". */
    constructor(pathname: string)
      ensures this.pathname == pathname && !open && selectedProperty == "1"
    {
      this.pathname := pathname;
      open := false;
      selectedProperty := "1";
    }

    /** The menu button, or the sheet's close button. */
    method SetOpen(value: bool)
      modifies this
      ensures open == value
      ensures pathname == old(pathname) && selectedProperty == old(selectedProperty)
    {
      open := value;
    }

    /** The property select. */
    method SelectProperty(id: string)
      modifies this
      ensures selectedProperty == id
      ensures pathname == old(pathname) && open == old(open)
    {
      selectedProperty := id;
    }

    /** The router moves to `path`; the effect keyed on the path closes the
        sheet when the path is a different one. */
    method Navigate(path: string)
      modifies this
      ensures pathname == path
      ensures path != old(pathname) ==> !open
      ensures path == old(pathname) ==> open == old(open)
      ensures selectedProperty == old(selectedProperty)
    {
      if path != pathname {
        open := false;
      }
      pathname := path;
    }
  }
}
