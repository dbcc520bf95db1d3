/** The side navigation of the client layout: the fixed list of screens, the role filter that
    hides the administrative ones from everyone but an administrator, and the active entry. */
module Navigation {
  import opened Common

  datatype NavItem = NavItem(name: string, href: string, adminOnly: bool)

  const Admin := "admin"

  const DashboardEntry := NavItem("Dashboard", "/", true)
  const PdvEntry := NavItem("PDV", "/pdv", false)
  const ProductsEntry := NavItem("Produtos", "/products", true)
  const CustomersEntry := NavItem("Clientes", "/customers", false)
  const SuppliersEntry := NavItem("Fornecedores", "/suppliers", true)
  const SalesEntry := NavItem("Vendas", "/sales", false)
  const ReceivablesEntry := NavItem("Contas a Receber", "/accounts-receivable", false)
  const UsersEntry := NavItem("Funcionários", "/users", true)
  const LocationsEntry := NavItem("Estoque", "/locations", true)
  const BoxesEntry := NavItem("Caixas", "/supplier-boxes", true)

  /** Every screen of the application, in menu order. */
  const AllNavigation: seq<NavItem> := [
    DashboardEntry, PdvEntry, ProductsEntry, CustomersEntry, SuppliersEntry,
    SalesEntry, ReceivablesEntry, UsersEntry, LocationsEntry, BoxesEntry
  ]

  /** Whether an entry is shown to a user with role `role` (`None`: nobody is logged in). */
  function VisibleTo(role: Option<string>): NavItem -> bool {
    (item: NavItem) => if role == Some(Admin) then true else !item.adminOnly
  }

  /** The entries of the menu for the logged-in user. */
  function Navigation(role: Option<string>): seq<NavItem> {
    Filter(AllNavigation, VisibleTo(role))
  }

  /** The four screens open to every role, in menu order. */
  const SharedNavigation: seq<NavItem> := [PdvEntry, CustomersEntry, SalesEntry, ReceivablesEntry]

  function NotAdminOnly(item: NavItem): bool {
    !item.adminOnly
  }

  /** Keeping the entries not reserved to administrators leaves the four shared screens. */
  lemma SharedAreTheOpenEntries()
    ensures Filter(AllNavigation, NotAdminOnly) == SharedNavigation
  {
    OpenEntriesOf(AllNavigation);
  }

  /** Ten entries whose flags are those of the menu. */
  predicate FlaggedLikeMenu(xs: seq<NavItem>) {
    && |xs| == 10
    && xs[0].adminOnly && !xs[1].adminOnly && xs[2].adminOnly && !xs[3].adminOnly && xs[4].adminOnly
    && !xs[5].adminOnly && !xs[6].adminOnly && xs[7].adminOnly && xs[8].adminOnly && xs[9].adminOnly
  }

  /** The filter over any ten entries flagged like the menu keeps the second, fourth, sixth
      and seventh. */
  lemma OpenEntriesOf(xs: seq<NavItem>)
    requires FlaggedLikeMenu(xs)
    ensures Filter(xs, NotAdminOnly) == [xs[1], xs[3], xs[5], xs[6]]
  {
    OpenEntriesFrom2(xs);
    OneStep(xs, 1, NotAdminOnly);
    assert !NotAdminOnly(xs[0]);
  }

  lemma OpenEntriesFrom2(xs: seq<NavItem>)
    requires FlaggedLikeMenu(xs)
    ensures Filter(xs[2..], NotAdminOnly) == [xs[3], xs[5], xs[6]]
  {
    OpenEntriesFrom3(xs);
    OneStep(xs, 2, NotAdminOnly);
    assert !NotAdminOnly(xs[2]);
  }

  lemma OpenEntriesFrom3(xs: seq<NavItem>)
    requires FlaggedLikeMenu(xs)
    ensures Filter(xs[3..], NotAdminOnly) == [xs[3], xs[5], xs[6]]
  {
    OpenEntriesFrom5(xs);
    OneStep(xs, 4, NotAdminOnly);
    OneStep(xs, 3, NotAdminOnly);
  }

  lemma OpenEntriesFrom5(xs: seq<NavItem>)
    requires FlaggedLikeMenu(xs)
    ensures Filter(xs[5..], NotAdminOnly) == [xs[5], xs[6]]
  {
    OpenEntriesFrom7(xs);
    OneStep(xs, 6, NotAdminOnly);
    OneStep(xs, 5, NotAdminOnly);
  }

  lemma OpenEntriesFrom7(xs: seq<NavItem>)
    requires FlaggedLikeMenu(xs)
    ensures Filter(xs[7..], NotAdminOnly) == []
  {
    OpenEntriesFrom9(xs);
    OneStep(xs, 8, NotAdminOnly);
    OneStep(xs, 7, NotAdminOnly);
  }

  lemma OpenEntriesFrom9(xs: seq<NavItem>)
    requires FlaggedLikeMenu(xs)
    ensures Filter(xs[9..], NotAdminOnly) == []
  {
    assert xs[10..] == [];
    OneStep(xs, 9, NotAdminOnly);
  }

  /** One unfolding of the filter over the suffix of `xs` from `k`. */
  lemma OneStep(xs: seq<NavItem>, k: nat, p: NavItem -> bool)
    requires k < |xs|
    ensures Filter(xs[k..], p) == (if p(xs[k]) then [xs[k]] else []) + Filter(xs[k + 1..], p)
  {
    assert xs[k..][1..] == xs[k + 1..];
  }

  /** An administrator gets the whole menu; anyone else, and a visitor with no user, gets the
      four shared screens PDV, Clientes, Vendas and Contas a Receber in menu order. */
  lemma MenuByRole(role: Option<string>)
    ensures role == Some(Admin) ==> Navigation(role) == AllNavigation
    ensures role != Some(Admin) ==> Navigation(role) == SharedNavigation
  {
    if role == Some(Admin) {
      FilterKeepsAll(AllNavigation, VisibleTo(role));
    } else {
      FilterCongruent(AllNavigation, VisibleTo(role), NotAdminOnly);
      SharedAreTheOpenEntries();
    }
  }

  /** Whoever is not an administrator sees an entry of the menu exactly when it is not reserved
      to administrators, and sees nothing that is not in the menu. */
  lemma NonAdminSeesOpenEntries(role: Option<string>)
    requires role != Some(Admin)
    ensures forall i :: 0 <= i < |AllNavigation| ==>
      (AllNavigation[i] in Navigation(role) <==> !AllNavigation[i].adminOnly)
    ensures forall i :: 0 <= i < |Navigation(role)| ==> Navigation(role)[i] in AllNavigation
  {
    var menu := Navigation(role);
    forall i | 0 <= i < |AllNavigation|
      ensures AllNavigation[i] in menu <==> !AllNavigation[i].adminOnly
    {
      if AllNavigation[i] in menu {
        var j :| 0 <= j < |menu| && menu[j] == AllNavigation[i];
        assert VisibleTo(role)(menu[j]);
      } else {
        assert !VisibleTo(role)(AllNavigation[i]);
      }
    }
  }

  /** Whether the entry is highlighted on the page at `pathname`. */
  predicate IsActive(pathname: string, item: NavItem) {
    pathname == item.href
  }

  predicate HrefsDistinct(entries: seq<NavItem>) {
    forall i, j :: 0 <= i < j < |entries| ==> entries[i].href != entries[j].href
  }

  /** In a list of entries with pairwise different targets, at most one entry is highlighted. */
  lemma ActiveIsUnique(entries: seq<NavItem>, pathname: string)
    requires HrefsDistinct(entries)
    ensures forall i, j :: (0 <= i < |entries| && 0 <= j < |entries|
      && IsActive(pathname, entries[i]) && IsActive(pathname, entries[j])) ==> i == j
  {
  }

  /** Menu entries have pairwise different targets, so on any page at most one entry of any
      user's menu is highlighted, and it is the one whose target is the page. */
  lemma AtMostOneActive(role: Option<string>, pathname: string)
    ensures HrefsDistinct(AllNavigation)
    ensures forall i, j :: (0 <= i < |Navigation(role)| && 0 <= j < |Navigation(role)|
      && IsActive(pathname, Navigation(role)[i]) && IsActive(pathname, Navigation(role)[j])) ==> i == j
  {
    MenuHrefsDistinct();
    assert HrefsDistinct(Navigation(role)) by {
      MenuByRole(role);
      if role != Some(Admin) {
        SharedHrefsDistinct();
      }
    }
    ActiveIsUnique(Navigation(role), pathname);
  }

  lemma MenuHrefsDistinct()
    ensures HrefsDistinct(AllNavigation)
  {
    forall i, j | 0 <= i < j < |AllNavigation|
      ensures AllNavigation[i].href != AllNavigation[j].href
    {
      HrefsDiffer(i, j);
    }
  }

  lemma SharedHrefsDistinct()
    ensures HrefsDistinct(SharedNavigation)
  {
    assert SharedNavigation == [AllNavigation[1], AllNavigation[3], AllNavigation[5], AllNavigation[6]];
    HrefsDiffer(1, 3);
    HrefsDiffer(1, 5);
    HrefsDiffer(1, 6);
    HrefsDiffer(3, 5);
    HrefsDiffer(3, 6);
    HrefsDiffer(5, 6);
  }

  /** The targets of two different menu entries differ. */
  lemma HrefsDiffer(i: nat, j: nat)
    requires i < j < |AllNavigation|
    ensures AllNavigation[i].href != AllNavigation[j].href
  {
    var a := AllNavigation[i].href;
    var b := AllNavigation[j].href;
    if |a| == |b| {
      assert a[1] != b[1];
    }
  }
}
