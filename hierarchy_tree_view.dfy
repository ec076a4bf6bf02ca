/**
 * The collapsible organisation tree: the search that decides which nodes and
 * children are drawn, the badge beside each node, and which levels start
 * expanded.
 */
module HierarchyTreeView {
  import opened Wrappers
  import opened Text
  import opened Seqs
  import opened HierarchyTypes

  /** `name.toLowerCase().includes(searchTerm.toLowerCase())`. */
  predicate NameMatches(name: string, term: string) {
    Includes(Lower(name), Lower(term))
  }

  /**
   * The callback of `filteredChildren`: a child stays when the term is empty,
   * when its own name matches, or when the name of one of its own children
   * matches. Nothing deeper is looked at.
   */
  predicate KeepChild(child: Node, term: string) {
    term == "" || NameMatches(child.name, term)
    || exists g :: g in child.children && NameMatches(g.name, term)
  }

  function Keeper(term: string): Node -> bool {
    c => KeepChild(c, term)
  }

  /** `filteredChildren` (an absent child list reads as empty). */
  function FilteredChildren(node: Node, term: string): (r: seq<Node>)
    ensures forall c :: c in r ==> c in node.children
  {
    Filter(node.children, Keeper(term))
  }

  /** `shouldShow`: whether the node draws anything at all. */
  predicate ShouldShow(node: Node, term: string) {
    term == "" || NameMatches(node.name, term) || |FilteredChildren(node, term)| > 0
  }

  /** The badge beside a node. */
  datatype Badge = StatusBadge(text: string, online: bool) | CountBadge(count: int, unit: string)

  /** The unit after a child count: named for the three parents the table knows, "items" otherwise. */
  function CountUnit(t: EntityType): string {
    match t
    case Customer => "zones"
    case Zone => "branches"
    case Branch => "devices"
    case _ => "items"
  }

  /** Each unit names the type of the children: a customer holds zones, a zone branches, a branch devices. */
  lemma CountUnitCases(t: EntityType)
    ensures CountUnit(t) == "zones" <==> t == Customer
    ensures CountUnit(t) == "branches" <==> t == Zone
    ensures CountUnit(t) == "devices" <==> t == Branch
    ensures CountUnit(t) == "items" <==> t !in {Customer, Zone, Branch}
  {
  }

  /**
   * `getNodeStats`: a device shows its status (`'offline'` when none is set,
   * highlighted only when `'online'`); any other node with a non-zero child
   * count shows the count with a unit chosen by its type; otherwise nothing.
   */
  function NodeStats(node: Node): (r: Option<Badge>)
    ensures node.entityType == Device <==> r.Some? && r.value.StatusBadge?
    ensures node.entityType != Device
            ==> (r.Some? <==> node.childCount.Some? && node.childCount.value != 0)
    ensures r.Some? && r.value.StatusBadge?
            ==> r.value.text == (if Truthy(Field(node.metadata, "status")) then Field(node.metadata, "status").value else "offline")
                && r.value.text != ""
                && (r.value.online <==> Field(node.metadata, "status") == Some("online"))
    ensures r.Some? && r.value.CountBadge?
            ==> Some(r.value.count) == node.childCount && r.value.count != 0
                && r.value.unit == CountUnit(node.entityType)
  {
    if node.entityType == Device then
      var status := Field(node.metadata, "status");
      Some(StatusBadge(if Truthy(status) then status.value else "offline", status == Some("online")))
    else if node.childCount.Some? && node.childCount.value != 0 then
      Some(CountBadge(node.childCount.value, CountUnit(node.entityType)))
    else
      None
  }

  /** The initial state of a node's expander. */
  function InitiallyOpen(level: int): bool {
    level < 2
  }

  /** What one `HierarchyTreeNode` draws: itself and the children it renders. */
  datatype View = View(
    id: string,
    level: int,
    open: bool,
    expandable: bool,
    badge: Option<Badge>,
    children: seq<Option<View>>)

  /** `HierarchyTreeNode` at indentation `level`; `None` is the component returning `null`. */
  function Render(node: Node, term: string, level: int): Option<View>
    decreases node
  {
    if !ShouldShow(node, term) then None
    else
      var kept := FilteredChildren(node, term);
      Some(View(node.id, level, InitiallyOpen(level), |node.children| > 0, NodeStats(node),
                seq(|kept|, i requires 0 <= i < |kept| =>
                  assert kept[i] in kept && kept[i] in node.children;
                  Render(kept[i], term, level + 1))))
  }

  /** What the whole panel shows. */
  datatype Screen = Spinner | NoCustomers | Forest(roots: seq<Option<View>>)

  /** `HierarchyTreeView`: roots are drawn at level 0. */
  function RenderTree(roots: seq<Node>, term: string, loading: bool): Screen {
    if loading then Spinner
    else if roots == [] then NoCustomers
    else Forest(seq(|roots|, i requires 0 <= i < |roots| => Render(roots[i], term, 0)))
  }

  // ---------------------------------------------------------------- properties

  /** With no search term every child is kept and every node is shown. */
  lemma EmptyTermKeepsEverything(node: Node)
    ensures FilteredChildren(node, "") == node.children
    ensures ShouldShow(node, "")
  {
    FilterKeepsAll(node.children, Keeper(""));
  }

  /**
   * The kept children are an order-preserving subsequence of the children,
   * and a child is kept exactly when the term is empty, its name matches, or
   * the name of one of its own children matches; every copy of a kept
   * child is kept.
   */
  lemma FilteredChildrenSpec(node: Node, term: string)
    ensures IsSubsequence(FilteredChildren(node, term), node.children)
    ensures forall c :: c in FilteredChildren(node, term)
                        <==> c in node.children
                             && (term == "" || NameMatches(c.name, term)
                                 || exists g :: g in c.children && NameMatches(g.name, term))
    ensures forall c :: multiset(FilteredChildren(node, term))[c]
                        == if KeepChild(c, term) then multiset(node.children)[c] else 0
  {
    FilterIsSubsequence(node.children, Keeper(term));
    forall c
      ensures c in FilteredChildren(node, term) <==> c in node.children && KeepChild(c, term)
      ensures multiset(FilteredChildren(node, term))[c] == if KeepChild(c, term) then multiset(node.children)[c] else 0
    {
      FilterMembership(node.children, Keeper(term), c);
      FilterCount(node.children, Keeper(term), c);
    }
  }

  /** A node is shown exactly when the term is empty, its name matches, or a child is kept. */
  lemma ShowIff(node: Node, term: string)
    ensures ShouldShow(node, term)
            <==> term == "" || NameMatches(node.name, term)
                 || exists c :: c in node.children && KeepChild(c, term)
  {
    FilteredChildrenSpec(node, term);
    var kept := FilteredChildren(node, term);
    if c :| c in node.children && KeepChild(c, term) {
      assert c in kept;
    }
    if |kept| > 0 {
      assert kept[0] in kept;
    }
  }

  /** The names of a list of nodes. */
  function Names(nodes: seq<Node>): seq<string> {
    seq(|nodes|, i requires 0 <= i < |nodes| => nodes[i].name)
  }

  /**
   * Only two levels decide whether a child is kept: two children with the
   * same name whose own children carry the same names are both kept or both
   * dropped, whatever lies below.
   */
  lemma KeepChildSeesTwoLevels(c: Node, d: Node, term: string)
    requires c.name == d.name && Names(c.children) == Names(d.children)
    ensures KeepChild(c, term) <==> KeepChild(d, term)
  {
    if g :| g in c.children && NameMatches(g.name, term) {
      var i :| 0 <= i < |c.children| && c.children[i] == g;
      assert Names(c.children)[i] == Names(d.children)[i];
      assert d.children[i] in d.children;
    }
    if g :| g in d.children && NameMatches(g.name, term) {
      var i :| 0 <= i < |d.children| && d.children[i] == g;
      assert Names(c.children)[i] == Names(d.children)[i];
      assert c.children[i] in c.children;
    }
  }

  /** Every kept child draws itself: a grandchild match keeps that grandchild too. */
  lemma KeptChildIsShown(c: Node, term: string)
    requires KeepChild(c, term)
    ensures ShouldShow(c, term)
  {
    if term != "" && !NameMatches(c.name, term) {
      var g :| g in c.children && NameMatches(g.name, term);
      assert KeepChild(g, term);
      ShowIff(c, term);
    }
  }

  /** Of the four names below, only the device's contains "atm". */
  lemma AtmMatchesOnlyTheDevice()
    ensures NameMatches("atm", "atm")
    ensures !NameMatches("west", "atm") && !NameMatches("north", "atm") && !NameMatches("acme", "atm")
  {
    assert Lower("atm") == "atm" && Lower("west") == "west" && Lower("north") == "north"
        && Lower("acme") == "acme";
    assert !Includes("west", "atm") && !Includes("north", "atm") && !Includes("acme", "atm");
  }

  /**
   * Three levels down is too deep: a zone whose only match is a device
   * below one of its branches is not drawn.
   */
  lemma DeepMatchIsNotShown()
    ensures var device := Node("d", Device, "atm", Some("b"), map[], [], None);
            var branch := Node("b", Branch, "north", Some("z"), map[], [device], None);
            var zone := Node("z", Zone, "west", Some("c"), map[], [branch], None);
            var customer := Node("c", Customer, "acme", None, map[], [zone], None);
            NameMatches(device.name, "atm") && !ShouldShow(customer, "atm")
  {
    var device := Node("d", Device, "atm", Some("b"), map[], [], None);
    var branch := Node("b", Branch, "north", Some("z"), map[], [device], None);
    var zone := Node("z", Zone, "west", Some("c"), map[], [branch], None);
    var customer := Node("c", Customer, "acme", None, map[], [zone], None);
    AtmMatchesOnlyTheDevice();
    assert !KeepChild(zone, "atm");
    FilterKeepsNone(customer.children, Keeper("atm"));
  }

  /**
   * Every drawn node starts expanded exactly on levels 0 and 1, every child
   * it draws is drawn one level deeper, and no kept child renders as null.
   */
  ghost predicate WellFormed(v: View)
    decreases v
  {
    v.open == (v.level < 2)
    && forall i :: 0 <= i < |v.children| ==>
         v.children[i].Some? && v.children[i].value.level == v.level + 1
         && WellFormed(v.children[i].value)
  }

  lemma {:induction false} RenderIsWellFormed(node: Node, term: string, level: int)
    requires ShouldShow(node, term)
    ensures Render(node, term, level).Some?
    ensures WellFormed(Render(node, term, level).value)
    ensures Render(node, term, level).value.level == level
    decreases node
  {
    var kept := FilteredChildren(node, term);
    var v := Render(node, term, level).value;
    forall i | 0 <= i < |kept|
      ensures Render(kept[i], term, level + 1).Some?
      ensures WellFormed(Render(kept[i], term, level + 1).value)
      ensures Render(kept[i], term, level + 1).value.level == level + 1
    {
      FilteredChildrenSpec(node, term);
      assert kept[i] in kept;
      KeptChildIsShown(kept[i], term);
      RenderIsWellFormed(kept[i], term, level + 1);
    }
    assert |v.children| == |kept|;
    forall i | 0 <= i < |v.children|
      ensures v.children[i].Some? && v.children[i].value.level == v.level + 1
              && WellFormed(v.children[i].value)
    {
      assert v.children[i] == Render(kept[i], term, level + 1);
    }
  }

  /** A search that matches nothing draws no node and no "No customers found" message either. */
  lemma NoMatchDrawsNothing(roots: seq<Node>, term: string)
    requires roots != []
    requires forall r :: r in roots ==> !ShouldShow(r, term)
    ensures RenderTree(roots, term, false).Forest?
    ensures forall i :: 0 <= i < |RenderTree(roots, term, false).roots| ==> RenderTree(roots, term, false).roots[i] == None
  {
    forall i | 0 <= i < |roots| ensures Render(roots[i], term, 0) == None {
      assert roots[i] in roots;
    }
  }
}
