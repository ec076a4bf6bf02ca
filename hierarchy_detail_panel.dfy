/**
 * The detail panel of a selected node: its type label, the type of child it
 * can add, the add button, the columns of its children's table and the
 * "Total Items" / "Active" cards.
 */
module HierarchyDetailPanel {
  import opened Wrappers
  import opened Text
  import opened Seqs
  import opened HierarchyTypes
  import DataTable
  import HierarchyTreeView

  /** `getEntityTypeLabel`: a fixed label per known type, the raw type otherwise. */
  function EntityTypeLabel(t: EntityType): (r: string)
    ensures IsKnown(t) ==> r != "" && Lower(r) == TypeName(t) && r != TypeName(t)
    ensures !IsKnown(t) ==> r == TypeName(t)
  {
    match t
    case Customer => "Customer"
    case Zone => "Zone"
    case Nbg => "NBG"
    case Ro => "RO"
    case Branch => "Branch"
    case Device => "Device"
    case Unrecognised(raw) => raw
  }

  /**
   * `getChildEntityType`: the fixed table customer -> zone -> branch -> device
   * and nbg -> ro -> branch; a device, or a type outside the table, has none.
   */
  function ChildEntityType(t: EntityType): Option<EntityType> {
    match t
    case Customer => Some(Zone)
    case Zone => Some(Branch)
    case Nbg => Some(Ro)
    case Ro => Some(Branch)
    case Branch => Some(Device)
    case Device => None
    case Unrecognised(_) => None
  }

  /** `n` steps down the child-type table, stopping at "no child". */
  function Descend(t: Option<EntityType>, n: nat): Option<EntityType>
    decreases n
  {
    if n == 0 || t.None? then t else Descend(ChildEntityType(t.value), n - 1)
  }

  /** The child-type table has no cycle: four steps from any type reach "no child". */
  lemma ChildChainEnds(t: EntityType)
    ensures Descend(Some(t), 4) == None
  {
  }

  /** Four steps are needed: customer and nbg are three steps above device. */
  lemma ChildChainLongest()
    ensures Descend(Some(Customer), 3) == Some(Device)
    ensures Descend(Some(Nbg), 3) == Some(Device)
  {
  }

  /** The child type of a known type is always a known type. */
  lemma ChildTypeIsKnown(t: EntityType)
    ensures ChildEntityType(t).Some? ==> IsKnown(ChildEntityType(t).value) && IsKnown(t)
  {
  }

  /** `getAddButtonText`. */
  function AddButtonText(t: EntityType): string {
    var child := ChildEntityType(t);
    if child.None? then "Add Item" else "Add " + EntityTypeLabel(child.value)
  }

  /** The `disabled` flag of the add button. */
  predicate AddButtonDisabled(t: EntityType) {
    ChildEntityType(t).None?
  }

  /** The button reads "Add Item" exactly when there is no child type, else names the child type. */
  lemma AddButtonTextSpec(t: EntityType)
    ensures AddButtonText(t) == "Add Item" <==> ChildEntityType(t).None?
    ensures ChildEntityType(t).Some? ==> AddButtonText(t) == "Add " + EntityTypeLabel(ChildEntityType(t).value)
  {
    var child := ChildEntityType(t);
    if child.Some? {
      var shown := EntityTypeLabel(child.value);
      assert shown in {"Zone", "Branch", "RO", "Device"};
      assert AddButtonText(t)[4..] == shown;
    }
  }

  /** Among the six types the button is disabled exactly for a device. */
  lemma AddButtonDisabledIff(t: EntityType)
    requires IsKnown(t)
    ensures AddButtonDisabled(t) <==> t == Device
  {
  }

  // ---------------------------------------------------------------- children's table

  const DeviceColumns: seq<DataTable.Column> := [
    DataTable.Column("entity_name", "Device Name", true),
    DataTable.Column("metadata.ip_address", "IP Address", false),
    DataTable.Column("metadata.status", "Status", false),
    DataTable.Column("metadata.last_active", "Last Active", false)]

  const ActionsColumn: DataTable.Column := DataTable.Column("actions", "Actions", false)

  /** `getTableColumns`. */
  function TableColumns(t: EntityType): seq<DataTable.Column> {
    var child := ChildEntityType(t);
    if child.None? then DeviceColumns
    else [
      DataTable.Column("entity_name", EntityTypeLabel(child.value) + " Name", true),
      DataTable.Column("childCount", if child.value == Device then "Devices" else "Children", true),
      DataTable.Column("metadata.location", "Location", false),
      DataTable.Column("metadata.manager", "Manager", false)]
  }

  /** `columns`: the selected set followed by the actions column. */
  function Columns(t: EntityType): seq<DataTable.Column> {
    TableColumns(t) + [ActionsColumn]
  }

  /** The keys of a column set, in order. */
  function Keys(columns: seq<DataTable.Column>): seq<string> {
    seq(|columns|, i requires 0 <= i < |columns| => columns[i].key)
  }

  /**
   * With no child type the table shows the device columns; otherwise its
   * count column reads "Devices" exactly when the children are devices. The
   * actions column always comes last.
   */
  lemma ColumnsSpec(t: EntityType)
    ensures |Columns(t)| == 5 && Columns(t)[4] == ActionsColumn
    ensures ChildEntityType(t).None? ==> Columns(t)[..4] == DeviceColumns
    ensures ChildEntityType(t).Some? ==>
              Columns(t)[1].key == "childCount"
              && (Columns(t)[1].heading == "Devices" <==> ChildEntityType(t) == Some(Device))
  {
  }

  /** No two columns share a key, so each cell is looked up once per row. */
  lemma ColumnKeysDistinct(t: EntityType)
    ensures forall i, j :: 0 <= i < j < |Keys(Columns(t))| ==> Keys(Columns(t))[i] != Keys(Columns(t))[j]
  {
    if ChildEntityType(t).None? {
      assert Keys(Columns(t)) == ["entity_name", "metadata.ip_address", "metadata.status", "metadata.last_active", "actions"];
    } else {
      assert Keys(Columns(t)) == ["entity_name", "childCount", "metadata.location", "metadata.manager", "actions"];
    }
  }

  /** The text of the Status cell: the device's status, `'online'` when none is set. */
  function StatusCellText(n: Node): string {
    var status := Field(n.metadata, "status");
    if Truthy(status) then status.value else "online"
  }

  // ---------------------------------------------------------------- summary cards

  /** The "Active" filter: status `'online'`, or no status at all. */
  predicate IsActive(c: Node) {
    Field(c.metadata, "status") == Some("online") || !Truthy(Field(c.metadata, "status"))
  }

  function Activity(): Node -> bool {
    c => IsActive(c)
  }

  /** The "Total Items" card. */
  function TotalItems(n: Node): nat {
    |n.children|
  }

  /** The "Active" card. */
  function ActiveCount(n: Node): nat {
    |Filter(n.children, Activity())|
  }

  /**
   * The Active card never exceeds the Total Items card, and equals it
   * exactly when every child is active.
   */
  lemma ActiveAtMostTotal(n: Node)
    ensures ActiveCount(n) <= TotalItems(n)
    ensures ActiveCount(n) == TotalItems(n) <==> forall c :: c in n.children ==> IsActive(c)
  {
    FilterKeepsAllIff(n.children, Activity());
  }

  /** A child is counted active exactly when its Status cell reads "online". */
  lemma ActiveIffStatusCellOnline(c: Node)
    ensures IsActive(c) <==> StatusCellText(c) == "online"
  {
  }

  /**
   * The tree and the panel read a missing status differently: the tree's
   * badge says "offline" while the panel's Status cell says "online" and the
   * Active card counts the device.
   */
  lemma MissingStatusReadsDifferently(d: Node)
    requires d.entityType == Device && !Truthy(Field(d.metadata, "status"))
    ensures HierarchyTreeView.NodeStats(d) == Some(HierarchyTreeView.StatusBadge("offline", false))
    ensures StatusCellText(d) == "online" && IsActive(d)
  {
  }

  // ---------------------------------------------------------------- the table's rows

  /** A child node as the table reads it: by flat key. */
  function NodeRow(n: Node): DataTable.Row {
    map[
      "id" := DataTable.Str(n.id),
      "entity_type" := DataTable.Str(TypeName(n.entityType)),
      "entity_name" := DataTable.Str(n.name),
      "parent_id" := (if n.parentId.Some? then DataTable.Str(n.parentId.value) else DataTable.Null),
      "metadata" := DataTable.Object]
    + (if n.childCount.Some? then map["childCount" := DataTable.Num(n.childCount.value)] else map[])
  }

  /** `tableData`, as rows. */
  function TableRows(n: Node): seq<DataTable.Row> {
    seq(|n.children|, i requires 0 <= i < |n.children| => NodeRow(n.children[i]))
  }

  /**
   * The dotted keys and "actions" are not keys of a row, so every cell under
   * them reads "undefined": any search term that is part of "undefined"
   * keeps every child in the table.
   */
  lemma UndefinedSearchKeepsAllChildren(n: Node, term: string)
    requires Includes("undefined", Lower(term))
    ensures DataTable.FilterRows(TableRows(n), Columns(n.entityType), term) == TableRows(n)
  {
    var columns := Columns(n.entityType);
    ColumnsSpec(n.entityType);
    assert ActionsColumn in columns;
    forall row | row in TableRows(n) ensures DataTable.RowMatches(row, columns, term) {
      DataTable.MissingKeyMatchesUndefined(row, columns, term, ActionsColumn);
    }
    FilterKeepsAll(TableRows(n), DataTable.Matcher(columns, term));
  }
}
