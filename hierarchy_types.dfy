/**
 * The entity record of the organisational hierarchy and the in-memory tree
 * node that wraps it (`Entity` and `HierarchyNode`).
 */
module HierarchyTypes {
  import opened Wrappers

  /**
   * The six entity types the views know. The store keeps the type as free
   * text and the views cast it, so any other string is carried as is.
   */
  datatype EntityType = Customer | Zone | Nbg | Ro | Branch | Device | Unrecognised(raw: string)

  /** The stored spelling of a type. */
  function TypeName(t: EntityType): string {
    match t
    case Customer => "customer"
    case Zone => "zone"
    case Nbg => "nbg"
    case Ro => "ro"
    case Branch => "branch"
    case Device => "device"
    case Unrecognised(raw) => raw
  }

  /** Reads a stored `entity_type` string. */
  function ParseEntityType(s: string): EntityType {
    if s == "customer" then Customer
    else if s == "zone" then Zone
    else if s == "nbg" then Nbg
    else if s == "ro" then Ro
    else if s == "branch" then Branch
    else if s == "device" then Device
    else Unrecognised(s)
  }

  /** One of the six types the views know. */
  predicate IsKnown(t: EntityType) {
    !t.Unrecognised?
  }

  /** Reading a stored type back gives the stored string. */
  lemma ParseThenName(s: string)
    ensures TypeName(ParseEntityType(s)) == s
  {
  }

  /** Every known type survives being stored and read back. */
  lemma NameThenParse(t: EntityType)
    requires IsKnown(t)
    ensures ParseEntityType(TypeName(t)) == t
  {
  }

  /** The open `metadata` record, restricted to its textual fields. */
  type Metadata = map<string, string>

  /** `metadata?.[key]`: absent when the key is missing. */
  function Field(m: Metadata, key: string): Option<string> {
    if key in m then Some(m[key]) else None
  }

  /** JavaScript truthiness of an optional string: present and non-empty. */
  predicate Truthy(v: Option<string>) {
    v.Some? && v.value != ""
  }

  /**
   * A tree node: the entity's own columns plus the children and child count
   * that the tree builder attaches. An absent `children` list is read as
   * empty everywhere in the views, so it is modelled as the empty sequence.
   */
  datatype Node = Node(
    id: string,
    entityType: EntityType,
    name: string,
    parentId: Option<string>,
    metadata: Metadata,
    children: seq<Node>,
    childCount: Option<int>)
}
