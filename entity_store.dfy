/**
 * The two tables the dialogs write to, `entities` and `hierarchy_configs`,
 * behind an insert whose outcome is decided by the backend. The backend's
 * answer is a parameter of each insert.
 */
module EntityStore {
  import opened Wrappers
  import opened HierarchyTypes

  /** A row of `entities`. */
  datatype EntityRow = EntityRow(id: string, name: string, entityType: EntityType, parentId: Option<string>, metadata: Metadata)

  /** A row of `hierarchy_configs`. */
  datatype ConfigRow = ConfigRow(customerId: string, hierarchyLevels: seq<string>)

  /** The backend's answer to an insert: the new row's id, or an error. */
  datatype Reply = Accepted(id: string) | Rejected(error: string)

  class Store {
    var entities: seq<EntityRow>
    var configs: seq<ConfigRow>

    constructor()
      ensures entities == [] && configs == []
    {
      entities := [];
      configs := [];
    }

    /** Appends the entity when the backend accepts it, under the id the backend chose. */
    method InsertEntity(name: string, entityType: EntityType, parentId: Option<string>, metadata: Metadata, reply: Reply)
      modifies this
      ensures reply.Accepted? ==> entities == old(entities) + [EntityRow(reply.id, name, entityType, parentId, metadata)]
      ensures reply.Rejected? ==> entities == old(entities)
      ensures configs == old(configs)
    {
      if reply.Accepted? {
        entities := entities + [EntityRow(reply.id, name, entityType, parentId, metadata)];
      }
    }

    /** Appends the configuration row when the backend accepts it. */
    method InsertConfig(customerId: string, levels: seq<string>, reply: Reply)
      modifies this
      ensures reply.Accepted? ==> configs == old(configs) + [ConfigRow(customerId, levels)]
      ensures reply.Rejected? ==> configs == old(configs)
      ensures entities == old(entities)
    {
      if reply.Accepted? {
        configs := configs + [ConfigRow(customerId, levels)];
      }
    }
  }
}
