/**
 * The dialog that adds a child entity under a parent: the form, its
 * validation, the metadata it builds for the new row and what happens to
 * the dialog's state after the insert.
 */
module AddEntityDialog {
  import opened Wrappers
  import opened Text
  import opened HierarchyTypes
  import opened EntityStore
  import opened Notifications
  import HierarchyDetailPanel

  datatype EntityForm = EntityForm(
    name: string,
    code: string,
    manager: string,
    address: string,
    description: string,
    location: string,
    deviceType: string,
    status: string)

  /** The form as the dialog first shows it and as `resetForm` leaves it. */
  const InitialForm := EntityForm("", "", "", "", "", "", "ATM", "online")

  /** `getEntityLabel`, as a template literal shows it: "undefined" for a type outside the table. */
  function EntityLabel(t: EntityType): string {
    match t
    case Customer => "Customer"
    case Zone => "Zone"
    case Nbg => "NBG"
    case Ro => "RO"
    case Branch => "Branch"
    case Device => "Device"
    case Unrecognised(_) => "undefined"
  }

  /**
   * The dialog and the detail panel label the six types alike; for any
   * other type the panel shows the raw type and the dialog "undefined".
   */
  lemma EntityLabelAgreesWithPanel(t: EntityType)
    ensures IsKnown(t) ==> EntityLabel(t) == HierarchyDetailPanel.EntityTypeLabel(t)
    ensures !IsKnown(t) ==> EntityLabel(t) == "undefined"
  {
  }

  /** The keys the dialog can write. */
  const MetadataKeys := {"type", "status", "last_active", "location", "code", "manager", "address", "description"}

  /**
   * The metadata of the new row: a device always records its type, status
   * and creation time and never a code, manager or address; any other type
   * never records the device fields. Each optional field holds the form's
   * value exactly when that value is non-empty, and is absent otherwise.
   */
  function MetadataFor(t: EntityType, form: EntityForm, now: string): (m: Metadata)
    ensures m.Keys <= MetadataKeys
    ensures t == Device ==>
              Field(m, "type") == Some(form.deviceType) && Field(m, "status") == Some(form.status)
              && Field(m, "last_active") == Some(now)
              && "code" !in m && "manager" !in m && "address" !in m
              && Field(m, "location") == (if form.location != "" then Some(form.location) else None)
    ensures t != Device ==>
              "type" !in m && "status" !in m && "last_active" !in m && "location" !in m
              && Field(m, "code") == (if form.code != "" then Some(form.code) else None)
              && Field(m, "manager") == (if form.manager != "" then Some(form.manager) else None)
              && Field(m, "address") == (if form.address != "" then Some(form.address) else None)
    ensures Field(m, "description") == (if form.description != "" then Some(form.description) else None)
    ensures forall k :: k in m && k !in {"type", "status", "last_active"} ==> m[k] != ""
  {
    PutIfSet(OwnFields(t, form, now), "description", form.description)
  }

  /** `if (value) metadata[key] = value`. */
  function PutIfSet(m: Metadata, key: string, value: string): Metadata {
    if value != "" then m[key := value] else m
  }

  /** The fields that depend on the type. */
  function OwnFields(t: EntityType, form: EntityForm, now: string): Metadata {
    if t == Device then
      PutIfSet(map["type" := form.deviceType]["status" := form.status]["last_active" := now], "location", form.location)
    else
      PutIfSet(PutIfSet(PutIfSet(map[], "code", form.code), "manager", form.manager), "address", form.address)
  }

  /** Builds the metadata field by field, as the submit handler does. */
  method BuildMetadata(t: EntityType, form: EntityForm, now: string) returns (m: Metadata)
    ensures m == MetadataFor(t, form, now)
  {
    m := map[];
    if t == Device {
      m := m["type" := form.deviceType];
      m := m["status" := form.status];
      m := m["last_active" := now];
      if form.location != "" {
        m := m["location" := form.location];
      }
    } else {
      if form.code != "" {
        m := m["code" := form.code];
      }
      if form.manager != "" {
        m := m["manager" := form.manager];
      }
      if form.address != "" {
        m := m["address" := form.address];
      }
    }
    if form.description != "" {
      m := m["description" := form.description];
    }
  }

  /** `AddEntityDialog` for one entity type under one parent. */
  class EntityDialog {
    const entityType: EntityType
    const parentId: string
    var open: bool
    var loading: bool
    var form: EntityForm
    var toasts: seq<Toast>
    /** How many times `onEntityAdded` has been called. */
    var notices: nat

    constructor(entityType: EntityType, parentId: string)
      ensures this.entityType == entityType && this.parentId == parentId
      ensures !open && !loading && form == InitialForm && toasts == [] && notices == 0
    {
      this.entityType := entityType;
      this.parentId := parentId;
      open := false;
      loading := false;
      form := InitialForm;
      toasts := [];
      notices := 0;
    }

    /** `resetForm`. */
    method ResetForm()
      modifies this
      ensures form == InitialForm
      ensures open == old(open) && loading == old(loading) && toasts == old(toasts) && notices == old(notices)
    {
      form := InitialForm;
    }

    /**
     * `handleSubmit`. A name of white space only raises an error. Otherwise the row is
     * offered to the store; on success the dialog closes, the form is reset
     * and the parent is notified once; on failure the form is kept. Either
     * way the dialog is no longer loading.
     */
    method HandleSubmit(store: Store, now: string, reply: Reply)
      modifies this, store
      ensures AllWhiteSpace(old(form.name)) ==>
                store.entities == old(store.entities) && store.configs == old(store.configs)
                && open == old(open) && loading == old(loading) && form == old(form) && notices == old(notices)
                && toasts == old(toasts) + [Toast("Error", EntityLabel(entityType) + " name is required", true)]
      ensures !AllWhiteSpace(old(form.name)) && reply.Accepted? ==>
                store.entities == old(store.entities)
                  + [EntityRow(reply.id, Trim(old(form.name)), entityType, Some(parentId), MetadataFor(entityType, old(form), now))]
                && !open && form == InitialForm && notices == old(notices) + 1
                && toasts == old(toasts) + [Toast("Success", EntityLabel(entityType) + " added successfully", false)]
      ensures !AllWhiteSpace(old(form.name)) && reply.Rejected? ==>
                store.entities == old(store.entities)
                && open == old(open) && form == old(form) && notices == old(notices)
                && toasts == old(toasts) + [Toast("Error", "Failed to add " + TypeName(entityType), true)]
      ensures !AllWhiteSpace(old(form.name)) ==> !loading && store.configs == old(store.configs)
    {
      var name := Trim(form.name);
      TrimEmptyIff(form.name);
      if name == [] {
        toasts := toasts + [Toast("Error", EntityLabel(entityType) + " name is required", true)];
        return;
      }
      loading := true;
      var metadata := BuildMetadata(entityType, form, now);
      store.InsertEntity(name, entityType, Some(parentId), metadata, reply);
      if reply.Rejected? {
        toasts := toasts + [Toast("Error", "Failed to add " + TypeName(entityType), true)];
      } else {
        toasts := toasts + [Toast("Success", EntityLabel(entityType) + " added successfully", false)];
        open := false;
        ResetForm();
        notices := notices + 1;
      }
      loading := false;
    }
  }
}
