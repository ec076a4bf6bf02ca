/**
 * The dialog that adds a customer: the customer row, then its hierarchy
 * configuration, and the preset table for the configuration's levels.
 */
module AddCustomerDialog {
  import opened Wrappers
  import opened Text
  import opened HierarchyTypes
  import opened EntityStore
  import opened Notifications

  datatype CustomerForm = CustomerForm(
    name: string,
    customerType: string,
    country: string,
    city: string,
    description: string,
    hierarchyLevels: seq<string>)

  /** The form as first shown and as left after a successful submit. */
  const InitialForm := CustomerForm("", "Bank", "India", "", "", ["zone", "branch"])

  /** The preset keys of the hierarchy selector. */
  const PresetKeys := {"zone-branch", "zone-nbg-ro-branch", "region-branch", "division-region-branch"}

  /**
   * `handleHierarchyChange`'s table: the four presets, and two levels zone
   * then branch for any other key. Every preset has two to four levels and
   * ends with the branch level.
   */
  function HierarchyPreset(key: string): (levels: seq<string>)
    ensures 2 <= |levels| <= 4 && levels[|levels| - 1] == "branch"
    ensures key !in PresetKeys ==> levels == ["zone", "branch"]
  {
    if key == "zone-branch" then ["zone", "branch"]
    else if key == "zone-nbg-ro-branch" then ["zone", "nbg", "ro", "branch"]
    else if key == "region-branch" then ["region", "branch"]
    else if key == "division-region-branch" then ["division", "region", "branch"]
    else ["zone", "branch"]
  }

  /** The initial levels are the "zone-branch" preset, the one an unknown key falls back to. */
  lemma DefaultIsZoneBranch(key: string)
    ensures InitialForm.hierarchyLevels == HierarchyPreset("zone-branch")
    ensures key !in PresetKeys ==> HierarchyPreset(key) == HierarchyPreset("zone-branch")
  {
  }

  /** The region and division presets name levels that are none of the six entity types. */
  lemma PresetLevelsKnownIff(key: string)
    ensures (forall l :: l in HierarchyPreset(key) ==> IsKnown(ParseEntityType(l)))
            <==> key != "region-branch" && key != "division-region-branch"
  {
    if key == "region-branch" || key == "division-region-branch" {
      assert "region" in HierarchyPreset(key);
    }
  }

  /** The metadata of a new customer: all four fields, empty ones included. */
  function CustomerMetadata(form: CustomerForm): Metadata {
    map["type" := form.customerType, "country" := form.country, "city" := form.city, "description" := form.description]
  }

  /** `AddCustomerDialog`. */
  class CustomerDialog {
    var open: bool
    var loading: bool
    var form: CustomerForm
    var toasts: seq<Toast>
    /** How many times `onCustomerAdded` has been called. */
    var notices: nat

    constructor()
      ensures !open && !loading && form == InitialForm && toasts == [] && notices == 0
    {
      open := false;
      loading := false;
      form := InitialForm;
      toasts := [];
      notices := 0;
    }

    /** `handleHierarchyChange`: replaces the levels and nothing else. */
    method HandleHierarchyChange(key: string)
      modifies this
      ensures form == old(form).(hierarchyLevels := HierarchyPreset(key))
      ensures open == old(open) && loading == old(loading) && toasts == old(toasts) && notices == old(notices)
    {
      form := form.(hierarchyLevels := HierarchyPreset(key));
    }

    /**
     * `handleSubmit`. A name of white space only raises an error. Otherwise
     * the customer row is offered first, and the configuration row only
     * once the customer row is stored, under the customer's new id. Only
     * when both are stored does the dialog close, reset and notify; a
     * rejected configuration leaves the customer row in place.
     */
    method HandleSubmit(store: Store, customerReply: Reply, configReply: Reply)
      modifies this, store
      ensures AllWhiteSpace(old(form.name)) ==>
                store.entities == old(store.entities) && store.configs == old(store.configs)
                && open == old(open) && loading == old(loading) && form == old(form) && notices == old(notices)
                && toasts == old(toasts) + [Toast("Error", "Customer name is required", true)]
      ensures !AllWhiteSpace(old(form.name)) ==>
                !loading
                && store.entities == old(store.entities)
                     + (if customerReply.Accepted?
                        then [EntityRow(customerReply.id, Trim(old(form.name)), Customer, None, CustomerMetadata(old(form)))]
                        else [])
                && store.configs == old(store.configs)
                     + (if customerReply.Accepted? && configReply.Accepted?
                        then [ConfigRow(customerReply.id, old(form.hierarchyLevels))]
                        else [])
      ensures !AllWhiteSpace(old(form.name)) && customerReply.Accepted? && configReply.Accepted? ==>
                !open && form == InitialForm && notices == old(notices) + 1
                && toasts == old(toasts) + [Toast("Success", "Customer added successfully", false)]
      ensures !AllWhiteSpace(old(form.name)) && (customerReply.Rejected? || configReply.Rejected?) ==>
                open == old(open) && form == old(form) && notices == old(notices)
                && toasts == old(toasts) + [Toast("Error", "Failed to add customer", true)]
    {
      var name := Trim(form.name);
      TrimEmptyIff(form.name);
      if name == [] {
        toasts := toasts + [Toast("Error", "Customer name is required", true)];
        return;
      }
      loading := true;
      store.InsertEntity(name, Customer, None, CustomerMetadata(form), customerReply);
      if customerReply.Rejected? {
        toasts := toasts + [Toast("Error", "Failed to add customer", true)];
        loading := false;
        return;
      }
      store.InsertConfig(customerReply.id, form.hierarchyLevels, configReply);
      if configReply.Rejected? {
        toasts := toasts + [Toast("Error", "Failed to add customer", true)];
      } else {
        toasts := toasts + [Toast("Success", "Customer added successfully", false)];
        open := false;
        form := InitialForm;
        notices := notices + 1;
      }
      loading := false;
    }
  }
}
