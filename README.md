# Banking security admin dashboard — view logic in Dafny

This project models the deterministic view logic of a React dashboard that
administers banks' security devices. Customers (banks) are organised into
zones, NBGs, ROs, branches and devices. The logic covered is:

- **DataTable**: the generic table. It searches rows case-insensitively over
  every column. It keeps a sorted copy of the survivors. Its header cycles
  unsorted → ascending → descending → unsorted.
- **HierarchyTreeView**: the organisation tree.
  - A two-level search decides which children and nodes are drawn.
  - Each node gets a badge.
  - Levels 0 and 1 start expanded.
- **HierarchyDetailPanel**: the detail panel of a selected node.
  - The fixed child-type table customer → zone → branch → device and
    nbg → ro → branch.
  - The add button's text and disabled state.
  - The column set of the children's table.
  - The "Total Items" and "Active" cards.
- **MockData**: the demonstration data.
  - Two banks, 8 branches and 4 devices per branch.
  - `getAllDevices` and `getDashboardSummary`, which walk
    bank → zone → (branches | nbgs → ros → branches) → devices.
  - A zone's own branch list takes precedence over its NBGs.
- **AddEntityDialog**: the dialog that adds an entity. It validates the name,
  builds type-dependent metadata, inserts the row into the `entities` table,
  and resets, closes and notifies after success.
- **AddCustomerDialog**: the dialog that adds a customer. It inserts the
  customer row, then the `hierarchy_configs` row only if the first insert
  succeeded. It also holds the hierarchy preset table.
- **AppSidebar**: the sidebar.
  - The menu built from the two role tests.
  - Route highlighting as a prefix test.
  - The portal title and subtitle.

Modules:

| file | module | form |
|---|---|---|
| wrappers.dfy | `Wrappers` | `Option` |
| text.dfy | `Text` | ASCII `toLowerCase`, `includes`, `startsWith`, `trim`, number to text |
| seqs.dfy | `Seqs` | `filter`, a stable sort by comparator, nested concatenation |
| hierarchy_types.dfy | `HierarchyTypes` | entity types, metadata, tree nodes |
| data_table.dfy | `DataTable` | pure filter/sort functions and a `DataTableView` class holding `searchTerm` and `sortConfig` |
| hierarchy_tree_view.dfy | `HierarchyTreeView` | pure functions; rendering as a recursive function producing a view tree |
| hierarchy_detail_panel.dfy | `HierarchyDetailPanel` | pure lookup tables and counts |
| mock_data.dfy | `MockData` | the fixed data as functions; the walks as methods with loops, proved against `ConcatMap` specifications |
| entity_store.dfy | `EntityStore` | a `Store` class with the `entities` and `hierarchy_configs` tables |
| toast.dfy | `Notifications` | the toast record |
| add_entity_dialog.dfy | `AddEntityDialog` | metadata function and builder method; an `EntityDialog` class |
| add_customer_dialog.dfy | `AddCustomerDialog` | preset table; a `CustomerDialog` class |
| app_sidebar.dfy | `AppSidebar` | role and title functions; the menu as a method pushing onto a list |

Not modelled and treated as parameters:

- The backend. Each insert takes the backend's answer, `Accepted(id)` or
  `Rejected(error)`, as a parameter.
- The clock. The current time is a string parameter.
- Randomness. The random draws of the demonstration data are a function
  from device id to a `Sample` (status, last-active time, IP address).
- The toast hook and the `onEntityAdded` / `onCustomerAdded` callbacks. They
  are recorded on the dialog objects as a list of toasts and a count of
  notifications.

Where the code departs from what the program evidently intends, the model follows the code:

- The child type of a node comes from a fixed table, not from the
  customer's stored `hierarchy_levels`. `AddCustomerDialog.PresetLevelsKnownIff`
  shows that the region and division presets name levels the views do not
  know.
- A zone with an empty `branches` array never reaches its NBGs, because an
  empty array is truthy.
- A missing device status is "offline" in the tree's badge but "online" in
  the panel's table and Active card
  (`HierarchyDetailPanel.MissingStatusReadsDifferently`).
- If the configuration insert is rejected after the customer row is stored,
  the customer row stays without a configuration. The dialog reports
  "Failed to add customer" and keeps the form.

## Model

| member | source | states |
|---|---|---|
| Text.IncludesIffOccurs | src/components/DataTable.tsx:43 | `includes` holds exactly when the term occurs at some index of the text |
| Text.TrimEmptyIff | src/components/AddEntityDialog.tsx:74 | the trimmed name is empty exactly when the name is all white space |
| Text.TrimShape | src/components/AddEntityDialog.tsx:104 | `trim` returns a slice of the input with white space removed from both ends and none left at either end |
| HierarchyTypes.ParseThenName | src/integrations/supabase/types.ts:136 | a stored type string reads back unchanged, known or not |
| HierarchyTypes.NameThenParse | src/types/hierarchy.ts:35 | each of the six known types survives storing and reading back |
| DataTable.FilterRowsSpec | src/components/DataTable.tsx:41-45 | the search result is an order-preserving subsequence of the data; a row is kept iff some column's lower-cased text contains the lower-cased term; each matching row is kept as many times as it occurs in the data |
| DataTable.EmptySearchKeepsAll | src/components/DataTable.tsx:41-45 | an empty term keeps every row when there is at least one column |
| DataTable.NoColumnsKeepsNothing | src/components/DataTable.tsx:42 | with no columns no row survives, because `some` over nothing is false |
| DataTable.MissingKeyMatchesUndefined | src/components/DataTable.tsx:43 | a column key the row lacks reads as "undefined", so any term contained in "undefined" keeps the row |
| DataTable.SortRowsPermutes | src/components/DataTable.tsx:48 | the sorted copy is a permutation of the filtered rows |
| DataTable.UnsortedKeepsOrder | src/components/DataTable.tsx:49 | with no sort column the order is unchanged |
| DataTable.ComparatorIsPreorder | src/components/DataTable.tsx:51-57 | on a key column holding only strings or only numbers, the comparator is a total preorder |
| DataTable.AscendingSortIsNonDecreasing | src/components/DataTable.tsx:55-57 | ascending: no later row's key is below an earlier row's key |
| DataTable.DescendingSortIsNonIncreasing | src/components/DataTable.tsx:55-57 | descending: no later row's key is above an earlier row's key |
| DataTable.CompareAtMostZero | src/components/DataTable.tsx:55-57 | the comparator ranks a before b iff b's key does not strictly precede a's in the chosen direction |
| DataTable.StrLessTransitive | src/components/DataTable.tsx:55 | string `<` is transitive |
| DataTable.StrLessTotal | src/components/DataTable.tsx:55 | two strings are equal or one is `<` the other |
| DataTable.ThreeClicksCycle | src/components/DataTable.tsx:60-70 | three clicks on a header restore that column's sort state, and clear another column's |
| DataTable.DataTableView.HandleSort | src/components/DataTable.tsx:60-70 | a new key or no sort gives ascending; ascending gives descending; descending clears the sort |
| DataTable.DataTableView.ClickHeader | src/components/DataTable.tsx:128 | only a sortable column's header changes the sort |
| DataTable.DataTableView.SetSearchTerm | src/components/DataTable.tsx:92 | typing replaces the search term and nothing else |
| DataTable.DataTableView.constructor | src/components/DataTable.tsx:34-38 | a new table has an empty term and no sort |
| DataTable.DisplayedAtMostTotal | src/components/DataTable.tsx:174 | "Showing n of m": n never exceeds m |
| DataTable.FreshTableShowsAll | src/components/DataTable.tsx:34-58 | a table with columns, no term and no sort shows its data as given |
| HierarchyTreeView.FilteredChildren | src/components/HierarchyTreeView.tsx:39-45 | every kept child is one of the node's children |
| HierarchyTreeView.FilteredChildrenSpec | src/components/HierarchyTreeView.tsx:39-45 | the kept children are an order-preserving subsequence; a child is kept iff the term is empty, its name matches, or a direct child's name matches; each kept child is kept as many times as it occurs |
| HierarchyTreeView.EmptyTermKeepsEverything | src/components/HierarchyTreeView.tsx:39-49 | an empty term keeps every child and shows the node |
| HierarchyTreeView.ShowIff | src/components/HierarchyTreeView.tsx:47-51 | a node is shown iff the term is empty, its name matches, or some child is kept |
| HierarchyTreeView.KeepChildSeesTwoLevels | src/components/HierarchyTreeView.tsx:40-44 | whether a child is kept depends only on its name and its children's names |
| HierarchyTreeView.DeepMatchIsNotShown | src/components/HierarchyTreeView.tsx:40-44 | a match three levels down does not show the customer |
| HierarchyTreeView.KeptChildIsShown | src/components/HierarchyTreeView.tsx:39-51 | every kept child renders something |
| HierarchyTreeView.NodeStats | src/components/HierarchyTreeView.tsx:53-73 | a device gets a status badge whose text is its status, or "offline" when unset, highlighted iff "online"; another node gets a count badge iff its child count is non-zero, showing that count and CountUnit of its type |
| HierarchyTreeView.CountUnitCases | src/components/HierarchyTreeView.tsx:66-68 | the unit is "zones" iff customer, "branches" iff zone, "devices" iff branch, and "items" for every other type |
| HierarchyTreeView.RenderIsWellFormed | src/components/HierarchyTreeView.tsx:154-167 | a shown node renders; every rendered node starts open iff its level is below 2, and its children are rendered one level deeper |
| HierarchyTreeView.NoMatchDrawsNothing | src/components/HierarchyTreeView.tsx:184-226 | when no root matches, the tree draws only empty slots and no "No customers found" message |
| HierarchyDetailPanel.EntityTypeLabel | src/components/HierarchyDetailPanel.tsx:58-68 | a known type's label lower-cases to its stored name; any other type is shown as is |
| HierarchyDetailPanel.ChildChainEnds | src/components/HierarchyDetailPanel.tsx:70-80 | four steps down the child-type table reach "no child" from every type |
| HierarchyDetailPanel.ChildChainLongest | src/components/HierarchyDetailPanel.tsx:70-80 | customer and nbg are three steps above device, so four steps are needed |
| HierarchyDetailPanel.ChildTypeIsKnown | src/components/HierarchyDetailPanel.tsx:70-80 | only known types have a child type, and it is a known type |
| HierarchyDetailPanel.AddButtonTextSpec | src/components/HierarchyDetailPanel.tsx:82-86 | the text is "Add Item" iff there is no child type, else "Add " and the child's label |
| HierarchyDetailPanel.AddButtonDisabledIff | src/components/HierarchyDetailPanel.tsx:264-266 | among the six types, the button is disabled iff the node is a device |
| HierarchyDetailPanel.ColumnsSpec | src/components/HierarchyDetailPanel.tsx:88-229 | five columns; the device set when there is no child type; otherwise the count column reads "Devices" iff the children are devices; actions last |
| HierarchyDetailPanel.ColumnKeysDistinct | src/components/HierarchyDetailPanel.tsx:88-229 | no two columns of either column set, actions included, share a key |
| HierarchyDetailPanel.ActiveAtMostTotal | src/components/HierarchyDetailPanel.tsx:287-303 | Active never exceeds Total Items, and equals it iff every child is active |
| HierarchyDetailPanel.ActiveIffStatusCellOnline | src/components/HierarchyDetailPanel.tsx:301-303 | a child is counted active iff its Status cell reads "online" |
| HierarchyDetailPanel.MissingStatusReadsDifferently | src/components/HierarchyDetailPanel.tsx:121 | a device without a status is "offline" in the tree's badge, but "online" and active in the panel |
| HierarchyDetailPanel.UndefinedSearchKeepsAllChildren | src/components/HierarchyDetailPanel.tsx:229-230 | the actions key is never a row key, so a term contained in "undefined" keeps every child in the table |
| MockData.CreateMockDevices | src/data/mockData.ts:4-45 | four devices whose ids are the branch code with the atm, pos, cam and srv tags, in that order |
| MockData.MockDeviceIdInjective | src/data/mockData.ts:6-36 | a device id determines its branch code and its tag |
| MockData.MockDeviceIdsDistinct | src/data/mockData.ts:4-45 | the four ids of one branch are pairwise distinct |
| MockData.BranchesTakePrecedence | src/data/mockData.ts:234-239 | a zone with a branch list contributes exactly that list, even an empty one |
| MockData.AllDevicesOfVisitedBranches | src/data/mockData.ts:229-253 | the device list is the concatenation of the visited branches' device lists; its length is the sum of their sizes |
| MockData.PushBranchDevices | src/data/mockData.ts:236-238 | the branch loop appends each branch's devices in order |
| MockData.PushNbgDevices | src/data/mockData.ts:241-247 | the nbg and ro loops append the devices of every branch below, in order |
| MockData.PushZoneDevices | src/data/mockData.ts:234-248 | one zone appends its branches' devices when it has a branch list, else its NBGs' devices |
| MockData.GetAllDevices | src/data/mockData.ts:229-253 | the result is the devices of the visited branches, in bank, zone and branch order |
| MockData.CountZoneBranches | src/data/mockData.ts:263-271 | one zone adds the number of branches the device walk visits in it |
| MockData.CountBranches | src/data/mockData.ts:260-273 | the total is the number of branches the device walk visits |
| MockData.GetDashboardSummary | src/data/mockData.ts:256-283 | online ≤ total, online + offline = total, branches = visited branches, users = user count |
| MockData.FixedDataTotals | src/data/mockData.ts:48-226 | whatever the random draws, the data has 8 branches, 32 devices and 3 users |
| MockData.FourDevicesEach | src/data/mockData.ts:4-45 | branches of four devices each contribute four devices apiece |
| AddEntityDialog.EntityLabelAgreesWithPanel | src/components/AddEntityDialog.tsx:47-57 | the dialog labels the six types as the panel does; any other type reads "undefined" |
| AddEntityDialog.MetadataFor | src/components/AddEntityDialog.tsx:85-99 | a device always has type, status and last_active and never code, manager or address; other types the reverse; each optional field (location, code, manager, address, description) holds the form's value when that is non-empty and is absent otherwise |
| AddEntityDialog.BuildMetadata | src/components/AddEntityDialog.tsx:85-99 | the field-by-field construction yields exactly that metadata |
| AddEntityDialog.EntityDialog.ResetForm | src/components/AddEntityDialog.tsx:59-70 | the form returns to its defaults (ATM, online, other fields empty) and nothing else changes |
| AddEntityDialog.EntityDialog.HandleSubmit | src/components/AddEntityDialog.tsx:72-130 | a blank name only adds an error toast. Otherwise: on acceptance the store gains the row (trimmed name, type, parent id, metadata), and the dialog closes, resets and notifies once. On rejection only the store is unchanged and a failure toast is added. Loading ends false either way |
| AddEntityDialog.EntityDialog.constructor | src/components/AddEntityDialog.tsx:33-44 | closed, not loading, default form |
| EntityStore.Store.InsertEntity | src/components/AddEntityDialog.tsx:101-108 | an accepted insert appends the row under the backend's id; a rejected one changes nothing |
| EntityStore.Store.InsertConfig | src/components/AddCustomerDialog.tsx:68-73 | an accepted insert appends the configuration row; a rejected one changes nothing |
| AddCustomerDialog.HierarchyPreset | src/components/AddCustomerDialog.tsx:104-112 | every preset has two to four levels and ends with branch; an unknown key gives zone, branch |
| AddCustomerDialog.DefaultIsZoneBranch | src/components/AddCustomerDialog.tsx:105-111 | the initial levels equal the zone-branch preset, which is also the fallback |
| AddCustomerDialog.PresetLevelsKnownIff | src/components/AddCustomerDialog.tsx:105-110 | all of a preset's levels are known entity types iff it is not a region or division preset |
| AddCustomerDialog.CustomerDialog.HandleHierarchyChange | src/components/AddCustomerDialog.tsx:104-112 | replaces the form's levels by the preset and nothing else |
| AddCustomerDialog.CustomerDialog.HandleSubmit | src/components/AddCustomerDialog.tsx:35-102 | a blank name only adds an error toast. Otherwise the customer row (trimmed name, type customer, no parent, four metadata fields) is inserted. The configuration row under the new id is inserted only after the customer is accepted. Close, reset and notify happen only when both are accepted. A rejected configuration leaves the customer row |
| AddCustomerDialog.CustomerDialog.constructor | src/components/AddCustomerDialog.tsx:23-32 | closed, not loading, form at its defaults |
| AppSidebar.UserRole | src/hooks/useAuth.tsx:52 | the role is the profile's non-empty role, else "user" |
| AppSidebar.IsActiveRoute | src/components/AppSidebar.tsx:41-43 | a route is active iff its path is a prefix of the location |
| AppSidebar.ActiveRouteIgnoresSegments | src/components/AppSidebar.tsx:41-43 | "/users" is active on "/users-archive" but not on "/user" |
| AppSidebar.GetMenuItems | src/components/AppSidebar.tsx:46-142 | Home and Dashboards first and the advanced group last. Users iff super or customer admin. The super admin's exact list and submenus. Otherwise the exact list home, dashboards, entities, hierarchy, then users for a customer admin only, then advanced, with devices as the only entity and no system configuration. Ids distinct |
| AppSidebar.SuperAdminMenu | src/components/AppSidebar.tsx:66-101 | the super admin's pushed list has the six ids in order, the full entities and advanced submenus, and distinct ids |
| AppSidebar.PortalMenu | src/components/AppSidebar.tsx:102-139 | the other roles' pushed list is exactly home, dashboards, entities, hierarchy, users (customer admin only), advanced, with the reduced submenus and distinct ids |
| AppSidebar.HeaderTiersAgree | src/components/AppSidebar.tsx:146-156 | the title and the subtitle always name the same tier |
| AppSidebar.RolesExclusive | src/components/AppSidebar.tsx:146-156 | the two admin tests never both hold; without a role the plain portal title is shown |

## Left out

- Text.Lower: only ASCII letters are lower-cased; Unicode case mapping is not modelled.
- Text.Trim: white space is ASCII white space plus no-break space, the byte-order mark and the line and paragraph separators; the other Unicode space separators are not modelled.
- DataTable.Less: JavaScript's `<` between values of different kinds (string against number, `null`, `undefined`, objects) is treated as unordered. Sortedness is proved only for key columns holding only strings or only numbers; permutation is proved for all.
- DataTable.StrLess: strings compare by code point, not by UTF-16 code unit; the two differ only above the Basic Multilingual Plane.
- DataTable.Stringify: arrays are not modelled as cell values. Objects (such as `metadata`) stringify to "[object Object]", and numbers are integers only.
- DataTable.SortRows: `Array.prototype.sort` is modelled as a stable insertion sort. Its result under an inconsistent comparator (mixed kinds) is engine-defined.
- HierarchyDetailPanel.EntityTypeLabel: keys inherited from `Object.prototype` (such as "constructor") are not looked up, so they fall back to the raw type.
- AddCustomerDialog.HierarchyPreset: keys inherited from `Object.prototype` fall back to the default too.
- HierarchyDetailPanel.ChildEntityType: an unrecognised type that names an `Object.prototype` member (such as "constructor") finds an inherited function in the child table, which is truthy. The model gives such a type no child.
- HierarchyDetailPanel.AddButtonText: for those inherited keys the button would read "Add " followed by the function's source text. The model shows "Add Item".
- HierarchyDetailPanel.AddButtonDisabled: for those inherited keys the button would be enabled. The model disables it.
- HierarchyDetailPanel.TableColumns: for those inherited keys the table would use the non-device column set. The model uses the device columns.
- AddEntityDialog.EntityLabel: for those inherited keys the label would be the function's source text. The model shows "undefined".
- HierarchyTypes.Node: `metadata` is a map of strings; non-string metadata values are not modelled.
- The tree builder that attaches `children` and `childCount`, and the breadcrumb resolver, are not part of this model.
- Child types come from the fixed table; `hierarchy_levels` is stored but not read by any modelled view.
- MockData.Sample: `Math.random`, `Date.now` and `toISOString` are replaced by a sampler and time parameters. The users' `lastLogin` timestamps are not modelled.
- MockData.PushNbgDevices: each `forEach` callback becomes a loop, or a method holding one. The closures' shared `devices` array is threaded through as a value.
- AddEntityDialog.EntityDialog.HandleSubmit: `loading` is true only while the insert is awaited. The model shows only its final value, false. `console.error` is not modelled.
- AddCustomerDialog.CustomerDialog.HandleSubmit: `loading` is modelled as for the entity dialog.
- EntityStore.Store: the backend's own columns (`created_at`, `updated_at`, generated ids) and its constraints are not modelled; the id of an accepted row is the backend's answer.
- Rendering: JSX, icons, CSS classes, cell formatting beyond the Status cell, and the dashboard percentage (a floating-point division) are not modelled.
- Authentication: sign-in, the session listener and profile fetching are not modelled. The session is an input to the sidebar.
