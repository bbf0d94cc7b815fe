# K-8 Common Core standards browser: selection state machine

This project models the selection and expansion logic of a browser for the
K-8 Common Core mathematics standards. The catalog is a read-only hierarchy:
grade, domain, cluster, standard, sub-standard. The browser keeps one
selection record. That record holds the chosen grade, domain, cluster,
standard and sub-standard, with their names, codes and texts copied in. It
also holds three independent expansion slots, one each for the open domain,
cluster and standard. Clicks in the navigation tree toggle those slots or
select a node. Selecting a node clears every selection below it. The
breadcrumb, the preview panel and the tree labels are all computed from the
record.

Modules:

- `Catalog` (`Catalog.dfy`) holds the catalog records. Each JSON object is an
  ordered sequence of `(key, record)` pairs, in the order `Object.entries`
  yields them. It also has keyed lookup (`Lookup`, read as `object[key]`),
  `getDomainData`, and `getClusterData` with its composite `domain.key` id.
- `CodeSearch` (`CodeSearch.dfy`) has `getStandardData` and
  `getSubStandardData`. Each is a method with nested loops and early return.
  Each is proved equal to "the first record with this code" in the flattened
  domain → cluster → standard (→ sub-standard) order.
- `SelectionState` (`Selection.dfy`) defines the selection record. It also
  defines the predicates for cascading resets and frames, and the invariants
  `Paired` and `Coherent`.
- `Transitions` (`Transitions.dfy`) gives every user action as a function
  from the old record to the new one. Each contract says which fields change,
  which are cleared and which are left alone. It also says the action
  preserves `Coherent`.
- `Browser.Navigator` (`Navigator.dfy`) is the mutable `currentSelection`. It
  is a class whose methods update the record one field per statement, as the
  handlers do. Each method is proved to produce the matching `Transitions`
  function of the old record.
- `Views` (`Views.dfy`) holds the breadcrumb parts and their rendering, the
  choice of preview, and `getNavLabel`. JavaScript truthiness is modelled
  explicitly: `null` and `""` both count as absent.
- `Scenarios` (`Scenarios.dfy`) shows what the breadcrumb and the preview
  display after the actions.

Behaviour kept from the code as written:

- Collapsing a domain, cluster or standard never deselects it.
- Choosing a grade rebuilds the record without the expansion keys, so all
  three slots become null.
- Selecting a standard that has no sub-standards leaves every expansion slot
  alone. An earlier open standard therefore stays open next to a different
  selected standard. This is why `Coherent` ties the open domain and cluster
  to the selected ones but says nothing about the open standard.
- Start-up always sets the grade name to "Kindergarten". It does not use the
  name stored in the catalog.
- Code lookups return the first match in scan order. Codes are not assumed to
  be unique.
- An action that names an id missing from the catalog does not leave the
  record untouched. The code throws part-way, after some fields are already
  written. For example, `expandedDomain` is set before the domain record is
  dereferenced. So the model makes a present id a precondition of that action
  (`requires`), rather than claiming an atomic no-op.

## Model

| member | source | states |
|---|---|---|
| `Catalog.Lookup` | script.js:112 | `object[key]` finds a record exactly when some entry has the key, and the record it returns is stored under that key |
| `Catalog.LookupUnique` | script.js:780 | when an object's keys are distinct, the lookup returns the one record stored under the key |
| `Catalog.FirstIndex` | script.js:804-808 | a front-to-back scan stops at an element with the key and no earlier element has it; it finds none only when no element has it |
| `Catalog.FirstIndexIs` | script.js:804-808 | any position holding the key with no match before it is the position the scan stops at |
| `Catalog.FirstAfterMisses` | script.js:804-808 | after a run of misses, the first hit is the element returned |
| `Catalog.GradeData` | script.js:795-796 | the selected grade's data is found only when a grade is selected and the catalog holds it; otherwise no grade carries that id |
| `Catalog.GetDomainData` | script.js:779-781 | a domain is found only inside the selected grade, under its id; a miss in a present grade means no domain has that id |
| `Catalog.BeforeDot` | script.js:787 | the first piece of `split('.')` is a dot-free prefix, ending right before the first dot |
| `Catalog.SplitClusterId` | script.js:787 | `split('.')` gives the text up to the first dot as the domain id, then the dot-free text up to the next dot (or the end) as the cluster key; the key is missing exactly when the id has no dot |
| `Catalog.SplitClusterIdRoundTrip` | script.js:331 | splitting `domainId + "." + key` gives back the domain id and key when neither contains a dot |
| `Catalog.BeforeDotOfPrefix` | script.js:787 | the text before the first dot of `d + "." + rest` is `d` when `d` has no dot |
| `Catalog.GetClusterData` | script.js:786-789 | a cluster is found only under the key from the id's second piece, in the domain named by its first piece, in the selected grade |
| `Catalog.ClusterDataOfClusterId` | script.js:330-334 | the composite id the tree renders resolves, through `getClusterData`, to that domain's cluster under that key |
| `Catalog.StoredDomainIsFound` | script.js:779-781 | when every object has distinct keys, `getDomainData` returns exactly the domain stored under its id in the selected grade |
| `Catalog.StoredClusterIsFound` | script.js:786-789 | when every object has distinct keys, the rendered id of a stored cluster resolves to exactly that cluster |
| `CodeSearch.FlattenAppend` | script.js:798-810 | the scan order over a concatenation is the two orders one after the other |
| `CodeSearch.FlattenAround` | script.js:798-810 | the scan order places a record's children between those of the records before and after it |
| `CodeSearch.StandardData` | script.js:794-813 | the result has the queried code and belongs to the selected grade; there is no result exactly when no grade is selected or no standard of the grade has the code |
| `CodeSearch.GetStandardData` | script.js:794-813 | the nested `for…of` scan with early return gives the first standard with the code, in domain → cluster → standard order, or nothing |
| `CodeSearch.StandardHit` | script.js:804-808 | a hit at domain i, cluster j, standard k, with misses at every earlier position, is the first match of the whole grade |
| `CodeSearch.StandardFoundWhenPresent` | script.js:798-812 | every standard stored anywhere in the selected grade is found by its own code |
| `CodeSearch.SubStandardData` | script.js:818-841 | the result has the queried code and belongs to the selected grade; there is no result exactly when no grade is selected or no sub-standard has the code |
| `CodeSearch.GetSubStandardData` | script.js:818-841 | the four-deep scan gives the first sub-standard with the code, skipping standards without sub-standards, or nothing |
| `CodeSearch.SubStandardHit` | script.js:829-835 | a hit at position (i, j, k, m), with misses at every earlier position, is the first match of the whole grade |
| `CodeSearch.SubStandardFoundWhenPresent` | script.js:820-840 | every sub-standard stored under any standard of the selected grade is found by its own code |
| `Transitions.DomainSelected` | script.js:431-441 | `selectDomain` sets domain and name, clears every cluster, standard and sub-standard field, and keeps grade and expansion; it preserves `Paired` |
| `Transitions.ClusterSelected` | script.js:451-461 | `selectCluster` sets cluster and name, clears every standard and sub-standard field, and keeps grade, domain and expansion |
| `Transitions.StandardSelected` | script.js:471-477 | `selectStandard` sets `standard = standardCode = code` and the text, clears the sub-standard fields, and keeps the rest |
| `Transitions.SubStandardSelected` | script.js:487-490 | `selectSubStandard` sets `subStandard = subStandardCode = code` and the text, and changes no other field |
| `Transitions.InitialSelection` | script.js:92-105 | start-up selects grade "K" named "Kindergarten"; if domain "CC" exists it is opened and selected, with deeper levels cleared; otherwise nothing else changes |
| `Transitions.GradeChanged` | script.js:110-133 | an unknown grade leaves the record unchanged; a known one gives grade and catalog name with every other field, all three expansion slots included, null |
| `Transitions.DomainClicked` | script.js:172-183 | a click on the open domain only closes it; another domain is opened and selected, all deeper selection is cleared, and the cluster and standard slots are closed |
| `Transitions.ClusterClicked` | script.js:192-202 | never touches grade, domain or the domain slot; a click on the open cluster only closes it; another is opened and selected, deeper selection cleared, standard slot closed |
| `Transitions.StandardClicked` | script.js:211-231 | without sub-standards it always selects and keeps all three slots; with them, a click on the open standard only closes it and any other opens and selects it |
| `Transitions.DomainClickedTwice` | script.js:173-179 | clicking a closed domain twice leaves it closed but still selected |
| `Transitions.StandardClickedTwice` | script.js:214-223 | for a standard with sub-standards, the first click opens and selects it; the second closes it and keeps the selection |
| `Browser.Navigator.constructor` | script.js:8-25 | the session starts with every field of the record null |
| `Browser.Navigator.SelectInitialStandard` | script.js:92-105 | the new record is `InitialSelection` of the old one |
| `Browser.Navigator.HandleGradeChange` | script.js:110-133 | the new record is `GradeChanged` of the old one |
| `Browser.Navigator.HandleDomainClick` | script.js:172-183 | the field-by-field updates produce `DomainClicked` of the old record |
| `Browser.Navigator.HandleClusterClick` | script.js:192-202 | the field-by-field updates produce `ClusterClicked` of the old record |
| `Browser.Navigator.HandleStandardClick` | script.js:211-231 | after the scan, the field-by-field updates produce `StandardClicked` of the old record |
| `Browser.Navigator.HandleSubStandardClick` | script.js:163-164 | a sub-standard click selects the record that its code scans to |
| `Browser.Navigator.SelectDomain` | script.js:431-441 | the ten field writes produce `DomainSelected` of the old record |
| `Browser.Navigator.SelectCluster` | script.js:451-461 | the eight field writes produce `ClusterSelected` of the old record |
| `Browser.Navigator.SelectStandard` | script.js:471-477 | the six field writes produce `StandardSelected` of the old record |
| `Browser.Navigator.SelectSubStandard` | script.js:487-490 | the three field writes produce `SubStandardSelected` of the old record |
| `Views.Crumbs` | script.js:745-754 | exactly the truthy values among grade name, domain name, cluster name and standard code, each at its position in that order, then the sub-standard code when it is truthy and differs from the standard code; none exactly when nothing is truthy |
| `Views.SubStandardEqualToStandardAddsNothing` | script.js:752 | a sub-standard code equal to the standard code is not added to the trail again |
| `Views.RenderBreadcrumb` | script.js:756-764 | no parts gives the placeholder with the prompt "Select a grade to begin"; otherwise one item per part in order, and only the last item is marked current |
| `Views.GenerateBreadcrumb` | script.js:745-765 | the sequence of conditional pushes builds exactly `Crumbs`, then renders it |
| `Views.PreviewOf` | script.js:551-573 | the preview shown is one the record can show, and no deeper one can be shown (welcome when no grade is chosen) |
| `Views.Prefix` | script.js:773 | `substring(0, n)` is a prefix whose length is `n` clamped into the string's bounds |
| `Views.NavLabel` | script.js:770-774 | a name in the table gives its short label; otherwise a name no longer than the limit is unchanged; otherwise the result is the name's start plus "...", of length `max(maxLength, 3)` |
| `Views.NavLabelFits` | script.js:770 | with the default limit of 25, every label fits in 25 characters, table entries included |
| `Scenarios.InitialViews` | script.js:92-105 | after start-up with a "CC" domain, the trail is "Kindergarten", then the domain name, and the domain preview is shown |
| `Scenarios.GradeChangedViews` | script.js:120-137 | after switching to a known grade, the trail is just the grade name and the grade preview is shown |
| `Scenarios.SubStandardSelectedCrumbs` | script.js:752-754 | selecting a sub-standard adds its code at the end of the trail only when it differs from the standard's code |
| `Scenarios.SubStandardSelectedPreview` | script.js:562-563 | a selected sub-standard with text is what the preview shows, whatever else is selected |

## Left out

- Loading the catalog (`init`, `loadStandardsData`, `showError`) is left out: it is a network fetch, JSON parsing and error display. The catalog is a parameter of the model.
- Event wiring is left out: `setupEventListeners`, and the DOM `closest`/`dataset` reads in `handleNavClick`. Only the sub-standard branch of that dispatch is modelled, as `HandleSubStandardClick`; the other branches call the modelled handlers directly.
- Markup generation is left out: `generateNavHTML`, `generate*HTML`, `generate*Preview`, and the `update*` writes to `innerHTML`. Only the preview choice and the breadcrumb items are modelled, not their HTML. The re-renders that every setter triggers are not modelled either.
- Keyboard and focus handling is left out (`handleKeyboard`, `handleGlobalKeyboard`, `focusNextItem`, `focusPreviousItem`). It is DOM focus mechanics.
- `expandItem`, `collapseItem` and `toggleExpansion` are left out. They flip DOM attributes and never touch the selection record.
- Setting the grade selector's displayed value at start-up is left out; it is a DOM write.
- The unused `split` in `selectCluster` is not modelled. It has no effect.
- Property-name coercion is not modelled. JavaScript reads `grades[null]` as the key `"null"`, and `clusters[undefined]` as the key `"undefined"`. Names inherited from `Object.prototype` (such as `"constructor"`) resolve to non-record values. The model treats all of these as not found; for `navLabels`, as a table miss.
- The catalog's sequences are taken in `Object.entries` order as given. The engine's rule of listing integer-like keys first is not re-derived.
- `domains` is modelled as always present. A grade without it makes `getDomainData` and both scans throw.
- A missing `clusters` or `standards` object is modelled as an empty one. The scans skip both the same way, but `getClusterData` would throw on a missing `clusters`.
- Record texts that may be absent in the data (`text` of a standard or sub-standard) are modelled as strings that are always present.
- An action whose id is not in the catalog is excluded by `requires`. The code throws part-way through such an action, leaving a partly updated record, and that partial state is not modelled. This covers `Browser.Navigator.HandleDomainClick`, `HandleClusterClick`, `HandleStandardClick`, `HandleSubStandardClick` and `SelectInitialStandard` (a missing grade "K").
- `Views.NavLabel` and `Views.Prefix` count lengths and cut points in Unicode characters. JavaScript's `length` and `substring` count UTF-16 code units, so a name with a character above U+FFFF is measured and cut differently, and JavaScript can even cut it inside a surrogate pair.
