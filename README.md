# Action items of an admin resource, in Dafny

This project models the action-item registry that every ActiveAdmin resource carries
(`lib/active_admin/resource/action_items.rb`). An action item is a contextual link on an admin
screen (New, Edit, Delete, or anything the application registers). It has display options
(`:only` / `:except` controller actions) and a render block. The registry has four parts:

- an ordered list of items, created empty on first read and grown by appending;
- a one-shot latch that installs the three default items (New, Edit, Destroy) on the first call
  of `action_items_for`, after whatever was registered before it, and never again, not even
  after the list is cleared;
- the filter of `action_items_for`, which keeps the items whose display test accepts the current
  controller action, in registration order;
- a table of suppression rules, one per default kind, each with an `:if` and/or `:unless`
  callback. `default_action_disabled?` consults `:if` first and, only without it, the negation
  of `:unless`. The block of each default item renders its link only when the controller exposes
  the matching action and the rule does not disable it. New passes no record to the rule; Edit
  and Destroy pass the current record.

Files:

- `wrappers.dfy`: `Option`, standing for Ruby's `nil`.
- `action_items.dfy`: module `ActionItems`. It holds the item and rule datatypes, the filter
  `Select` and its lemmas, the default items, the rule semantics and the class `Resource`. The
  class has the three instance variables of the Ruby module as fields, and each operation is a
  method with a `modifies` frame.
- `requests.dfy`: module `Requests`. Each method runs a short series of calls on a fresh
  `Resource` and states what the caller observes.

The display test `display_on?` belongs to the optional-display helper, which is not part of this
model. Every operation takes it as a parameter `displayOn`. Where a property depends on it, the
requirement `FollowsDocumentedOptions` states only what the registry's own documentation
(`action_items.rb:21-25`) promises. An item given only `:only` shows exactly on those actions. An
item given only `:except` shows on every other action.

The `:if` / `:unless` callbacks are functions of the optional record (`Option<Record> -> bool`).
`Record` is an opaque type. The controller's `action_methods` is a set of action names passed to
the render guard.

Rules are stored under `type.to_s` (line 55) but looked up with `type` unconverted (lines 60-62).
A symbol passed to the lookup would therefore miss a rule stored for the same name. Every caller
in the file passes strings (lines 72, 79, 86), so the model keys the table by strings throughout.

## Model

| member | source | states |
|---|---|---|
| ActionItems.Select | lib/active_admin/resource/action_items.rb:41 | the items shown on an action are exactly the registered items whose display test accepts it (both directions), and there are never more of them than registered items |
| ActionItems.SelectAppend | lib/active_admin/resource/action_items.rb:41 | filtering a concatenation of two lists is the filtered first list followed by the filtered second list, so later registrations are shown after earlier ones |
| ActionItems.SelectIsSubsequence | lib/active_admin/resource/action_items.rb:41 | the items shown are a subsequence of the registered items, in registration order |
| ActionItems.SelectCount | lib/active_admin/resource/action_items.rb:41 | an item is shown exactly as many times as it is registered when its options accept the action, and never otherwise |
| ActionItems.DefaultsShownOn | lib/active_admin/resource/action_items.rb:70-85 | under the documented meaning of `:only` / `:except`, the defaults show as follows: Edit then Destroy on show, nothing on new, and only New on every other action |
| ActionItems.RulePriority | lib/active_admin/resource/action_items.rb:58-64 | a kind without a rule is not disabled; an `:if` decides alone and hides any `:unless`; otherwise `:unless` decides, negated; a rule with neither disables nothing |
| ActionItems.RuleOverwrite | lib/active_admin/resource/action_items.rb:53-56 | storing a rule for a kind replaces that kind's earlier rule and leaves the verdict for every other kind unchanged |
| ActionItems.LinkArguments | lib/active_admin/resource/action_items.rb:72-86 | the New link's guard does not depend on the current record; the Edit and Destroy guards consult their rule with the current record |
| ActionItems.Resource.constructor | lib/active_admin/resource/action_items.rb:10-12 | a new resource has no item list, no defaults installed and no rule table |
| ActionItems.Resource.ActionItems | lib/active_admin/resource/action_items.rb:15-17 | returns the registered items; a missing list becomes the empty list; nothing else changes |
| ActionItems.Resource.AddActionItem | lib/active_admin/resource/action_items.rb:26-28 | the list becomes the old list with exactly one new item, built from the options and block, at the end |
| ActionItems.Resource.ActionItemsFor | lib/active_admin/resource/action_items.rb:35-42 | afterwards the latch is set; the defaults are appended if and only if the latch was unset; the result is the filter of the resulting list; the rule table is untouched |
| ActionItems.Resource.ClearActionItems | lib/active_admin/resource/action_items.rb:45-47 | the list becomes empty; the latch and the rule table are untouched |
| ActionItems.Resource.DisableActionItemFor | lib/active_admin/resource/action_items.rb:53-56 | the rule table exists afterwards and is the old table (empty if missing) with the given rule stored under the kind |
| ActionItems.Resource.DefaultActionDisabled | lib/active_admin/resource/action_items.rb:58-64 | the early-return chain gives the verdict of the rule priority for the stored rule, and false without a table or a rule |
| ActionItems.Resource.RenderDefaultLink | lib/active_admin/resource/action_items.rb:71-91 | a default link renders if and only if the controller exposes its action and its rule does not disable it for the record it is given (none for New) |
| ActionItems.Resource.AddDefaultActionItems | lib/active_admin/resource/action_items.rb:69-92 | appends exactly three items: New (except new and show), Edit (only show), Destroy (only show), in that order |
| Requests.ClearAfterFirstRequest | lib/active_admin/resource/action_items.rb:36-47 | once a request has installed the defaults, clearing leaves every later request with nothing to show |
| Requests.ClearBeforeFirstRequest | lib/active_admin/resource/action_items.rb:36-47 | clearing before any request drops the registered items, and the first request still installs and shows the defaults |
| Requests.SecondRequestInstallsNothing | lib/active_admin/resource/action_items.rb:36-39 | the first request brings the list of a fresh resource to three items, and a second request leaves it at three |
| Requests.RegistrationOrderIsDisplayOrder | lib/active_admin/resource/action_items.rb:26-41 | an item registered before the first request is shown before the defaults, and one registered after it is shown after them, once each |
| Requests.EditSuppressedButListed | lib/active_admin/resource/action_items.rb:77-82 | with Edit disabled by an `:if` that always holds, the Edit item is still among the items for show, but its link does not render |
| Requests.DestroyUnlessNever | lib/active_admin/resource/action_items.rb:58-62 | with Destroy disabled by an `:unless` that never holds, Destroy is disabled for every record |

## Left out

- The display test `display_on?` and `normalize_display_options!` belong to the optional-display helper, which is not part of this model. The test is a parameter, and only the behaviour documented at lines 21-25 is assumed. Options with both `:only` and `:except`, or with neither, are left unconstrained.
- Rendering inside the default blocks is not modelled: the `link_to` links, the `I18n.t` labels, the resource path helpers and the `:method => :delete` / `:confirm` options are view helpers of the host framework. Only the guard deciding whether a link renders is modelled.
- The contents of blocks the application registers are not modelled. They are told apart by an identifier.
- `controller.action_methods` is modelled as a set of action names only.
- The `attr_accessor :block` setter, which would let a caller replace an item's block after registration, is not modelled. Items are values.
- Aliasing is not modelled. `action_items` returns the live array, and `add_action_item` appends to that same array, so a caller holding the array sees later additions. In the model, lists are values.
- Ruby truthiness is not modelled. A callback result is a boolean, so `:if` returns exactly what its callback returns. A stored rule is always a rule, never `nil`.
- Rule keys: rules are stored under `type.to_s` but looked up under `type` as given. The model uses string keys throughout; see above.
- The race on the latch when two first requests run concurrently is not modelled. The model is single-threaded.
- The `initialize` that only calls `super` (lines 10-12) has no state of its own. The constructor only sets the three instance variables to their initial `nil`.
