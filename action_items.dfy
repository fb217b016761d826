/**
  The action-item registry of an admin resource: an ordered list of action items
  (New/Edit/Destroy links and any the application registers), the lazy one-time
  installation of the three default items, the filter that picks the items shown on
  one controller action, and the table of rules that suppress the default links.
 */
module ActionItems {
  import opened Wrappers

  /** A controller action name ("index", "show", "new", ...); a Ruby symbol is named by its string. */
  type Action = string

  /** The model instance a request is about. The registry never looks inside it: it only hands it to
      the application's :if / :unless callbacks. */
  type Record

  /** The :only and :except display options of an action item, once normalised: each, when given,
      is a set of action names (a single name is the one-element set). */
  datatype DisplayOptions = DisplayOptions(only: Option<set<Action>>, except: Option<set<Action>>)

  /** The three default action items. */
  datatype DefaultKind = New | Edit | Destroy

  /** What an action item renders: one of the default links, or a block the application registered,
      told apart by an identifier (its contents are the application's and are not modelled). */
  datatype Block = DefaultLink(kind: DefaultKind) | UserBlock(id: nat)

  /** An action item: its display options and its render block. */
  datatype ActionItem = ActionItem(options: DisplayOptions, block: Block)

  /** `display_on?`, the display test an item's options make for a controller action. Its
      implementation belongs to the optional-display helper, which is not part of this model, so
      every operation takes it as a parameter. */
  type DisplayPredicate = (DisplayOptions, Action) -> bool

  /** What the registry's documentation promises of the display test: an item given only :only
      shows exactly on those actions; an item given only :except shows on every other action. */
  ghost predicate FollowsDocumentedOptions(displayOn: DisplayPredicate)
  {
    && (forall only: set<Action>, action: Action ::
          displayOn(DisplayOptions(Some(only), None), action) == (action in only))
    && (forall except: set<Action>, action: Action ::
          displayOn(DisplayOptions(None, Some(except)), action) == (action !in except))
  }

  // ---------------------------------------------------------------------------------------------
  // The filter of `action_items_for`

  /** The items of `items` shown on `action`, in registration order. */
  function Select(items: seq<ActionItem>, displayOn: DisplayPredicate, action: Action): (shown: seq<ActionItem>)
    ensures |shown| <= |items|
    ensures forall item :: item in shown <==> item in items && displayOn(item.options, action)
  {
    if items == [] then []
    else (if displayOn(items[0].options, action) then [items[0]] else [])
         + Select(items[1..], displayOn, action)
  }

  /** Filtering a concatenation filters each part and keeps the parts in order: items registered
      later are shown after items registered earlier. */
  lemma {:induction false} SelectAppend(xs: seq<ActionItem>, ys: seq<ActionItem>, displayOn: DisplayPredicate, action: Action)
    ensures Select(xs + ys, displayOn, action) == Select(xs, displayOn, action) + Select(ys, displayOn, action)
  {
    if xs == [] {
      assert xs + ys == ys;
    } else {
      assert (xs + ys)[0] == xs[0];
      assert (xs + ys)[1..] == xs[1..] + ys;
      SelectAppend(xs[1..], ys, displayOn, action);
    }
  }

  /** `sub` is `s` with some elements dropped and the rest kept in order. */
  ghost predicate IsSubsequence(sub: seq<ActionItem>, s: seq<ActionItem>)
    decreases |s|
  {
    if sub == [] then true
    else if s == [] then false
    else (sub[0] == s[0] && IsSubsequence(sub[1..], s[1..])) || IsSubsequence(sub, s[1..])
  }

  /** The items shown are a subsequence of the registered items: filtering never reorders. */
  lemma {:induction false} SelectIsSubsequence(items: seq<ActionItem>, displayOn: DisplayPredicate, action: Action)
    ensures IsSubsequence(Select(items, displayOn, action), items)
  {
    if items != [] {
      var rest := Select(items[1..], displayOn, action);
      SelectIsSubsequence(items[1..], displayOn, action);
      if displayOn(items[0].options, action) {
        assert Select(items, displayOn, action) == [items[0]] + rest;
        assert ([items[0]] + rest)[1..] == rest;
      } else {
        assert Select(items, displayOn, action) == rest;
      }
    }
  }

  /** Each item is shown exactly as often as it is registered when its options accept the action,
      and not at all otherwise. */
  lemma {:induction false} SelectCount(items: seq<ActionItem>, displayOn: DisplayPredicate, action: Action, item: ActionItem)
    ensures multiset(Select(items, displayOn, action))[item]
            == if displayOn(item.options, action) then multiset(items)[item] else 0
  {
    if items != [] {
      SelectCount(items[1..], displayOn, action, item);
      assert items == [items[0]] + items[1..];
    }
  }

  // ---------------------------------------------------------------------------------------------
  // The default action items

  /** New: on every action except new and show. */
  const NewItem := ActionItem(DisplayOptions(None, Some({"new", "show"})), DefaultLink(New))
  /** Edit: on show only. */
  const EditItem := ActionItem(DisplayOptions(Some({"show"}), None), DefaultLink(Edit))
  /** Destroy: on show only. */
  const DestroyItem := ActionItem(DisplayOptions(Some({"show"}), None), DefaultLink(Destroy))

  /** The default items in the order they are installed. */
  const DefaultItems := [NewItem, EditItem, DestroyItem]

  /** Which default items a documented display test shows on each action: Edit and Destroy on
      show, none on new, New on every other action. */
  lemma DefaultsShownOn(displayOn: DisplayPredicate, action: Action)
    requires FollowsDocumentedOptions(displayOn)
    ensures Select(DefaultItems, displayOn, action)
            == if action == "show" then [EditItem, DestroyItem]
               else if action == "new" then []
               else [NewItem]
  {
    assert displayOn(NewItem.options, action) == (action !in {"new", "show"});
    assert displayOn(EditItem.options, action) == (action in {"show"});
    assert displayOn(DestroyItem.options, action) == (action in {"show"});
    assert DefaultItems[1..] == [EditItem, DestroyItem];
    assert DefaultItems[1..][1..] == [DestroyItem];
    assert [DestroyItem][1..] == [];
    var onDestroy := Select([DestroyItem], displayOn, action);
    assert onDestroy == if action == "show" then [DestroyItem] else [];
    var onEdit := Select([EditItem, DestroyItem], displayOn, action);
    assert onEdit == (if action == "show" then [EditItem] else []) + onDestroy;
  }

  // ---------------------------------------------------------------------------------------------
  // Suppression rules for the default links

  /** The options of `disable_action_item_for`: an :if and/or an :unless callback on the optional record. */
  datatype Rule = Rule(ifCond: Option<Option<Record> -> bool>, unlessCond: Option<Option<Record> -> bool>)

  /** A rule read as the single condition that decides it. */
  datatype Suppression =
    | IfCondition(holds: Option<Record> -> bool)
    | UnlessCondition(holds: Option<Record> -> bool)
    | NoCondition

  /** The condition that decides a rule: :if when given (an :unless beside it is ignored), else :unless. */
  function Classify(rule: Rule): (s: Suppression)
  {
    if rule.ifCond.Some? then IfCondition(rule.ifCond.value)
    else if rule.unlessCond.Some? then UnlessCondition(rule.unlessCond.value)
    else NoCondition
  }

  /** Whether a condition suppresses its link for `record`. */
  predicate Suppresses(s: Suppression, record: Option<Record>)
  {
    match s
    case IfCondition(holds) => holds(record)
    case UnlessCondition(holds) => !holds(record)
    case NoCondition => false
  }

  /** Whether the rule table suppresses the default of `kind` for `record`: a kind without a rule
      is never suppressed. */
  predicate RuleSuppresses(rules: map<string, Rule>, kind: string, record: Option<Record>)
  {
    kind in rules && Suppresses(Classify(rules[kind]), record)
  }

  /** The priority of a rule's callbacks: no rule means not disabled; :if decides alone when given;
      otherwise :unless decides, negated; a rule with neither never disables. */
  lemma RulePriority(rules: map<string, Rule>, kind: string, record: Option<Record>)
    ensures kind !in rules ==> !RuleSuppresses(rules, kind, record)
    ensures kind in rules && rules[kind].ifCond.Some? ==>
              RuleSuppresses(rules, kind, record) == rules[kind].ifCond.value(record)
    ensures kind in rules && rules[kind].ifCond.None? && rules[kind].unlessCond.Some? ==>
              RuleSuppresses(rules, kind, record) == !rules[kind].unlessCond.value(record)
    ensures kind in rules && rules[kind].ifCond.None? && rules[kind].unlessCond.None? ==>
              !RuleSuppresses(rules, kind, record)
  {
  }

  /** Storing a rule for `kind` replaces whatever rule that kind had and leaves every other kind alone. */
  lemma RuleOverwrite(rules: map<string, Rule>, kind: string, rule: Rule, other: string, record: Option<Record>)
    ensures RuleSuppresses(rules[kind := rule], other, record)
            == if other == kind then Suppresses(Classify(rule), record) else RuleSuppresses(rules, other, record)
  {
  }

  /** The action name of a default kind, as the controller and the rule table spell it. */
  function KindName(kind: DefaultKind): string
  {
    match kind
    case New => "new"
    case Edit => "edit"
    case Destroy => "destroy"
  }

  /** The record a default link hands to the suppression rule: none for New, the current record
      for Edit and Destroy. */
  function CallbackArgument(kind: DefaultKind, current: Option<Record>): Option<Record>
  {
    if kind == New then None else current
  }

  /** Whether the block of a default item renders its link: the controller must expose the
      matching action and the default must not be disabled. */
  predicate LinkShown(rules: map<string, Rule>, kind: DefaultKind, actionMethods: set<string>, current: Option<Record>)
  {
    KindName(kind) in actionMethods && !RuleSuppresses(rules, KindName(kind), CallbackArgument(kind, current))
  }

  /** The New link does not depend on the current record; Edit and Destroy consult their rule with it. */
  lemma LinkArguments(rules: map<string, Rule>, kind: DefaultKind, actionMethods: set<string>, r1: Option<Record>, r2: Option<Record>)
    ensures kind == New ==> LinkShown(rules, kind, actionMethods, r1) == LinkShown(rules, kind, actionMethods, r2)
    ensures kind != New ==>
              LinkShown(rules, kind, actionMethods, r1)
              == (KindName(kind) in actionMethods && !RuleSuppresses(rules, KindName(kind), r1))
  {
  }

  // ---------------------------------------------------------------------------------------------
  // The registry

  /** The action-item state of one admin resource. */
  class Resource {
    /** The registered items; `None` until the list is first read. */
    var actionItems: Option<seq<ActionItem>>
    /** Set once the default items have been installed; nothing ever clears it. */
    var defaultActionsAdded: bool
    /** The suppression rules by default kind; `None` until the first rule is stored. */
    var disabledDefaultActions: Option<map<string, Rule>>

    /** A resource starts with no list, no defaults installed and no rule table. */
    constructor ()
      ensures actionItems.None? && !defaultActionsAdded && disabledDefaultActions.None?
    {
      actionItems := None;
      defaultActionsAdded := false;
      disabledDefaultActions := None;
    }

    /** The registered items, a missing list read as the empty one. */
    function Items(): seq<ActionItem>
      reads this
    {
      if actionItems.Some? then actionItems.value else []
    }

    /** The rule table, a missing table read as the empty one. */
    function Rules(): map<string, Rule>
      reads this
    {
      if disabledDefaultActions.Some? then disabledDefaultActions.value else map[]
    }

    /** The list of action items, created empty on first use. */
    method ActionItems() returns (items: seq<ActionItem>)
      modifies this`actionItems
      ensures items == old(Items())
      ensures actionItems == Some(items)
    {
      if actionItems.None? {
        actionItems := Some([]);
      }
      items := actionItems.value;
    }

    /** Registers one item at the end of the list; every earlier item keeps its place. */
    method AddActionItem(options: DisplayOptions, block: Block)
      modifies this`actionItems
      ensures actionItems == Some(old(Items()) + [ActionItem(options, block)])
    {
      var items := ActionItems();
      actionItems := Some(items + [ActionItem(options, block)]);
    }

    /** The items to display on `action`. The first call installs the default items after those
        registered so far; later calls install nothing. */
    method ActionItemsFor(action: Action, displayOn: DisplayPredicate) returns (shown: seq<ActionItem>)
      modifies this`actionItems, this`defaultActionsAdded
      ensures defaultActionsAdded
      ensures actionItems == Some(if old(defaultActionsAdded) then old(Items()) else old(Items()) + DefaultItems)
      ensures shown == Select(Items(), displayOn, action)
    {
      if !defaultActionsAdded {
        AddDefaultActionItems();
        defaultActionsAdded := true;
      }
      var items := ActionItems();
      shown := Select(items, displayOn, action);
    }

    /** Empties the list. The latch is left as it is, so defaults already installed are not
        installed again. */
    method ClearActionItems()
      modifies this`actionItems
      ensures actionItems == Some([])
    {
      actionItems := Some([]);
    }

    /** Stores the rule for `kind`, replacing any earlier rule for it. */
    method DisableActionItemFor(kind: string, options: Rule)
      modifies this`disabledDefaultActions
      ensures disabledDefaultActions.Some?
      ensures disabledDefaultActions.value == old(Rules())[kind := options]
    {
      if disabledDefaultActions.None? {
        disabledDefaultActions := Some(map[]);
      }
      disabledDefaultActions := Some(disabledDefaultActions.value[kind := options]);
    }

    /** Whether the default of `kind` is disabled for `record`, as the rule table decides. */
    method DefaultActionDisabled(kind: string, record: Option<Record>) returns (disabled: bool)
      ensures disabled == RuleSuppresses(Rules(), kind, record)
    {
      if disabledDefaultActions.None? {
        return false;
      }
      var rules := disabledDefaultActions.value;
      if kind !in rules {
        return false;
      }
      var rule := rules[kind];
      if rule.ifCond.Some? {
        return rule.ifCond.value(record);
      }
      if rule.unlessCond.Some? {
        return !rule.unlessCond.value(record);
      }
      return false;
    }

    /** The guard inside the block of a default item: whether it renders its link on a view whose
        controller exposes `actionMethods` and shows `current`. */
    method RenderDefaultLink(kind: DefaultKind, actionMethods: set<string>, current: Option<Record>) returns (rendered: bool)
      ensures rendered == LinkShown(Rules(), kind, actionMethods, current)
    {
      if KindName(kind) in actionMethods {
        var disabled := DefaultActionDisabled(KindName(kind), CallbackArgument(kind, current));
        rendered := !disabled;
      } else {
        rendered := false;
      }
    }

    /** Appends New, Edit and Destroy, in that order. */
    method AddDefaultActionItems()
      modifies this`actionItems
      ensures actionItems == Some(old(Items()) + DefaultItems)
    {
      AddActionItem(NewItem.options, NewItem.block);
      AddActionItem(EditItem.options, EditItem.block);
      AddActionItem(DestroyItem.options, DestroyItem.block);
      assert old(Items()) + [NewItem] + [EditItem] + [DestroyItem] == old(Items()) + DefaultItems;
    }
  }
}
