/**
  What a sequence of calls on a fresh resource shows: the one-shot installation of the defaults,
  clearing before and after it, registration after it, and a suppressed default link that is
  still listed.
 */
module Requests {
  import opened Wrappers
  import opened ActionItems

  /** Once a request has installed the defaults, clearing the list leaves nothing to display on
      any later request: the latch keeps the defaults from coming back. */
  method ClearAfterFirstRequest(displayOn: DisplayPredicate, options: DisplayOptions, block: Block, first: Action, action: Action)
    returns (shown: seq<ActionItem>)
    ensures shown == []
  {
    var resource := new Resource();
    resource.AddActionItem(options, block);
    var firstShown := resource.ActionItemsFor(first, displayOn);
    resource.ClearActionItems();
    shown := resource.ActionItemsFor(action, displayOn);
  }

  /** Clearing before any request drops the registered items, and the first request still
      installs the three defaults. */
  method ClearBeforeFirstRequest(displayOn: DisplayPredicate, options: DisplayOptions, block: Block, action: Action)
    returns (shown: seq<ActionItem>)
    requires FollowsDocumentedOptions(displayOn)
    ensures shown == if action == "show" then [EditItem, DestroyItem]
                     else if action == "new" then []
                     else [NewItem]
  {
    var resource := new Resource();
    resource.AddActionItem(options, block);
    resource.ClearActionItems();
    shown := resource.ActionItemsFor(action, displayOn);
    assert [] + DefaultItems == DefaultItems;
    assert shown == Select(DefaultItems, displayOn, action);
    DefaultsShownOn(displayOn, action);
  }

  /** The first request installs the three defaults; a second request with no registration in
      between leaves the list as long as it was. */
  method SecondRequestInstallsNothing(displayOn: DisplayPredicate, first: Action, second: Action)
    returns (afterFirst: nat, afterSecond: nat)
    ensures afterFirst == 3 && afterSecond == 3
  {
    var resource := new Resource();
    var firstShown := resource.ActionItemsFor(first, displayOn);
    var items := resource.ActionItems();
    afterFirst := |items|;
    var secondShown := resource.ActionItemsFor(second, displayOn);
    items := resource.ActionItems();
    afterSecond := |items|;
  }

  /** An item registered before the first request is shown before the defaults; one registered
      after it is shown after them, once each. */
  method RegistrationOrderIsDisplayOrder(displayOn: DisplayPredicate, early: ActionItem, late: ActionItem, action: Action)
    returns (shown: seq<ActionItem>)
    requires displayOn(early.options, action) && displayOn(late.options, action)
    ensures shown == [early] + Select(DefaultItems, displayOn, action) + [late]
  {
    var resource := new Resource();
    resource.AddActionItem(early.options, early.block);
    assert resource.Items() == [early];
    var firstShown := resource.ActionItemsFor(action, displayOn);
    resource.AddActionItem(late.options, late.block);
    assert resource.Items() == [early] + DefaultItems + [late];
    shown := resource.ActionItemsFor(action, displayOn);
    assert shown == Select([early] + DefaultItems + [late], displayOn, action);
    SelectAppend([early] + DefaultItems, [late], displayOn, action);
    SelectAppend([early], DefaultItems, displayOn, action);
    assert Select([early], displayOn, action) == [early];
    assert Select([late], displayOn, action) == [late];
  }

  /** Disabling Edit with an :if that always holds hides the Edit link on show, yet the Edit item
      is still among the items for show: display and suppression are separate decisions. */
  method EditSuppressedButListed(displayOn: DisplayPredicate, actionMethods: set<string>, current: Option<Record>)
    returns (shown: seq<ActionItem>, rendered: bool)
    requires FollowsDocumentedOptions(displayOn)
    ensures EditItem in shown
    ensures !rendered
  {
    var resource := new Resource();
    resource.DisableActionItemFor("edit", Rule(Some((r: Option<Record>) => true), None));
    shown := resource.ActionItemsFor("show", displayOn);
    DefaultsShownOn(displayOn, "show");
    rendered := resource.RenderDefaultLink(Edit, actionMethods, current);
  }

  /** Disabling Destroy with an :unless that never holds disables it for every record. */
  method DestroyUnlessNever(record: Option<Record>) returns (disabled: bool)
    ensures disabled
  {
    var resource := new Resource();
    resource.DisableActionItemFor("destroy", Rule(None, Some((r: Option<Record>) => false)));
    disabled := resource.DefaultActionDisabled("destroy", record);
  }
}
