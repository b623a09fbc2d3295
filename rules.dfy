/** What each action type does, stated per action: the order in which its guards
    are checked, that a failed guard changes nothing, and what success changes. */
module Rules {
  import opened Engine

  /** The switch agrees with the guard table: every guarded action checks the
      guards of `RuleOf` in order, logs the first failing one's message with the
      state untouched, and applies the rule's effect only when all pass. */
  lemma StepFollowsRule(s: State, c: Command)
    requires c.verb in GuardedActions
    ensures var rule := RuleOf(s, c.verb);
            Step(s, c) == Guarded(s, rule.guards, Outcome(rule.effect, [rule.success]))
  {
    var rule := RuleOf(s, c.verb);
    var success := Outcome(rule.effect, [rule.success]);
    var g := rule.guards;
    // Unfold the guard list one guard at a time; no rule has more than three.
    assert Guarded(s, g, success) == if g[0].passes then Guarded(s, g[1..], success) else Say(s, g[0].failure);
    match c.verb
    case TakeCrowbar =>
      assert Guarded(s, g[1..], success) == success;
    case TakeBattery =>
      assert Guarded(s, g[1..], success) == success;
    case InsertBattery =>
      assert Guarded(s, g[1..], success) == if g[1].passes then Guarded(s, g[2..], success) else Say(s, g[1].failure);
      assert Guarded(s, g[2..], success) == if g[2].passes then success else Say(s, g[2].failure);
    case OpenPanel | OpenChest | TakeKey | UseKey =>
      assert Guarded(s, g[1..], success) == if g[1].passes then success else Say(s, g[1].failure);
  }

  /** A guarded action either fails, logging one normal entry and leaving the
      state exactly as it was, or succeeds and applies its rule's effect. */
  lemma GuardedActionChangesAllOrNothing(s: State, c: Command)
    requires c.verb in GuardedActions
    ensures var r := Step(s, c);
            r.state == s || (r.state == RuleOf(s, c.verb).effect &&
                             r.emitted == [RuleOf(s, c.verb).success])
    ensures Step(s, c).state != s ==> Step(s, c).emitted == [RuleOf(s, c.verb).success]
  {
    StepFollowsRule(s, c);
    match c.verb
    case TakeCrowbar =>
    case TakeBattery =>
    case OpenPanel =>
    case InsertBattery =>
    case OpenChest =>
    case TakeKey =>
    case UseKey =>
  }

  /** `move` sets the room to the target, changes nothing else and logs nothing. */
  lemma MoveOnlyChangesRoom(s: State, target: string)
    ensures Step(s, Command(Move, target)) == Outcome(s.(room := target), [])
  {
  }

  /** An action type the switch does not name logs "Nothing happens." and changes nothing. */
  lemma UnknownActionIsNoOp(s: State, actionType: string, target: string)
    requires actionType !in KnownActions
    ensures Step(s, Command(VerbOf(actionType), target)) == Say(s, NothingHappens)
  {
  }

  /** Inspecting the fountain only logs its flavour text. */
  lemma InspectFountainIsNoOp(s: State, target: string)
    ensures Step(s, Command(InspectFountain, target)) == Say(s, FountainCoins)
  {
  }

  /** Taking the crowbar is idempotent: the first time it sets the flag and adds
      the item, every later time it only says the crowbar is already held. */
  lemma TakeCrowbarOnce(s: State, target: string)
    ensures var r := Step(s, Command(TakeCrowbar, target));
            r.state.flags.crowbarTaken &&
            (s.flags.crowbarTaken <==> r == Say(s, HaveCrowbar)) &&
            (!s.flags.crowbarTaken ==> r.state.inventory == Added(s.inventory, Crowbar))
  {
  }

  /** Taking the battery is idempotent in the same way. */
  lemma TakeBatteryOnce(s: State, target: string)
    ensures var r := Step(s, Command(TakeBattery, target));
            r.state.flags.batteryTaken &&
            (s.flags.batteryTaken <==> r == Say(s, HaveBattery)) &&
            (!s.flags.batteryTaken ==> r.state.inventory == Added(s.inventory, Battery))
  {
  }

  /** Without a crowbar the panel is never opened: the action leaves the state
      unchanged and says either that the panel is open already (checked first)
      or that something is needed to pry it. */
  lemma OpenPanelNeedsCrowbar(s: State, target: string)
    requires Crowbar !in s.inventory
    ensures Step(s, Command(OpenPanel, target)) ==
            Say(s, if s.flags.panelOpened then PanelIsOpen else NeedPry)
  {
  }

  /** The panel opens exactly when it is closed and the crowbar is held. */
  lemma OpenPanelSucceedsIff(s: State, target: string)
    ensures var r := Step(s, Command(OpenPanel, target));
            r.state != s <==> !s.flags.panelOpened && Crowbar in s.inventory
    ensures var r := Step(s, Command(OpenPanel, target));
            r.state != s ==> r.state == s.(flags := s.flags.(panelOpened := true))
  {
  }

  /** Before the panel is open, inserting the battery always fails with the same
      message, whether or not the battery is held and whatever the power. */
  lemma InsertBatteryNeedsOpenPanel(s: State, target: string)
    requires !s.flags.panelOpened
    ensures Step(s, Command(InsertBattery, target)) == Say(s, PanelFirst)
  {
  }

  /** With the panel open, the battery is checked before the power. */
  lemma InsertBatteryChecksBatteryThenPower(s: State, target: string)
    requires s.flags.panelOpened
    ensures var r := Step(s, Command(InsertBattery, target));
            if Battery !in s.inventory then r == Say(s, NoBattery)
            else if s.flags.powerOn then r == Say(s, PowerIsOn)
            else r.state == s.(flags := s.flags.(powerOn := true)) && r.emitted == [Entry(LightsOn, Normal)]
  {
  }

  /** Without power the chest stays locked and nothing changes. */
  lemma OpenChestNeedsPower(s: State, target: string)
    requires !s.flags.powerOn
    ensures Step(s, Command(OpenChest, target)) == Say(s, ChestLocked)
  {
  }

  /** The chest opens exactly when the power is on and it is still closed. */
  lemma OpenChestSucceedsIff(s: State, target: string)
    ensures var r := Step(s, Command(OpenChest, target));
            r.state != s <==> s.flags.powerOn && !s.flags.chestOpen
    ensures var r := Step(s, Command(OpenChest, target));
            r.state != s ==> r.state == s.(flags := s.flags.(chestOpen := true))
  {
  }

  /** While the chest is closed no key can be taken and nothing changes. */
  lemma TakeKeyNeedsOpenChest(s: State, target: string)
    requires !s.flags.chestOpen
    ensures Step(s, Command(TakeKey, target)) == Say(s, NoKeyYet)
  {
  }

  /** The key is taken exactly once, from an open chest, and lands in the inventory. */
  lemma TakeKeySucceedsIff(s: State, target: string)
    ensures var r := Step(s, Command(TakeKey, target));
            r.state != s <==> s.flags.chestOpen && !s.flags.keyTaken
    ensures var r := Step(s, Command(TakeKey, target));
            r.state != s ==> r.state == s.(flags := s.flags.(keyTaken := true),
                                            inventory := Added(s.inventory, ClocktowerKey))
  {
  }

  /** Without the clocktower key the door stays locked: the game is not won and nothing changes. */
  lemma UseKeyNeedsKey(s: State, target: string)
    requires ClocktowerKey !in s.inventory
    ensures Step(s, Command(UseKey, target)) == Say(s, DoorLocked)
  {
  }

  /** Holding the key in a game not yet won wins it, with the one victory entry. */
  lemma UseKeyWins(s: State, target: string)
    requires ClocktowerKey in s.inventory && !s.flags.gameWon
    ensures Step(s, Command(UseKey, target)) ==
            Outcome(s.(flags := s.flags.(gameWon := true)), [Entry(DoorOpens, Victory)])
  {
  }

  /** Using the key again after winning says the door is open and changes nothing. */
  lemma UseKeyAfterWinning(s: State, target: string)
    requires ClocktowerKey in s.inventory && s.flags.gameWon
    ensures Step(s, Command(UseKey, target)) == Say(s, DoorIsOpen)
  {
  }

  /** Only the winning use of the key logs a victory entry. */
  lemma VictoryOnlyOnWinning(s: State, c: Command)
    ensures var r := Step(s, c);
            (exists e :: e in r.emitted && e.kind == Victory) <==>
            c.verb == UseKey && !s.flags.gameWon && r.state.flags.gameWon
  {
  }

  /** Repeating any action changes nothing more than doing it once. */
  lemma StepIdempotent(s: State, c: Command)
    ensures Step(Step(s, c).state, c).state == Step(s, c).state
  {
    var r := Step(s, c);
    match c.verb
    case Move =>
    case InspectFountain =>
    case TakeCrowbar =>
    case TakeBattery =>
    case OpenPanel =>
    case InsertBattery =>
    case OpenChest =>
    case TakeKey =>
    case UseKey =>
    case Unknown =>
  }
}
