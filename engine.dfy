/** The game-state engine of the clocktower adventure, as values: the state
    record, the inventory helpers and the action resolver `Step`, which is the
    specification the imperative `Session.Game.ExecuteAction` is proved against. */
module Engine {

  /** Presentation tag of a log entry: only a won game is tagged as a victory. */
  datatype Kind = Normal | Victory

  /** One narration line, as `log(message, kind)` emits it. */
  datatype Entry = Entry(message: Narration, kind: Kind)

  /** The seven one-way progress gates of `state.flags`. */
  datatype Flags = Flags(
    crowbarTaken: bool,
    batteryTaken: bool,
    panelOpened: bool,
    powerOn: bool,
    chestOpen: bool,
    keyTaken: bool,
    gameWon: bool)

  /** The module-level `state` record: current room id, inventory, flags. */
  datatype State = State(room: string, inventory: seq<string>, flags: Flags)

  /** The arguments of one `executeAction(type, target)` call, with the type
      string already read as the `case` it selects (see `VerbOf`). */
  datatype Command = Command(verb: Verb, target: string)

  /** What one action produces: the new state and the entries it logged, newest first. */
  datatype Outcome = Outcome(state: State, emitted: seq<Entry>)

  const Crowbar := "crowbar"
  const Battery := "battery"
  const ClocktowerKey := "clocktower key"

  /** The action types the resolver's switch names; anything else is the default case. */
  const KnownActions := {"move", "inspectFountain", "takeCrowbar", "takeBattery", "openPanel",
                         "insertBattery", "openChest", "takeKey", "useKey"}

  /** The narration lines the resolver logs, one per message in its switch. */
  datatype Narration =
      FountainCoins
    | HaveCrowbar
    | TookCrowbar
    | HaveBattery
    | TookBattery
    | PanelIsOpen
    | NeedPry
    | PriedPanel
    | PanelFirst
    | NoBattery
    | PowerIsOn
    | LightsOn
    | ChestLocked
    | ChestIsOpen
    | ChestOpens
    | NoKeyYet
    | HaveKey
    | TookKey
    | DoorLocked
    | DoorIsOpen
    | DoorOpens
    | NothingHappens

  /** The exact text `log` shows for each narration line. */
  function Text(n: Narration): string
  {
    match n
    case FountainCoins => "You find nothing useful in the fountain but a few old coins."
    case HaveCrowbar => "You already picked up the crowbar."
    case TookCrowbar => "You take the crowbar."
    case HaveBattery => "You already took the battery."
    case TookBattery => "You pocket the battery."
    case PanelIsOpen => "The panel is already open."
    case NeedPry => "You need something to pry the panel open."
    case PriedPanel => "With a loud screech, you pry open the panel."
    case PanelFirst => "You need to open the panel first."
    case NoBattery => "You don't have a battery."
    case PowerIsOn => "Power is already restored."
    case LightsOn => "The tower lights flicker on. You hear a chest lock click nearby."
    case ChestLocked => "The chest remains locked tight."
    case ChestIsOpen => "The chest is already open."
    case ChestOpens => "The chest opens, revealing a brass key."
    case NoKeyYet => "You don't see a key yet."
    case HaveKey => "You already took the key."
    case TookKey => "You take the clocktower key."
    case DoorLocked => "The door is locked. You need a key."
    case DoorIsOpen => "The door is already open."
    case DoorOpens => "The key turns. The clocktower door swings open, and the town bells ring again. You win!"
    case NothingHappens => "Nothing happens."
  }

  /** The state the session starts in. */
  function Initial(): State
  {
    State("square", [], Flags(false, false, false, false, false, false, false))
  }

  predicate Distinct(xs: seq<string>)
  {
    forall i, j :: 0 <= i < j < |xs| ==> xs[i] != xs[j]
  }

  /** Every flag that is set in `a` is set in `b`. */
  predicate FlagsLe(a: Flags, b: Flags)
  {
    (a.crowbarTaken ==> b.crowbarTaken) &&
    (a.batteryTaken ==> b.batteryTaken) &&
    (a.panelOpened ==> b.panelOpened) &&
    (a.powerOn ==> b.powerOn) &&
    (a.chestOpen ==> b.chestOpen) &&
    (a.keyTaken ==> b.keyTaken) &&
    (a.gameWon ==> b.gameWon)
  }

  /** `addItem`: the inventory after adding `item` only when it is absent. */
  function Added(inventory: seq<string>, item: string): (r: seq<string>)
    ensures item in r
    ensures forall x :: x in r <==> x in inventory || x == item
    ensures Distinct(inventory) ==> Distinct(r)
    ensures |r| <= |inventory| + 1 && inventory <= r
    ensures item in inventory ==> r == inventory
  {
    if item in inventory then inventory else inventory + [item]
  }

  /** An action that only logs one normal entry. */
  function Say(s: State, message: Narration): Outcome
  {
    Outcome(s, [Entry(message, Normal)])
  }

  /** The action-type tags the resolver's switch distinguishes; `Unknown`
      stands for every other string (its `default` case). */
  datatype Verb = Move | InspectFountain | TakeCrowbar | TakeBattery | OpenPanel
                | InsertBattery | OpenChest | TakeKey | UseKey | Unknown

  /** The `case` label an action-type string selects. */
  function VerbOf(t: string): (v: Verb)
    ensures v == Move <==> t == "move"
    ensures v == Unknown <==> t !in KnownActions
  {
    if t == "move" then Move
    else if t == "inspectFountain" then InspectFountain
    else if t == "takeCrowbar" then TakeCrowbar
    else if t == "takeBattery" then TakeBattery
    else if t == "openPanel" then OpenPanel
    else if t == "insertBattery" then InsertBattery
    else if t == "openChest" then OpenChest
    else if t == "takeKey" then TakeKey
    else if t == "useKey" then UseKey
    else Unknown
  }

  /** The type string of each `case` label; `VerbOf` reads it back. */
  function Tag(v: Verb): (t: string)
    requires v != Unknown
    ensures t in KnownActions && VerbOf(t) == v
  {
    match v
    case Move => "move"
    case InspectFountain => "inspectFountain"
    case TakeCrowbar => "takeCrowbar"
    case TakeBattery => "takeBattery"
    case OpenPanel => "openPanel"
    case InsertBattery => "insertBattery"
    case OpenChest => "openChest"
    case TakeKey => "takeKey"
    case UseKey => "useKey"
  }

  /** Every type string the switch names is the tag of the case it selects. */
  lemma TagOfVerbOf(t: string)
    requires t in KnownActions
    ensures Tag(VerbOf(t)) == t
  {
  }

  /** `executeAction`: the switch on the action type; every guard that fails
      logs its message and leaves the state as it was. */
  function Step(s: State, c: Command): (r: Outcome)
    ensures FlagsLe(s.flags, r.state.flags)
    ensures s.inventory <= r.state.inventory
    ensures |r.emitted| == if c.verb == Move then 0 else 1
    ensures r.state.room == if c.verb == Move then c.target else s.room
  {
    match c.verb
    case Move =>
      Outcome(s.(room := c.target), [])
    case InspectFountain =>
      Say(s, FountainCoins)
    case TakeCrowbar =>
      if s.flags.crowbarTaken then Say(s, HaveCrowbar)
      else Say(s.(flags := s.flags.(crowbarTaken := true), inventory := Added(s.inventory, Crowbar)), TookCrowbar)
    case TakeBattery =>
      if s.flags.batteryTaken then Say(s, HaveBattery)
      else Say(s.(flags := s.flags.(batteryTaken := true), inventory := Added(s.inventory, Battery)), TookBattery)
    case OpenPanel =>
      if s.flags.panelOpened then Say(s, PanelIsOpen)
      else if Crowbar !in s.inventory then Say(s, NeedPry)
      else Say(s.(flags := s.flags.(panelOpened := true)), PriedPanel)
    case InsertBattery =>
      if !s.flags.panelOpened then Say(s, PanelFirst)
      else if Battery !in s.inventory then Say(s, NoBattery)
      else if s.flags.powerOn then Say(s, PowerIsOn)
      else Say(s.(flags := s.flags.(powerOn := true)), LightsOn)
    case OpenChest =>
      if !s.flags.powerOn then Say(s, ChestLocked)
      else if s.flags.chestOpen then Say(s, ChestIsOpen)
      else Say(s.(flags := s.flags.(chestOpen := true)), ChestOpens)
    case TakeKey =>
      if !s.flags.chestOpen then Say(s, NoKeyYet)
      else if s.flags.keyTaken then Say(s, HaveKey)
      else Say(s.(flags := s.flags.(keyTaken := true), inventory := Added(s.inventory, ClocktowerKey)), TookKey)
    case UseKey =>
      if ClocktowerKey !in s.inventory then Say(s, DoorLocked)
      else if s.flags.gameWon then Say(s, DoorIsOpen)
      else Outcome(s.(flags := s.flags.(gameWon := true)), [Entry(DoorOpens, Victory)])
    case Unknown =>
      Say(s, NothingHappens)
  }

  /* The guarded actions restated as a table: each action is an ordered list of
     guards, each with the message logged when it is the first to fail, plus the
     state and the entry that success produces. It repeats the guards, messages
     and effects of the switch above in a second form; `Rules.StepFollowsRule`
     proves that the two forms agree. */

  /** One precondition of an action and the message logged when it fails. */
  datatype Guard = Guard(passes: bool, failure: Narration)

  /** An action read as a table row: its guards in checking order and its success. */
  datatype Rule = Rule(guards: seq<Guard>, effect: State, success: Entry)

  /** Checks the guards in order and stops at the first that fails. */
  function Guarded(s: State, guards: seq<Guard>, success: Outcome): (r: Outcome)
    ensures (forall i :: 0 <= i < |guards| ==> guards[i].passes) ==> r == success
    ensures forall k :: 0 <= k < |guards| && !guards[k].passes &&
                        (forall i :: 0 <= i < k ==> guards[i].passes) ==>
                        r == Say(s, guards[k].failure)
    decreases |guards|
  {
    if guards == [] then success
    else if !guards[0].passes then Say(s, guards[0].failure)
    else Guarded(s, guards[1..], success)
  }

  /** The guarded action types: all known ones except `move` and `inspectFountain`. */
  const GuardedActions := {TakeCrowbar, TakeBattery, OpenPanel, InsertBattery, OpenChest, TakeKey, UseKey}

  /** The guard table of the guarded action types, in the order the resolver checks them. */
  function RuleOf(s: State, v: Verb): Rule
    requires v in GuardedActions
  {
    var f := s.flags;
    var inv := s.inventory;
    if v == TakeCrowbar then
      Rule([Guard(!f.crowbarTaken, HaveCrowbar)],
           s.(flags := f.(crowbarTaken := true), inventory := Added(inv, Crowbar)),
           Entry(TookCrowbar, Normal))
    else if v == TakeBattery then
      Rule([Guard(!f.batteryTaken, HaveBattery)],
           s.(flags := f.(batteryTaken := true), inventory := Added(inv, Battery)),
           Entry(TookBattery, Normal))
    else if v == OpenPanel then
      Rule([Guard(!f.panelOpened, PanelIsOpen), Guard(Crowbar in inv, NeedPry)],
           s.(flags := f.(panelOpened := true)),
           Entry(PriedPanel, Normal))
    else if v == InsertBattery then
      Rule([Guard(f.panelOpened, PanelFirst), Guard(Battery in inv, NoBattery),
            Guard(!f.powerOn, PowerIsOn)],
           s.(flags := f.(powerOn := true)),
           Entry(LightsOn, Normal))
    else if v == OpenChest then
      Rule([Guard(f.powerOn, ChestLocked), Guard(!f.chestOpen, ChestIsOpen)],
           s.(flags := f.(chestOpen := true)),
           Entry(ChestOpens, Normal))
    else if v == TakeKey then
      Rule([Guard(f.chestOpen, NoKeyYet), Guard(!f.keyTaken, HaveKey)],
           s.(flags := f.(keyTaken := true), inventory := Added(inv, ClocktowerKey)),
           Entry(TookKey, Normal))
    else
      Rule([Guard(ClocktowerKey in inv, DoorLocked), Guard(!f.gameWon, DoorIsOpen)],
           s.(flags := f.(gameWon := true)),
           Entry(DoorOpens, Victory))
  }
}
