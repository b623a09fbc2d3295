/** The running session: the module-level `state` object that `executeAction`
    mutates in place, together with the page's narration log. */
module Session {
  import opened Engine
  import Progress

  class Game {
    var room: string
    var inventory: seq<string>
    var flags: Flags
    /** The narration log, newest entry first, as the page prepends each one. */
    var log: seq<Entry>

    /** The `state` record these fields hold. */
    function Snapshot(): State
      reads this
    {
      State(room, inventory, flags)
    }

    /** The invariant every reachable state keeps. */
    ghost predicate Valid()
      reads this
    {
      Progress.Consistent(Snapshot())
    }

    /** The state a session starts in, with an empty log. */
    constructor ()
      ensures Snapshot() == Initial() && log == []
      ensures Valid()
    {
      room := "square";
      inventory := [];
      flags := Flags(false, false, false, false, false, false, false);
      log := [];
    }

    /** `hasItem`: whether the item is in the inventory. */
    predicate HasItem(item: string)
      reads this
    {
      item in inventory
    }

    /** `addItem`: appends the item unless it is already held. */
    method AddItem(item: string)
      modifies this`inventory
      ensures inventory == Added(old(inventory), item)
      ensures Distinct(old(inventory)) ==> Distinct(inventory)
    {
      if !HasItem(item) {
        inventory := inventory + [item];
      }
    }

    /** `log`: puts the entry in front of the earlier ones. */
    method Log(message: Narration, kind: Kind)
      modifies this`log
      ensures log == [Entry(message, kind)] + old(log)
    {
      log := [Entry(message, kind)] + log;
    }

    /** `executeAction`: resolves one action in place (the page then re-renders,
        which is not modelled). The new state and the entries it logs are those
        `Step` specifies, so the invariant is kept, no flag is cleared and no
        item is lost. */
    method ExecuteAction(actionType: string, target: string)
      modifies this
      ensures var r := Step(old(Snapshot()), Command(VerbOf(actionType), target));
              Snapshot() == r.state && log == r.emitted + old(log)
      ensures old(Valid()) ==> Valid()
      ensures FlagsLe(old(flags), flags) && old(inventory) <= inventory
    {
      ghost var before := Snapshot();
      Resolve(actionType, target);
      if Progress.Consistent(before) {
        Progress.StepKeepsConsistent(before, Command(VerbOf(actionType), target));
      }
    }

    /** The `switch` of `executeAction`: dispatches on the action type, checks
        each case's guards in order and applies the first outcome. */
    method Resolve(actionType: string, target: string)
      modifies this
      ensures var r := Step(old(Snapshot()), Command(VerbOf(actionType), target));
              Snapshot() == r.state && log == r.emitted + old(log)
    {
      var verb := VerbOf(actionType);
      match verb {
      case Move =>
        room := target;
      case InspectFountain =>
        Log(FountainCoins, Normal);
      case TakeCrowbar =>
        if flags.crowbarTaken {
          Log(HaveCrowbar, Normal);
        } else {
          flags := flags.(crowbarTaken := true);
          AddItem(Crowbar);
          Log(TookCrowbar, Normal);
        }
      case TakeBattery =>
        if flags.batteryTaken {
          Log(HaveBattery, Normal);
        } else {
          flags := flags.(batteryTaken := true);
          AddItem(Battery);
          Log(TookBattery, Normal);
        }
      case OpenPanel =>
        if flags.panelOpened {
          Log(PanelIsOpen, Normal);
        } else if !HasItem(Crowbar) {
          Log(NeedPry, Normal);
        } else {
          flags := flags.(panelOpened := true);
          Log(PriedPanel, Normal);
        }
      case InsertBattery =>
        if !flags.panelOpened {
          Log(PanelFirst, Normal);
        } else if !HasItem(Battery) {
          Log(NoBattery, Normal);
        } else if flags.powerOn {
          Log(PowerIsOn, Normal);
        } else {
          flags := flags.(powerOn := true);
          Log(LightsOn, Normal);
        }
      case OpenChest =>
        if !flags.powerOn {
          Log(ChestLocked, Normal);
        } else if flags.chestOpen {
          Log(ChestIsOpen, Normal);
        } else {
          flags := flags.(chestOpen := true);
          Log(ChestOpens, Normal);
        }
      case TakeKey =>
        if !flags.chestOpen {
          Log(NoKeyYet, Normal);
        } else if flags.keyTaken {
          Log(HaveKey, Normal);
        } else {
          flags := flags.(keyTaken := true);
          AddItem(ClocktowerKey);
          Log(TookKey, Normal);
        }
      case UseKey =>
        if !HasItem(ClocktowerKey) {
          Log(DoorLocked, Normal);
        } else if flags.gameWon {
          Log(DoorIsOpen, Normal);
        } else {
          flags := flags.(gameWon := true);
          Log(DoorOpens, Victory);
        }
      case Unknown =>
        Log(NothingHappens, Normal);
      }
    }
  }
}
