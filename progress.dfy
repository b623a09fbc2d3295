/** Whole play-throughs: what holds in every state reachable from the start,
    which rooms can be reached through the buttons the registry offers, and the
    winning sequence of actions. */
module Progress {
  import opened World
  import opened Engine
  import opened Rules

  /** Runs the commands in order from `s`; the log of the result is newest first. */
  function Run(s: State, cmds: seq<Command>): Outcome
    decreases |cmds|
  {
    if cmds == [] then Outcome(s, [])
    else
      var first := Step(s, cmds[0]);
      var rest := Run(first.state, cmds[1..]);
      Outcome(rest.state, rest.emitted + first.emitted)
  }

  /** The invariant of every reachable state: no duplicate items, only the three
      portable items, each pickup flag agreeing with its item, and each stage of
      the puzzle implying the ones before it. */
  ghost predicate Consistent(s: State)
  {
    var f := s.flags;
    Distinct(s.inventory) &&
    (forall x :: x in s.inventory ==> x == Crowbar || x == Battery || x == ClocktowerKey) &&
    (f.crowbarTaken <==> Crowbar in s.inventory) &&
    (f.batteryTaken <==> Battery in s.inventory) &&
    (f.keyTaken <==> ClocktowerKey in s.inventory) &&
    (f.panelOpened ==> f.crowbarTaken) &&
    (f.powerOn ==> f.panelOpened && f.batteryTaken) &&
    (f.chestOpen ==> f.powerOn) &&
    (f.keyTaken ==> f.chestOpen) &&
    (f.gameWon ==> f.keyTaken)
  }

  lemma InitialConsistent()
    ensures Consistent(Initial())
  {
  }

  /** Every action keeps the invariant. */
  lemma StepKeepsConsistent(s: State, c: Command)
    requires Consistent(s)
    ensures Consistent(Step(s, c).state)
  {
    if c.verb in GuardedActions {
      GuardedActionChangesAllOrNothing(s, c);
    }
  }

  /** Every sequence of actions keeps the invariant. */
  lemma {:induction false} RunKeepsConsistent(s: State, cmds: seq<Command>)
    requires Consistent(s)
    ensures Consistent(Run(s, cmds).state)
    decreases |cmds|
  {
    if cmds != [] {
      StepKeepsConsistent(s, cmds[0]);
      RunKeepsConsistent(Step(s, cmds[0]).state, cmds[1..]);
    }
  }

  /** In every state reachable from the start: the inventory has no duplicates,
      a won game holds the clocktower key, power needs an open panel, an open
      chest needs power, a taken key needs an open chest, and each pickup flag
      is set exactly when its item is held. */
  lemma Reachable(cmds: seq<Command>)
    ensures var s := Run(Initial(), cmds).state;
            Distinct(s.inventory) &&
            (s.flags.gameWon ==> ClocktowerKey in s.inventory) &&
            (s.flags.powerOn ==> s.flags.panelOpened) &&
            (s.flags.chestOpen ==> s.flags.powerOn) &&
            (s.flags.keyTaken ==> s.flags.chestOpen) &&
            (s.flags.crowbarTaken <==> Crowbar in s.inventory) &&
            (s.flags.batteryTaken <==> Battery in s.inventory) &&
            (s.flags.keyTaken <==> ClocktowerKey in s.inventory)
  {
    InitialConsistent();
    RunKeepsConsistent(Initial(), cmds);
  }

  /** Progress is one-way: a flag once set stays set (a won game stays won),
      an item once held stays held in its place, and the log only grows. */
  lemma {:induction false} RunMonotone(s: State, cmds: seq<Command>)
    ensures FlagsLe(s.flags, Run(s, cmds).state.flags)
    ensures s.inventory <= Run(s, cmds).state.inventory
    ensures |Run(s, cmds).emitted| <= |cmds|
    decreases |cmds|
  {
    if cmds != [] {
      RunMonotone(Step(s, cmds[0]).state, cmds[1..]);
    }
  }

  /** No sequence of actions, repeated pickups included, ever puts an item in
      an inventory twice. */
  lemma {:induction false} RunKeepsDistinct(s: State, cmds: seq<Command>)
    requires Distinct(s.inventory)
    ensures Distinct(Run(s, cmds).state.inventory)
    decreases |cmds|
  {
    if cmds != [] {
      RunKeepsDistinct(Step(s, cmds[0]).state, cmds[1..]);
    }
  }

  /** The action the player issues is one the current room's button list offers;
      a button without a target passes an arbitrary target, which the action ignores. */
  ghost predicate Offered(s: State, c: Command)
  {
    s.room in Rooms &&
    exists a :: a in Rooms[s.room].actions && a.verb == c.verb &&
                (a.target.Some? ==> c.target == a.target.value)
  }

  /** Every command in `cmds` is offered by the room the player is in when issuing it. */
  ghost predicate Played(s: State, cmds: seq<Command>)
    decreases |cmds|
  {
    cmds == [] || (Offered(s, cmds[0]) && Played(Step(s, cmds[0]).state, cmds[1..]))
  }

  /** Following the room's own buttons, the current room is always a registered
      room, so looking it up in the registry never fails. */
  lemma {:induction false} PlayedStaysInRooms(s: State, cmds: seq<Command>)
    requires s.room in Rooms
    requires Played(s, cmds)
    ensures Run(s, cmds).state.room in Rooms
    decreases |cmds|
  {
    if cmds != [] {
      var c := cmds[0];
      var a :| a in Rooms[s.room].actions && a.verb == c.verb &&
               (a.target.Some? ==> c.target == a.target.value);
      RegistryClosed();
      PlayedStaysInRooms(Step(s, c).state, cmds[1..]);
    }
  }

  /** A run that passes through the given states, one per command, ends in the
      last of them, logs the last command's entries newest, and when every
      command is offered where it is issued it is a play through the buttons. */
  lemma {:induction false} RunAlong(states: seq<State>, cmds: seq<Command>)
    requires |states| == |cmds| + 1
    requires forall i :: 0 <= i < |cmds| ==> Step(states[i], cmds[i]).state == states[i + 1]
    ensures Run(states[0], cmds).state == states[|cmds|]
    ensures cmds != [] ==> Step(states[|cmds| - 1], cmds[|cmds| - 1]).emitted <= Run(states[0], cmds).emitted
    ensures (forall i :: 0 <= i < |cmds| ==> Offered(states[i], cmds[i])) ==> Played(states[0], cmds)
    decreases |cmds|
  {
    if cmds != [] {
      RunAlong(states[1..], cmds[1..]);
    }
  }

  /** The shortest winning play-through using the rooms' own buttons; the
      workshop offers no way to the clocktower, so the play returns to the square. */
  const WinningPlay := [
    Command(Move, "workshop"),
    Command(TakeCrowbar, ""),
    Command(TakeBattery, ""),
    Command(Move, "square"),
    Command(Move, "clocktower"),
    Command(OpenPanel, ""),
    Command(InsertBattery, ""),
    Command(OpenChest, ""),
    Command(TakeKey, ""),
    Command(UseKey, "")
  ]

  /** The states the winning play passes through: the start and the state after each command. */
  const WinningStates := [
    Initial(),
    State("workshop", [], Flags(false, false, false, false, false, false, false)),
    State("workshop", [Crowbar], Flags(true, false, false, false, false, false, false)),
    State("workshop", [Crowbar, Battery], Flags(true, true, false, false, false, false, false)),
    State("square", [Crowbar, Battery], Flags(true, true, false, false, false, false, false)),
    State("clocktower", [Crowbar, Battery], Flags(true, true, false, false, false, false, false)),
    State("clocktower", [Crowbar, Battery], Flags(true, true, true, false, false, false, false)),
    State("clocktower", [Crowbar, Battery], Flags(true, true, true, true, false, false, false)),
    State("clocktower", [Crowbar, Battery], Flags(true, true, true, true, true, false, false)),
    State("clocktower", [Crowbar, Battery, ClocktowerKey], Flags(true, true, true, true, true, true, false)),
    State("clocktower", [Crowbar, Battery, ClocktowerKey], Flags(true, true, true, true, true, true, true))
  ]

  /** Each command of the winning play leads to the next of the winning states;
      only the last one logs, newest, the victory. */
  lemma WinningStep(i: nat)
    requires i < |WinningPlay|
    ensures Step(WinningStates[i], WinningPlay[i]).state == WinningStates[i + 1]
    ensures i == 9 ==> Step(WinningStates[i], WinningPlay[i]).emitted == [Entry(DoorOpens, Victory)]
  {
    var s, c, t := WinningStates[i], WinningPlay[i], WinningStates[i + 1];
    // Pin the index, so that each literal sequence is read at a constant position.
    if i == 0 {
      assert s == WinningStates[0] && c == WinningPlay[0] && t == WinningStates[1];
    } else if i == 1 {
      assert s == WinningStates[1] && c == WinningPlay[1] && t == WinningStates[2];
    } else if i == 2 {
      assert s == WinningStates[2] && c == WinningPlay[2] && t == WinningStates[3];
    } else if i == 3 {
      assert s == WinningStates[3] && c == WinningPlay[3] && t == WinningStates[4];
    } else if i == 4 {
      assert s == WinningStates[4] && c == WinningPlay[4] && t == WinningStates[5];
    } else if i == 5 {
      assert s == WinningStates[5] && c == WinningPlay[5] && t == WinningStates[6];
    } else if i == 6 {
      assert s == WinningStates[6] && c == WinningPlay[6] && t == WinningStates[7];
    } else if i == 7 {
      assert s == WinningStates[7] && c == WinningPlay[7] && t == WinningStates[8];
    } else if i == 8 {
      assert s == WinningStates[8] && c == WinningPlay[8] && t == WinningStates[9];
    } else {
      assert s == WinningStates[9] && c == WinningPlay[9] && t == WinningStates[10];
    }
  }

  /** Each command of the winning play is a button of the room it is issued in. */
  lemma WinningButton(i: nat)
    requires i < |WinningPlay|
    ensures Offered(WinningStates[i], WinningPlay[i])
  {
    var actions := Rooms[WinningStates[i].room].actions;
    if i == 0 {
      assert actions[0] in actions;
    } else if i == 1 {
      assert actions[1] in actions;
    } else if i == 2 {
      assert actions[2] in actions;
    } else if i == 3 {
      assert actions[0] in actions;
    } else if i == 4 {
      assert actions[1] in actions;
    } else if i == 5 {
      assert actions[1] in actions;
    } else if i == 6 {
      assert actions[2] in actions;
    } else if i == 7 {
      assert actions[3] in actions;
    } else if i == 8 {
      assert actions[4] in actions;
    } else {
      assert actions[5] in actions;
    }
  }

  /** From the start, the winning play uses only offered buttons and ends in the
      clocktower with the game won, the three items in pickup order, the victory
      entry newest in the log; using the key once more then changes nothing. */
  lemma WinningPlayWins()
    ensures Played(Initial(), WinningPlay)
    ensures var r := Run(Initial(), WinningPlay);
            r.state.flags.gameWon && r.state.room == "clocktower" &&
            r.state.inventory == [Crowbar, Battery, ClocktowerKey] &&
            r.emitted[0] == Entry(DoorOpens, Victory) &&
            Step(r.state, Command(UseKey, "")) == Say(r.state, DoorIsOpen)
  {
    forall i | 0 <= i < |WinningPlay|
      ensures Step(WinningStates[i], WinningPlay[i]).state == WinningStates[i + 1]
      ensures Offered(WinningStates[i], WinningPlay[i])
    {
      WinningStep(i);
      WinningButton(i);
    }
    RunAlong(WinningStates, WinningPlay);
    WinningStep(9);
    UseKeyAfterWinning(WinningStates[10], "");
  }
}
