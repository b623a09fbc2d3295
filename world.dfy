/** The room registry: which actions each room offers and where its moves lead.
    Display names, descriptions and button labels are inert text and are not kept. */
module World {
  import opened Engine

  datatype Option<T> = None | Some(value: T)

  /** An entry of a room's action list: its type tag and, for a move, the target room id. */
  datatype Action = Action(verb: Verb, target: Option<string>)

  /** A room, reduced to its ordered action list. */
  datatype Room = Room(actions: seq<Action>)

  /** `rooms`: room id to room. */
  const Rooms: map<string, Room> := map[
    "square" := Room([
      Action(Move, Some("workshop")),
      Action(Move, Some("clocktower")),
      Action(InspectFountain, None)]),
    "workshop" := Room([
      Action(Move, Some("square")),
      Action(TakeCrowbar, None),
      Action(TakeBattery, None)]),
    "clocktower" := Room([
      Action(Move, Some("square")),
      Action(OpenPanel, None),
      Action(InsertBattery, None),
      Action(OpenChest, None),
      Action(TakeKey, None),
      Action(UseKey, None)])
  ]

  /** The registry is closed: every move carries a target and every target is a room. */
  lemma RegistryClosed()
    ensures forall id, a :: id in Rooms && a in Rooms[id].actions && a.verb == Move ==>
              a.target.Some? && a.target.value in Rooms
  {
  }

  /** The workshop's only move leads back to the square: the clocktower is
      reached from the square alone. */
  lemma WorkshopLeadsOnlyToSquare()
    ensures forall a :: a in Rooms["workshop"].actions && a.verb == Move ==> a.target == Some("square")
  {
  }
}
