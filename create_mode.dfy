/**
 * The creation mode shared by CreationToolHandler and ArenaCreateModeToggle
 * (each file declares the same four-valued enum) and the toggle events that
 * carry a requested mode over the bus.
 */
module CreateMode {
  import opened Wrappers
  import opened EventBus

  datatype Mode = Camera | Block | GameSpawn | InitialSpawn

  /** The ARENA_CREATE_MODE_TOGGLE_* event requesting mode m. */
  function ToggleEvent(m: Mode): Event
  {
    match m
    case Camera => ArenaCreateModeToggleCamera
    case Block => ArenaCreateModeToggleBlock
    case GameSpawn => ArenaCreateModeToggleGameSpawn
    case InitialSpawn => ArenaCreateModeToggleInitialSpawn
  }

  /** The mode a bus event requests: exactly the inverse of ToggleEvent, None for every other event. */
  function ToggleTarget(e: Event): (r: Option<Mode>)
    ensures r.Some? ==> ToggleEvent(r.value) == e
    ensures forall m :: ToggleEvent(m) == e ==> r == Some(m)
  {
    match e
    case ArenaCreateModeToggleCamera => Some(Camera)
    case ArenaCreateModeToggleBlock => Some(Block)
    case ArenaCreateModeToggleGameSpawn => Some(GameSpawn)
    case ArenaCreateModeToggleInitialSpawn => Some(InitialSpawn)
    case _ => None
  }

  /** How an observer's mode follows one bus event: a toggle sets it, anything else leaves it. */
  function Follow(m: Mode, e: Event): Mode
  {
    match ToggleTarget(e)
    case Some(t) => t
    case None => m
  }

  /** The mode an observer holds after a sequence of bus events, starting from m. */
  function FollowAll(m: Mode, evs: seq<Event>): Mode
    decreases |evs|
  {
    if evs == [] then m else FollowAll(Follow(m, evs[0]), evs[1..])
  }

  /** After a run of events an observer holds the mode of the last toggle, or its start mode if none. */
  lemma {:induction false} FollowAllIsLastToggle(m: Mode, evs: seq<Event>)
    ensures (forall i :: 0 <= i < |evs| ==> ToggleTarget(evs[i]).None?) ==> FollowAll(m, evs) == m
    ensures forall i :: 0 <= i < |evs| && ToggleTarget(evs[i]).Some? &&
                        (forall j :: i < j < |evs| ==> ToggleTarget(evs[j]).None?)
                        ==> FollowAll(m, evs) == ToggleTarget(evs[i]).value
    decreases |evs|
  {
    if evs != [] {
      FollowAllIsLastToggle(Follow(m, evs[0]), evs[1..]);
      forall i | 0 <= i < |evs| && ToggleTarget(evs[i]).Some? &&
                 (forall j :: i < j < |evs| ==> ToggleTarget(evs[j]).None?)
        ensures FollowAll(m, evs) == ToggleTarget(evs[i]).value
      {
        if i > 0 {
          assert ToggleTarget(evs[1..][i - 1]).Some?;
          assert forall j :: i - 1 < j < |evs[1..]| ==> ToggleTarget(evs[1..][j]).None? by {
            forall j | i - 1 < j < |evs[1..]| ensures ToggleTarget(evs[1..][j]).None? {
              assert evs[1..][j] == evs[j + 1];
            }
          }
        } else {
          assert forall j :: 0 <= j < |evs[1..]| ==> ToggleTarget(evs[1..][j]).None? by {
            forall j | 0 <= j < |evs[1..]| ensures ToggleTarget(evs[1..][j]).None? {
              assert evs[1..][j] == evs[j + 1];
            }
          }
        }
      }
      if forall i :: 0 <= i < |evs| ==> ToggleTarget(evs[i]).None? {
        assert forall j :: 0 <= j < |evs[1..]| ==> ToggleTarget(evs[1..][j]).None? by {
          forall j | 0 <= j < |evs[1..]| ensures ToggleTarget(evs[1..][j]).None? {
            assert evs[1..][j] == evs[j + 1];
          }
        }
      }
    }
  }
}
