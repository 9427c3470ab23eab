/**
 * The component base class (ChildComponent), unseen: a node with a set of
 * attached children. attachChild adds the child (then runs its enable),
 * detachChild runs the child's disable and removes it. Children are opaque
 * here, so attach is set insertion and detach set removal: detaching a child
 * that is not attached is a no-op, attaching one twice keeps one copy.
 */
module Component {
  /** The children the modelled components attach. */
  datatype Child =
    | BlockTool | GameSpawnTool | InitialSpawnTool
    | CameraControls | MultiplayerControls
    | ArenaScene | SingleplayerGui | MultiplayerGui | CreationToolHandlerChild
    | SingleplayerCamera | MultiplayerCamera | SingleplayerMenu | MultiplayerMenu

  class Node {
    var children: set<Child>

    constructor ()
      ensures children == {}
    {
      children := {};
    }

    method AttachChild(c: Child)
      modifies this
      ensures children == old(children) + {c}
    {
      children := children + {c};
    }

    method DetachChild(c: Child)
      modifies this
      ensures children == old(children) - {c}
    {
      children := children - {c};
    }
  }
}
