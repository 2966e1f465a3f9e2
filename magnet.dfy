/**
 * Magnets: the grab controller (Assets/Scripts/Magnet/Magnet.cs). It keeps two independent
 * slots, the highlighted item and the current (held) item, changed by trigger enter/exit and
 * by fire press/release; fire only acts while the game is in progress.
 */
module Magnets {
  import opened Items
  import opened Session

  /** The objects a possibly-null reference points to, for frames. */
  function Ref(item: Item?): set<Item>
  {
    if item == null then {} else {item}
  }

  class Magnet {
    /** The magnet's own body, which grabbed items are jointed to. */
    const body: Rigidbody
    var highlighted: Item?
    var current: Item?

    constructor (body: Rigidbody)
      ensures this.body == body && highlighted == null && current == null
    {
      this.body := body;
      highlighted := null;
      current := null;
    }

    /** A held item is jointed to the magnet's body with its joint enabled. */
    ghost predicate Tethered()
      reads this, current
    {
      current != null ==> current.jointBody == body && current.jointEnabled
    }

    /** Fire pressed: grab the highlighted item, but only while the game is in progress. */
    method FireOnPerformed(game: GameController)
      requires Tethered()
      modifies this`current, Ref(highlighted)`jointBody, Ref(highlighted)`jointEnabled
      ensures Tethered()
      ensures highlighted == old(highlighted)
      ensures game.state == InProgress && Alive(highlighted) ==>
                current == highlighted && highlighted.jointBody == body && highlighted.jointEnabled
      ensures game.state != InProgress || !Alive(highlighted) ==>
                current == old(current) && (highlighted != null ==> unchanged(highlighted))
    {
      if game.state != InProgress {
        return;
      }
      GrabItem(highlighted);
    }

    /** Fire released: release the held item, but only while the game is in progress. */
    method FireOnCanceled(game: GameController)
      requires Tethered()
      modifies this`highlighted, this`current, Ref(highlighted)`lightEnabled, Ref(current)`jointBody, Ref(current)`jointEnabled
      ensures Tethered()
      ensures game.state != InProgress ==>
                highlighted == old(highlighted) && current == old(current) &&
                (old(highlighted) != null ==> unchanged(old(highlighted))) &&
                (old(current) != null ==> unchanged(old(current)))
      ensures game.state == InProgress && Alive(old(current)) ==>
                current == null && old(current).jointBody == null && !old(current).jointEnabled &&
                (Alive(old(highlighted)) ==> highlighted == null && !old(highlighted).lightEnabled) &&
                (!Alive(old(highlighted)) ==>
                   highlighted == old(highlighted) && (old(highlighted) != null ==> unchanged(old(highlighted))))
      ensures game.state == InProgress && !Alive(old(current)) ==>
                highlighted == old(highlighted) && current == old(current) &&
                (old(highlighted) != null ==> unchanged(old(highlighted))) &&
                (old(current) != null ==> unchanged(old(current)))
    {
      if game.state != InProgress {
        return;
      }
      ReleaseCurrentItem();
    }

    /** Makes a live item the highlighted one and lights it; the previous one stays lit. */
    method HighlightItem(item: Item?)
      modifies this`highlighted, Ref(item)`lightEnabled
      ensures Alive(item) ==> highlighted == item && item.lightEnabled
      ensures !Alive(item) ==> highlighted == old(highlighted) && (item != null ==> unchanged(item))
    {
      if !Alive(item) {
        return;
      }
      highlighted := item;
      highlighted.SetHighlight(true);
    }

    /** Turns off and forgets a live highlighted item; a destroyed one stays in the slot. */
    method UnhighlightCurrentItem()
      modifies this`highlighted, Ref(highlighted)`lightEnabled
      ensures Alive(old(highlighted)) ==> highlighted == null && !old(highlighted).lightEnabled
      ensures !Alive(old(highlighted)) ==>
                highlighted == old(highlighted) && (highlighted != null ==> unchanged(highlighted))
    {
      if !Alive(highlighted) {
        return;
      }
      highlighted.SetHighlight(false);
      highlighted := null;
    }

    /**
     * Joints a live item to the magnet and makes it the current item. An item already held is
     * not released: its joint stays connected.
     */
    method GrabItem(item: Item?)
      requires Tethered()
      modifies this`current, Ref(item)`jointBody, Ref(item)`jointEnabled
      ensures Tethered()
      ensures Alive(item) ==> current == item && item.jointBody == body && item.jointEnabled
      ensures !Alive(item) ==> current == old(current) && (item != null ==> unchanged(item))
    {
      if !Alive(item) {
        return;
      }
      current := item;
      current.SetJointBody(body);
    }

    /**
     * Releases a live current item: unhighlights whatever is highlighted, disconnects and disables
     * the current item's joint and empties the current slot. A destroyed or absent current item
     * makes this a no-op.
     */
    method ReleaseCurrentItem()
      requires Tethered()
      modifies this`highlighted, this`current, Ref(highlighted)`lightEnabled, Ref(current)`jointBody, Ref(current)`jointEnabled
      ensures Tethered()
      ensures !Alive(old(current)) ==>
                highlighted == old(highlighted) && current == old(current) &&
                (old(highlighted) != null ==> unchanged(old(highlighted))) &&
                (old(current) != null ==> unchanged(old(current)))
      ensures Alive(old(current)) ==>
                current == null &&
                old(current).jointBody == null && !old(current).jointEnabled &&
                (Alive(old(highlighted)) ==> highlighted == null && !old(highlighted).lightEnabled) &&
                (!Alive(old(highlighted)) ==>
                   highlighted == old(highlighted) && (old(highlighted) != null ==> unchanged(old(highlighted))))
    {
      if !Alive(current) {
        return;
      }
      UnhighlightCurrentItem();
      current.SetJointBody(null);
      current := null;
    }

    /** An item's collider enters the magnet's range: it becomes the highlighted item. */
    method OnTriggerEnter2D(other: Collider)
      modifies this`highlighted, Ref(other.item)`lightEnabled
      ensures Alive(other.item) ==> highlighted == other.item && other.item.lightEnabled
      ensures !Alive(other.item) ==>
                highlighted == old(highlighted) && (other.item != null ==> unchanged(other.item))
    {
      var item := other.item;
      if Alive(item) {
        HighlightItem(item);
      }
    }

    /**
     * An item's collider leaves the magnet's range: unless it is the current item, whatever item
     * is highlighted (not necessarily the one leaving) is unhighlighted.
     */
    method OnTriggerExit2D(other: Collider)
      modifies this`highlighted, Ref(highlighted)`lightEnabled
      ensures Alive(other.item) && other.item != current && Alive(old(highlighted)) ==>
                highlighted == null && !old(highlighted).lightEnabled
      ensures !Alive(other.item) || other.item == current || !Alive(old(highlighted)) ==>
                highlighted == old(highlighted) && (highlighted != null ==> unchanged(highlighted))
    {
      var item := other.item;
      if Alive(item) && item != current {
        UnhighlightCurrentItem();
      }
    }
  }
}
