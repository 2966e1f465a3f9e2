/**
 * Level: the objects of one level scene wired together explicitly, in place of the singleton
 * lookups of the game, and short plays that show how their contracts compose.
 */
module Level {
  import opened Items
  import opened Trucks
  import opened Session
  import opened Magnets

  /**
   * A collision reaching an item: the item takes the damage, and an item that explodes asks the
   * game controller for the default slow-motion effect in the same step.
   */
  method ItemCollides(game: GameController, item: Item, otherTag: string, speed: real) returns (exploded: bool)
    requires game.Valid() && speed >= 0.0
    modifies item`currentDurability, item`destroyed, game`timeScale, game`fixedDeltaTime
    ensures game.Valid() && game.state == old(game.state)
    ensures exploded ==> item.destroyed && item.currentDurability <= 0.0 && game.timeScale == SlowMotionScale
    ensures !exploded ==> game.timeScale == old(game.timeScale) && item.destroyed == old(item.destroyed)
    ensures otherTag == MagnetTag ==> !exploded && item.currentDurability == old(item.currentDurability)
    ensures otherTag != MagnetTag ==>
              item.currentDurability == old(item.currentDurability) - speed * DamagePerSpeed &&
              (exploded <==> item.currentDurability <= 0.0)
  {
    var splash;
    splash, exploded := item.OnCollisionEnter2D(otherTag, speed);
    if exploded {
      game.BeginSlowMotion(SlowMotionScale);
    }
  }

  /** A controller whose game has started, over an empty truck. */
  method StartedGame() returns (game: GameController)
    ensures fresh(game) && fresh(game.truck) && fresh(game.stars)
    ensures game.Valid() && game.state == InProgress && game.timeScale == 1.0
  {
    var truck := new Truck();
    var stars := new bool[StarTotal];
    game := new GameController(truck, stars, 1.0, 0.02);
    game.Start();
    game.Update(true, false);
  }

  /** A session from Start to the end: frozen, running, then frozen again with the cursor back. */
  method SessionRun() returns (before: real, during: real, after: real, cursor: bool, ended: bool)
    ensures before == 0.0 && during == 1.0 && after == 0.0 && cursor && ended
  {
    var truck := new Truck();
    var stars := new bool[StarTotal];
    var game := new GameController(truck, stars, 1.0, 0.02);
    game.Start();
    before := game.timeScale;
    game.Update(false, false);
    game.Update(true, false);
    during := game.timeScale;
    game.Update(false, true);
    after, cursor, ended := game.timeScale, game.cursorEnabled, game.state == GameState.EndGame;
  }

  /** The same item entering the truck twice is counted twice. */
  method TruckCountsTwice() returns (count: nat, total: real)
    ensures count == 2 && total == 6.0
  {
    var truck := new Truck();
    var crate := new Item("Crate", 3.0, 50.0, false, null, false);
    truck.OnTriggerEnter2D(Collider(ItemTag, crate));
    truck.OnTriggerEnter2D(Collider(ItemTag, crate));
    count := truck.ItemsCount();
    total := truck.TotalValue();
    EnterTwice([], crate);
  }

  /** Grabbing a second item while holding one leaves the first jointed to the magnet, even after releasing the second. */
  method GrabWhileHolding() returns (firstJointed: bool, secondHeld: bool, firstJointedAfterRelease: bool)
    ensures firstJointed && secondHeld && firstJointedAfterRelease
  {
    var game := StartedGame();
    var body := new Rigidbody();
    var magnet := new Magnet(body);
    var first := new Item("Vase", 2.0, 20.0, false, null, false);
    var second := new Item("Lamp", 4.0, 20.0, false, null, false);
    first.Start();
    second.Start();
    magnet.OnTriggerEnter2D(Collider("Item", first));
    magnet.FireOnPerformed(game);
    magnet.OnTriggerEnter2D(Collider("Item", second));
    magnet.FireOnPerformed(game);
    firstJointed := first.jointEnabled && first.jointBody == magnet.body;
    secondHeld := magnet.current == second;
    magnet.FireOnCanceled(game);
    firstJointedAfterRelease := first.jointEnabled && first.jointBody == magnet.body;
  }

  /**
   * Entering a second item leaves the first one lit, and the first one leaving then turns off the
   * second: a lit item remains that no slot refers to.
   */
  method StaleHighlight() returns (firstLit: bool, secondLit: bool, slotEmpty: bool)
    ensures firstLit && !secondLit && slotEmpty
  {
    var body := new Rigidbody();
    var magnet := new Magnet(body);
    var first := new Item("Vase", 2.0, 20.0, false, null, false);
    var second := new Item("Lamp", 4.0, 20.0, false, null, false);
    first.Start();
    second.Start();
    magnet.OnTriggerEnter2D(Collider("Item", first));
    magnet.OnTriggerEnter2D(Collider("Item", second));
    magnet.OnTriggerExit2D(Collider("Item", first));
    firstLit, secondLit, slotEmpty := first.lightEnabled, second.lightEnabled, magnet.highlighted == null;
  }

  /**
   * A held item destroyed by an impact stays in the current slot, and releasing fire then does
   * nothing: the destroyed item's joint is left connected.
   */
  method DestroyedWhileHeld() returns (slowed: bool, stillCurrent: bool, jointStillOn: bool)
    ensures slowed && stillCurrent && jointStillOn
  {
    var game := StartedGame();
    var body := new Rigidbody();
    var magnet := new Magnet(body);
    var vase := new Item("Vase", 2.0, 20.0, false, null, false);
    vase.Start();
    magnet.OnTriggerEnter2D(Collider("Item", vase));
    magnet.FireOnPerformed(game);
    var exploded := ItemCollides(game, vase, "Wall", 3.0);
    slowed := exploded && game.timeScale == SlowMotionScale;
    magnet.FireOnCanceled(game);
    stillCurrent := magnet.current == vase;
    jointStillOn := vase.jointEnabled;
  }
}
