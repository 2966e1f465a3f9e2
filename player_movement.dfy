/**
 * Movement: the player's movement input and force (Assets/Scripts/Player/PlayerMovement.cs),
 * with the sprite flip flag the player keeps (Assets/Scripts/Player/Player.cs).
 */
module Movement {
  import opened Options
  import opened Session

  datatype Vector2 = Vector2(x: real, y: real)

  function Scale(k: real, v: Vector2): Vector2
  {
    Vector2(k * v.x, k * v.y)
  }

  /** The flip flag after moving along `direction`: left flips, right unflips, vertical keeps it. */
  function Flipped(wasFlipped: bool, direction: Vector2): (f: bool)
    ensures direction.x < 0.0 ==> f
    ensures direction.x > 0.0 ==> !f
    ensures direction.x == 0.0 ==> f == wasFlipped
  {
    if direction.x < 0.0 then true
    else if direction.x > 0.0 then false
    else wasFlipped
  }

  class PlayerMovement {
    const moveForce: real
    var isMoving: bool
    var direction: Vector2
    /** The player sprite's flipX. */
    var flipped: bool

    constructor (moveForce: real, flipped: bool)
      ensures this.moveForce == moveForce && this.flipped == flipped
      ensures !isMoving && direction == Vector2(0.0, 0.0)
    {
      this.moveForce := moveForce;
      this.flipped := flipped;
      isMoving := false;
      direction := Vector2(0.0, 0.0);
    }

    /** The force applied in a physics step: moveForce times the direction, and only while moving. */
    method FixedUpdate() returns (force: Option<Vector2>)
      ensures force.Some? <==> isMoving
      ensures force.Some? ==> force.value.x == moveForce * direction.x && force.value.y == moveForce * direction.y
    {
      if isMoving {
        force := Some(Scale(moveForce, direction));
      } else {
        force := None;
      }
    }

    /** Move input performed, with its (already normalised) direction: acted on only while the game is in progress. */
    method MoveOnPerformed(game: GameController, d: Vector2)
      modifies this`isMoving, this`direction, this`flipped
      ensures game.state == InProgress ==> isMoving && direction == d && flipped == Flipped(old(flipped), d)
      ensures game.state != InProgress ==>
                isMoving == old(isMoving) && direction == old(direction) && flipped == old(flipped)
    {
      if game.state != InProgress {
        return;
      }
      Move(d);
    }

    /** Move input released: stops in every game state. */
    method MoveOnCanceled()
      modifies this`isMoving
      ensures !isMoving
    {
      Stop();
    }

    method Move(d: Vector2)
      modifies this`isMoving, this`direction, this`flipped
      ensures isMoving && direction == d
      ensures flipped == Flipped(old(flipped), d)
    {
      isMoving := true;
      direction := d;
      if d.x < 0.0 {
        flipped := true;
      } else if d.x > 0.0 {
        flipped := false;
      }
    }

    method Stop()
      modifies this`isMoving
      ensures !isMoving
    {
      isMoving := false;
    }
  }
}
