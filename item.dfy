/**
 * Items: collectibles with a value and a durability (Assets/Scripts/Item/Item.cs).
 * Impacts lower the durability; at zero or below the item explodes and is destroyed.
 * The item also carries the highlight light and the distance joint the magnet connects to.
 */
module Items {
  import opened Options

  /** A physics body a distance joint can be connected to; only its identity matters here. */
  class Rigidbody {
    constructor () {}
  }

  /** Contacts with objects carrying this tag never damage an item. */
  const MagnetTag: string := "Magnet"
  /** Damage dealt per unit of impact speed. */
  const DamagePerSpeed: real := 10.0
  /** Damage above this emits the splash and damage-number feedback. */
  const SplashThreshold: real := 10.0

  /**
   * The other collider of a trigger event: its tag and the Item component looked up from it, if any.
   * The magnet looks the Item up on the collider or its parents, the truck on the collider itself;
   * the caller passes the result of the lookup the handler it drives performs.
   */
  datatype Collider = Collider(tag: string, item: Item?)

  /** Unity's implicit truth test on an object reference: a destroyed object counts as null. */
  function Alive(item: Item?): (alive: bool)
    reads item
    ensures alive ==> item != null
    ensures item != null ==> (alive <==> !item.destroyed)
  {
    item != null && !item.destroyed
  }

  /** C#'s `(int)` cast of a floating value: truncation toward zero. */
  function TruncateTowardZero(x: real): (r: int)
    ensures 0.0 <= x ==> 0 <= r && r as real <= x < r as real + 1.0
    ensures x < 0.0 ==> r <= 0 && r as real - 1.0 < x <= r as real
  {
    if x >= 0.0 then x.Floor else -((-x).Floor)
  }

  /** The damage a collision deals, or None when the collision is ignored. */
  function CollisionDamage(otherTag: string, speed: real): (d: Option<real>)
    requires speed >= 0.0
    ensures d.None? <==> otherTag == MagnetTag
    ensures d.Some? ==> d.value >= 0.0 && d.value == speed * DamagePerSpeed
  {
    if otherTag == MagnetTag then None else Some(speed * DamagePerSpeed)
  }

  /** Where a quotient by a positive number sits relative to 0 and 1. */
  lemma RatioBounds(a: real, b: real)
    requires b > 0.0
    ensures a == b ==> a / b == 1.0
    ensures a < b ==> a / b < 1.0
    ensures a <= 0.0 ==> a / b <= 0.0
    ensures a >= 0.0 ==> a / b >= 0.0
    ensures a < 0.0 ==> a / b < 0.0
  {
    var q := a / b;
    assert q * b == a;
    assert (1.0 - q) * b == b - a;
  }

  class Item {
    const name: string
    const value: real
    const baseDurability: real
    var currentDurability: real
    /** Whether the highlight light (spriteLight) is on. */
    var lightEnabled: bool
    /** The distance joint's connected body (null when none) and whether the joint is enabled. */
    var jointBody: Rigidbody?
    var jointEnabled: bool
    /** Set once Destroy has been requested for the item's game object. */
    var destroyed: bool

    /** The item as the scene creates it, before Start; light and joint are as the prefab left them. */
    constructor (name: string, value: real, baseDurability: real, light: bool, body: Rigidbody?, jointOn: bool)
      ensures this.name == name && this.value == value && this.baseDurability == baseDurability
      ensures currentDurability == 0.0 && !destroyed
      ensures lightEnabled == light && jointBody == body && jointEnabled == jointOn
    {
      this.name := name;
      this.value := value;
      this.baseDurability := baseDurability;
      currentDurability := 0.0;
      lightEnabled := light;
      jointBody := body;
      jointEnabled := jointOn;
      destroyed := false;
    }

    /** The durability left, as a whole percentage of the base durability. */
    function DurabilityPercentage(): (p: int)
      requires baseDurability > 0.0
      reads this
      ensures currentDurability == baseDurability ==> p == 100
      ensures 0.0 <= currentDurability < baseDurability ==> 0 <= p < 100
      ensures currentDurability <= 0.0 ==> p <= 0
      ensures currentDurability >= 0.0 ==> p as real <= currentDurability / baseDurability * 100.0 < p as real + 1.0
      ensures currentDurability < 0.0 ==> p as real - 1.0 < currentDurability / baseDurability * 100.0 <= p as real
    {
      RatioBounds(currentDurability, baseDurability);
      TruncateTowardZero(currentDurability / baseDurability * 100.0)
    }

    method Start()
      modifies this
      ensures currentDurability == baseDurability
      ensures baseDurability > 0.0 ==> DurabilityPercentage() == 100
      ensures !lightEnabled && jointBody == null && !jointEnabled
      ensures destroyed == old(destroyed)
    {
      lightEnabled := false;
      currentDurability := baseDurability;
      SetHighlight(false);
      SetJointBody(null);
    }

    method SetHighlight(on: bool)
      modifies this`lightEnabled
      ensures lightEnabled == on
    {
      lightEnabled := on;
    }

    method SetJointBody(body: Rigidbody?)
      modifies this`jointBody, this`jointEnabled
      ensures jointBody == body
      ensures jointEnabled <==> body != null
    {
      jointBody := body;
      jointEnabled := body != null;
    }

    /**
     * Subtracts the damage; reports whether the splash feedback fires and whether the item exploded.
     */
    method TakeDamage(damage: real) returns (splash: bool, exploded: bool)
      modifies this`currentDurability, this`destroyed
      ensures currentDurability == old(currentDurability) - damage
      ensures splash <==> damage > SplashThreshold
      ensures exploded <==> currentDurability <= 0.0
      ensures destroyed <==> old(destroyed) || exploded
    {
      currentDurability := currentDurability - damage;
      splash := damage > SplashThreshold;
      exploded := currentDurability <= 0.0;
      if exploded {
        Explode();
      }
    }

    /** Requests the destruction of the item; the explosion and slow-motion feedback are emitted by the caller. */
    method Explode()
      modifies this`destroyed
      ensures destroyed
    {
      destroyed := true;
    }

    /**
     * A collision while the item itself moves at `speed` (its own velocity magnitude): magnet
     * contacts are ignored, anything else deals `speed * 10`. Destroy is deferred by the engine, so the handler has no destroyed guard.
     */
    method OnCollisionEnter2D(otherTag: string, speed: real) returns (splash: bool, exploded: bool)
      requires speed >= 0.0
      modifies this`currentDurability, this`destroyed
      ensures CollisionDamage(otherTag, speed).None? ==>
                currentDurability == old(currentDurability) && destroyed == old(destroyed) && !splash && !exploded
      ensures CollisionDamage(otherTag, speed).Some? ==>
                var d := CollisionDamage(otherTag, speed).value;
                currentDurability == old(currentDurability) - d &&
                (splash <==> d > SplashThreshold) &&
                (exploded <==> currentDurability <= 0.0) &&
                (destroyed <==> old(destroyed) || exploded)
      ensures currentDurability <= old(currentDurability)
    {
      splash, exploded := false, false;
      if otherTag == MagnetTag {
        return;
      }
      var damage := speed * DamagePerSpeed;
      splash, exploded := TakeDamage(damage);
    }
  }
}
