/** The ship of ship.py: shield and hull pools that absorb damage, shield
    first, and a one-way switch from active to destroyed.

    `Defences` and `Absorb` give the damage model as values; the `Ship` class
    updates its fields in place as the Python methods do and is proved to
    follow that model. */
module Ships {
  import opened Wrappers

  /** The part of a ship's state that damage changes. */
  datatype Defences = Defences(shield: int, hull: int, active: bool)

  /** The pools never go negative, and a destroyed ship has no hull left. */
  predicate Sound(s: Defences) {
    0 <= s.shield && 0 <= s.hull && (!s.active ==> s.hull == 0)
  }

  function Total(s: Defences): int {
    s.shield + s.hull
  }

  function Max0(x: int): int {
    if x < 0 then 0 else x
  }

  /** One hit of `d` points.  Damage up to the shield's charge only drains
      the shield; the excess over the charge empties the shield and comes off
      the hull, and a hull brought to zero or below is clamped to zero and the
      ship is destroyed.  The amount is not checked: a negative hit raises the
      shield. */
  function Absorb(s: Defences, d: int): (r: Defences)
    ensures d <= s.shield ==> r.shield == s.shield - d && r.hull == s.hull && r.active == s.active
    ensures d > s.shield ==> r.shield == 0 && r.hull == Max0(s.hull - (d - s.shield))
    ensures r.active <==> s.active && (d <= s.shield || s.shield + s.hull > d)
    ensures Sound(s) ==> Sound(r)
    ensures d >= 0 && Sound(s) ==> r.shield <= s.shield && r.hull <= s.hull
  {
    var excess := Max0(d - s.shield);
    var hull := s.hull - excess;
    if excess == 0 then Defences(s.shield - d, s.hull, s.active)
    else Defences(0, Max0(hull), s.active && hull > 0)
  }

  /** One non-negative hit takes exactly its damage off shield and hull
      together, stopping at zero. */
  lemma AbsorbTotal(s: Defences, d: int)
    requires Sound(s) && d >= 0
    ensures Total(Absorb(s, d)) == Max0(Total(s) - d)
  {
  }

  /** The hits of `ds`, in order: the last hit lands on what the earlier
      ones left. */
  function AbsorbAll(s: Defences, ds: seq<int>): Defences
    decreases |ds|
  {
    if |ds| == 0 then s else Absorb(AbsorbAll(s, ds[..|ds| - 1]), ds[|ds| - 1])
  }

  function Sum(ds: seq<int>): int
    decreases |ds|
  {
    if |ds| == 0 then 0 else Sum(ds[..|ds| - 1]) + ds[|ds| - 1]
  }

  /** Any run of hits, of any sign, keeps the pools sound. */
  lemma {:induction false} AbsorbAllSound(s: Defences, ds: seq<int>)
    requires Sound(s)
    ensures Sound(AbsorbAll(s, ds))
    decreases |ds|
  {
    if |ds| > 0 {
      AbsorbAllSound(s, ds[..|ds| - 1]);
    }
  }

  /** Clamping at zero after the earlier hits and again after the last one
      is clamping once after all of them. */
  lemma ClampTwice(total: int, before: int, last: nat)
    ensures Max0(Max0(total - before) - last) == Max0(total - (before + last))
  {
  }

  /** Shield and hull together lose exactly the damage dealt, until both are
      empty: after any run of non-negative hits, what is left is the starting
      total minus the total damage, or zero. */
  lemma {:induction false} AbsorbAllTotal(s: Defences, ds: seq<nat>)
    requires Sound(s)
    ensures Total(AbsorbAll(s, ds)) == Max0(Total(s) - Sum(ds))
    decreases |ds|
  {
    if |ds| > 0 {
      var init, last := ds[..|ds| - 1], ds[|ds| - 1];
      var prev := AbsorbAll(s, init);
      assert AbsorbAll(s, ds) == Absorb(prev, last);
      assert Sum(ds) == Sum(init) + last;
      AbsorbAllTotal(s, init);
      AbsorbAllSound(s, init);
      AbsorbTotal(prev, last);
      ClampTwice(Total(s), Sum(init), last);
    }
  }

  /** Destruction is final: whatever hits follow, the ship stays inactive
      with an empty hull. */
  lemma {:induction false} DestroyedStaysDestroyed(s: Defences, ds: seq<int>)
    requires Sound(s) && !s.active
    ensures !AbsorbAll(s, ds).active && AbsorbAll(s, ds).hull == 0
    decreases |ds|
  {
    if |ds| > 0 {
      DestroyedStaysDestroyed(s, ds[..|ds| - 1]);
      AbsorbAllSound(s, ds[..|ds| - 1]);
    }
  }

  /** A ship whose active flag says exactly whether it has hull left. */
  predicate Alive(s: Defences) {
    s.active <==> s.hull > 0
  }

  /** A hit keeps "active exactly while hull is left": a hull emptied by
      the excess kills the ship, and a hull the hit does not reach is left
      as it was. */
  lemma AbsorbKeepsAlive(s: Defences, d: int)
    requires Sound(s) && Alive(s)
    ensures Alive(Absorb(s, d))
  {
  }

  /** The same over any run of hits. */
  lemma {:induction false} AbsorbAllKeepsAlive(s: Defences, ds: seq<int>)
    requires Sound(s) && Alive(s)
    ensures Alive(AbsorbAll(s, ds))
    decreases |ds|
  {
    if |ds| > 0 {
      AbsorbAllKeepsAlive(s, ds[..|ds| - 1]);
      AbsorbAllSound(s, ds[..|ds| - 1]);
      AbsorbKeepsAlive(AbsorbAll(s, ds[..|ds| - 1]), ds[|ds| - 1]);
    }
  }

  /** A ship built with no hull (`max_hull` of 0) starts active, and a hit
      its shield absorbs leaves it active with an empty hull. */
  lemma EmptyHullShipSurvivesShieldHit()
    ensures !Alive(Absorb(Defences(10, 0, true), 5))
    ensures Absorb(Defences(10, 0, true), 5) == Defences(5, 0, true)
  {
  }

  /** With non-negative hits the pools only drain: neither the shield nor
      the hull ever rises above its starting value. */
  lemma {:induction false} AbsorbAllDrains(s: Defences, ds: seq<nat>)
    requires Sound(s)
    ensures AbsorbAll(s, ds).shield <= s.shield && AbsorbAll(s, ds).hull <= s.hull
    decreases |ds|
  {
    if |ds| > 0 {
      AbsorbAllDrains(s, ds[..|ds| - 1]);
      AbsorbAllSound(s, ds[..|ds| - 1]);
    }
  }

  /** A ship of the game.  `name`, the maxima, `speed`, `range` and `damage`
      are set once by the constructor; the methods below update the
      remaining fields. */
  class Ship {
    const name: string
    const maxHull: int
    const maxShield: int
    const speed: int
    const range: int
    const damage: int

    var hull: int
    var shield: int
    var position: (int, int)
    var destination: Option<(int, int)>
    var target: Ship?
    var active: bool

    /** The pools are sound (see `Sound`). */
    predicate Valid()
      reads this
    {
      Sound(Defences(shield, hull, active))
    }

    /** Pools at most at their maxima. */
    predicate WithinMaxima()
      reads this
    {
      shield <= maxShield && hull <= maxHull
    }

    /** A new ship: full pools, active, at the origin, with no destination
        and no target. */
    constructor (name: string, maxHull: int, maxShield: int, speed: int, range: int, damage: int)
      ensures this.name == name && this.maxHull == maxHull && this.maxShield == maxShield
      ensures this.speed == speed && this.range == range && this.damage == damage
      ensures hull == maxHull && shield == maxShield && active
      ensures position == (0, 0) && destination == None && target == null
      ensures maxHull >= 0 && maxShield >= 0 ==> Valid()
      ensures maxHull > 0 ==> Alive(Defences(shield, hull, active))
      ensures WithinMaxima()
    {
      this.name := name;
      this.maxHull := maxHull;
      this.hull := maxHull;
      this.maxShield := maxShield;
      this.shield := maxShield;
      this.speed := speed;
      this.range := range;
      this.damage := damage;
      this.position := (0, 0);
      this.destination := None;
      this.target := null;
      this.active := true;
    }

    /** `_move_to(x, y)`: the position becomes `(x, y)`; nothing else changes. */
    method MoveTo(x: int, y: int)
      modifies this`position
      ensures position == (x, y)
    {
      position := (x, y);
    }

    /** `set_course(x, y)`: the destination becomes `(x, y)`; nothing else
        changes. */
    method SetCourse(x: int, y: int)
      modifies this`destination
      ensures destination == Some((x, y))
    {
      destination := Some((x, y));
    }

    /** `_damage_shield(amount)`: drains the shield and returns the damage it
        could not absorb, emptying it in that case. */
    method DamageShield(amount: int) returns (overkill: int)
      modifies this`shield
      ensures amount <= old(shield) ==> shield == old(shield) - amount && overkill == 0
      ensures amount > old(shield) ==> shield == 0 && overkill == amount - old(shield)
      ensures overkill >= 0 && (overkill > 0 <==> amount > old(shield))
      ensures old(shield) >= 0 ==> shield >= 0
    {
      shield := shield - amount;
      if shield < 0 {
        overkill := shield * -1;
        shield := 0;
        return;
      }
      overkill := 0;
    }

    /** `_damage_hull(amount)`: takes `amount` off the hull; a hull at or
        below zero is clamped to zero and the ship dies. */
    method DamageHull(amount: int)
      modifies this`hull, this`active
      ensures old(hull) - amount > 0 ==> hull == old(hull) - amount && active == old(active)
      ensures old(hull) - amount <= 0 ==> hull == 0 && !active
      ensures !old(active) ==> !active
      ensures amount >= 0 && old(Valid()) ==> Valid()
    {
      hull := hull - amount;
      if hull <= 0 {
        hull := 0;
        Die();
      }
    }

    /** `_die()`: the ship becomes inactive. */
    method Die()
      modifies this`active
      ensures !active
    {
      active := false;
    }

    /** `take_damage(amount)`: the shield absorbs first and only a non-zero
        excess reaches the hull. */
    method TakeDamage(amount: int)
      modifies this`shield, this`hull, this`active
      ensures Defences(shield, hull, active) == Absorb(Defences(old(shield), old(hull), old(active)), amount)
      ensures amount <= old(shield) ==> hull == old(hull) && active == old(active)
      ensures active <==> old(active) && (amount <= old(shield) || old(shield) + old(hull) > amount)
      ensures old(Valid()) ==> Valid()
      ensures old(Valid()) && old(active <==> hull > 0) ==> Alive(Defences(shield, hull, active))
      ensures !old(active) ==> !active
      ensures amount >= 0 && old(Valid()) ==> shield <= old(shield) && hull <= old(hull)
      ensures amount >= 0 && old(Valid()) && old(WithinMaxima()) ==> WithinMaxima()
    {
      var hullDamage := DamageShield(amount);
      if hullDamage != 0 {
        DamageHull(hullDamage);
      }
      if old(Valid()) && old(active <==> hull > 0) {
        AbsorbKeepsAlive(Defences(old(shield), old(hull), old(active)), amount);
      }
    }
  }

  /** The scenarios of tests/test_ship.py on a fresh 100-hull, 50-shield
      ship, and the follow-up hit of ten points. */
  method GuineaScenarios()
  {
    var ship := new Ship("Guinea", 100, 50, 5, 200, 25);
    ship.TakeDamage(45);
    assert ship.hull == 100 && ship.shield == 5 && ship.active;
    ship.TakeDamage(10);
    assert ship.shield == 0 && ship.hull == 95 && ship.active;

    ship := new Ship("Guinea", 100, 50, 5, 200, 25);
    var left := ship.DamageShield(40);
    assert left == 0;
    ship := new Ship("Guinea", 100, 50, 5, 200, 25);
    left := ship.DamageShield(75);
    assert left == 25;

    ship.MoveTo(7, -2);
    assert ship.position == (7, -2) && ship.hull == 100;
    ship.SetCourse(7, -2);
    assert ship.destination == Some((7, -2)) && ship.position == (7, -2);
  }
}
