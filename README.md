# moo_like: ships and vectors

A model of the two pieces of moo_like that carry real logic, a space
strategy game written in Python.

- **Ship damage** (`ship.py`). A `Ship` holds a shield and a hull. Damage
  drains the shield first. Only the excess over the shield's charge reaches
  the hull. A hull brought to zero or below is clamped to zero and the ship
  dies, which is a one-way switch. The ship also records a position and a
  destination.
  `ship.dfy` models this as the class `Ships.Ship`, whose methods update its
  fields in place as the Python methods do. `TakeDamage` is proved to follow
  the pure function `Ships.Absorb` over `Ships.Defences`, the value made of
  shield, hull and active flag. Lemmas about `Absorb` and its fold
  `AbsorbAll` state what the damage model guarantees over any run of hits.
- **Vectors** (`vector.py`). `Vector` is an immutable tuple of numbers with
  component-wise `+` and `-`, a dot product, scalar `*` and `/`, and
  multiplication by a matrix. `vector.dfy` models each operation as a
  function over `seq<real>`. Python's assertion failures and
  `ZeroDivisionError` become the `Err` case of a `Result`.
  `wrappers.dfy` holds the `Option` and `Result` types.

Behaviour kept as written:
- The constructor substitutes `(0, 0)` for an empty argument list, so no
  vector is ever empty. `Vectors.Vector` is the subset type of non-empty
  sequences.
- `matrix_mult` with a matrix of zero rows therefore returns `(0, 0)`, not an
  empty vector.
- `+`, `-` and the dot product zip their operands, so the longer operand is
  silently truncated.
- `take_damage` does not check the sign of the damage. A negative hit raises
  the shield, and the model allows it.

## Model

| member | source | states |
|---|---|---|
| Vectors.New | vector.py:40-51 | no arguments give exactly `(0, 0)`; otherwise the components are the arguments in order |
| Vectors.ConstructionExamples | vector.py:48-51 | `Vector(3, 4)` holds `(3, 4)`, as tests/test_vector.py:15-19 checks, and `Vector()` holds `(0, 0)`; two instances of `New` |
| Vectors.Get | vector.py:247-248 | `v[key]` is defined exactly for `-len(v) <= key < len(v)`; a non-negative key counts from the front and a negative key from the end |
| Vectors.Len | vector.py:244-245 | `len(v)` is at least 1, and `Get` succeeds exactly on the keys `-len(v) .. len(v)-1` |
| Vectors.Add | vector.py:231-234 | the sum has the length of the shorter operand, and component `i` is `a[i] + b[i]` |
| Vectors.Sub | vector.py:236-239 | the difference has the length of the shorter operand, and component `i` is `a[i] - b[i]` |
| Vectors.SubThenAdd | vector.py:231-239 | for operands of one length, `(a - b) + b == a` |
| Vectors.Dot | vector.py:168-179 | the sum of `a[i] * b[i]` over the zipped prefix; 0 when either operand is empty or all zero |
| Vectors.DotTruncates | vector.py:168-179 | the dot product only sees the zipped prefix of the two operands |
| Vectors.DotCommutes | vector.py:168-179 | the dot product does not depend on the order of its operands |
| Vectors.DotSelf | vector.py:179 | `v * v` is never negative, and it is zero exactly when every component is zero |
| Vectors.Scale | vector.py:199-201 | `v * k` keeps the length, and component `i` is `v[i] * k` |
| Vectors.Mul | vector.py:181-201 | `v * w` for a vector `w` is the dot product; for a number `k` it is the scaled vector |
| Vectors.MulVectorsCommutes | vector.py:196-197 | `a * b == b * a` for vectors |
| Vectors.RMul | vector.py:203-214 | `k * v == v * k` for a number; for a vector operand the result is the dot product `other * v` |
| Vectors.Div | vector.py:216-229 | division by zero fails with `ZeroDivision` and by nothing else; otherwise the length is kept and component `i` is `v[i] / k` |
| Vectors.ScaleThenDiv | vector.py:199-229 | for `k != 0`, `(v * k) / k == v` |
| Vectors.MatrixMult | vector.py:145-166 | succeeds exactly when every row has the vector's length; component `i` of the result is the dot product of row `i` with `v`; no rows give `(0, 0)` |
| Vectors.RotateByMatrix | vector.py:126-143 | a non-square matrix fails with `NotSquare`; a square one gives exactly what `matrix_mult` gives; success needs both square and matching rows |
| Vectors.IdentityFixes | vector.py:126-166 | multiplying by the identity matrix, through `matrix_mult` or `rotate_by_matrix`, returns `v` |
| Ships.Absorb | ship.py:32-57 | a hit within the shield's charge leaves hull and active flag alone; a larger hit empties the shield and takes exactly the excess off the hull, clamped at 0; the ship survives exactly when the hit is within the shield or below shield plus hull; sound pools stay sound, and a non-negative hit never raises either pool |
| Ships.AbsorbTotal | ship.py:32-57 | one non-negative hit takes exactly its damage off shield plus hull, stopping at zero |
| Ships.AbsorbAllSound | ship.py:32-57 | any run of hits, of any sign, keeps the pools sound |
| Ships.AbsorbAllTotal | ship.py:32-57 | after any run of non-negative hits, shield plus hull is the starting total minus the total damage, or zero |
| Ships.DestroyedStaysDestroyed | ship.py:46-51 | once destroyed, a ship stays inactive with an empty hull whatever hits follow |
| Ships.AbsorbKeepsAlive | ship.py:43-57 | on a sound ship that is active exactly while it has hull left, a hit keeps that so |
| Ships.AbsorbAllKeepsAlive | ship.py:43-57 | the same over any run of hits |
| Ships.EmptyHullShipSurvivesShieldHit | ship.py:5-15 | a ship built with no hull is active with an empty hull, and a hit its shield absorbs leaves it so |
| Ships.AbsorbAllDrains | ship.py:34-47 | under non-negative hits neither pool rises above its starting value |
| Ships.Ship.constructor | ship.py:2-15 | a new ship has full pools, is active, sits at `(0, 0)`, and has no destination and no target; its pools are sound when the maxima are non-negative, and with a positive maximum hull it is active exactly while it has hull left |
| Ships.Ship.MoveTo | ship.py:17-18 | the position becomes `(x, y)` and no other field changes |
| Ships.Ship.SetCourse | ship.py:20-21 | the destination becomes `(x, y)` and no other field changes |
| Ships.Ship.DamageShield | ship.py:32-41 | damage within the charge drains the shield and returns 0; larger damage empties the shield and returns exactly the excess; the result is positive exactly when the damage exceeds the charge |
| Ships.Ship.DamageHull | ship.py:43-48 | a hull left above zero drops by exactly the damage; otherwise it is clamped to zero and the ship dies; a dead ship stays dead |
| Ships.Ship.Die | ship.py:50-51 | the ship becomes inactive and nothing else changes |
| Ships.Ship.TakeDamage | ship.py:53-57 | the new shield, hull and active flag are exactly `Absorb` of the old ones; only these three fields change; soundness is kept; a ship active exactly while it has hull left stays so; a dead ship stays dead; non-negative damage keeps the pools within their old values and their maxima |

`Ships.GuineaScenarios` replays tests/test_ship.py on a 100-hull, 50-shield
ship through the class's contracts: a 45-point hit leaves hull 100 and
shield 5, `_damage_shield(40)` returns 0 and `_damage_shield(75)` returns 25.

## Left out

- `Vector.norm`, `argument`, `normalize` and `rotate_by_angle` (vector.py:53-124) use square roots and trigonometry over floats. They are not modelled. `rotate_by_angle` also asserts a two-component vector (vector.py:112).
- Floating-point rounding: components are exact reals, so `(v * k) / k == v` holds exactly in the model but only approximately in Python.
- `__iter__` and `__repr__` (vector.py:241-251) are protocol and formatting glue.
- Vectors.Get: slice keys of `__getitem__` are not modelled, only integer keys.
- Vectors.Mul: an operand that is not a `Vector` goes through `float()`. A numeric string such as `"2"` scales the vector, and non-numeric strings or other objects raise `TypeError` or `ValueError`. The model only admits numbers and vectors.
- Vectors.Add, Vectors.Sub: `+` and `-` zip with any iterable. `v + (1, 2)` works, `v + []` gives `(0, 0)`, and `v + 3` raises `TypeError`. The model only admits a `Vector` operand.
- Vectors.Div: the divisor goes through `float()`, so a numeric string is accepted and a non-numeric operand raises. The model only admits a number.
- Vectors.Div: Python 2's `__div__` is modelled. Python 3 would need `__truediv__` and would reject `/` altogether.
- `Ship.process_turn` (ship.py:23-30) has no behaviour, and `Ship.status_report` (ship.py:59-65) only formats a string.
- The ship's `_target` is set to `None` by the constructor and never assigned by any modelled method.
- Positions and destinations are modelled as integer pairs. Python stores whatever `x` and `y` it is given. tests/test_ship.py:24-42 also passes a single `Vector`, which does not match the two-argument signatures of `_move_to` and `set_course` (ship.py:17-21).
- Ships.Ship.constructor: "active exactly while hull is left" holds only for a positive `max_hull`. With `max_hull` of 0 the source builds an active ship with no hull (ship.py:5, 15), which stays active under hits its shield absorbs. `EmptyHullShipSurvivesShieldHit` shows this, and the model keeps the source's behaviour.
- Ships.Ship.DamageHull: soundness is promised only for non-negative damage. A negative amount raises the hull, and it can revive a dead ship's hull without reviving the ship. Its only caller passes a positive excess.
- Ships.AbsorbAllTotal and Ships.AbsorbAllDrains: stated for non-negative hits only. A negative hit raises the shield, so the totals no longer fall monotonically.
- util.py, system.py, planet.py, colony.py and main.py are not part of this model. They hold floating-point helpers, unrunnable or stub code, string formatting and the I/O driver loop.
