/** The conveyor of line cars: the spawner's normalised settings, the
    spawn offsets, the per-car loop / respawn step and the frame-time
    clamp. Only the x coordinate of a car changes; y and z stay on the
    lane. */
module LineCar {
  import opened PyText

  // ---------------------------------------------------------------- names

  /** Leading zeros do not change the value of a digit string. */
  lemma {:induction false} ZeroPrefixValue(d: string)
    requires IsDigits(d)
    ensures IsDigits("0" + d) && DigitsValue("0" + d) == DigitsValue(d)
  {
    var z := "0" + d;
    if |d| > 1 {
      var init := d[..|d| - 1];
      assert z[..|z| - 1] == "0" + init;
      ZeroPrefixValue(init);
      assert d[..|d| - 1] == init;
    } else {
      assert z[..|z| - 1] == "0";
      assert "0"[..0] == "";
      assert d[..0] == "";
    }
  }

  /** `"%03d" % n` is the digits of `n`. */
  lemma Pad3Value(n: nat)
    ensures IsDigits(Pad3(n)) && DigitsValue(Pad3(n)) == n
  {
    var d := NatToStr(n);
    DigitsValueOfNatToStr(n);
    if |d| == 1 {
      ZeroPrefixValue(d);
      ZeroPrefixValue("0" + d);
      assert "00" + d == "0" + ("0" + d);
    } else if |d| == 2 {
      ZeroPrefixValue(d);
    }
  }

  /** `f"Car_{i+1:03d}"` */
  function CarName(i: nat): string {
    "Car_" + Pad3(i + 1)
  }

  /** Different positions give different names. */
  lemma CarNameInjective(i: nat, j: nat)
    requires CarName(i) == CarName(j)
    ensures i == j
  {
    PrefixCancels("Car_", Pad3(i + 1), Pad3(j + 1));
    Pad3Injective(i + 1, j + 1);
  }

  lemma PrefixCancels(p: string, a: string, b: string)
    requires p + a == p + b
    ensures a == b
  {
    assert (p + a)[|p|..] == a;
    assert (p + b)[|p|..] == b;
  }

  lemma Pad3Injective(m: nat, n: nat)
    requires Pad3(m) == Pad3(n)
    ensures m == n
  {
    Pad3Value(m);
    Pad3Value(n);
  }

  // ---------------------------------------------------------------- motion

  /** A car: its x on the lane and the time it waits until. */
  datatype Car = Car(x: real, deadUntil: real)

  /** +1 when the lane runs towards larger x, else -1. */
  function Dir(startX: real, endX: real): (r: real)
    ensures r == 1.0 || r == -1.0
    ensures r == 1.0 <==> endX >= startX
  {
    if endX >= startX then 1.0 else -1.0
  }

  /** `start_x - dir * spacing * i` */
  function SpawnX(startX: real, dir: real, spacing: real, i: nat): real {
    startX - dir * spacing * (i as real)
  }

  /** Neighbouring cars start one spacing apart, against the direction of
      travel. */
  lemma SpawnSpacing(startX: real, dir: real, spacing: real, i: nat)
    ensures SpawnX(startX, dir, spacing, i) - SpawnX(startX, dir, spacing, i + 1) == dir * spacing
    ensures SpawnX(startX, dir, spacing, 0) == startX
  {
    assert dir * spacing * ((i + 1) as real) == dir * spacing * (i as real) + dir * spacing;
  }

  /** `_on_update`'s frame time: clamped to `[0, 0.1]`. */
  function ClampDt(d: real): (r: real)
    ensures 0.0 <= r <= 0.1
    ensures 0.0 <= d <= 0.1 ==> r == d
    ensures d < 0.0 ==> r == 0.0
    ensures d > 0.1 ==> r == 0.1
  {
    if d < 0.0 then 0.0 else if d > 0.1 then 0.1 else d
  }

  /** The settings `_step_car` reads. */
  datatype Lane = Lane(startX: real, endX: real, spacing: real, mode: string,
                       respawnDelay: real, dir: real, speedSigned: real)

  /** `pos[0] + speed_signed * dt` */
  function Advance(lane: Lane, x: real, dt: real): real {
    x + lane.speedSigned * dt
  }

  /** The end check on the advanced position. */
  predicate Reached(lane: Lane, x: real) {
    if lane.dir > 0.0 then x >= lane.endX else x <= lane.endX
  }

  /** A respawning car is held until `dead_until`. */
  predicate Waiting(lane: Lane, car: Car, now: real) {
    lane.mode == "respawn" && now < car.deadUntil
  }

  /** `_step_car` for a car whose position can be read: held while
      waiting; otherwise advanced, and at the end either sent one spacing
      behind the start (loop) or put back on the start with a new wait
      when the delay is positive (any other mode). */
  function StepOf(lane: Lane, car: Car, dt: real, now: real): Car {
    if Waiting(lane, car, now) then car
    else
      var x := Advance(lane, car.x, dt);
      if !Reached(lane, x) then Car(x, car.deadUntil)
      else if lane.mode == "loop" then Car(lane.startX - lane.dir * lane.spacing, car.deadUntil)
      else Car(lane.startX, if lane.respawnDelay > 0.0 then now + lane.respawnDelay else car.deadUntil)
  }

  /** A waiting car does not move. */
  lemma WaitingCarStays(lane: Lane, car: Car, dt: real, now: real)
    requires lane.mode == "respawn" && now < car.deadUntil
    ensures StepOf(lane, car, dt, now) == car
  {
  }

  /** A car that does not reach the end moves by `speed_signed * dt` and
      keeps its wait. */
  lemma StepMoves(lane: Lane, car: Car, dt: real, now: real)
    requires !Waiting(lane, car, now) && !Reached(lane, Advance(lane, car.x, dt))
    ensures StepOf(lane, car, dt, now).x - car.x == lane.speedSigned * dt
    ensures StepOf(lane, car, dt, now).deadUntil == car.deadUntil
  {
  }

  /** In loop mode, on a lane towards larger x with a positive spacing, a
      step never leaves a car on or past the end. */
  lemma LoopStaysBeforeEnd(lane: Lane, car: Car, dt: real, now: real)
    requires lane.mode == "loop" && lane.dir == 1.0 && lane.endX >= lane.startX && lane.spacing > 0.0
    ensures StepOf(lane, car, dt, now).x < lane.endX
  {
  }

  /** In loop mode, on a lane towards smaller x with a positive spacing, a
      step never leaves a car on or past the end. */
  lemma LoopStaysBeforeEndLeft(lane: Lane, car: Car, dt: real, now: real)
    requires lane.mode == "loop" && lane.dir == -1.0 && lane.endX < lane.startX && lane.spacing > 0.0
    ensures StepOf(lane, car, dt, now).x > lane.endX
  {
  }

  /** A respawning car that reaches the end is back on the start, waiting
      `respawn_delay` from now when that is positive. */
  lemma RespawnAtEnd(lane: Lane, car: Car, dt: real, now: real)
    requires lane.mode == "respawn" && now >= car.deadUntil && Reached(lane, Advance(lane, car.x, dt))
    ensures StepOf(lane, car, dt, now).x == lane.startX
    ensures lane.respawnDelay > 0.0 ==>
              StepOf(lane, car, dt, now).deadUntil == now + lane.respawnDelay && Waiting(lane, StepOf(lane, car, dt, now), now)
    ensures lane.respawnDelay <= 0.0 ==> StepOf(lane, car, dt, now).deadUntil == car.deadUntil
  {
  }

  /** `max(1, int(count))` */
  function CarCount(count: int): (r: nat)
    ensures r >= 1 && (count >= 1 ==> r == count)
  {
    if count < 1 then 1 else count
  }

  /** The car table after `_step_car(name, ...)`: an unknown or waiting
      car leaves it as it is, an unreadable one is dropped, any other is
      replaced by its step. */
  function StepIn(lane: Lane, cars: map<string, Car>, name: string, dt: real, now: real, readable: bool): map<string, Car>
  {
    if name !in cars || Waiting(lane, cars[name], now) then cars
    else if !readable then cars - {name}
    else cars[name := StepOf(lane, cars[name], dt, now)]
  }

  // ---------------------------------------------------------------- spawner

  /** `LineCarSpawner`: `cars` is `_cars` (name to car), `subscribed`
      whether the update subscription is held. */
  class LineCarSpawner {
    const lane: Lane
    const count: nat
    var cars: map<string, Car>
    var lastTime: real
    var subscribed: bool

    /** The constructor's normalisation; `now` is the first clock read. */
    constructor (startX: real, endX: real, speed: real, count: int, spacing: real,
                 mode: string, respawnDelay: real, now: real)
      ensures this.count == CarCount(count) && this.count >= 1
      ensures lane.mode == Lower(Strip(mode))
      ensures lane.dir == Dir(startX, endX) && lane.speedSigned == speed * lane.dir
      ensures lane.startX == startX && lane.endX == endX && lane.spacing == spacing && lane.respawnDelay == respawnDelay
      ensures cars == map[] && lastTime == now && !subscribed
    {
      var dir := Dir(startX, endX);
      lane := Lane(startX, endX, spacing, Lower(Strip(mode)), respawnDelay, dir, speed * dir);
      this.count := CarCount(count);
      cars := map[];
      lastTime := now;
      subscribed := false;
    }

    /** `spawn_many`: clear the cars, then place car i at its spawn offset
        with no wait. */
    method SpawnMany()
      modifies this
      ensures cars.Keys == set i | 0 <= i < count :: CarName(i)
      ensures forall i :: 0 <= i < count ==> cars[CarName(i)] == Car(SpawnX(lane.startX, lane.dir, lane.spacing, i), 0.0)
      ensures lastTime == old(lastTime) && subscribed == old(subscribed)
    {
      forall i: nat, j: nat | CarName(i) == CarName(j)
        ensures i == j
      {
        CarNameInjective(i, j);
      }
      cars := Place(count, CarName, (i: nat) => Car(SpawnX(lane.startX, lane.dir, lane.spacing, i), 0.0));
    }

    /** Assign car `i` under `name(i)` for each `i` below `count`, starting
        from no cars. */
    static method Place(count: nat, name: nat -> string, car: nat -> Car) returns (cars: map<string, Car>)
      requires forall i: nat, j: nat :: name(i) == name(j) ==> i == j
      ensures cars.Keys == set i | 0 <= i < count :: name(i)
      ensures forall i :: 0 <= i < count ==> cars[name(i)] == car(i)
    {
      cars := map[];
      var i := 0;
      while i < count
        invariant 0 <= i <= count
        invariant cars.Keys == set j | 0 <= j < i :: name(j)
        invariant forall j :: 0 <= j < i ==> cars[name(j)] == car(j)
      {
        cars := cars[name(i) := car(i)];
        i := i + 1;
      }
    }

    /** `_step_car(name, dt, now)`; `readable` is false where reading the
        car's translation raises, and the car is then dropped. */
    method StepCar(name: string, dt: real, now: real, readable: bool)
      modifies this
      ensures cars == StepIn(lane, old(cars), name, dt, now, readable)
      ensures name !in old(cars) ==> cars == old(cars)
      ensures name in old(cars) ==>
                if Waiting(lane, old(cars)[name], now) then cars == old(cars)
                else if !readable then cars == old(cars) - {name}
                else cars == old(cars)[name := StepOf(lane, old(cars)[name], dt, now)]
      ensures lastTime == old(lastTime) && subscribed == old(subscribed)
    {
      if name !in cars {
        return;
      }
      var car := cars[name];
      if lane.mode == "respawn" && now < car.deadUntil {
        return;
      }
      if !readable {
        cars := cars - {name};
        return;
      }
      var x := car.x + lane.speedSigned * dt;
      assert x == Advance(lane, car.x, dt);
      var dead := car.deadUntil;
      var reached := if lane.dir > 0.0 then x >= lane.endX else x <= lane.endX;
      if reached {
        if lane.mode == "loop" {
          x := lane.startX - lane.dir * lane.spacing;
        } else {
          if lane.respawnDelay > 0.0 {
            dead := now + lane.respawnDelay;
          }
          x := lane.startX;
        }
      }
      assert !Waiting(lane, car, now);
      assert reached == Reached(lane, Advance(lane, car.x, dt));
      assert Car(x, dead) == StepOf(lane, car, dt, now);
      cars := cars[name := Car(x, dead)];
    }

    /** `_update(dt)`: step every car once; `now` is the clock read there
        and `broken` the cars whose translation cannot be read. */
    method Update(dt: real, now: real, broken: set<string>)
      modifies this
      ensures forall n :: n in cars <==> n in old(cars) && (Waiting(lane, old(cars)[n], now) || n !in broken)
      ensures forall n :: n in cars ==> cars[n] == StepOf(lane, old(cars)[n], dt, now)
      ensures lastTime == old(lastTime) && subscribed == old(subscribed)
    {
      cars := StepAll(lane, cars, dt, now, broken);
    }

    /** The loop of `_update` on the car table: each car is stepped once,
        in any order, as `_step_car` does it. */
    static method StepAll(lane: Lane, before: map<string, Car>, dt: real, now: real, broken: set<string>)
      returns (cars: map<string, Car>)
      ensures forall n :: n in cars <==> n in before && (Waiting(lane, before[n], now) || n !in broken)
      ensures forall n :: n in cars ==> cars[n] == StepOf(lane, before[n], dt, now)
    {
      cars := before;
      var todo := before.Keys;
      while todo != {}
        invariant todo <= before.Keys
        invariant forall n :: n in cars <==> n in before && (n in todo || Waiting(lane, before[n], now) || n !in broken)
        invariant forall n :: n in cars ==> cars[n] == if n in todo then before[n] else StepOf(lane, before[n], dt, now)
        decreases |todo|
      {
        var n :| n in todo;
        cars := StepIn(lane, cars, n, dt, now, n !in broken);
        todo := todo - {n};
      }
    }

    /** `_on_update`: the clamped time since the last frame, then a step of
        every car; `now` and `stepNow` are the two clock reads. */
    method OnUpdate(now: real, stepNow: real, broken: set<string>)
      modifies this
      ensures lastTime == now && subscribed == old(subscribed)
      ensures forall n :: n in cars <==> n in old(cars) && (Waiting(lane, old(cars)[n], stepNow) || n !in broken)
      ensures forall n :: n in cars ==>
                cars[n] == StepOf(lane, old(cars)[n], ClampDt(now - old(lastTime)), stepNow)
    {
      var dt := now - lastTime;
      if dt < 0.0 {
        dt := 0.0;
      }
      if dt > 0.1 {
        dt := 0.1;
      }
      lastTime := now;
      Update(dt, stepNow, broken);
    }

    /** `start`: spawn, then subscribe to the update stream. */
    method Start()
      modifies this
      ensures subscribed && lastTime == old(lastTime)
      ensures cars.Keys == set i | 0 <= i < count :: CarName(i)
      ensures forall i :: 0 <= i < count ==> cars[CarName(i)] == Car(SpawnX(lane.startX, lane.dir, lane.spacing, i), 0.0)
    {
      SpawnMany();
      subscribed := true;
    }

    /** `stop`: drop the subscription; the cars stay. */
    method Stop()
      modifies this
      ensures !subscribed && cars == old(cars) && lastTime == old(lastTime)
    {
      subscribed := false;
    }
  }
}
