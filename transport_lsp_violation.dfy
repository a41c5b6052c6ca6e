/** The transport hierarchy that violates Liskov substitution: the base class
    carries an engine flag for every variant, the car refuses to ride on an empty
    tank, and the bike's startEngine does nothing. A JavaScript subclass becomes
    a class of its own holding its base class's fields. Motion itself is
    unspecified in the source, so each method is modelled by its effect on the
    fields alone. */
module TransportLspViolation {

  /** The only part of the fuel tank the car reads. */
  datatype FuelTank = FuelTank(isEmpty: bool)

  /** The operations a caller can apply to a transport. */
  datatype Op = Ride | StartEngine

  class Transport {
    var name: string
    var model: string
    var velocity: real
    var engine: bool

    constructor (name: string, model: string, velocity: real, engine: bool)
      ensures this.name == name && this.model == model
      ensures this.velocity == velocity && this.engine == engine
    {
      this.name := name;
      this.model := model;
      this.velocity := velocity;
      this.engine := engine;
    }

    /** Placeholder body: changes nothing. */
    method Ride()
      ensures unchanged(this)
    {
    }

    /** Placeholder body: changes nothing. */
    method StartEngine()
      ensures unchanged(this)
    {
    }
  }

  class Car {
    var name: string
    var model: string
    var velocity: real
    var engine: bool
    var fuelTank: FuelTank

    constructor (name: string, model: string, velocity: real, engine: bool, fuelTank: FuelTank)
      ensures this.name == name && this.model == model
      ensures this.velocity == velocity && this.engine == engine
      ensures this.fuelTank == fuelTank
    {
      this.name := name;
      this.model := model;
      this.velocity := velocity;
      this.engine := engine;
      this.fuelTank := fuelTank;
    }

    /** Turns the engine on; on a car whose engine is on, nothing changes. */
    method StartEngine()
      modifies this`engine
      ensures engine
      ensures old(engine) ==> unchanged(this)
      ensures engine == CarEngineAfter(Op.StartEngine, old(engine), fuelTank.isEmpty)
    {
      engine := true;
    }

    /** On an empty tank, returns before doing anything; otherwise starts the
        engine if it is off. Only the engine flag can change. */
    method Ride()
      modifies this`engine
      ensures fuelTank.isEmpty ==> unchanged(this)
      ensures !fuelTank.isEmpty ==> engine
      ensures old(engine) ==> unchanged(this)
      ensures engine == CarEngineAfter(Op.Ride, old(engine), fuelTank.isEmpty)
    {
      if fuelTank.isEmpty {
        return;
      }
      if !engine {
        StartEngine();
      }
    }
  }

  class Bike {
    var name: string
    var model: string
    var velocity: real
    var engine: bool

    constructor (name: string, model: string, velocity: real, engine: bool)
      ensures this.name == name && this.model == model
      ensures this.velocity == velocity && this.engine == engine
    {
      this.name := name;
      this.model := model;
      this.velocity := velocity;
      this.engine := engine;
    }

    /** Placeholder body: changes nothing. */
    method Ride()
      ensures unchanged(this)
      ensures engine == BikeEngineAfter(Op.Ride, old(engine))
    {
    }

    /** A bike has no engine: the flag stays as it was, even when it is off. */
    method StartEngine()
      ensures unchanged(this)
      ensures engine == BikeEngineAfter(Op.StartEngine, old(engine))
    {
    }
  }

  /** The engine flag of a car after one operation, given its flag before and its tank. */
  function CarEngineAfter(op: Op, engine: bool, tankEmpty: bool): bool
  {
    match op
    case StartEngine => true
    case Ride => if tankEmpty then engine else true
  }

  /** The engine flag of a bike after one operation: no operation touches it. */
  function BikeEngineAfter(op: Op, engine: bool): bool
  {
    engine
  }

  /** The engine flag of a car after a sequence of operations; no operation
      writes the tank, so it is the same throughout. */
  function CarEngineAfterAll(ops: seq<Op>, engine: bool, tankEmpty: bool): bool
    decreases |ops|
  {
    if ops == [] then engine
    else CarEngineAfterAll(ops[1..], CarEngineAfter(ops[0], engine, tankEmpty), tankEmpty)
  }

  function BikeEngineAfterAll(ops: seq<Op>, engine: bool): bool
    decreases |ops|
  {
    if ops == [] then engine
    else BikeEngineAfterAll(ops[1..], BikeEngineAfter(ops[0], engine))
  }

  /** No sequence of operations turns a car's engine off. */
  lemma {:induction false} CarEngineStaysOn(ops: seq<Op>, engine: bool, tankEmpty: bool)
    requires engine
    ensures CarEngineAfterAll(ops, engine, tankEmpty)
    decreases |ops|
  {
    if ops != [] {
      CarEngineStaysOn(ops[1..], CarEngineAfter(ops[0], engine, tankEmpty), tankEmpty);
    }
  }

  /** A car's engine ends on exactly when it started on, or some operation is a
      startEngine, or the tank is not empty and some operation is a ride. */
  lemma {:induction false} CarEngineOnIff(ops: seq<Op>, engine: bool, tankEmpty: bool)
    ensures CarEngineAfterAll(ops, engine, tankEmpty)
        <==> engine || StartEngine in ops || (!tankEmpty && Ride in ops)
    decreases |ops|
  {
    if ops != [] {
      var next := CarEngineAfter(ops[0], engine, tankEmpty);
      assert forall op :: op in ops <==> op == ops[0] || op in ops[1..];
      if next {
        CarEngineStaysOn(ops[1..], next, tankEmpty);
      } else {
        CarEngineOnIff(ops[1..], next, tankEmpty);
      }
    }
  }

  /** With an empty tank, rides alone never start the engine. */
  lemma RidesOnEmptyTankChangeNothing(ops: seq<Op>, engine: bool)
    requires forall i :: 0 <= i < |ops| ==> ops[i] == Ride
    ensures CarEngineAfterAll(ops, engine, true) == engine
  {
    assert StartEngine !in ops;
    CarEngineOnIff(ops, engine, true);
  }

  /** No sequence of operations changes a bike's engine flag. */
  lemma {:induction false} BikeEngineNeverChanges(ops: seq<Op>, engine: bool)
    ensures BikeEngineAfterAll(ops, engine) == engine
    decreases |ops|
  {
    if ops != [] {
      BikeEngineNeverChanges(ops[1..], engine);
    }
  }
}
