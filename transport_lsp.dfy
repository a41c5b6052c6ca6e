/** The transport hierarchy that respects Liskov substitution: engine state lives
    only in the motorized branch, the car always ends a ride with its engine on,
    and the bike carries no engine at all. A JavaScript subclass becomes a class
    of its own holding its base class's fields, and the car carries the
    startEngine it inherits from MotorizedTransport. Motion itself is
    unspecified in the source, so each method is modelled by its effect on the
    fields alone. */
module TransportLsp {

  /** The operations a caller can apply to a motorized transport. */
  datatype Op = Ride | StartEngine

  class Transport {
    var name: string
    var model: string
    var velocity: real

    constructor (name: string, model: string, velocity: real)
      ensures this.name == name && this.model == model && this.velocity == velocity
    {
      this.name := name;
      this.model := model;
      this.velocity := velocity;
    }

    /** Placeholder body: changes nothing. */
    method Ride()
      ensures unchanged(this)
    {
    }
  }

  class MotorizedTransport {
    var name: string
    var model: string
    var velocity: real
    var engine: bool

    constructor (name: string, model: string, velocity: real, engine: bool)
      ensures this.name == name && this.model == model
      ensures this.velocity == velocity && this.engine == engine
    {
      this.name := name;
      this.model := model;
      this.velocity := velocity;
      this.engine := engine;
    }

    /** Placeholder body: changes nothing, so an engine that is off stays off;
        only the car's ride promises a running engine. */
    method Ride()
      ensures unchanged(this)
    {
    }

    /** Turns the engine on; on a transport whose engine is on, nothing changes. */
    method StartEngine()
      modifies this`engine
      ensures engine
      ensures old(engine) ==> unchanged(this)
      ensures engine == EngineAfter(Op.StartEngine, old(engine))
    {
      engine := true;
    }
  }

  class Car {
    var name: string
    var model: string
    var velocity: real
    var engine: bool

    constructor (name: string, model: string, velocity: real, engine: bool)
      ensures this.name == name && this.model == model
      ensures this.velocity == velocity && this.engine == engine
    {
      this.name := name;
      this.model := model;
      this.velocity := velocity;
      this.engine := engine;
    }

    /** Inherited from MotorizedTransport: turns the engine on. */
    method StartEngine()
      modifies this`engine
      ensures engine
      ensures old(engine) ==> unchanged(this)
      ensures engine == EngineAfter(Op.StartEngine, old(engine))
    {
      engine := true;
    }

    /** Starts the engine if it is off, from any state; only the engine flag can change. */
    method Ride()
      modifies this`engine
      ensures engine
      ensures old(engine) ==> unchanged(this)
      ensures engine == EngineAfter(Op.Ride, old(engine))
    {
      if !engine {
        StartEngine();
      }
    }
  }

  /** A bike is a plain transport: no engine field, and riding changes nothing. */
  class Bike {
    var name: string
    var model: string
    var velocity: real

    constructor (name: string, model: string, velocity: real)
      ensures this.name == name && this.model == model && this.velocity == velocity
    {
      this.name := name;
      this.model := model;
      this.velocity := velocity;
    }

    /** Placeholder body: changes nothing. */
    method Ride()
      ensures unchanged(this)
    {
    }
  }

  /** The engine flag of a car after one operation, given its flag before. */
  function EngineAfter(op: Op, engine: bool): bool
  {
    match op
    case StartEngine => true
    case Ride => if !engine then true else engine
  }

  /** The engine flag of a car after a sequence of operations. */
  function EngineAfterAll(ops: seq<Op>, engine: bool): bool
    decreases |ops|
  {
    if ops == [] then engine
    else EngineAfterAll(ops[1..], EngineAfter(ops[0], engine))
  }

  /** No sequence of operations turns a car's engine off. */
  lemma {:induction false} EngineStaysOn(ops: seq<Op>, engine: bool)
    requires engine
    ensures EngineAfterAll(ops, engine)
    decreases |ops|
  {
    if ops != [] {
      EngineStaysOn(ops[1..], EngineAfter(ops[0], engine));
    }
  }

  /** A car's engine ends on exactly when it started on or at least one
      operation was applied: every operation, ride included, starts it. */
  lemma {:induction false} EngineOnIff(ops: seq<Op>, engine: bool)
    ensures EngineAfterAll(ops, engine) <==> engine || ops != []
  {
    if ops != [] {
      EngineStaysOn(ops[1..], EngineAfter(ops[0], engine));
    }
  }
}
