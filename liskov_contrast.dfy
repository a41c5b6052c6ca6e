/** The Liskov contrast between the two transport hierarchies, stated on the
    engine transitions their methods are proved to follow. The promise a caller
    of a motorized transport relies on is "after ride, and after startEngine,
    the engine is on". */
module LiskovContrast {
  import V = TransportLspViolation
  import C = TransportLsp

  /** In the substitutable design a car's ride keeps that promise from every state. */
  lemma RideAlwaysStartsEngine(engine: bool)
    ensures C.EngineAfter(C.Ride, engine)
    ensures C.EngineAfter(C.StartEngine, engine)
  {
  }

  /** In the violating design a car's ride keeps it only when the tank is not
      empty or the engine was already on: the empty tank is an added precondition. */
  lemma RideStartsEngineOnlyWithFuel(engine: bool, tankEmpty: bool)
    ensures V.CarEngineAfter(V.Ride, engine, tankEmpty) <==> engine || !tankEmpty
  {
  }

  /** The state that breaks the promise: engine off, tank empty. */
  lemma EmptyTankBreaksRide()
    ensures !V.CarEngineAfter(V.Ride, false, true)
  {
  }

  /** A bike of the violating design inherits startEngine but breaks its promise. */
  lemma BikeBreaksStartEngine()
    ensures !V.BikeEngineAfter(V.StartEngine, false)
  {
  }

  /** Starting the engine twice is the same as starting it once, in both designs. */
  lemma StartEngineIdempotent(engine: bool, tankEmpty: bool)
    ensures C.EngineAfter(C.StartEngine, C.EngineAfter(C.StartEngine, engine))
         == C.EngineAfter(C.StartEngine, engine)
    ensures V.CarEngineAfter(V.StartEngine, V.CarEngineAfter(V.StartEngine, engine, tankEmpty), tankEmpty)
         == V.CarEngineAfter(V.StartEngine, engine, tankEmpty)
  {
  }

  /** On objects: a violating car built with its engine off and an empty tank
      still has its engine off after ride. */
  method EmptyTankCarRide() returns (c: V.Car)
    ensures c.fuelTank.isEmpty && !c.engine
  {
    c := new V.Car("car", "model", 0.0, false, V.FuelTank(true));
    c.Ride();
  }

  /** On objects: a violating bike built with its engine off still has it off
      after startEngine. */
  method BikeStartEngine() returns (b: V.Bike)
    ensures !b.engine
  {
    b := new V.Bike("bike", "model", 0.0, false);
    b.StartEngine();
  }

  /** On objects: a compliant car built with its engine off has it on after ride. */
  method CompliantCarRide() returns (c: C.Car)
    ensures c.engine
  {
    c := new C.Car("car", "model", 0.0, false);
    c.Ride();
  }
}
