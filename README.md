# SOLID examples in Dafny: payment calculation and transport engines

This project models the two parts of the SOLID examples repository that have
behaviour of their own:

- **Payment calculation (Open/Closed).** In the compliant design, each payment
  variant (cash, credit card) calls one shared helper, `calcDiscount(value,
  percent) = value - value * (percent / 100)`, with its own percentage: 10 for
  cash, 0 for credit card. In the violating design, one `calcPayment(method,
  value)` switches on a string tag from the `PAYMENTS_METHODS` table. An unknown
  tag matches no case, so the initial amount 0 is returned. Amounts are exact
  `real`s. The central result is that the two designs agree on every value.
  Where no variant exists for a tag, the switch returns 0.
- **Transport engines (Liskov substitution).** Each transport class becomes a
  Dafny class with the same fields. In the violating design, `Car.ride` returns
  early on an empty fuel tank, and `Bike.startEngine` does nothing. In the
  compliant design, `Car.ride` always ends with the engine on, and `Bike` has
  no engine field.
  - Both cars' `Ride` and `StartEngine`, and `MotorizedTransport.StartEngine`,
    may change only `engine` (`modifies this`engine`). Their postconditions fix
    the new engine flag and tie it to a step function on that flag. The
    violating `Bike`'s `Ride` and `StartEngine` are tied to the bike's step
    function as well.
  - Every other `ride` and `startEngine` changes nothing (`unchanged(this)`,
    no `modifies`). This includes `MotorizedTransport.ride`, which leaves an
    engine that is off still off. The guarantee "ride ends with the engine on"
    therefore belongs to the compliant `Car`, not to `MotorizedTransport`.
  - Lemmas over sequences of operations are proved over the step functions.
    `CarEngineOnIff` and `EngineOnIff` state exactly when a car's engine ends
    up on. The companion lemmas are simple inductions: a car's engine, once on,
    stays on, and a bike's flag is never changed.

Files and modules:

| file | module | models |
|---|---|---|
| payment_ocp.dfy | PaymentOcp | OCP/Payment.js |
| payment_ocp_violation.dfy | PaymentOcpViolation | OCP/PaymentOCPViolation.js |
| payment_equivalence.dfy | PaymentEquivalence | agreement of the two payment designs |
| transport_lsp_violation.dfy | TransportLspViolation | LSP/TransportLSPViolation.js |
| transport_lsp.dfy | TransportLsp | LSP/Transport.js |
| liskov_contrast.dfy | LiskovContrast | the promise each transport design keeps or breaks |

Modelling decisions:

- Dafny has no class inheritance here. Each JavaScript subclass is therefore a
  class of its own that holds its base class's fields. The compliant `Car`
  carries its own copy of the `startEngine` it inherits from
  `MotorizedTransport`.
- `name`, `model`, `velocity` (and `fuelTank` in the violating car) stay
  mutable `var` fields, as JavaScript properties are. No method's frame
  includes them, so the verifier proves that no method changes them.
- `fuelTank` is a record holding only `isEmpty: bool`. `engine` is a `bool`.
- A tag of the violating payment design is a `string`. The `PAYMENTS_METHODS`
  object is a record holding the two tag strings.
- A stricter design would reject an unknown payment tag. The code returns 0,
  and the model follows the code.
- `calcDiscount` is meant for `value >= 0` and a percentage in `[0, 100]`.
  The code checks neither, so the functions have no `requires`, and the
  bounds are stated as implications.
- `Payment` holds no fields. Its `calc` results are therefore functions of
  the value alone, and Dafny functions are deterministic by construction.

## Model

| member | source | states |
|---|---|---|
| PaymentOcp.CalcDiscount | OCP/Payment.js:5-7 | the amount is `value * (1 - percent/100)`; a percentage of 0 leaves the value unchanged; 100 gives 0; for `value >= 0` and a percentage in `[0,100]` the amount lies in `[0, value]` |
| PaymentOcp.DiscountNonIncreasing | OCP/Payment.js:5-7 | for a non-negative value, a larger percentage never gives a larger amount |
| PaymentOcp.Payment.Percent | OCP/Payment.js:11-23 | each variant's discount percentage lies in `[0, 100]` |
| PaymentOcp.Payment.Calc | OCP/Payment.js:11-23 | cash pays `0.9 * value`, credit card pays `value` (the identity), and any non-negative value gives an amount in `[0, value]` |
| PaymentOcp.CalcOfHundred | OCP/Payment.js:13-23 | cash on 100 gives 90; credit card on 100 gives 100 |
| PaymentOcpViolation.CalcPayment | OCP/PaymentOCPViolation.js:8-19 | the `CASH` tag gives `value * 0.9`; `CREDIT_CARD` gives `value`; any other tag gives 0; a recognised tag and a non-negative value give an amount in `[0, value]` |
| PaymentOcpViolation.TagsDistinct | OCP/PaymentOCPViolation.js:1-4 | the two tags differ, so the order of the switch cases does not matter |
| PaymentOcpViolation.NonZeroMeansKnown | OCP/PaymentOCPViolation.js:9-18 | a non-zero amount implies a recognised tag and a non-zero value |
| PaymentEquivalence.TagOf | OCP/PaymentOCPViolation.js:1-4 | every variant has a recognised tag |
| PaymentEquivalence.KindOf | OCP/PaymentOCPViolation.js:10-17 | the lookup finds a variant exactly for the recognised tags, and the variant found has that tag |
| PaymentEquivalence.TagRoundTrip | OCP/PaymentOCPViolation.js:1-4 | looking up a variant's tag gives back that variant |
| PaymentEquivalence.CashAgrees | OCP/PaymentOCPViolation.js:11-13 | for every value, `calcPayment(CASH, v)` equals `CashPayment.calc(v)` |
| PaymentEquivalence.CreditCardAgrees | OCP/PaymentOCPViolation.js:14-16 | for every value, `calcPayment(CREDIT_CARD, v)` equals `CreditCardPayment.calc(v)` |
| PaymentEquivalence.DesignsAgree | OCP/PaymentOCPViolation.js:8-19 | for every tag and value, the switch returns the amount of the variant the tag names, or 0 if it names none |
| PaymentEquivalence.VariantsAgree | OCP/PaymentOCPViolation.js:10-17 | every variant dispatched through its tag yields its own `calc` amount |
| TransportLspViolation.Transport.constructor | LSP/TransportLSPViolation.js:3-8 | the four fields hold the constructor's arguments |
| TransportLspViolation.Transport.Ride | LSP/TransportLSPViolation.js:10-12 | the base ride changes no field |
| TransportLspViolation.Transport.StartEngine | LSP/TransportLSPViolation.js:14-16 | the base startEngine changes no field |
| TransportLspViolation.Car.constructor | LSP/TransportLSPViolation.js:22-25 | the five fields hold the constructor's arguments |
| TransportLspViolation.Car.StartEngine | LSP/TransportLSPViolation.js:37-39 | the engine is on afterwards; if it was already on, nothing changed; only `engine` may change |
| TransportLspViolation.Car.Ride | LSP/TransportLSPViolation.js:27-35 | an empty tank leaves every field unchanged; otherwise the engine is on afterwards; an engine already on leaves every field unchanged; only `engine` may change |
| TransportLspViolation.Bike.constructor | LSP/TransportLSPViolation.js:45-47 | the four fields hold the constructor's arguments |
| TransportLspViolation.Bike.Ride | LSP/TransportLSPViolation.js:49-51 | ride changes no field, and the engine flag follows the bike's step function |
| TransportLspViolation.Bike.StartEngine | LSP/TransportLSPViolation.js:53-55 | startEngine changes no field, so an engine that was off stays off |
| TransportLspViolation.CarEngineStaysOn | LSP/TransportLSPViolation.js:27-39 | no sequence of rides and startEngines turns a car's engine off |
| TransportLspViolation.CarEngineOnIff | LSP/TransportLSPViolation.js:27-39 | after a sequence of operations the engine is on iff it was on at the start, or some operation is startEngine, or the tank is not empty and some operation is a ride |
| TransportLspViolation.RidesOnEmptyTankChangeNothing | LSP/TransportLSPViolation.js:28-30 | with an empty tank, any number of rides leaves the engine flag as it was |
| TransportLspViolation.BikeEngineNeverChanges | LSP/TransportLSPViolation.js:49-55 | no sequence of operations changes a bike's engine flag |
| TransportLsp.Transport.constructor | LSP/Transport.js:3-7 | the three fields hold the constructor's arguments |
| TransportLsp.Transport.Ride | LSP/Transport.js:9-11 | the base ride changes no field |
| TransportLsp.MotorizedTransport.constructor | LSP/Transport.js:17-20 | the four fields hold the constructor's arguments |
| TransportLsp.MotorizedTransport.Ride | LSP/Transport.js:22-24 | ride changes no field, so an engine that is off stays off |
| TransportLsp.MotorizedTransport.StartEngine | LSP/Transport.js:26-28 | the engine is on afterwards; if it was already on, nothing changed; only `engine` may change |
| TransportLsp.Car.constructor | LSP/Transport.js:34-36 | the four fields hold the constructor's arguments |
| TransportLsp.Car.StartEngine | LSP/Transport.js:26-28 | the inherited startEngine: the engine is on afterwards; if it was already on, nothing changed |
| TransportLsp.Car.Ride | LSP/Transport.js:38-43 | from any state (no precondition), the engine is on afterwards; an engine already on leaves every field unchanged; only `engine` may change |
| TransportLsp.Bike.constructor | LSP/Transport.js:3-7 | the inherited constructor; a bike has only `name`, `model` and `velocity`, with no engine |
| TransportLsp.Bike.Ride | LSP/Transport.js:47-53 | ride changes no field |
| TransportLsp.EngineStaysOn | LSP/Transport.js:26-43 | no sequence of operations turns a car's engine off |
| TransportLsp.EngineOnIff | LSP/Transport.js:26-43 | after a sequence of operations a car's engine is on iff it was on at the start or the sequence is non-empty |
| LiskovContrast.RideAlwaysStartsEngine | LSP/Transport.js:38-43 | in the compliant design, ride and startEngine each leave a car's engine on, from every state |
| LiskovContrast.RideStartsEngineOnlyWithFuel | LSP/TransportLSPViolation.js:27-35 | in the violating design, a car's ride leaves the engine on iff it was on or the tank is not empty |
| LiskovContrast.EmptyTankBreaksRide | LSP/TransportLSPViolation.js:28-30 | engine off and tank empty is a state in which the violating car's ride leaves the engine off |
| LiskovContrast.BikeBreaksStartEngine | LSP/TransportLSPViolation.js:53-55 | the violating bike's startEngine leaves an engine that is off still off |
| LiskovContrast.StartEngineIdempotent | LSP/Transport.js:26-28 | starting the engine twice is the same as starting it once, in both designs |
| LiskovContrast.EmptyTankCarRide | LSP/TransportLSPViolation.js:27-35 | a violating car built with its engine off and an empty tank still has its engine off after ride |
| LiskovContrast.BikeStartEngine | LSP/TransportLSPViolation.js:53-55 | a violating bike built with its engine off still has it off after startEngine |
| LiskovContrast.CompliantCarRide | LSP/Transport.js:38-43 | a compliant car built with its engine off has it on after ride |

## Left out

- DIP/Player.js and DIP/PlayerDIPViolation.js: every method passes its call to a `PlayerRepository` whose code the repository does not contain, and `update` refers to an undeclared `player`. Nothing there has behaviour of its own to state.
- IEEE-754 rounding of JavaScript numbers: amounts are exact reals. In doubles, `v * 0.9` and `v - v * (10 / 100)` can differ in the last place, so the agreement of the designs is proved over reals only.
- The abstract base `Payment.calc` (OCP/Payment.js:3) returns `undefined`. It is not a numeric function and has no variant of its own.
- The placeholder bodies ("some code to begin a transportation"): motion is unspecified, so `ride` is modelled only by its effect on the fields.
- JavaScript dynamic typing and truthiness: `engine` is a `bool`, `fuelTank` is always present, and a payment tag is always a string.
- JavaScript's dynamic dispatch of `this.startEngine()` inside `Car.ride`: the model calls the car's own `StartEngine`. A further subclass overriding it is not modelled.
- The source shares fields and `startEngine` through subclassing. The model copies them into each class, because Dafny classes here cannot inherit.
