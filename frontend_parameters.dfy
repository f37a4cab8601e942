/**
 * The `parameters` state of the prediction page (frontend/src/App.js):
 * five numeric inputs, the selected road surface and the debug checkbox,
 * kept in the key order of the object literal that creates them.
 */
module AppParameters {
  import opened Wrappers

  /** The keys of the `parameters` object, one constructor per key. */
  datatype Field = Pressure | Load | Tkph | Temp | Speed | RoadCondition | DebugMode

  /** A JavaScript value held under a key: the numeric inputs store numbers
      (`parseFloat`), the select a string, the checkbox a boolean; `Undefined`
      is what an empty road-condition catalog leaves behind. */
  datatype Value = Num(x: real) | Text(s: string) | Flag(b: bool) | Undefined

  datatype Parameters = Parameters(
    pressure: real,
    load: real,
    tkph: real,
    temp: real,
    speed: real,
    roadCondition: Option<string>,
    debugMode: bool)

  /** The state the page starts with. */
  const INITIAL: Parameters := Parameters(32.0, 1500.0, 150.0, 25.0, 60.0, Some("paved"), false)

  /** `Object.keys(parameters)`: insertion order of the literal. */
  const KEYS: seq<Field> := [Pressure, Load, Tkph, Temp, Speed, RoadCondition, DebugMode]

  /** The property name of each key, as the form field is named. */
  function KeyName(f: Field): string
  {
    match f
    case Pressure => "pressure"
    case Load => "load"
    case Tkph => "tkph"
    case Temp => "temp"
    case Speed => "speed"
    case RoadCondition => "road_condition"
    case DebugMode => "debug_mode"
  }

  /** `parameters[key]`. */
  function Get(p: Parameters, f: Field): Value
  {
    match f
    case Pressure => Num(p.pressure)
    case Load => Num(p.load)
    case Tkph => Num(p.tkph)
    case Temp => Num(p.temp)
    case Speed => Num(p.speed)
    case RoadCondition => if p.roadCondition.Some? then Text(p.roadCondition.value) else Undefined
    case DebugMode => Flag(p.debugMode)
  }

  /** One call `handleParameterChange(name, value)` as the inputs issue it:
      the name together with a value of the type that input produces. */
  datatype Change =
    | SetPressure(x: real)
    | SetLoad(x: real)
    | SetTkph(x: real)
    | SetTemp(x: real)
    | SetSpeed(x: real)
    | SetRoadCondition(s: string)
    | SetDebugMode(b: bool)
  {
    function Target(): Field
    {
      match this
      case SetPressure(_) => Pressure
      case SetLoad(_) => Load
      case SetTkph(_) => Tkph
      case SetTemp(_) => Temp
      case SetSpeed(_) => Speed
      case SetRoadCondition(_) => RoadCondition
      case SetDebugMode(_) => DebugMode
    }

    function NewValue(): Value
    {
      match this
      case SetPressure(x) => Num(x)
      case SetLoad(x) => Num(x)
      case SetTkph(x) => Num(x)
      case SetTemp(x) => Num(x)
      case SetSpeed(x) => Num(x)
      case SetRoadCondition(s) => Text(s)
      case SetDebugMode(b) => Flag(b)
    }
  }

  /** `{ ...prev, [name]: value }`: the named key takes the new value and
      every other key keeps its old one. */
  function Apply(p: Parameters, c: Change): (q: Parameters)
    ensures Get(q, c.Target()) == c.NewValue()
    ensures forall f :: f != c.Target() ==> Get(q, f) == Get(p, f)
  {
    match c
    case SetPressure(x) => p.(pressure := x)
    case SetLoad(x) => p.(load := x)
    case SetTkph(x) => p.(tkph := x)
    case SetTemp(x) => p.(temp := x)
    case SetSpeed(x) => p.(speed := x)
    case SetRoadCondition(s) => p.(roadCondition := Some(s))
    case SetDebugMode(b) => p.(debugMode := b)
  }

  /** Every key occurs in KEYS exactly once, and distinct keys have distinct names. */
  lemma KeysEnumerateFields()
    ensures forall f :: f in KEYS
    ensures forall i, j :: 0 <= i < j < |KEYS| ==> KEYS[i] != KEYS[j] && KeyName(KEYS[i]) != KeyName(KEYS[j])
  {
    forall f ensures f in KEYS {
      match f
      case Pressure => assert KEYS[0] == f;
      case Load => assert KEYS[1] == f;
      case Tkph => assert KEYS[2] == f;
      case Temp => assert KEYS[3] == f;
      case Speed => assert KEYS[4] == f;
      case RoadCondition => assert KEYS[5] == f;
      case DebugMode => assert KEYS[6] == f;
    }
  }

  /** Two parameter states that agree on every key are the same state. */
  lemma {:induction false} GetDeterminesParameters(p: Parameters, q: Parameters)
    requires forall f :: Get(p, f) == Get(q, f)
    ensures p == q
  {
    assert Get(p, Pressure) == Get(q, Pressure);
    assert Get(p, Load) == Get(q, Load);
    assert Get(p, Tkph) == Get(q, Tkph);
    assert Get(p, Temp) == Get(q, Temp);
    assert Get(p, Speed) == Get(q, Speed);
    assert Get(p, RoadCondition) == Get(q, RoadCondition);
    assert Get(p, DebugMode) == Get(q, DebugMode);
  }

  /** Setting a key to the value it already has changes nothing, and a
      later change to the same key overrides an earlier one. */
  lemma ApplyIdempotentAndLastWins(p: Parameters, c: Change, d: Change)
    requires c.Target() == d.Target()
    ensures Apply(Apply(p, c), d) == Apply(p, d)
    ensures Get(p, c.Target()) == c.NewValue() ==> Apply(p, c) == p
  {
  }

  /** Changes to different keys commute. */
  lemma ApplyCommutes(p: Parameters, c: Change, d: Change)
    requires c.Target() != d.Target()
    ensures Apply(Apply(p, c), d) == Apply(Apply(p, d), c)
  {
  }
}
