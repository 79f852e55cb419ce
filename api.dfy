/**
 * The remote command client (src/api/LPD8806API.ts): one builder per
 * controllable property, each producing a POST whose JSON body carries that
 * one property, and a GET that reads the whole state. The HTTP transport is
 * not modelled; a `Request` is what would be sent to the configured URL.
 */
module Api {
  import opened Wrappers
  import opened Models

  /** Power on the wire: the integer 1 or 0, never a JSON boolean. */
  type NumericBoolean = n: int | n == 0 || n == 1

  /** `Partial<LPD8806Options>`: a POST body in which every field may be absent. */
  datatype Options = Options(
    on: Option<NumericBoolean>,
    brightness: Option<int>,
    hue: Option<int>,
    saturation: Option<int>)

  /** A request to the device's single endpoint. */
  datatype Request = Get | Post(body: Options)

  /**
   * `LPD8806Response`, the device's answer to a GET. `color` is positional
   * (hue, saturation, brightness); the device may send fewer elements, or
   * no colour array at all (`None`).
   */
  datatype StateResponse = StateResponse(mode: string, on: bool, color: Option<seq<int>>)

  /** A POST body with no field present. */
  const Empty := Options(None, None, None, None)

  /** The fields present in a POST body. */
  function Keys(body: Options): set<Field> {
    (if body.on.Some? then {On} else {})
    + (if body.brightness.Some? then {Brightness} else {})
    + (if body.hue.Some? then {Hue} else {})
    + (if body.saturation.Some? then {Saturation} else {})
  }

  /**
   * The change a body asks the device to make, when it carries exactly one
   * field; `None` for an empty body or one with several fields.
   */
  function Command(body: Options): Option<(Field, Value)> {
    if Keys(body) == {On} then Some((On, Power(body.on.value == 1)))
    else if Keys(body) == {Brightness} then Some((Brightness, Level(body.brightness.value)))
    else if Keys(body) == {Hue} then Some((Hue, Level(body.hue.value)))
    else if Keys(body) == {Saturation} then Some((Saturation, Level(body.saturation.value)))
    else None
  }

  /** `getState`: a read, with no body. */
  function GetState(): (r: Request)
    ensures !r.Post?
  {
    Get
  }

  /** `setPower`: a body whose only field is `on`, as the integer 1 or 0. */
  function SetPower(on: bool): (r: Request)
    ensures r.Post? && Keys(r.body) == {On}
    ensures r.body.on.Some? && (r.body.on.value == 1 <==> on)
    ensures Command(r.body) == Some((On, Power(on)))
  {
    Post(Empty.(on := Some(if on then 1 else 0)))
  }

  /** `setHue`: a body whose only field is `hue`, carrying `hue` unchanged. */
  function SetHue(hue: int): (r: Request)
    ensures r.Post? && Keys(r.body) == {Hue} && r.body.hue == Some(hue)
    ensures Command(r.body) == Some((Hue, Level(hue)))
  {
    Post(Empty.(hue := Some(hue)))
  }

  /** `setBrightness`: a body whose only field is `brightness`, carrying it unchanged. */
  function SetBrightness(brightness: int): (r: Request)
    ensures r.Post? && Keys(r.body) == {Brightness} && r.body.brightness == Some(brightness)
    ensures Command(r.body) == Some((Brightness, Level(brightness)))
  {
    Post(Empty.(brightness := Some(brightness)))
  }

  /** `setSaturation`: a body whose only field is `saturation`, carrying it unchanged. */
  function SetSaturation(saturation: int): (r: Request)
    ensures r.Post? && Keys(r.body) == {Saturation} && r.body.saturation == Some(saturation)
    ensures Command(r.body) == Some((Saturation, Level(saturation)))
  {
    Post(Empty.(saturation := Some(saturation)))
  }

  /** The setter of the client that sends field `f`. */
  function Setter(f: Field, v: Value): (r: Request)
    requires Fits(f, v)
    ensures r.Post? && Keys(r.body) == {f}
    ensures Command(r.body) == Some((f, v))
  {
    match f
    case On => SetPower(v.on)
    case Brightness => SetBrightness(v.level)
    case Hue => SetHue(v.level)
    case Saturation => SetSaturation(v.level)
  }

  /**
   * Conversely, every single-field body is exactly what one of the setters
   * sends: the four setters cover all sparse one-field payloads.
   */
  lemma CommandIsSetter(body: Options, f: Field, v: Value)
    requires Command(body) == Some((f, v))
    ensures Fits(f, v)
    ensures Setter(f, v) == Post(body)
  {
  }

  /** Two different changes never produce the same request. */
  lemma SetterInjective(f: Field, v: Value, g: Field, w: Value)
    requires Fits(f, v) && Fits(g, w)
    requires Setter(f, v) == Setter(g, w)
    ensures f == g && v == w
  {
  }

  /**
   * The GET answer the device gives for state `s`: colour element 0 is the
   * hue, 1 the saturation and 2 the brightness.
   */
  function Report(mode: string, s: LightState): (r: StateResponse)
    ensures r.on == s.on && r.color.Some? && |r.color.value| == 3
    ensures r.color.value[0] == s.hue
    ensures r.color.value[1] == s.saturation
    ensures r.color.value[2] == s.brightness
  {
    StateResponse(mode, s.on, Some([s.hue, s.saturation, s.brightness]))
  }
}
