/**
 * The local mirror of one LPD8806 light strip: a plain record of four
 * independent properties with a getter and a setter each, no validation
 * and no side effects (src/models/LPD8806.ts).
 */
module Models {

  /** The four properties the record holds. */
  datatype Field = On | Brightness | Hue | Saturation

  /** A property value: power is a boolean, the other three are numbers. */
  datatype Value = Power(on: bool) | Level(level: int)

  /** Whether `v` has the type of field `f`. */
  predicate Fits(f: Field, v: Value) {
    v.Power? <==> f == On
  }

  /** The contents of the record. */
  datatype LightState = LightState(on: bool, brightness: int, hue: int, saturation: int)

  /** A fresh record: off, with brightness, hue and saturation all zero. */
  const Initial := LightState(false, 0, 0, 0)

  /** The getter of field `f`. */
  function Read(s: LightState, f: Field): (v: Value)
    ensures Fits(f, v)
  {
    match f
    case On => Power(s.on)
    case Brightness => Level(s.brightness)
    case Hue => Level(s.hue)
    case Saturation => Level(s.saturation)
  }

  /** The setter of field `f`: any value of the field's type is stored as it is. */
  function Write(s: LightState, f: Field, v: Value): (r: LightState)
    requires Fits(f, v)
    ensures Read(r, f) == v
    ensures forall g :: g != f ==> Read(r, g) == Read(s, g)
  {
    match f
    case On => s.(on := v.on)
    case Brightness => s.(brightness := v.level)
    case Hue => s.(hue := v.level)
    case Saturation => s.(saturation := v.level)
  }

  /** A fresh record reads as off and zero in every numeric field. */
  lemma InitialReads(f: Field)
    ensures Read(Initial, f) == if f == On then Power(false) else Level(0)
  {
  }

  /** Two records that agree on all four getters are the same record. */
  lemma {:induction false} SameFields(s: LightState, t: LightState)
    requires forall f :: Read(s, f) == Read(t, f)
    ensures s == t
  {
    assert Read(s, On) == Read(t, On);
    assert Read(s, Brightness) == Read(t, Brightness);
    assert Read(s, Hue) == Read(t, Hue);
    assert Read(s, Saturation) == Read(t, Saturation);
  }

  /**
   * `Write` is the only record that reads back the written value and keeps
   * the other three fields: a setter has no other effect.
   */
  lemma {:induction false} WriteUnique(s: LightState, f: Field, v: Value, r: LightState)
    requires Fits(f, v)
    requires Read(r, f) == v
    requires forall g :: g != f ==> Read(r, g) == Read(s, g)
    ensures r == Write(s, f, v)
  {
    SameFields(r, Write(s, f, v));
  }

  /** Setters of different fields commute: the fields are independent. */
  lemma WritesCommute(s: LightState, f: Field, v: Value, g: Field, w: Value)
    requires Fits(f, v) && Fits(g, w) && f != g
    ensures Write(Write(s, f, v), g, w) == Write(Write(s, g, w), f, v)
  {
  }

  /** A second write to a field replaces the first. */
  lemma WriteOverwrites(s: LightState, f: Field, v: Value, w: Value)
    requires Fits(f, v) && Fits(f, w)
    ensures Write(Write(s, f, v), f, w) == Write(s, f, w)
  {
  }

  /** Writing the value a field already holds changes nothing. */
  lemma WriteSame(s: LightState, f: Field)
    ensures Write(s, f, Read(s, f)) == s
  {
  }

  /** The record `LPD8806`, whose four private fields the setters change in place. */
  class LPD8806 {
    var on: bool
    var brightness: int
    var hue: int
    var saturation: int

    /** The record's current contents. */
    function State(): LightState
      reads this
    {
      LightState(on, brightness, hue, saturation)
    }

    constructor ()
      ensures State() == Initial
      ensures !on && brightness == 0 && hue == 0 && saturation == 0
    {
      on, brightness, hue, saturation := false, 0, 0, 0;
    }

    method SetOn(value: bool)
      modifies this
      ensures on == value
      ensures State() == Write(old(State()), On, Power(value))
    {
      on := value;
    }

    method SetBrightness(value: int)
      modifies this
      ensures brightness == value
      ensures State() == Write(old(State()), Brightness, Level(value))
    {
      brightness := value;
    }

    method SetHue(value: int)
      modifies this
      ensures hue == value
      ensures State() == Write(old(State()), Hue, Level(value))
    {
      hue := value;
    }

    method SetSaturation(value: int)
      modifies this
      ensures saturation == value
      ensures State() == Write(old(State()), Saturation, Level(value))
    {
      saturation := value;
    }
  }
}
