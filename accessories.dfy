/**
 * The reconciling controller (src/accessories/LPD8806Accessory.ts). It owns
 * the local record, writes every set into it at once and then sends the
 * change to the device, answers every get from the record at once and then
 * starts a background refresh that overwrites the record from the device.
 *
 * The asynchrony is made explicit: a set is split into its synchronous part
 * (`SetOn`, ... , returning the request it starts) and the settling of the
 * remote call (`SettleSet`); a get starts a refresh that is settled later by
 * `SettleRefresh`. In what order calls settle is chosen by the caller of the
 * model, as the device and the network choose it in the running program.
 */
module Accessories {
  import opened Wrappers
  import opened Models
  import opened Api

  /** How the remote setter's promise settled. */
  datatype Outcome = Acked | Failed(reason: string)

  /** What a set callback receives: `callback(null, value)` or `callback(error)`. */
  datatype Callback = Done(value: Value) | Error(reason: string)

  /** The message of the construction error. */
  const UrlMissing := "URL not supplied"

  /** The constructor's configuration check: an absent or empty URL is an error. */
  function CheckUrl(url: Option<string>): (r: Result<string, string>)
    ensures r.Success? <==> url.Some? && url.value != ""
    ensures r.Success? ==> r.value == url.value
    ensures r.Failure? ==> r.error == UrlMissing
  {
    if url.None? || url.value == "" then Failure(UrlMissing) else Success(url.value)
  }

  /** Element `i` of a colour array, with 0 for a missing element (`color[i] || 0`). */
  function ColorAt(color: seq<int>, i: nat): int {
    if i < |color| then color[i] else 0
  }

  /**
   * The record a refresh writes from a reply with a colour array: power as
   * sent, hue from element 0, saturation from 1, brightness from 2, and 0
   * for an element that is missing.
   */
  function Decode(on: bool, color: seq<int>): (s: LightState)
    ensures s.on == on
    ensures s.hue == if |color| > 0 then color[0] else 0
    ensures s.saturation == if |color| > 1 then color[1] else 0
    ensures s.brightness == if |color| > 2 then color[2] else 0
  {
    LightState(on, ColorAt(color, 2), ColorAt(color, 0), ColorAt(color, 1))
  }

  /**
   * The record after the success handler of a refresh has run on `resp`,
   * starting from `s`. The handler stores `on` first; when the reply has no
   * colour array, reading `color[2]` then throws, the rejection is only
   * logged, and the three colour fields keep their old values.
   */
  function Refreshed(s: LightState, resp: StateResponse): (r: LightState)
    ensures r.on == resp.on
    ensures resp.color.None? ==> r == s.(on := resp.on)
    ensures resp.color.Some? ==> r == Decode(resp.on, resp.color.value)
  {
    match resp.color
    case Some(color) => Decode(resp.on, color)
    case None => s.(on := resp.on)
  }

  /** Whether the success handler runs to its end and pushes the new values. */
  predicate Completes(resp: StateResponse) {
    resp.color.Some?
  }

  /** Refreshing from the device's report of a state gives that state, whatever the record held. */
  lemma DecodeReport(s: LightState, mode: string, t: LightState)
    ensures Refreshed(s, Report(mode, t)) == t
  {
  }

  /** A reply with a full colour triple is the report of its own decoding. */
  lemma ReportDecode(s: LightState, resp: StateResponse)
    requires resp.color.Some? && |resp.color.value| == 3
    ensures Report(resp.mode, Refreshed(s, resp)) == resp
  {
    assert Report(resp.mode, Refreshed(s, resp)).color.value == resp.color.value;
  }

  /** Decoding reads only the first three colour elements. */
  lemma DecodeIgnoresExtra(on: bool, color: seq<int>, extra: seq<int>)
    requires |color| == 3
    ensures Decode(on, color + extra) == Decode(on, color)
  {
  }

  /** The callback a set receives when its remote call settles, given the record at that time. */
  function Answer(s: LightState, f: Field, outcome: Outcome): (c: Callback)
    ensures c.Done? <==> outcome.Acked?
    ensures c.Done? ==> Fits(f, c.value)
    ensures c.Error? ==> c.reason == outcome.reason
  {
    match outcome
    case Acked => Done(Read(s, f))
    case Failed(reason) => Error(reason)
  }

  /** One step in the life of the controller. */
  datatype Event =
    | SetBegun(field: Field, value: Value)          // a set was called
    | SetSettled(field: Field, outcome: Outcome)    // its remote call settled
    | GetCalled(field: Field)                       // a get was called
    | RefreshSettled(reply: Option<StateResponse>)  // a refresh's GET settled (None: it failed)

  predicate WellFormed(e: Event) {
    e.SetBegun? ==> Fits(e.field, e.value)
  }

  predicate AllWellFormed(events: seq<Event>) {
    forall i :: 0 <= i < |events| ==> WellFormed(events[i])
  }

  /** The value event `e` stores in field `f`, if it stores one. */
  function Writes(e: Event, f: Field): Option<Value> {
    match e
    case SetBegun(g, v) => if g == f then Some(v) else None
    case RefreshSettled(Some(resp)) =>
      if f == On then Some(Power(resp.on))
      else if resp.color.Some? then Some(Read(Decode(resp.on, resp.color.value), f))
      else None
    case _ => None
  }

  /** The record after event `e`. */
  function Apply(s: LightState, e: Event): (r: LightState)
    requires WellFormed(e)
    ensures forall f :: Read(r, f) == Writes(e, f).GetOr(Read(s, f))
    ensures e.SetSettled? || e.GetCalled? || (e.RefreshSettled? && e.reply.None?) ==> r == s
  {
    match e
    case SetBegun(f, v) => Write(s, f, v)
    case RefreshSettled(Some(resp)) => Refreshed(s, resp)
    case _ => s
  }

  /** The record after a history of events, applied oldest first. */
  function Replay(s: LightState, events: seq<Event>): LightState
    requires AllWellFormed(events)
  {
    if events == [] then s
    else Apply(Replay(s, events[..|events| - 1]), events[|events| - 1])
  }

  /** The value stored in `f` by the last event of the history that stores one, else `d`. */
  function LastWrite(events: seq<Event>, f: Field, d: Value): Value {
    if events == [] then d
    else match Writes(events[|events| - 1], f)
      case Some(v) => v
      case None => LastWrite(events[..|events| - 1], f, d)
  }

  /**
   * The record is determined by the order in which events happen: each
   * field holds what the latest writer of that field stored, whether that
   * was a set (at the moment it was called) or a successful refresh.
   */
  lemma {:induction false} LastWriteWins(s: LightState, events: seq<Event>, f: Field)
    requires AllWellFormed(events)
    ensures Read(Replay(s, events), f) == LastWrite(events, f, Read(s, f))
  {
    if events != [] {
      var prefix := events[..|events| - 1];
      assert AllWellFormed(prefix) by {
        forall i | 0 <= i < |prefix| ensures WellFormed(prefix[i]) {
          assert prefix[i] == events[i];
        }
      }
      LastWriteWins(s, prefix, f);
    }
  }

  /** A history in which nothing stores into `f` leaves `f` as it was. */
  lemma {:induction false} NoWriterKeeps(events: seq<Event>, f: Field, d: Value)
    requires forall i :: 0 <= i < |events| ==> Writes(events[i], f).None?
    ensures LastWrite(events, f, d) == d
  {
    if events != [] {
      var prefix := events[..|events| - 1];
      assert forall i :: 0 <= i < |prefix| ==> prefix[i] == events[i];
      NoWriterKeeps(prefix, f, d);
    }
  }

  /**
   * A set whose field nobody wrote between its call and its settling
   * reports the value it was given on success, and the error on failure;
   * either way the field still holds that value (no rollback).
   */
  lemma {:induction false} SetEchoesValue(s: LightState, f: Field, v: Value, between: seq<Event>, outcome: Outcome)
    requires Fits(f, v) && AllWellFormed(between)
    requires forall i :: 0 <= i < |between| ==> Writes(between[i], f).None?
    ensures Read(Apply(Replay(Write(s, f, v), between), SetSettled(f, outcome)), f) == v
    ensures Answer(Replay(Write(s, f, v), between), f, outcome)
            == if outcome.Acked? then Done(v) else Error(outcome.reason)
  {
    LastWriteWins(Write(s, f, v), between, f);
    NoWriterKeeps(between, f, v);
  }

  /**
   * A get called while a set of the same field is in flight, whose refresh
   * reports `fromDevice` for that field. Whichever of the two remote calls
   * settles first, the record ends with the device's value, because the set
   * wrote its value when it was called; the set's callback, which reads the
   * record when it settles, echoes its own value if it settles first and
   * the device's value if it settles second (different callbacks whenever
   * the two values differ).
   */
  lemma RaceBetweenSetAndRefresh(s: LightState, v: int, fromDevice: int)
    ensures var resp := Report("color", s.(hue := fromDevice));
            var begun := Write(s, Hue, Level(v));
            && Apply(Apply(begun, SetSettled(Hue, Acked)), RefreshSettled(Some(resp))).hue == fromDevice
            && Apply(Apply(begun, RefreshSettled(Some(resp))), SetSettled(Hue, Acked)).hue == fromDevice
            && Answer(begun, Hue, Acked) == Done(Level(v))
            && Answer(Apply(begun, RefreshSettled(Some(resp))), Hue, Acked) == Done(Level(fromDevice))
  {
  }

  /**
   * A refresh whose reply has no colour array, settling after a hue set was
   * called, stores only the reply's power: the set's hue stays.
   */
  lemma RefreshWithoutColorKeepsSet(s: LightState, v: int, mode: string, on: bool)
    ensures var r := Apply(Write(s, Hue, Level(v)), RefreshSettled(Some(StateResponse(mode, on, None))));
            r.hue == v && r.on == on && r.saturation == s.saturation && r.brightness == s.brightness
  {
  }

  /** A refresh that settles before the set is called is overwritten by the set. */
  lemma RefreshBeforeSet(s: LightState, resp: StateResponse, v: int)
    ensures Apply(Apply(s, RefreshSettled(Some(resp))), SetBegun(Hue, Level(v))).hue == v
  {
  }

  /** The accessory `LPD8806Accessory`, reduced to its state and its handlers. */
  class LPD8806Accessory {
    /** The configured device URL (`APIUtils.URL`). */
    const url: string
    /** The local record. */
    const light: LPD8806
    /** Every set of four values pushed to the hub by `setRefreshState`, oldest first. */
    var published: seq<LightState>
    /** Refreshes whose GET has not settled yet. */
    var pendingRefreshes: nat
    /** Sets whose remote call has not settled yet, by ticket. */
    var inFlight: map<nat, Field>
    /** The ticket of the next set. */
    var nextTicket: nat

    ghost predicate Valid()
      reads this
    {
      forall t :: t in inFlight ==> t < nextTicket
    }

    /** The contents of the local record. */
    function State(): LightState
      reads this, light
    {
      light.State()
    }

    constructor (url: string)
      requires url != ""
      ensures Valid() && fresh(light)
      ensures this.url == url && State() == Initial
      ensures published == [] && pendingRefreshes == 0 && inFlight == map[]
    {
      this.url := url;
      light := new LPD8806();
      published := [];
      pendingRefreshes := 0;
      inFlight := map[];
      nextTicket := 0;
    }

    /** Construction from the configuration, which throws when the URL is absent or empty. */
    static method Create(url: Option<string>) returns (r: Result<LPD8806Accessory, string>)
      ensures r.Failure? <==> CheckUrl(url).Failure?
      ensures r.Failure? ==> r.error == UrlMissing
      ensures r.Success? ==> && fresh(r.value) && fresh(r.value.light) && r.value.Valid()
                             && r.value.url == url.value && r.value.State() == Initial
                             && r.value.published == [] && r.value.pendingRefreshes == 0
                             && r.value.inFlight == map[]
    {
      var checked := CheckUrl(url);
      if checked.Failure? {
        return Failure(checked.error);
      }
      var accessory := new LPD8806Accessory(checked.value);
      return Success(accessory);
    }

    /** Records a set of field `f` as in flight under a new ticket. */
    method Track(f: Field) returns (ticket: nat)
      requires Valid()
      modifies this
      ensures Valid()
      ensures ticket !in old(inFlight) && inFlight == old(inFlight)[ticket := f]
      ensures nextTicket == old(nextTicket) + 1
      ensures published == old(published) && pendingRefreshes == old(pendingRefreshes)
    {
      ticket := nextTicket;
      inFlight := inFlight[ticket := f];
      nextTicket := nextTicket + 1;
    }

    /** `setOn`, up to the await: optimistic write, then the remote setter with the same value. */
    method SetOn(value: bool) returns (ticket: nat, request: Request)
      requires Valid()
      modifies this, light
      ensures Valid()
      ensures light.on == value
      ensures State() == Apply(old(State()), SetBegun(On, Power(value)))
      ensures request == SetPower(value)
      ensures ticket !in old(inFlight) && inFlight == old(inFlight)[ticket := On]
      ensures nextTicket == old(nextTicket) + 1
      ensures published == old(published) && pendingRefreshes == old(pendingRefreshes)
    {
      light.SetOn(value);
      request := SetPower(light.on);
      ticket := Track(On);
    }

    /** `setBrightness`, up to the await. */
    method SetBrightness(value: int) returns (ticket: nat, request: Request)
      requires Valid()
      modifies this, light
      ensures Valid()
      ensures light.brightness == value
      ensures State() == Apply(old(State()), SetBegun(Brightness, Level(value)))
      ensures request == Api.SetBrightness(value)
      ensures ticket !in old(inFlight) && inFlight == old(inFlight)[ticket := Brightness]
      ensures nextTicket == old(nextTicket) + 1
      ensures published == old(published) && pendingRefreshes == old(pendingRefreshes)
    {
      light.SetBrightness(value);
      request := Api.SetBrightness(light.brightness);
      ticket := Track(Brightness);
    }

    /** `setSaturation`, up to the await. */
    method SetSaturation(value: int) returns (ticket: nat, request: Request)
      requires Valid()
      modifies this, light
      ensures Valid()
      ensures light.saturation == value
      ensures State() == Apply(old(State()), SetBegun(Saturation, Level(value)))
      ensures request == Api.SetSaturation(value)
      ensures ticket !in old(inFlight) && inFlight == old(inFlight)[ticket := Saturation]
      ensures nextTicket == old(nextTicket) + 1
      ensures published == old(published) && pendingRefreshes == old(pendingRefreshes)
    {
      light.SetSaturation(value);
      request := Api.SetSaturation(light.saturation);
      ticket := Track(Saturation);
    }

    /** `setHue`, up to the await. */
    method SetHue(value: int) returns (ticket: nat, request: Request)
      requires Valid()
      modifies this, light
      ensures Valid()
      ensures light.hue == value
      ensures State() == Apply(old(State()), SetBegun(Hue, Level(value)))
      ensures request == Api.SetHue(value)
      ensures ticket !in old(inFlight) && inFlight == old(inFlight)[ticket := Hue]
      ensures nextTicket == old(nextTicket) + 1
      ensures published == old(published) && pendingRefreshes == old(pendingRefreshes)
    {
      light.SetHue(value);
      request := Api.SetHue(light.hue);
      ticket := Track(Hue);
    }

    /**
     * The rest of a set, after the await: the callback gets the field's
     * value as the record holds it now, or the error; the record is not
     * rolled back.
     */
    method SettleSet(ticket: nat, outcome: Outcome) returns (callback: Callback)
      requires Valid() && ticket in inFlight
      modifies this
      ensures Valid()
      ensures callback == Answer(old(State()), old(inFlight[ticket]), outcome)
      ensures State() == Apply(old(State()), SetSettled(old(inFlight[ticket]), outcome))
      ensures inFlight == old(inFlight) - {ticket} && nextTicket == old(nextTicket)
      ensures published == old(published) && pendingRefreshes == old(pendingRefreshes)
    {
      var f := inFlight[ticket];
      match outcome {
        case Acked =>
          callback := Done(Read(light.State(), f));
        case Failed(reason) =>
          callback := Error(reason);
      }
      inFlight := inFlight - {ticket};
    }

    /** `refreshState`, up to its GET: pushes the current values and starts the read. */
    method RefreshState() returns (request: Request)
      requires Valid()
      modifies this
      ensures Valid()
      ensures request == GetState()
      ensures published == old(published) + [State()]
      ensures pendingRefreshes == old(pendingRefreshes) + 1
      ensures inFlight == old(inFlight) && nextTicket == old(nextTicket)
    {
      published := published + [light.State()];
      pendingRefreshes := pendingRefreshes + 1;
      request := GetState();
    }

    /**
     * The rest of `refreshState`, when its GET settles: on success all four
     * fields are overwritten from the reply and pushed; on failure the error
     * is only logged, so nothing changes and nothing reaches a caller. A
     * reply without a colour array stores its `on` and then throws into the
     * same logging handler, so only `on` changes and nothing is pushed.
     */
    method SettleRefresh(reply: Option<StateResponse>)
      requires Valid() && pendingRefreshes > 0
      modifies this, light
      ensures Valid()
      ensures State() == Apply(old(State()), RefreshSettled(reply))
      ensures published == if reply.Some? && Completes(reply.value) then old(published) + [State()] else old(published)
      ensures pendingRefreshes == old(pendingRefreshes) - 1
      ensures inFlight == old(inFlight) && nextTicket == old(nextTicket)
    {
      pendingRefreshes := pendingRefreshes - 1;
      match reply {
        case Some(resp) =>
          light.SetOn(resp.on);
          match resp.color {
            case Some(color) =>
              light.SetBrightness(ColorAt(color, 2));
              light.SetHue(ColorAt(color, 0));
              light.SetSaturation(ColorAt(color, 1));
              published := published + [light.State()];
            case None =>
          }
        case None =>
      }
    }

    /** `getOn`: starts a refresh and answers from the record without waiting for it. */
    method GetOn() returns (value: bool, request: Request)
      requires Valid()
      modifies this
      ensures Valid()
      ensures Power(value) == Read(old(State()), On)
      ensures State() == Apply(old(State()), GetCalled(On))
      ensures request == GetState()
      ensures published == old(published) + [old(State())]
      ensures pendingRefreshes == old(pendingRefreshes) + 1
      ensures inFlight == old(inFlight) && nextTicket == old(nextTicket)
    {
      request := RefreshState();
      value := light.on;
    }

    /** `getBrightness`. */
    method GetBrightness() returns (value: int, request: Request)
      requires Valid()
      modifies this
      ensures Valid()
      ensures Level(value) == Read(old(State()), Brightness)
      ensures State() == Apply(old(State()), GetCalled(Brightness))
      ensures request == GetState()
      ensures published == old(published) + [old(State())]
      ensures pendingRefreshes == old(pendingRefreshes) + 1
      ensures inFlight == old(inFlight) && nextTicket == old(nextTicket)
    {
      request := RefreshState();
      value := light.brightness;
    }

    /** `getSaturation`. */
    method GetSaturation() returns (value: int, request: Request)
      requires Valid()
      modifies this
      ensures Valid()
      ensures Level(value) == Read(old(State()), Saturation)
      ensures State() == Apply(old(State()), GetCalled(Saturation))
      ensures request == GetState()
      ensures published == old(published) + [old(State())]
      ensures pendingRefreshes == old(pendingRefreshes) + 1
      ensures inFlight == old(inFlight) && nextTicket == old(nextTicket)
    {
      request := RefreshState();
      value := light.saturation;
    }

    /** `getHue`. */
    method GetHue() returns (value: int, request: Request)
      requires Valid()
      modifies this
      ensures Valid()
      ensures Level(value) == Read(old(State()), Hue)
      ensures State() == Apply(old(State()), GetCalled(Hue))
      ensures request == GetState()
      ensures published == old(published) + [old(State())]
      ensures pendingRefreshes == old(pendingRefreshes) + 1
      ensures inFlight == old(inFlight) && nextTicket == old(nextTicket)
    {
      request := RefreshState();
      value := light.hue;
    }
  }

  /**
   * A caller of the accessory: a hue set and a get race, the set settles
   * first and then the refresh. The record ends with the device's hue.
   */
  method RaceClient(url: string)
    requires url != ""
  {
    var accessory := new LPD8806Accessory(url);
    var ticket, sent := accessory.SetHue(10);
    assert sent == Post(Empty.(hue := Some(10)));
    var hue, read := accessory.GetHue();
    assert hue == 10;
    var callback := accessory.SettleSet(ticket, Acked);
    assert callback == Done(Level(10));
    accessory.SettleRefresh(Some(StateResponse("color", true, Some([99, 50, 70]))));
    assert accessory.State() == LightState(true, 70, 99, 50);
    assert accessory.published == [LightState(false, 0, 10, 0), LightState(true, 70, 99, 50)];
  }
}
