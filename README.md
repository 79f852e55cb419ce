# LPD8806 light strip bridge — a Dafny model

This project models the core of a home-automation plugin that drives one
LPD8806 RGB light strip over HTTP: the local record of the strip's power,
brightness, hue and saturation; the client that turns each change into a
single-field JSON POST (and the state read into a GET); and the accessory
that keeps the record in step with the device. A set writes the record at
once and then calls the device. A get answers from the record at once and
starts a background refresh that overwrites all four fields from a reply
with a colour array (only `on` from a reply without one), or does nothing
if the read fails.

Files, one module each:

- `wrappers.dfy` — `Option` and `Result`.
- `models.dfy` — module `Models`: the record (`src/models/LPD8806.ts`) as the class `LPD8806` and as the value `LightState` with its getter `Read` and setter `Write`.
- `api.dfy` — module `Api`: the request builders and the wire formats (`src/api/LPD8806API.ts`).
- `accessories.dfy` — module `Accessories`: the controller (`src/accessories/LPD8806Accessory.ts`) as the class `LPD8806Accessory`, with a pure event semantics (`Apply`, `Replay`) that its methods are proved against.

The asynchronous handlers are split at their `await`. `SetOn`, `SetBrightness`,
`SetSaturation` and `SetHue` do the optimistic write and return the request
they start, with a ticket. `SettleSet(ticket, outcome)` is the part after the
await and returns what the callback receives. `GetOn` and the other getters
return the cached value and count one more refresh in flight. `SettleRefresh(reply)`
is the refresh's `.then`/`.catch`. In which order in-flight calls settle is
the caller's choice; every interleaving of settlements is a sequence of
calls. `Event`, `Apply` and `Replay` describe the same steps on values, and
`LastWriteWins` proves that each field ends with what its latest writer
stored. The method `RaceClient` drives the class through one such
interleaving (a hue set, a get, the set settling, then the refresh) and
asserts the record and the pushed values at the end.

Two behaviours of the code are easy to misread; the model follows the code:

- The set callback is `callback(null, this.light.X)`, evaluated after the `await`. It echoes the record as it is when the remote call settles, not necessarily the value that was set. `Answer` reads the record at settle time. `SetEchoesValue` proves that the callback echoes the set value when nothing wrote the field in between. `RaceBetweenSetAndRefresh` shows an interleaving where it echoes the device's value instead.
- In a race between a set and a refresh, the final record does not depend on which remote call settles last. The set writes its value when it is called, so a refresh whose reply carries a colour array and that settles after the set was called always wins (`RaceBetweenSetAndRefresh`). A refresh whose reply has no colour array leaves a colour set's value in place (`RefreshWithoutColorKeepsSet`). A refresh that settles before the set is called is overwritten (`RefreshBeforeSet`).

Values are unbounded integers. The source passes hue, saturation and
brightness through unchanged and never computes on them.

## Model

| member | source | states |
|---|---|---|
| `Models.Read` | src/models/LPD8806.ts:7-33 | each getter returns a value of its field's type: a boolean for `on`, a number for the others |
| `Models.Write` | src/models/LPD8806.ts:11-37 | a setter reads back the value written and leaves the other three fields as they were; any value is accepted |
| `Models.InitialReads` | src/models/LPD8806.ts:2-5 | a fresh record is off, with brightness, hue and saturation 0 |
| `Models.SameFields` | src/models/LPD8806.ts:1-38 | the record is nothing but its four fields: records that agree on every getter are equal |
| `Models.WriteUnique` | src/models/LPD8806.ts:11-37 | a setter has no effect beyond the written field |
| `Models.WritesCommute` | src/models/LPD8806.ts:11-37 | setters of different fields commute (the fields are independent) |
| `Models.WriteOverwrites` | src/models/LPD8806.ts:11-37 | a second write to a field replaces the first |
| `Models.WriteSame` | src/models/LPD8806.ts:11-37 | writing a field's current value changes nothing |
| `Models.LPD8806.constructor` | src/models/LPD8806.ts:2-5 | a new record holds false, 0, 0, 0 |
| `Models.LPD8806.SetOn` | src/models/LPD8806.ts:11-13 | `on` becomes the value; nothing else changes |
| `Models.LPD8806.SetBrightness` | src/models/LPD8806.ts:19-21 | `brightness` becomes the value; nothing else changes |
| `Models.LPD8806.SetHue` | src/models/LPD8806.ts:27-29 | `hue` becomes the value; nothing else changes |
| `Models.LPD8806.SetSaturation` | src/models/LPD8806.ts:35-37 | `saturation` becomes the value; nothing else changes |
| `Api.GetState` | src/api/LPD8806API.ts:29-31 | the state read is a GET and carries no body |
| `Api.SetPower` | src/api/LPD8806API.ts:33-39 | the body's only field is `on`, the integer 1 exactly when the power is on and 0 otherwise |
| `Api.SetHue` | src/api/LPD8806API.ts:41-47 | the body's only field is `hue`, carrying the argument unchanged |
| `Api.SetBrightness` | src/api/LPD8806API.ts:49-55 | the body's only field is `brightness`, carrying the argument unchanged |
| `Api.SetSaturation` | src/api/LPD8806API.ts:57-63 | the body's only field is `saturation`, carrying the argument unchanged |
| `Api.Setter` | src/api/LPD8806API.ts:33-63 | every setter sends exactly its own field, and the body reads back as the requested change |
| `Api.CommandIsSetter` | src/api/LPD8806API.ts:33-63 | conversely, every single-field body is what one setter sends for the change it carries |
| `Api.SetterInjective` | src/api/LPD8806API.ts:33-63 | different changes produce different requests |
| `Api.Report` | src/api/LPD8806API.ts:4-12 | the device's answer for a state carries its power and a colour array of three elements in which element 0 is the hue, 1 the saturation and 2 the brightness |
| `Accessories.CheckUrl` | src/accessories/LPD8806Accessory.ts:36-38 | construction fails with "URL not supplied" exactly when the URL is absent or empty |
| `Accessories.Decode` | src/accessories/LPD8806Accessory.ts:221-224 | with its helper `ColorAt`, which reads a missing element as 0: power is taken from the reply, the hue from colour element 0, the saturation from element 1 and the brightness from element 2 |
| `Accessories.Refreshed` | src/accessories/LPD8806Accessory.ts:220-230 | a reply with a colour array overwrites all four fields as `Decode` says; a reply without one overwrites only `on` (the handler throws after storing it) and keeps the three colour fields |
| `Accessories.DecodeReport` | src/accessories/LPD8806Accessory.ts:220-224 | refreshing from the device's report of a state yields exactly that state, whatever the record held before |
| `Accessories.ReportDecode` | src/api/LPD8806API.ts:4-12 | a reply with three colour elements is the report of the state it refreshes to |
| `Accessories.DecodeIgnoresExtra` | src/accessories/LPD8806Accessory.ts:222-224 | only the first three colour elements are read |
| `Accessories.Answer` | src/accessories/LPD8806Accessory.ts:80-86 | a set callback is a success exactly when the remote call succeeded, and otherwise carries the remote error |
| `Accessories.Apply` | src/accessories/LPD8806Accessory.ts:76-231 | each field after an event is what the event stores in it, if anything, else unchanged; settling a set, calling a get and a failed refresh change nothing |
| `Accessories.LastWriteWins` | src/accessories/LPD8806Accessory.ts:76-231 | after any history, each field holds what the latest set of it or successful refresh stored |
| `Accessories.NoWriterKeeps` | src/accessories/LPD8806Accessory.ts:76-231 | a history that stores nothing into a field leaves it unchanged |
| `Accessories.SetEchoesValue` | src/accessories/LPD8806Accessory.ts:78-86 | a set with no intervening write of its field gets `(null, v)` on success or the error on failure, and the field keeps `v` either way (no rollback) |
| `Accessories.RaceBetweenSetAndRefresh` | src/accessories/LPD8806Accessory.ts:181-192 | with a hue set and a refresh in flight, the device's hue wins in both settle orders; the callback echoes the set value only when the set settles first |
| `Accessories.RefreshWithoutColorKeepsSet` | src/accessories/LPD8806Accessory.ts:221-230 | a refresh whose reply has no colour array, settling after a hue set was called, keeps the set's hue and takes only `on` from the reply |
| `Accessories.RefreshBeforeSet` | src/accessories/LPD8806Accessory.ts:183-186 | a set called after a refresh settled overwrites the refreshed value |
| `Accessories.LPD8806Accessory.constructor` | src/accessories/LPD8806Accessory.ts:31-42 | a new accessory holds a fresh record with default values, the configured URL, nothing in flight and nothing pushed |
| `Accessories.LPD8806Accessory.Create` | src/accessories/LPD8806Accessory.ts:36-40 | construction throws "URL not supplied" when the URL is absent or empty, and otherwise builds the accessory with that URL |
| `Accessories.LPD8806Accessory.SetOn` | src/accessories/LPD8806Accessory.ts:78-81 | the record's `on` is the value before the remote call settles, the request is `setPower` of that value, other fields are unchanged |
| `Accessories.LPD8806Accessory.SetBrightness` | src/accessories/LPD8806Accessory.ts:113-116 | optimistic write of brightness; the request is `setBrightness` of that value |
| `Accessories.LPD8806Accessory.SetSaturation` | src/accessories/LPD8806Accessory.ts:148-151 | optimistic write of saturation; the request is `setSaturation` of that value |
| `Accessories.LPD8806Accessory.SetHue` | src/accessories/LPD8806Accessory.ts:183-186 | optimistic write of hue; the request is `setHue` of that value |
| `Accessories.LPD8806Accessory.SettleSet` | src/accessories/LPD8806Accessory.ts:80-86 | the callback is the record's current value of the field on success or the error on failure; the record is not rolled back |
| `Accessories.LPD8806Accessory.RefreshState` | src/accessories/LPD8806Accessory.ts:216-219 | pushes the current four values and starts one more GET |
| `Accessories.LPD8806Accessory.SettleRefresh` | src/accessories/LPD8806Accessory.ts:220-230 | on a reply with a colour array all four fields are overwritten from it and pushed; on a reply without one only `on` changes and nothing is pushed; on a failed GET nothing changes |
| `Accessories.LPD8806Accessory.GetOn` | src/accessories/LPD8806Accessory.ts:99-105 | returns the cached power and starts a refresh without changing the record |
| `Accessories.LPD8806Accessory.GetBrightness` | src/accessories/LPD8806Accessory.ts:134-140 | returns the cached brightness and starts a refresh without changing the record |
| `Accessories.LPD8806Accessory.GetSaturation` | src/accessories/LPD8806Accessory.ts:169-175 | returns the cached saturation and starts a refresh without changing the record |
| `Accessories.LPD8806Accessory.GetHue` | src/accessories/LPD8806Accessory.ts:204-210 | returns the cached hue and starts a refresh without changing the record |

## Left out

- The HTTP transport and `APIUtils` (`src/api/APIUtils.ts` is not part of this model): a request is modelled as the value that would be sent; whether it succeeds is a parameter of `SettleSet` and `SettleRefresh`. The URL is kept per accessory in `url`, while the source stores it in the global `APIUtils.URL` (src/accessories/LPD8806Accessory.ts:40), so a second accessory in the source would redirect the first one's requests; the model has no such sharing.
- The POST reply `status` field (src/api/LPD8806API.ts:21-26): the code never reads it, so only the HTTP outcome matters.
- The HomeKit service, the characteristic event bindings, `getServices` and the accessory information (src/accessories/LPD8806Accessory.ts:42-70). The pushes of `setRefreshState` (lines 233-238) are modelled only as the list `published` of four-value records pushed.
- Logging of errors.
- Real concurrency and promise scheduling: in-flight calls are tickets and a counter, and their settling order is chosen by the caller of the model.
- JavaScript coercions: `value as boolean` and `value as number` are taken as well typed, and `|| 0` is modelled only for a missing colour element, not for `NaN` or a present non-number.
- SettleRefresh: a reply whose `on` is missing stores `undefined` in the record in the source (src/accessories/LPD8806Accessory.ts:221); `StateResponse.on` is a boolean, so this case and a `color` that is present but not an array are not modelled. A missing `color` array is modelled.
- Non-integer values: hue, saturation and brightness are JavaScript numbers (the hub sends hue and saturation as floats); the model uses `int`. The values are only passed through, and `x || 0` treats every nonzero number alike, so no branch depends on the difference.
- `src/index.ts`: plugin registration only.
