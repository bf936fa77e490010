# Xiaomi Gateway 3: light and cover entity adapters in Dafny

This project models the entity-adapter layer of the Xiaomi Gateway 3 integration for
Home Assistant, for two platforms. An adapter is a small object bound to one device. It
configures itself from the device's converter list. It applies partial attribute updates
(`set_state`) to its own fields and reports them back (`get_state`). It turns platform
commands into attribute-write payloads, which it hands to the device's `write`.

- `light.dfy` (module `Light`) has the three light adapters:
  - `XLight` picks its colour mode, subscriptions, effect flag and effect list, and mired
    bounds from the converters.
  - `XZigbeeLight` adds a default transition. It also reorders the turn-on payload so that
    the transition comes last.
  - `XLightGroup` filters its child ids against the gateway's device registry. It forwards
    child updates and waits for a confirmation after each command, clearing its signal
    before it waits.
- `cover.dfy` (module `Cover`) has `XCover`: a fixed subscription, `is_closed` derived
  from `position <= 2`, the opening and closing flags derived from `run_state`, and one
  write per command.
- `devices.dfy` (module `Devices`) is the device as the adapters see it: a converter list,
  the `extra` options, and `write`/`dispatch`, each of which appends its argument to a log.
- `dicts.dfy` (module `Dicts`) has Python values and insertion-ordered dictionaries.
  `setdefault` appends a missing key at the end, `d[k] = v` keeps an existing key's place,
  and a dictionary comprehension follows the order of its key list. The payload-order
  properties rest on these.

The adapters are classes whose fields the methods update in place. The subclasses
`XZigbeeLight` and `XLightGroup` are modelled by composition: each holds the `XLight`
whose configuration and state it shares, and calls it where the source calls `super()`.
What `on_init` derives is specified by functions of the converter list (`ColorModeOf`,
`ListenAdded`, `EffectMapOf`, `MiredBoundsOf`). Lemmas prove what those functions mean:
the last matching converter wins, only three attribute names are ever subscribed, and the
mired bounds come out in order.

Two behaviours of the code are worth knowing:
- In `XZigbeeLight.async_turn_off`, a default transition with no caller arguments gives
  the payload `{transition: t, brightness: 0}`. The transition comes first here, because
  `setdefault` appends brightness after it. Only turn-on reorders its payload.
- In `XCover`, `set_state(get_state())` leaves everything unchanged only if `run_state`
  has also been set before. Otherwise the opening and closing flags go from unset to
  `False`. `RestoreRoundTrip` states the property with that condition.

## Model

| member | source | states |
|---|---|---|
| `Light.XLight.constructor` | custom_components/xiaomi_gateway3/light.py:24-26 | The class defaults: colour mode ONOFF, supported modes `{ONOFF}`, no feature flags, all state fields unset. |
| `Light.XLight.OnInit` | custom_components/xiaomi_gateway3/light.py:28-49 | The colour mode is reset and then follows the converters. Supported modes become exactly `{color_mode}`. `listen_attrs` only grows, by `ListenAdded`. The EFFECT flag and the effect list are set exactly when an effect converter with a `map` exists. The mired bounds come from `MiredBoundsOf`, or keep their values when no converter sets any. The state fields are not touched. |
| `Light.XLight.Scan` | custom_components/xiaomi_gateway3/light.py:32-47 | One loop iteration: a brightness converter sets the BRIGHTNESS mode; a colour-temperature converter sets COLOR_TEMP and the mired bounds `BoundsOf` gives, if any; an effect converter with a `map` raises EFFECT and sets the effect list to the map's values. Each of them adds its attribute to `listen_attrs`. Nothing else changes. |
| `Light.ScanAfter` | custom_components/xiaomi_gateway3/light.py:44-47 | Scanning one more converter raises the EFFECT flag, and replaces the effect list and the mired bounds, only when that converter supplies them. |
| `Light.ScanStep` | custom_components/xiaomi_gateway3/light.py:31-47 | How one loop iteration over a converter changes each derived value. The last converter that matches overrides the earlier ones. |
| `Light.ColorModeOnOff` | custom_components/xiaomi_gateway3/light.py:29-37 | The colour mode is ONOFF exactly when there is no brightness or colour-temperature converter. |
| `Light.ColorModeIsLast` | custom_components/xiaomi_gateway3/light.py:29-37 | Otherwise the colour mode is the mode of the last such converter in list order. |
| `Light.ListenAddedExactly` | custom_components/xiaomi_gateway3/light.py:31-47 | `on_init` subscribes to an attribute exactly when some converter is a brightness converter, a colour-temperature converter, or an effect converter with a `map`. The only names it adds are `brightness`, `color_temp` and `effect`. |
| `Light.EffectMapIsLast` | custom_components/xiaomi_gateway3/light.py:44-47 | An effect map is found exactly when an effect converter carries a `map`, and it is the map of the last such converter. `effect` is subscribed exactly when one is found. |
| `Light.BoundsOf` | custom_components/xiaomi_gateway3/light.py:38-43 | Only colour-temperature converters with a `minm`/`maxm` pair or a `mink`/`maxk` pair set bounds. An explicit `minm`/`maxm` pair takes precedence. Bounds declared in order come out in order. |
| `Light.MiredsOf` | custom_components/xiaomi_gateway3/light.py:42-43 | `int(1000000 / k)` truncates toward zero: for `k > 0` the result is the largest `r` with `r * k <= 1000000`; for `k < 0` it is the negation of that quotient for `-k`. |
| `Light.KelvinMiredsOrdered` | custom_components/xiaomi_gateway3/light.py:41-43 | For `0 < mink <= maxk`, `0 <= 1000000 div maxk <= 1000000 div mink`, so `min_mireds <= max_mireds`. |
| `Light.MiredBoundsOrdered` | custom_components/xiaomi_gateway3/light.py:35-43 | If every colour-temperature converter declares its bounds in order, the bounds `on_init` settles on satisfy `min_mireds <= max_mireds`. |
| `Light.XLight.SetState` | custom_components/xiaomi_gateway3/light.py:51-59 | Each field whose key is present takes the new value. `is_on` takes the Python truthiness of `data[attr]`. Every other field, and the whole configuration, is unchanged. |
| `Dicts.Truthy` | custom_components/xiaomi_gateway3/light.py:53 | Python's `bool`: `None`, `False`, `0` and `""` are false, every other integer, string and boolean is true, and an opaque value keeps its own truthiness. |
| `Light.XLight.GetState` | custom_components/xiaomi_gateway3/light.py:61-66 | The result holds the on/off value, brightness and colour temperature as last set, keyed by `attr`, `brightness` and `color_temp` in that order. It has no `effect` key. |
| `Light.StateEntries` | custom_components/xiaomi_gateway3/light.py:62-66 | The literal `{attr: on, brightness: bri, color_temp: ct}` has the entries `attr`, `brightness`, `color_temp` in that order; when `attr` repeats a later key, that key keeps the place of `attr` and the later value. |
| `Dicts.PutKeys` | custom_components/xiaomi_gateway3/light.py:62-66 | Assigning a key that is present keeps the key order; a missing key is appended. |
| `Dicts.PutGet` | custom_components/xiaomi_gateway3/light.py:62-66 | After `d[k] = v`, `d[k]` is `v` and every other present key keeps its value. |
| `Dicts.PutUnique` | custom_components/xiaomi_gateway3/light.py:62-66 | Assigning a key never creates a duplicate key. |
| `Light.StateLiteral` | custom_components/xiaomi_gateway3/light.py:62-66 | The dictionary literal of `get_state` has unique keys and holds the three values. When `attr` repeats `brightness` or `color_temp`, the later value wins. It never holds an effect key unless `attr` is `effect`. |
| `Light.XLight.TurnOn` | custom_components/xiaomi_gateway3/light.py:68-69 | Makes exactly one write. It writes the caller's arguments unchanged and in order, or `{attr: True}` when there are none. |
| `Light.XLight.TurnOff` | custom_components/xiaomi_gateway3/light.py:71-72 | Makes exactly one write, `{attr: False}`, whatever the arguments. |
| `Light.XZigbeeLight.OnInit` | custom_components/xiaomi_gateway3/light.py:76-81 | Does everything `XLight.on_init` does. It also adds the TRANSITION flag exactly when some converter is a transition converter. |
| `Light.XZigbeeLight.DefaultTransition` | custom_components/xiaomi_gateway3/light.py:83-85 | `extra.get("default_transition")`: `None` when the device has no such option, otherwise the value stored for it. |
| `Light.TransitionLast` | custom_components/xiaomi_gateway3/light.py:91-97 | The reordered keys are exactly those of `brightness`, `color_temp` and `transition` that are present, in that order. Values are unchanged and every other key is dropped. |
| `Light.XZigbeeLight.TurnOn` | custom_components/xiaomi_gateway3/light.py:87-99 | Makes exactly one write. With a transition (supplied, or taken from the default), the keys are the caller's `brightness` and `color_temp` and then `transition`, so transition is last. Values are unchanged, and a caller's transition overrides the default. Without a transition it writes what `XLight` writes. |
| `Light.XZigbeeLight.TurnOff` | custom_components/xiaomi_gateway3/light.py:101-108 | Makes exactly one write. With a transition, the payload is the caller's arguments in order, then the default transition if none was given, then `brightness: 0` if none was given. Without arguments and without a default transition, it writes `{attr: False}`. |
| `Light.OffTransitionPresent` | custom_components/xiaomi_gateway3/light.py:102-103 | After the default transition is filled in, a transition is present exactly when one was supplied or the device has a default. The caller's arguments keep their order and values. |
| `Light.OffBrightnessDefault` | custom_components/xiaomi_gateway3/light.py:105-106 | With a transition present, `setdefault("brightness", 0)` keeps the caller's brightness or appends 0 after everything else. |
| `Light.OffDefaults` | custom_components/xiaomi_gateway3/light.py:101-108 | The two `setdefault` calls of turn-off give the payload described for `XZigbeeLight.TurnOff`. |
| `Dicts.SetDefault` | custom_components/xiaomi_gateway3/light.py:88-89 | `setdefault` keeps a present key's value and place. A missing key is appended at the end. The other keys and their values are unchanged. |
| `Dicts.SetDefaultKeeps` | custom_components/xiaomi_gateway3/light.py:88-89 | `setdefault` leaves every other key present or absent as it was, with its value. |
| `Dicts.SelectOne` | custom_components/xiaomi_gateway3/light.py:93-97 | The comprehension over a single key keeps that key with its value when it is present, and nothing otherwise. |
| `Light.SelectThree` | custom_components/xiaomi_gateway3/light.py:93-97 | The comprehension over `(brightness, color_temp, transition)` is the present entries of those three keys, in that order. |
| `Dicts.SelectAppend` | custom_components/xiaomi_gateway3/light.py:93-97 | For a key list without repeats, the comprehension follows the order of the list: selecting along a concatenation concatenates the selections. |
| `Light.ChildIds` | custom_components/xiaomi_gateway3/light.py:114-119 | Keeps only ids the registry knows. Each known id appears as often as in `extra["childs"]`. |
| `Light.ChildIdsAppend` | custom_components/xiaomi_gateway3/light.py:114-119 | The filter preserves order: filtering a concatenation concatenates the filtered parts. |
| `Devices.ChildRefs` | custom_components/xiaomi_gateway3/light.py:117 | `extra.get("childs", [])`: the listed ids, or none when the key is missing. |
| `Light.XLightGroup.Childs` | custom_components/xiaomi_gateway3/light.py:114-119 | One registry device per known child id: the `i`-th result is the registry entry of the `i`-th known id. A missing `childs` entry gives none. |
| `Light.XLightGroup.constructor` | custom_components/xiaomi_gateway3/light.py:121-123 | A new group starts with its update signal cleared. |
| `Light.XLightGroup.ForwardChildUpdate` | custom_components/xiaomi_gateway3/light.py:132-134 | Sets the signal, then dispatches the same data unchanged, and writes nothing. |
| `Light.XLightGroup.WaitForUpdate` | custom_components/xiaomi_gateway3/light.py:136-142 | The signal is cleared first. The wait is confirmed exactly when a child update arrives during it, so a signal raised before the call cannot satisfy it. |
| `Light.XLightGroup.TurnOn` | custom_components/xiaomi_gateway3/light.py:144-146 | Makes the `XLight` turn-on write, then waits. It never fails for lack of a confirmation. |
| `Light.XLightGroup.TurnOff` | custom_components/xiaomi_gateway3/light.py:148-150 | Makes the `XLight` turn-off write, then waits. |
| `Cover.XCover.constructor` | custom_components/xiaomi_gateway3/cover.py:13-14 | `is_closed` starts unset, like the position and the moving flags. The derived-flag invariant holds. |
| `Cover.XCover.OnInit` | custom_components/xiaomi_gateway3/cover.py:16-18 | `listen_attrs` becomes exactly `{"position", "run_state"}`. Nothing else changes. |
| `Cover.XCover.SetState` | custom_components/xiaomi_gateway3/cover.py:20-29 | A position `p` sets the current position to `p` and `is_closed` to `p <= 2`. A run state `s` sets `is_opening` exactly when `s` is "opening" and `is_closing` exactly when `s` is "closing". A missing key leaves its fields unchanged, and the two flags are never both true. |
| `Cover.XCover.GetState` | custom_components/xiaomi_gateway3/cover.py:31-35 | Returns the last position and run state, keyed `position` and `run_state` in that order. |
| `Cover.RestoreRoundTrip` | custom_components/xiaomi_gateway3/cover.py:20-35 | Once a position has been set and the moving flags follow the run state, `set_state(get_state())` changes nothing: position, `is_closed`, run state, both moving flags and `listen_attrs` keep their values. |
| `Cover.ClosedThresholdScenario` | custom_components/xiaomi_gateway3/cover.py:21-29 | Position 2 reads as closed and position 3 as open. A later run-state update leaves the position alone. |
| `Cover.XCover.OpenCover` | custom_components/xiaomi_gateway3/cover.py:37-38 | Makes exactly one write, `{attr: "open"}`. |
| `Cover.XCover.CloseCover` | custom_components/xiaomi_gateway3/cover.py:40-41 | Makes exactly one write, `{attr: "close"}`. |
| `Cover.XCover.StopCover` | custom_components/xiaomi_gateway3/cover.py:43-44 | Makes exactly one write, `{attr: "stop"}`. |
| `Cover.XCover.SetCoverPosition` | custom_components/xiaomi_gateway3/cover.py:46-47 | Makes exactly one write, `{"position": position}`. |

## Left out

- Converter encode/decode, `XDevice.write`/`dispatch` and the gateway are not part of this model. `write` and `dispatch` only append to a log. The gateway's `devices` registry is a map given to `Childs`.
- `XEntity`, `LightEntity`, `CoverEntity` and `RestoreEntity` are not part of this model. Fields they initialise, such as `listen_attrs`, are constructor arguments, and the others start unset (`None`).
- `async_setup_entry`, the `ADD` and `NEW` registration maps, `async_added_to_hass` and `async_will_remove_from_hass` are platform lifecycle plumbing. So the group's listener registration on its children is not modelled.
- `Light.XLightGroup.WaitForUpdate`: the `asyncio.Event`, the 10-second timeout and the concurrency behind them are reduced to a flag. The update, if any, that arrives before the timeout is a parameter.
- `Light.XZigbeeLight.DefaultTransition`: the `cached_property` caching is not modelled. The value is read from `extra`, which never changes.
- `Light.MiredsOf`: `int(1000000 / k)` is float division truncated toward zero. The model uses exact integer division, rounding toward zero. The two agree for the kelvin values converters use.
- `Light.XLight.OnInit`: a kelvin bound of 0 makes the source raise `ZeroDivisionError`. The model requires such bounds to be non-zero (`AllKelvinUsable`) instead of modelling the exception.
- Transition durations and other floats are opaque values: only their identity and their truthiness are kept.
- `Cover.XCover.SetState`: only integer positions are modelled. A `None` position makes `None <= 2` raise `TypeError` in the source.
- Keyword arguments and payloads are required to have unique keys. Every Python dictionary does.
