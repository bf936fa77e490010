/** The light entity adapters: `XLight`, the ZigBee variant `XZigbeeLight` (default
    transition, transition written last) and the group variant `XLightGroup` (child
    filtering, forwarding of child updates, clear-then-wait confirmation). The two
    variants extend `XLight` in the source; here each holds the `XLight` whose
    configuration and state it shares. */
module Light {
  import opened Dicts
  import opened Devices

  const AttrBrightness := "brightness"
  const AttrColorTemp := "color_temp"
  const AttrEffect := "effect"
  const AttrTransition := "transition"
  const AttrDefaultTransition := "default_transition"

  datatype ColorMode = OnOff | Brightness | ColorTemp

  datatype LightFeature = Effect | Transition

  // ---------------------------------------------------------------------------
  // What `on_init` derives from the converter list. Each function reads the list
  // from its end, because the last matching converter wins.

  /** The colour mode a converter selects, if it selects one. */
  function ModeOf(c: Converter): Option<ColorMode> {
    if c.attr == AttrBrightness then Some(Brightness)
    else if c.attr == AttrColorTemp then Some(ColorTemp)
    else None
  }

  /** The colour mode `on_init` settles on. */
  function ColorModeOf(convs: seq<Converter>): ColorMode {
    if convs == [] then OnOff
    else
      match ModeOf(convs[|convs| - 1])
      case Some(m) => m
      case None => ColorModeOf(convs[..|convs| - 1])
  }

  /** `on_init` subscribes to this converter's attribute. */
  predicate Listened(c: Converter) {
    c.attr == AttrBrightness || c.attr == AttrColorTemp || (c.attr == AttrEffect && c.mapping.Some?)
  }

  /** The attribute names `on_init` adds to `listen_attrs`. */
  function ListenAdded(convs: seq<Converter>): set<string> {
    if convs == [] then {}
    else
      var c := convs[|convs| - 1];
      ListenAdded(convs[..|convs| - 1]) + (if Listened(c) then {c.attr} else {})
  }

  /** An effect converter that carries a `map`. */
  predicate IsEffectMap(c: Converter) {
    c.attr == AttrEffect && c.mapping.Some?
  }

  /** The `map` of the last effect converter that has one. */
  function EffectMapOf(convs: seq<Converter>): Option<seq<(Value, string)>> {
    if convs == [] then None
    else if IsEffectMap(convs[|convs| - 1]) then convs[|convs| - 1].mapping
    else EffectMapOf(convs[..|convs| - 1])
  }

  /** `list(m.values())` */
  function Values(m: seq<(Value, string)>): seq<string> {
    seq(|m|, i requires 0 <= i < |m| => m[i].1)
  }

  /** The feature flags `XLight.on_init` raises. */
  function EffectFeatures(convs: seq<Converter>): set<LightFeature> {
    if EffectMapOf(convs).Some? then {Effect} else {}
  }

  /** `int(1000000 / k)`: the quotient truncated toward zero, so its magnitude is the
      largest whole number of times `|k|` fits into 1000000 and its sign is that of `k`. */
  function MiredsOf(k: int): (r: int)
    requires k != 0
    ensures k > 0 ==> 0 <= r && r * k <= 1000000 < (r + 1) * k
    ensures k < 0 ==> r <= 0 && r * k <= 1000000 < (1 - r) * -k
  {
    if k > 0 then 1000000 / k else -(1000000 / -k)
  }

  /** The colour-temperature converters whose kelvin bounds `on_init` divides by are
      not zero (the source raises `ZeroDivisionError` otherwise). */
  predicate KelvinUsable(c: Converter) {
    (c.attr == AttrColorTemp && !(c.minm.Some? && c.maxm.Some?) && c.mink.Some? && c.maxk.Some?)
      ==> c.mink.value != 0 && c.maxk.value != 0
  }

  predicate AllKelvinUsable(convs: seq<Converter>) {
    forall i :: 0 <= i < |convs| ==> KelvinUsable(convs[i])
  }

  /** A converter's declared bounds are in order: `minm <= maxm` when both are
      declared, otherwise `0 < mink <= maxk` when both of those are. */
  predicate DeclaredBoundsOrdered(c: Converter) {
    if c.minm.Some? && c.maxm.Some? then c.minm.value <= c.maxm.value
    else c.mink.Some? && c.maxk.Some? ==> 0 < c.mink.value <= c.maxk.value
  }

  lemma PositiveFactor(x: int, m: int)
    requires m > 0 && x * m > 0
    ensures x > 0
  {
  }

  lemma MulMonotone(a: int, b: int, m: int)
    requires 0 <= m && a <= b
    ensures a * m <= b * m
  {
    assert b * m - a * m == (b - a) * m;
  }

  /** A larger kelvin bound gives a smaller mired bound. */
  lemma KelvinMiredsOrdered(mink: int, maxk: int)
    requires 0 < mink <= maxk
    ensures 0 <= MiredsOf(maxk) <= MiredsOf(mink)
  {
    var q := 1000000 / maxk;
    var r := 1000000 / mink;
    assert q * maxk <= 1000000;
    MulMonotone(mink, maxk, q);
    assert 1000000 < (r + 1) * mink;
    assert ((r + 1) - q) * mink == (r + 1) * mink - q * mink;
    PositiveFactor((r + 1) - q, mink);
  }

  /** The mired bounds one converter sets, if it sets any: explicit `minm`/`maxm` win
      over `mink`/`maxk`. */
  function BoundsOf(c: Converter): (b: Option<(int, int)>)
    requires KelvinUsable(c)
    ensures b.Some? <==> c.attr == AttrColorTemp && ((c.minm.Some? && c.maxm.Some?) || (c.mink.Some? && c.maxk.Some?))
    ensures c.attr == AttrColorTemp && c.minm.Some? && c.maxm.Some? ==> b == Some((c.minm.value, c.maxm.value))
    ensures b.Some? && DeclaredBoundsOrdered(c) ==> b.value.0 <= b.value.1
  {
    if c.attr != AttrColorTemp then None
    else if c.minm.Some? && c.maxm.Some? then Some((c.minm.value, c.maxm.value))
    else if c.mink.Some? && c.maxk.Some? then
      assert DeclaredBoundsOrdered(c) ==> MiredsOf(c.maxk.value) <= MiredsOf(c.mink.value) by {
        if DeclaredBoundsOrdered(c) {
          KelvinMiredsOrdered(c.mink.value, c.maxk.value);
        }
      }
      Some((MiredsOf(c.maxk.value), MiredsOf(c.mink.value)))
    else None
  }

  /** The mired bounds `on_init` settles on: those of the last converter that sets any. */
  function MiredBoundsOf(convs: seq<Converter>): Option<(int, int)>
    requires AllKelvinUsable(convs)
  {
    if convs == [] then None
    else
      match BoundsOf(convs[|convs| - 1])
      case Some(b) => Some(b)
      case None => MiredBoundsOf(convs[..|convs| - 1])
  }

  /** The effect list after `on_init`, given the one before. */
  function EffectListAfter(convs: seq<Converter>, prior: Option<seq<string>>): Option<seq<string>> {
    match EffectMapOf(convs)
    case Some(m) => Some(Values(m))
    case None => prior
  }

  /** The (min, max) mired bounds after `on_init`, given those before. */
  function MiredsAfter(convs: seq<Converter>, prior: (Option<int>, Option<int>)): (Option<int>, Option<int>)
    requires AllKelvinUsable(convs)
  {
    match MiredBoundsOf(convs)
    case Some(b) => (Some(b.0), Some(b.1))
    case None => prior
  }

  /** How each derived value changes when one more converter is scanned. */
  lemma ScanStep(done: seq<Converter>, conv: Converter)
    requires AllKelvinUsable(done) && KelvinUsable(conv)
    ensures var next := done + [conv];
      && AllKelvinUsable(next)
      && ColorModeOf(next) == (match ModeOf(conv) case Some(m) => m case None => ColorModeOf(done))
      && ListenAdded(next) == ListenAdded(done) + (if Listened(conv) then {conv.attr} else {})
      && EffectMapOf(next) == (if IsEffectMap(conv) then conv.mapping else EffectMapOf(done))
      && MiredBoundsOf(next) == (match BoundsOf(conv) case Some(b) => Some(b) case None => MiredBoundsOf(done))
  {
    var next := done + [conv];
    assert next[..|done|] == done && next[|done|] == conv;
  }

  /** How the feature flags, the effect list and the mired bounds change when one more
      converter is scanned. */
  lemma ScanAfter(done: seq<Converter>, conv: Converter, list: Option<seq<string>>, mireds: (Option<int>, Option<int>))
    requires AllKelvinUsable(done) && KelvinUsable(conv)
    ensures var next := done + [conv];
      && AllKelvinUsable(next)
      && EffectFeatures(next) == EffectFeatures(done) + (if IsEffectMap(conv) then {Effect} else {})
      && EffectListAfter(next, list) ==
           (if IsEffectMap(conv) then Some(Values(conv.mapping.value)) else EffectListAfter(done, list))
      && MiredsAfter(next, mireds) ==
           (match BoundsOf(conv) case Some(b) => (Some(b.0), Some(b.1)) case None => MiredsAfter(done, mireds))
  {
    ScanStep(done, conv);
  }

  /** After `on_init` the colour mode is ONOFF exactly when no converter is a brightness
      or colour-temperature converter. */
  lemma {:induction false} ColorModeOnOff(convs: seq<Converter>)
    ensures ColorModeOf(convs) == OnOff <==> forall i :: 0 <= i < |convs| ==> ModeOf(convs[i]) == None
  {
    if convs != [] {
      var n := |convs| - 1;
      var init := convs[..n];
      ColorModeOnOff(init);
      assert forall i :: 0 <= i < n ==> init[i] == convs[i];
      if ModeOf(convs[n]).Some? {
        assert ColorModeOf(convs) == ModeOf(convs[n]).value != OnOff;
      } else {
        assert ColorModeOf(convs) == ColorModeOf(init);
      }
    }
  }

  /** Otherwise the colour mode is the mode of the last brightness or
      colour-temperature converter. */
  lemma {:induction false} ColorModeIsLast(convs: seq<Converter>)
    ensures ColorModeOf(convs) != OnOff ==>
      exists j :: 0 <= j < |convs| && ModeOf(convs[j]) == Some(ColorModeOf(convs)) &&
        forall i :: j < i < |convs| ==> ModeOf(convs[i]) == None
  {
    if convs != [] {
      var n := |convs| - 1;
      var init := convs[..n];
      if ModeOf(convs[n]).Some? {
        assert ModeOf(convs[n]) == Some(ColorModeOf(convs));
      } else if ColorModeOf(init) != OnOff {
        ColorModeIsLast(init);
        var j :| 0 <= j < n && ModeOf(init[j]) == Some(ColorModeOf(init)) &&
          forall i :: j < i < n ==> ModeOf(init[i]) == None;
        assert forall i :: j < i < n ==> init[i] == convs[i];
        assert ModeOf(convs[j]) == Some(ColorModeOf(convs));
      }
    }
  }

  /** `on_init` subscribes to exactly the brightness and colour-temperature converters
      and the effect converters that carry a `map`, so only those three names. */
  lemma {:induction false} ListenAddedExactly(convs: seq<Converter>)
    ensures forall x :: x in ListenAdded(convs) <==>
      exists i :: 0 <= i < |convs| && Listened(convs[i]) && convs[i].attr == x
    ensures ListenAdded(convs) <= {AttrBrightness, AttrColorTemp, AttrEffect}
  {
    if convs != [] {
      var n := |convs| - 1;
      ListenAddedExactly(convs[..n]);
      assert forall i :: 0 <= i < n ==> convs[..n][i] == convs[i];
    }
  }

  /** The effect flag and the effect list come from an effect converter with a `map`
      exactly when there is one, and then from the last one. */
  lemma {:induction false} EffectMapIsLast(convs: seq<Converter>)
    ensures EffectMapOf(convs).Some? <==> exists i :: 0 <= i < |convs| && IsEffectMap(convs[i])
    ensures EffectMapOf(convs).Some? ==>
      exists j :: 0 <= j < |convs| && IsEffectMap(convs[j]) && convs[j].mapping == EffectMapOf(convs) &&
        forall i :: j < i < |convs| ==> !IsEffectMap(convs[i])
    ensures AttrEffect in ListenAdded(convs) <==> EffectMapOf(convs).Some?
  {
    if convs != [] {
      var n := |convs| - 1;
      var init := convs[..n];
      EffectMapIsLast(init);
      assert forall i :: 0 <= i < n ==> init[i] == convs[i];
      if IsEffectMap(convs[n]) {
        assert convs[n].mapping == EffectMapOf(convs);
      } else {
        assert EffectMapOf(convs) == EffectMapOf(init);
        if EffectMapOf(init).Some? {
          var j :| 0 <= j < n && IsEffectMap(init[j]) && init[j].mapping == EffectMapOf(init) &&
            forall i :: j < i < n ==> !IsEffectMap(init[i]);
          assert IsEffectMap(convs[j]);
        }
      }
    }
  }

  /** With every colour-temperature converter declaring its bounds in order, the mired
      bounds `on_init` settles on are in order too. */
  lemma {:induction false} MiredBoundsOrdered(convs: seq<Converter>)
    requires AllKelvinUsable(convs)
    requires forall i :: 0 <= i < |convs| && convs[i].attr == AttrColorTemp ==> DeclaredBoundsOrdered(convs[i])
    ensures MiredBoundsOf(convs).Some? ==> MiredBoundsOf(convs).value.0 <= MiredBoundsOf(convs).value.1
  {
    if convs != [] {
      var n := |convs| - 1;
      assert forall i :: 0 <= i < n ==> convs[..n][i] == convs[i];
      MiredBoundsOrdered(convs[..n]);
    }
  }

  // ---------------------------------------------------------------------------
  // Payloads.

  /** The entry `k: d[k]` when `k` is present, nothing otherwise. */
  function EntryIfPresent(d: Dict, k: string): Dict {
    if Has(d, k) then [(k, Get(d, k))] else []
  }

  /** Selecting brightness, colour temperature and transition, one key at a time. */
  lemma SelectThree(kwargs: Dict)
    ensures Select(kwargs, [AttrBrightness, AttrColorTemp, AttrTransition]) ==
      EntryIfPresent(kwargs, AttrBrightness) + EntryIfPresent(kwargs, AttrColorTemp)
        + EntryIfPresent(kwargs, AttrTransition)
  {
    assert [AttrBrightness, AttrColorTemp, AttrTransition] == [AttrBrightness] + [AttrColorTemp] + [AttrTransition];
    SelectAppend(kwargs, [AttrBrightness] + [AttrColorTemp], [AttrTransition]);
    SelectAppend(kwargs, [AttrBrightness], [AttrColorTemp]);
    SelectOne(kwargs, AttrBrightness);
    SelectOne(kwargs, AttrColorTemp);
    SelectOne(kwargs, AttrTransition);
  }

  /** The dictionary comprehension of `XZigbeeLight.async_turn_on`: brightness, colour
      temperature and transition, those that are present, in that order, with their
      values; every other key is dropped. */
  function TransitionLast(kwargs: Dict): (r: Dict)
    ensures Keys(r) == (if Has(kwargs, AttrBrightness) then [AttrBrightness] else [])
      + (if Has(kwargs, AttrColorTemp) then [AttrColorTemp] else [])
      + (if Has(kwargs, AttrTransition) then [AttrTransition] else [])
    ensures Has(kwargs, AttrBrightness) ==> (AttrBrightness, Get(kwargs, AttrBrightness)) in r
    ensures Has(kwargs, AttrColorTemp) ==> (AttrColorTemp, Get(kwargs, AttrColorTemp)) in r
    ensures Has(kwargs, AttrTransition) ==> (AttrTransition, Get(kwargs, AttrTransition)) in r
  {
    var pb, pc, pt := EntryIfPresent(kwargs, AttrBrightness), EntryIfPresent(kwargs, AttrColorTemp),
      EntryIfPresent(kwargs, AttrTransition);
    SelectThree(kwargs);
    KeysAppend(pb, pc);
    KeysAppend(pb + pc, pt);
    Select(kwargs, [AttrBrightness, AttrColorTemp, AttrTransition])
  }

  /** `XLight` turn-on: the caller's arguments, unchanged and in their order, or
      `{attr: True}` when there are none. */
  function OnPayload(attr: string, kwargs: Dict): Dict {
    if kwargs != [] then kwargs else [(attr, Bool(true))]
  }

  /** What `XZigbeeLight.async_turn_on` writes. With a transition (supplied, or the
      device's default): exactly the caller's brightness and colour temperature, then
      the transition, the caller's overriding the default. Without one: what `XLight`
      writes. */
  predicate ZigbeeOnPayload(attr: string, kwargs: Dict, dflt: Value, p: Dict) {
    if Has(kwargs, AttrTransition) || dflt != Null then
      Keys(p) == (if Has(kwargs, AttrBrightness) then [AttrBrightness] else [])
        + (if Has(kwargs, AttrColorTemp) then [AttrColorTemp] else []) + [AttrTransition]
      && (Has(kwargs, AttrBrightness) ==> (AttrBrightness, Get(kwargs, AttrBrightness)) in p)
      && (Has(kwargs, AttrColorTemp) ==> (AttrColorTemp, Get(kwargs, AttrColorTemp)) in p)
      && (AttrTransition, if Has(kwargs, AttrTransition) then Get(kwargs, AttrTransition) else dflt) in p
    else p == OnPayload(attr, kwargs)
  }

  /** What `XZigbeeLight.async_turn_off` writes. With a transition (supplied, or the
      device's default): the caller's arguments in their order, then the default
      transition if none was given, then brightness 0 if none was given. Without one:
      the caller's arguments unchanged, or `{attr: False}` when there are none. */
  predicate ZigbeeOffPayload(attr: string, kwargs: Dict, dflt: Value, p: Dict) {
    if Has(kwargs, AttrTransition) || dflt != Null then
      Keys(p) == Keys(kwargs) + (if Has(kwargs, AttrTransition) then [] else [AttrTransition])
        + (if Has(kwargs, AttrBrightness) then [] else [AttrBrightness])
      && p[..|kwargs|] == kwargs
      && (AttrBrightness, if Has(kwargs, AttrBrightness) then Get(kwargs, AttrBrightness) else Int(0)) in p
      && (AttrTransition, if Has(kwargs, AttrTransition) then Get(kwargs, AttrTransition) else dflt) in p
    else p == if kwargs != [] then kwargs else [(attr, Bool(false))]
  }

  /** After `async_turn_off` has filled in the default transition, a transition is
      present exactly when one was supplied or the device has a default. */
  lemma {:induction false} OffTransitionPresent(kwargs: Dict, dflt: Value)
    ensures var kw1 := if dflt != Null then SetDefault(kwargs, AttrTransition, dflt) else kwargs;
      && (Has(kw1, AttrTransition) <==> Has(kwargs, AttrTransition) || dflt != Null)
      && kw1[..|kwargs|] == kwargs
      && (Has(kw1, AttrBrightness) <==> Has(kwargs, AttrBrightness))
      && (Has(kwargs, AttrBrightness) ==> Get(kw1, AttrBrightness) == Get(kwargs, AttrBrightness))
      && (Has(kw1, AttrTransition) ==>
            Get(kw1, AttrTransition) == if Has(kwargs, AttrTransition) then Get(kwargs, AttrTransition) else dflt)
      && Keys(kw1) == Keys(kwargs) + (if Has(kwargs, AttrTransition) || dflt == Null then [] else [AttrTransition])
  {
    if dflt != Null {
      SetDefaultKeeps(kwargs, AttrTransition, dflt, AttrBrightness);
    }
  }

  /** With a transition present, `setdefault("brightness", 0)` completes the payload. */
  lemma {:induction false} OffBrightnessDefault(kwargs: Dict, dflt: Value, kw1: Dict)
    requires Has(kw1, AttrTransition)
    requires |kwargs| <= |kw1| && kw1[..|kwargs|] == kwargs
    requires Has(kw1, AttrBrightness) <==> Has(kwargs, AttrBrightness)
    requires Has(kwargs, AttrBrightness) ==> Get(kw1, AttrBrightness) == Get(kwargs, AttrBrightness)
    requires Get(kw1, AttrTransition) == if Has(kwargs, AttrTransition) then Get(kwargs, AttrTransition) else dflt
    requires Keys(kw1) == Keys(kwargs) + (if Has(kwargs, AttrTransition) then [] else [AttrTransition])
    ensures var kw2 := SetDefault(kw1, AttrBrightness, Int(0));
      && kw2 != []
      && Keys(kw2) == Keys(kwargs) + (if Has(kwargs, AttrTransition) then [] else [AttrTransition])
           + (if Has(kwargs, AttrBrightness) then [] else [AttrBrightness])
      && kw2[..|kwargs|] == kwargs
      && (AttrBrightness, if Has(kwargs, AttrBrightness) then Get(kwargs, AttrBrightness) else Int(0)) in kw2
      && (AttrTransition, if Has(kwargs, AttrTransition) then Get(kwargs, AttrTransition) else dflt) in kw2
  {
    var kw2 := SetDefault(kw1, AttrBrightness, Int(0));
    SetDefaultKeeps(kw1, AttrBrightness, Int(0), AttrTransition);
    assert kw2[..|kwargs|] == kw1[..|kwargs|];
    assert (AttrBrightness, Get(kw2, AttrBrightness)) in kw2;
    assert (AttrTransition, Get(kw2, AttrTransition)) in kw2;
  }

  /** The two `setdefault` calls of `XZigbeeLight.async_turn_off` give the payload
      `ZigbeeOffPayload` describes. */
  lemma OffDefaults(attr: string, kwargs: Dict, dflt: Value)
    ensures var kw1 := if dflt != Null then SetDefault(kwargs, AttrTransition, dflt) else kwargs;
      var kw2 := if Has(kw1, AttrTransition) then SetDefault(kw1, AttrBrightness, Int(0)) else kw1;
      ZigbeeOffPayload(attr, kwargs, dflt, if kw2 != [] then kw2 else [(attr, Bool(false))])
  {
    var kw1 := if dflt != Null then SetDefault(kwargs, AttrTransition, dflt) else kwargs;
    OffTransitionPresent(kwargs, dflt);
    if Has(kw1, AttrTransition) {
      OffBrightnessDefault(kwargs, dflt, kw1);
    }
  }

  // ---------------------------------------------------------------------------
  // Group children.

  /** The ids of `extra["childs"]` that the gateway's device registry knows, in order. */
  function ChildIds(ids: seq<string>, known: set<string>): (r: seq<string>)
    ensures forall id :: id in r ==> id in known
    ensures forall id :: id in known ==> multiset(r)[id] == multiset(ids)[id]
  {
    if ids == [] then []
    else
      assert ids == [ids[0]] + ids[1..];
      (if ids[0] in known then [ids[0]] else []) + ChildIds(ids[1..], known)
  }

  /** Filtering keeps the order of the ids: filtering a concatenation concatenates the
      filtered parts. */
  lemma {:induction false} ChildIdsAppend(a: seq<string>, b: seq<string>, known: set<string>)
    ensures ChildIds(a + b, known) == ChildIds(a, known) + ChildIds(b, known)
  {
    if a == [] {
      assert a + b == b;
    } else {
      assert (a + b)[0] == a[0];
      assert (a + b)[1..] == a[1..] + b;
      ChildIdsAppend(a[1..], b, known);
    }
  }

  /** The entries of the dictionary literal `{attr: on, brightness: bri, color_temp: ct}`:
      a later key that repeats `attr` overwrites its value in place. */
  lemma {:induction false} StateEntries(attr: string, on: Value, bri: Value, ct: Value)
    ensures Put(Put([(attr, on)], AttrBrightness, bri), AttrColorTemp, ct) ==
      if attr == AttrBrightness then [(AttrBrightness, bri), (AttrColorTemp, ct)]
      else if attr == AttrColorTemp then [(AttrColorTemp, ct), (AttrBrightness, bri)]
      else [(attr, on), (AttrBrightness, bri), (AttrColorTemp, ct)]
  {
    var d1 := Put([(attr, on)], AttrBrightness, bri);
    assert [(attr, on)][1..] == [];
    if attr == AttrBrightness {
      assert d1 == [(AttrBrightness, bri)];
      assert d1[1..] == [];
    } else {
      assert d1 == [(attr, on)] + Put([], AttrBrightness, bri);
      assert d1[1..] == [(AttrBrightness, bri)];
      if attr != AttrColorTemp {
        assert d1[1..][1..] == [];
        assert Put(d1[1..], AttrColorTemp, ct) == [(AttrBrightness, bri)] + Put([], AttrColorTemp, ct);
      }
    }
  }

  /** A two-entry dictionary with distinct keys. */
  lemma {:induction false} TwoEntries(a: (string, Value), b: (string, Value))
    requires a.0 != b.0
    ensures var r := [a, b];
      && KeysUnique(r) && Keys(r) == [a.0, b.0]
      && Has(r, a.0) && Get(r, a.0) == a.1 && Has(r, b.0) && Get(r, b.0) == b.1
  {
    GetAt([a, b], 0);
    GetAt([a, b], 1);
  }

  /** A three-entry dictionary with distinct keys. */
  lemma {:induction false} ThreeEntries(a: (string, Value), b: (string, Value), c: (string, Value))
    requires a.0 != b.0 && a.0 != c.0 && b.0 != c.0
    ensures var r := [a, b, c];
      && KeysUnique(r) && Keys(r) == [a.0, b.0, c.0]
      && Has(r, a.0) && Get(r, a.0) == a.1 && Has(r, b.0) && Get(r, b.0) == b.1
      && Has(r, c.0) && Get(r, c.0) == c.1
  {
    GetAt([a, b, c], 0);
    GetAt([a, b, c], 1);
    GetAt([a, b, c], 2);
  }

  /** The dictionary literal `{attr: on, brightness: bri, color_temp: ct}`: it holds
      two entries when `attr` repeats one of the other two keys, and never an effect
      key unless `attr` is one. */
  lemma StateLiteral(attr: string, on: Value, bri: Value, ct: Value)
    ensures var r := Put(Put([(attr, on)], AttrBrightness, bri), AttrColorTemp, ct);
      && KeysUnique(r) && Has(r, attr)
      && Has(r, AttrBrightness) && Get(r, AttrBrightness) == bri
      && Has(r, AttrColorTemp) && Get(r, AttrColorTemp) == ct
      && (attr != AttrBrightness && attr != AttrColorTemp ==>
            Keys(r) == [attr, AttrBrightness, AttrColorTemp] && Get(r, attr) == on)
      && (attr != AttrEffect ==> !Has(r, AttrEffect))
  {
    StateEntries(attr, on, bri, ct);
    var r := Put(Put([(attr, on)], AttrBrightness, bri), AttrColorTemp, ct);
    assert AttrBrightness[0] != AttrColorTemp[0];
    if attr == AttrBrightness {
      TwoEntries((AttrBrightness, bri), (AttrColorTemp, ct));
    } else if attr == AttrColorTemp {
      TwoEntries((AttrColorTemp, ct), (AttrBrightness, bri));
    } else {
      ThreeEntries((attr, on), (AttrBrightness, bri), (AttrColorTemp, ct));
    }
    HasKeys(r, AttrEffect);
  }

  // ---------------------------------------------------------------------------
  // The adapters.

  class XLight {
    const device: XDevice
    /** The attribute of the light's own converter (its on/off switch). */
    const attr: string
    var listenAttrs: set<string>
    var colorMode: ColorMode
    var supportedColorModes: set<ColorMode>
    var supportedFeatures: set<LightFeature>
    var effectList: Option<seq<string>>
    var minMireds: Option<int>
    var maxMireds: Option<int>
    var isOn: Option<bool>
    var brightness: Value
    var colorTemp: Value
    var effect: Value

    /** The class defaults; `None` stands for a value the platform base class supplies. */
    constructor (device: XDevice, attr: string, listenAttrs: set<string>)
      ensures this.device == device && this.attr == attr && this.listenAttrs == listenAttrs
      ensures colorMode == OnOff && supportedColorModes == {OnOff} && supportedFeatures == {}
      ensures effectList == None && minMireds == None && maxMireds == None
      ensures isOn == None && brightness == Null && colorTemp == Null && effect == Null
    {
      this.device := device;
      this.attr := attr;
      this.listenAttrs := listenAttrs;
      colorMode := OnOff;
      supportedColorModes := {OnOff};
      supportedFeatures := {};
      effectList := None;
      minMireds, maxMireds := None, None;
      isOn := None;
      brightness, colorTemp, effect := Null, Null, Null;
    }

    /** `XLight.on_init`: one pass over the converters. */
    method OnInit()
      requires AllKelvinUsable(device.converters)
      modifies this
      ensures colorMode == ColorModeOf(device.converters) && supportedColorModes == {colorMode}
      ensures listenAttrs == old(listenAttrs) + ListenAdded(device.converters)
      ensures supportedFeatures == old(supportedFeatures) + EffectFeatures(device.converters)
      ensures effectList == EffectListAfter(device.converters, old(effectList))
      ensures (minMireds, maxMireds) == MiredsAfter(device.converters, (old(minMireds), old(maxMireds)))
      ensures isOn == old(isOn) && brightness == old(brightness)
      ensures colorTemp == old(colorTemp) && effect == old(effect)
    {
      var convs := device.converters;
      colorMode := OnOff;
      for i := 0 to |convs|
        invariant colorMode == ColorModeOf(convs[..i])
        invariant listenAttrs == old(listenAttrs) + ListenAdded(convs[..i])
        invariant supportedFeatures == old(supportedFeatures) + EffectFeatures(convs[..i])
        invariant AllKelvinUsable(convs[..i])
        invariant effectList == EffectListAfter(convs[..i], old(effectList))
        invariant (minMireds, maxMireds) == MiredsAfter(convs[..i], (old(minMireds), old(maxMireds)))
        invariant isOn == old(isOn) && brightness == old(brightness)
        invariant colorTemp == old(colorTemp) && effect == old(effect)
      {
        var conv := convs[i];
        assert convs[..i + 1] == convs[..i] + [conv];
        ScanStep(convs[..i], conv);
        ScanAfter(convs[..i], conv, old(effectList), (old(minMireds), old(maxMireds)));
        Scan(conv);
      }
      assert convs[..|convs|] == convs;
      supportedColorModes := {colorMode};
    }

    /** One pass of the `on_init` loop: what a single converter changes. */
    method Scan(conv: Converter)
      requires KelvinUsable(conv)
      modifies this
      ensures colorMode == (match ModeOf(conv) case Some(m) => m case None => old(colorMode))
      ensures listenAttrs == old(listenAttrs) + (if Listened(conv) then {conv.attr} else {})
      ensures supportedFeatures == old(supportedFeatures) + (if IsEffectMap(conv) then {Effect} else {})
      ensures effectList == if IsEffectMap(conv) then Some(Values(conv.mapping.value)) else old(effectList)
      ensures (minMireds, maxMireds) ==
        (match BoundsOf(conv) case Some(b) => (Some(b.0), Some(b.1)) case None => (old(minMireds), old(maxMireds)))
      ensures supportedColorModes == old(supportedColorModes)
      ensures isOn == old(isOn) && brightness == old(brightness)
      ensures colorTemp == old(colorTemp) && effect == old(effect)
    {
      if conv.attr == AttrBrightness {
        listenAttrs := listenAttrs + {conv.attr};
        colorMode := Brightness;
      } else if conv.attr == AttrColorTemp {
        listenAttrs := listenAttrs + {conv.attr};
        colorMode := ColorTemp;
        if conv.minm.Some? && conv.maxm.Some? {
          minMireds, maxMireds := conv.minm, conv.maxm;
        } else if conv.mink.Some? && conv.maxk.Some? {
          minMireds := Some(MiredsOf(conv.maxk.value));
          maxMireds := Some(MiredsOf(conv.mink.value));
        }
      } else if conv.attr == AttrEffect && conv.mapping.Some? {
        listenAttrs := listenAttrs + {conv.attr};
        supportedFeatures := supportedFeatures + {Effect};
        effectList := Some(Values(conv.mapping.value));
      }
    }

    /** `_attr_is_on` as a Python value. */
    function OnValue(): Value
      reads this
    {
      match isOn
      case Some(b) => Bool(b)
      case None => Null
    }

    /** `XLight.set_state`: each field whose key is in `data` takes that value (the
        on/off field its truthiness); every other field keeps its value. */
    method SetState(data: Dict)
      modifies this
      ensures isOn == if Has(data, attr) then Some(Truthy(Get(data, attr))) else old(isOn)
      ensures brightness == if Has(data, AttrBrightness) then Get(data, AttrBrightness) else old(brightness)
      ensures colorTemp == if Has(data, AttrColorTemp) then Get(data, AttrColorTemp) else old(colorTemp)
      ensures effect == if Has(data, AttrEffect) then Get(data, AttrEffect) else old(effect)
      ensures listenAttrs == old(listenAttrs) && colorMode == old(colorMode)
      ensures supportedColorModes == old(supportedColorModes) && supportedFeatures == old(supportedFeatures)
      ensures effectList == old(effectList) && minMireds == old(minMireds) && maxMireds == old(maxMireds)
    {
      if Has(data, attr) {
        isOn := Some(Truthy(Get(data, attr)));
      }
      if Has(data, AttrBrightness) {
        brightness := Get(data, AttrBrightness);
      }
      if Has(data, AttrColorTemp) {
        colorTemp := Get(data, AttrColorTemp);
      }
      if Has(data, AttrEffect) {
        effect := Get(data, AttrEffect);
      }
    }

    /** `XLight.get_state`: the on/off value, brightness and colour temperature, built as
        the dictionary literal `{attr: ..., brightness: ..., color_temp: ...}`. The effect
        is not part of it. */
    function GetState(): (r: Dict)
      reads this
      ensures KeysUnique(r) && Has(r, attr)
      ensures Has(r, AttrBrightness) && Get(r, AttrBrightness) == brightness
      ensures Has(r, AttrColorTemp) && Get(r, AttrColorTemp) == colorTemp
      ensures attr != AttrBrightness && attr != AttrColorTemp ==>
        Keys(r) == [attr, AttrBrightness, AttrColorTemp] && Get(r, attr) == OnValue()
      ensures attr != AttrEffect ==> !Has(r, AttrEffect)
    {
      StateLiteral(attr, OnValue(), brightness, colorTemp);
      Put(Put([(attr, OnValue())], AttrBrightness, brightness), AttrColorTemp, colorTemp)
    }

    /** `XLight.async_turn_on`: exactly one write. */
    method TurnOn(kwargs: Dict)
      modifies device
      ensures device.writes == old(device.writes) + [OnPayload(attr, kwargs)]
      ensures device.dispatched == old(device.dispatched)
    {
      device.Write(if kwargs != [] then kwargs else [(attr, Bool(true))]);
    }

    /** `XLight.async_turn_off`: exactly one write of `{attr: False}`, whatever the
        arguments. */
    method TurnOff(kwargs: Dict)
      modifies device
      ensures device.writes == old(device.writes) + [[(attr, Bool(false))]]
      ensures device.dispatched == old(device.dispatched)
    {
      device.Write([(attr, Bool(false))]);
    }
  }

  class XZigbeeLight {
    const light: XLight

    constructor (light: XLight)
      ensures this.light == light
    {
      this.light := light;
    }

    /** `device.extra.get("default_transition")`: `None` when the device has no such
        option, otherwise the stored value. */
    function DefaultTransition(): (r: Value)
      ensures !Has(light.device.extra.options, AttrDefaultTransition) ==> r == Null
      ensures Has(light.device.extra.options, AttrDefaultTransition) ==>
        r == Get(light.device.extra.options, AttrDefaultTransition)
    {
      GetOr(light.device.extra.options, AttrDefaultTransition, Null)
    }

    /** `XZigbeeLight.on_init`: what `XLight.on_init` does, then the transition flag
        when some converter is a transition converter. */
    method OnInit()
      requires AllKelvinUsable(light.device.converters)
      modifies light
      ensures light.colorMode == ColorModeOf(light.device.converters)
      ensures light.supportedColorModes == {light.colorMode}
      ensures light.listenAttrs == old(light.listenAttrs) + ListenAdded(light.device.converters)
      ensures light.supportedFeatures == old(light.supportedFeatures) + EffectFeatures(light.device.converters)
        + (if exists i :: 0 <= i < |light.device.converters| && light.device.converters[i].attr == AttrTransition
           then {Transition} else {})
      ensures light.effectList == EffectListAfter(light.device.converters, old(light.effectList))
      ensures (light.minMireds, light.maxMireds) ==
        MiredsAfter(light.device.converters, (old(light.minMireds), old(light.maxMireds)))
      ensures light.isOn == old(light.isOn) && light.brightness == old(light.brightness)
      ensures light.colorTemp == old(light.colorTemp) && light.effect == old(light.effect)
    {
      light.OnInit();
      var convs := light.device.converters;
      ghost var base := light.supportedFeatures;
      ghost var cm, scm, la, el := light.colorMode, light.supportedColorModes, light.listenAttrs, light.effectList;
      ghost var lo, hi := light.minMireds, light.maxMireds;
      for i := 0 to |convs|
        invariant light.supportedFeatures == base +
          (if exists j :: 0 <= j < i && convs[j].attr == AttrTransition then {Transition} else {})
        invariant light.colorMode == cm && light.supportedColorModes == scm
        invariant light.listenAttrs == la && light.effectList == el
        invariant light.minMireds == lo && light.maxMireds == hi
        invariant light.isOn == old(light.isOn) && light.brightness == old(light.brightness)
        invariant light.colorTemp == old(light.colorTemp) && light.effect == old(light.effect)
      {
        if convs[i].attr == AttrTransition {
          light.supportedFeatures := light.supportedFeatures + {Transition};
        }
      }
    }

    /** `XZigbeeLight.async_turn_on`: the default transition fills in a missing one; when
        a transition is present the arguments are narrowed and reordered so that the
        transition comes last; exactly one write. */
    method TurnOn(kwargs: Dict)
      requires KeysUnique(kwargs)
      modifies light.device
      ensures |light.device.writes| == |old(light.device.writes)| + 1
      ensures light.device.writes[..|old(light.device.writes)|] == old(light.device.writes)
      ensures ZigbeeOnPayload(light.attr, kwargs, DefaultTransition(), light.device.writes[|light.device.writes| - 1])
      ensures light.device.dispatched == old(light.device.dispatched)
    {
      var kw := kwargs;
      var dflt := DefaultTransition();
      if dflt != Null {
        kw := SetDefault(kw, AttrTransition, dflt);
        SetDefaultKeeps(kwargs, AttrTransition, dflt, AttrBrightness);
        SetDefaultKeeps(kwargs, AttrTransition, dflt, AttrColorTemp);
      }
      if Has(kw, AttrTransition) {
        kw := TransitionLast(kw);
      }
      light.device.Write(if kw != [] then kw else [(light.attr, Bool(true))]);
    }

    /** `XZigbeeLight.async_turn_off`: the default transition fills in a missing one; when
        a transition is present brightness 0 fills in a missing brightness; exactly one
        write. */
    method TurnOff(kwargs: Dict)
      requires KeysUnique(kwargs)
      modifies light.device
      ensures |light.device.writes| == |old(light.device.writes)| + 1
      ensures light.device.writes[..|old(light.device.writes)|] == old(light.device.writes)
      ensures ZigbeeOffPayload(light.attr, kwargs, DefaultTransition(), light.device.writes[|light.device.writes| - 1])
      ensures light.device.dispatched == old(light.device.dispatched)
    {
      var kw := kwargs;
      var dflt := DefaultTransition();
      if dflt != Null {
        kw := SetDefault(kw, AttrTransition, dflt);
      }
      if Has(kw, AttrTransition) {
        kw := SetDefault(kw, AttrBrightness, Int(0));
      }
      OffDefaults(light.attr, kwargs, dflt);
      light.device.Write(if kw != [] then kw else [(light.attr, Bool(false))]);
    }
  }

  class XLightGroup {
    const light: XLight
    /** `update_event`: raised by every forwarded child update. */
    var updateEvent: bool

    /** `asyncio.Event()` starts cleared. */
    constructor (light: XLight)
      ensures this.light == light && !updateEvent
    {
      this.light := light;
      updateEvent := false;
    }

    /** `XLightGroup.childs`: the registry's devices for the known child ids, in order. */
    function Childs(devices: map<string, XDevice>): (r: seq<XDevice>)
      ensures |r| == |ChildIds(ChildRefs(light.device.extra), devices.Keys)|
      ensures forall i :: 0 <= i < |r| ==> r[i] in devices.Values
      ensures forall i :: 0 <= i < |r| ==>
        ChildIds(ChildRefs(light.device.extra), devices.Keys)[i] in devices &&
        r[i] == devices[ChildIds(ChildRefs(light.device.extra), devices.Keys)[i]]
    {
      var ids := ChildIds(ChildRefs(light.device.extra), devices.Keys);
      seq(|ids|, i requires 0 <= i < |ids| => devices[ids[i]])
    }

    /** `forward_child_update`: raises the signal, then dispatches the same data. */
    method ForwardChildUpdate(data: Dict)
      modifies this, light.device
      ensures updateEvent
      ensures light.device.dispatched == old(light.device.dispatched) + [data]
      ensures light.device.writes == old(light.device.writes)
    {
      updateEvent := true;
      light.device.Dispatch(data);
    }

    /** `wait_for_update`: clears the signal, then waits for it. `arrival` is the child
        update, if any, that comes in before the timeout; the wait is confirmed exactly
        when one does, whatever the signal was before the call. */
    method WaitForUpdate(arrival: Option<Dict>) returns (confirmed: bool)
      modifies this, light.device
      ensures confirmed == arrival.Some? && updateEvent == confirmed
      ensures light.device.dispatched == old(light.device.dispatched) +
        (match arrival case Some(d) => [d] case None => [])
      ensures light.device.writes == old(light.device.writes)
    {
      updateEvent := false;
      if arrival.Some? {
        ForwardChildUpdate(arrival.value);
      }
      confirmed := updateEvent;
    }

    /** `XLightGroup.async_turn_on`: the `XLight` write, then the wait. */
    method TurnOn(kwargs: Dict, arrival: Option<Dict>) returns (confirmed: bool)
      modifies this, light.device
      ensures light.device.writes == old(light.device.writes) + [OnPayload(light.attr, kwargs)]
      ensures confirmed == arrival.Some? && updateEvent == confirmed
      ensures light.device.dispatched == old(light.device.dispatched) +
        (match arrival case Some(d) => [d] case None => [])
    {
      light.TurnOn(kwargs);
      confirmed := WaitForUpdate(arrival);
    }

    /** `XLightGroup.async_turn_off`: the `XLight` write, then the wait. */
    method TurnOff(kwargs: Dict, arrival: Option<Dict>) returns (confirmed: bool)
      modifies this, light.device
      ensures light.device.writes == old(light.device.writes) + [[(light.attr, Bool(false))]]
      ensures confirmed == arrival.Some? && updateEvent == confirmed
      ensures light.device.dispatched == old(light.device.dispatched) +
        (match arrival case Some(d) => [d] case None => [])
    {
      light.TurnOff(kwargs);
      confirmed := WaitForUpdate(arrival);
    }
  }
}
