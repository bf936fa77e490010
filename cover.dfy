/** The cover entity adapter `XCover`: a fixed subscription, the open/closed and
    moving flags derived from `position` and `run_state`, and one write per command. */
module Cover {
  import opened Dicts
  import opened Devices

  const AttrPosition := "position"
  const AttrRunState := "run_state"
  /** The platform's `STATE_OPENING` and `STATE_CLOSING`. */
  const StateOpening := "opening"
  const StateClosing := "closing"

  /** A cover at position 2 or below counts as closed. */
  const ClosedThreshold := 2

  /** `set_state` compares `position` with an integer, so an update carrying a position
      carries an integer one. */
  predicate PositionIsInt(data: Dict) {
    Has(data, AttrPosition) ==> Get(data, AttrPosition).Int?
  }

  class XCover {
    const device: XDevice
    /** The attribute of the cover's own converter (its motor command). */
    const attr: string
    var listenAttrs: set<string>
    var position: Option<int>
    var isClosed: Option<bool>
    var state: Value
    var isOpening: Option<bool>
    var isClosing: Option<bool>

    /** The derived flags agree with what they derive from: `is_closed` is set exactly
        when the position is, and then says whether it is at most 2; the cover is never
        both opening and closing. */
    ghost predicate Valid()
      reads this
    {
      && (position.Some? <==> isClosed.Some?)
      && (position.Some? ==> isClosed.value == (position.value <= ClosedThreshold))
      && !(isOpening == Some(true) && isClosing == Some(true))
    }

    /** The moving flags were last set from the current `run_state`. */
    ghost predicate MovingSynced()
      reads this
    {
      isOpening == Some(state == Str(StateOpening)) && isClosing == Some(state == Str(StateClosing))
    }

    /** The class defaults; `None` stands for a value the platform base class supplies. */
    constructor (device: XDevice, attr: string, listenAttrs: set<string>)
      ensures this.device == device && this.attr == attr && this.listenAttrs == listenAttrs
      ensures position == None && isClosed == None && state == Null
      ensures isOpening == None && isClosing == None
      ensures Valid()
    {
      this.device := device;
      this.attr := attr;
      this.listenAttrs := listenAttrs;
      position, isClosed := None, None;
      state := Null;
      isOpening, isClosing := None, None;
    }

    /** `XCover.on_init`: the cover listens to exactly `position` and `run_state`. */
    method OnInit()
      modifies this
      ensures listenAttrs == {AttrPosition, AttrRunState}
      ensures position == old(position) && isClosed == old(isClosed) && state == old(state)
      ensures isOpening == old(isOpening) && isClosing == old(isClosing)
    {
      listenAttrs := {AttrPosition, AttrRunState};
    }

    /** `XCover.set_state`: a position sets the current position and whether the cover
        is closed; a run state sets the state and the opening/closing flags; a missing
        key leaves its fields alone. */
    method SetState(data: Dict)
      requires Valid() && PositionIsInt(data)
      modifies this
      ensures Valid()
      ensures Has(data, AttrPosition) ==>
        var p := Get(data, AttrPosition).i;
        position == Some(p) && isClosed == Some(p <= ClosedThreshold)
      ensures !Has(data, AttrPosition) ==> position == old(position) && isClosed == old(isClosed)
      ensures Has(data, AttrRunState) ==>
        var s := Get(data, AttrRunState);
        && state == s
        && isOpening == Some(s == Str(StateOpening))
        && isClosing == Some(s == Str(StateClosing))
        && MovingSynced()
      ensures !Has(data, AttrRunState) ==>
        state == old(state) && isOpening == old(isOpening) && isClosing == old(isClosing)
      ensures old(MovingSynced()) ==> MovingSynced()
      ensures listenAttrs == old(listenAttrs)
    {
      if Has(data, AttrPosition) {
        position := Some(Get(data, AttrPosition).i);
        isClosed := Some(position.value <= ClosedThreshold);
      }
      if Has(data, AttrRunState) {
        state := Get(data, AttrRunState);
        isOpening := Some(state == Str(StateOpening));
        isClosing := Some(state == Str(StateClosing));
      }
    }

    /** The current position as a Python value. */
    function PositionValue(): Value
      reads this
    {
      match position
      case Some(p) => Int(p)
      case None => Null
    }

    /** `XCover.get_state`: the last position and run state, in that order. */
    function GetState(): (r: Dict)
      reads this
      ensures Keys(r) == [AttrPosition, AttrRunState] && KeysUnique(r)
      ensures Has(r, AttrPosition) && Get(r, AttrPosition) == PositionValue()
      ensures Has(r, AttrRunState) && Get(r, AttrRunState) == state
      ensures position.Some? ==> PositionIsInt(r)
    {
      var r := [(AttrPosition, PositionValue()), (AttrRunState, state)];
      GetAt(r, 0);
      GetAt(r, 1);
      r
    }

    /** `async_open_cover`: exactly one write, `{attr: "open"}`. */
    method OpenCover()
      modifies device
      ensures device.writes == old(device.writes) + [[(attr, Str("open"))]]
      ensures device.dispatched == old(device.dispatched)
    {
      device.Write([(attr, Str("open"))]);
    }

    /** `async_close_cover`: exactly one write, `{attr: "close"}`. */
    method CloseCover()
      modifies device
      ensures device.writes == old(device.writes) + [[(attr, Str("close"))]]
      ensures device.dispatched == old(device.dispatched)
    {
      device.Write([(attr, Str("close"))]);
    }

    /** `async_stop_cover`: exactly one write, `{attr: "stop"}`. */
    method StopCover()
      modifies device
      ensures device.writes == old(device.writes) + [[(attr, Str("stop"))]]
      ensures device.dispatched == old(device.dispatched)
    {
      device.Write([(attr, Str("stop"))]);
    }

    /** `async_set_cover_position`: exactly one write, `{"position": position}`. */
    method SetCoverPosition(position: Value)
      modifies device
      ensures device.writes == old(device.writes) + [[(AttrPosition, position)]]
      ensures device.dispatched == old(device.dispatched)
    {
      device.Write([(AttrPosition, position)]);
    }
  }

  /** Feeding `get_state` back into `set_state` changes nothing, once a position has
      been set and the moving flags follow the run state. */
  method RestoreRoundTrip(cover: XCover)
    requires cover.Valid() && cover.position.Some? && cover.MovingSynced()
    modifies cover
    ensures cover.position == old(cover.position) && cover.isClosed == old(cover.isClosed)
    ensures cover.state == old(cover.state)
    ensures cover.isOpening == old(cover.isOpening) && cover.isClosing == old(cover.isClosing)
    ensures cover.listenAttrs == old(cover.listenAttrs)
  {
    var snapshot := cover.GetState();
    cover.SetState(snapshot);
  }

  /** Position 2 reads as closed and position 3 as open; a run-state update leaves the
      position alone. `closedAtTwo` is `is_closed` just after position 2 arrives. */
  method ClosedThresholdScenario(cover: XCover) returns (closedAtTwo: Option<bool>)
    requires cover.Valid()
    modifies cover
    ensures closedAtTwo == Some(true)
    ensures cover.isClosed == Some(false) && cover.position == Some(3)
    ensures cover.isOpening == Some(true) && cover.isClosing == Some(false)
  {
    var two := [(AttrPosition, Int(2))];
    GetAt(two, 0);
    cover.SetState(two);
    closedAtTwo := cover.isClosed;
    var three := [(AttrPosition, Int(3))];
    GetAt(three, 0);
    cover.SetState(three);
    var opening := [(AttrRunState, Str(StateOpening))];
    GetAt(opening, 0);
    assert !Has(opening, AttrPosition);
    cover.SetState(opening);
  }
}
