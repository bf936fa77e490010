/** The part of a device that the entity adapters see: its converter list, its extra
    options, and the two calls they make on it, `write` and `dispatch`. How a write is
    encoded and published, and how a dispatch reaches listeners, is not part of this
    model: both calls only append their argument to a log, in call order. */
module Devices {
  import opened Dicts

  /** One entry of a device's converter list, reduced to what the adapters read: the
      attribute name and the optional fields they probe with `hasattr`. `mapping` is
      the converter's `map` (raw code to name), kept in its insertion order. */
  datatype Converter = Converter(
    attr: string,
    minm: Option<int>, maxm: Option<int>,
    mink: Option<int>, maxk: Option<int>,
    mapping: Option<seq<(Value, string)>>)

  /** `device.extra`: its scalar options (such as `default_transition`) as a
      dictionary, and its `childs` list, `None` when the key is missing. */
  datatype Extra = Extra(options: Dict, childs: Option<seq<string>>)

  /** `device.extra.get("childs", [])`: the listed ids, or none when the key is missing. */
  function ChildRefs(extra: Extra): (r: seq<string>)
    ensures extra.childs.Some? ==> r == extra.childs.value
    ensures extra.childs.None? ==> r == []
  {
    match extra.childs
    case Some(ids) => ids
    case None => []
  }

  class XDevice {
    const converters: seq<Converter>
    const extra: Extra
    /** Every payload passed to `write`, oldest first. */
    var writes: seq<Dict>
    /** Every update passed to `dispatch`, oldest first. */
    var dispatched: seq<Dict>

    constructor (converters: seq<Converter>, extra: Extra)
      ensures this.converters == converters && this.extra == extra
      ensures writes == [] && dispatched == []
    {
      this.converters := converters;
      this.extra := extra;
      writes := [];
      dispatched := [];
    }

    /** `device.write(payload)`: one payload, keys in the order given. */
    method Write(payload: Dict)
      modifies this
      ensures writes == old(writes) + [payload]
      ensures dispatched == old(dispatched)
    {
      writes := writes + [payload];
    }

    /** `device.dispatch(data)`: hands an attribute update to the device's listeners. */
    method Dispatch(data: Dict)
      modifies this
      ensures dispatched == old(dispatched) + [data]
      ensures writes == old(writes)
    {
      dispatched := dispatched + [data];
    }
  }
}
