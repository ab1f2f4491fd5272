/**
 * The generic analog sensor node: the private data of one node instance
 * (`struct _upm_generic_analog`) and the four hooks the flow engine calls
 * on it: open, tick, the completion callback of an asynchronous read, and
 * close.
 *
 * The analog I/O layer and the flow engine are outside this file. Their
 * answers reach the hooks as parameters (what `sol_aio_open` returned,
 * what `sol_aio_busy` answered, the token `sol_aio_get_value` returned),
 * and every call the hooks make into them is appended, in order, to the
 * `calls` log of a `Runtime` object.
 */
module GenericAnalog {
  import opened PinParse

  /** `EINVAL` on Linux; open returns it negated, error packets carry it as is. */
  const EINVAL := 22

  /** The resolution the channel is opened with, also stored as `mask`. */
  const AioPrecision := 12

  /** The bounds of every reading the node emits. */
  const ReadingMin := 0
  const ReadingMax := 4094

  /** Index of the node type's only output port, `OUT`. */
  const OutPort := 0

  /** C `int32_t`. */
  type Int32 = x: int | -0x8000_0000 <= x < 0x8000_0000

  /** `struct sol_irange`: the current value, the bounds and the step. */
  datatype IRange = IRange(val: Int32, min: Int32, max: Int32, step: Int32)

  /** Opaque handles owned by the analog I/O layer and the main loop. */
  datatype Aio = Aio(id: nat)
  datatype Timeout = Timeout(id: nat)
  datatype PendingRead = PendingRead(id: nat)
  type NodeId = nat

  /** The node options the hooks look at: the `pin` string, which may be null. */
  datatype NodeOptions = NodeOptions(pin: Option<string>)

  /** One call from the node into the analog I/O layer, the main loop or the flow engine. */
  datatype Call =
    | AioOpen(device: int, pin: int, precision: int)
    | AioBusy(aio: Option<Aio>)
    | AioGetValue(aio: Option<Aio>)
    | AioClose(handle: Aio)
    | TimeoutDel(timer: Timeout)
    | SendIrange(node: Option<NodeId>, port: nat, value: IRange)
    | SendError(node: Option<NodeId>, code: int, pin: int)

  /** The world outside the node, as the log of the calls the node made into it. */
  class Runtime {
    var calls: seq<Call>

    constructor ()
      ensures calls == []
    {
      calls := [];
    }
  }

  /**
   * The node's private data. The engine allocates it zero-filled, so every
   * pointer starts out null and every integer 0.
   */
  class Instance {
    var node: Option<NodeId>
    var timer: Option<Timeout>
    var aio: Option<Aio>
    var pending: Option<PendingRead>
    var pin: int
    var mask: int
    var retData: Int32

    constructor ()
      ensures node == None && timer == None && aio == None && pending == None
      ensures pin == 0 && mask == 0 && retData == 0
    {
      node := None;
      timer := None;
      aio := None;
      pending := None;
      pin := 0;
      mask := 0;
      retData := 0;
    }
  }

  /** The (device, pin) pair the `pin` option yields, if it is present and parses. */
  function ParsedPin(options: NodeOptions): (r: Option<(int, int)>)
    ensures options.pin == None ==> r == None
  {
    match options.pin
    case None => None
    case Some(text) => ScanPin(text)
  }

  /**
   * The open hook. `handle` is what `sol_aio_open` returns when it is
   * called. The engine calls open once, on freshly zeroed private data.
   */
  method Open(rt: Runtime, node: NodeId, data: Instance, options: NodeOptions, handle: Option<Aio>)
    returns (status: int)
    requires data.aio == None
    modifies rt, data`aio, data`pin, data`mask
    // a null pin is refused before anything else happens
    ensures options.pin == None ==>
      status == -EINVAL && rt.calls == old(rt.calls) && data.aio == None
    // a pin string that does not give two integers never reaches the hardware
    ensures ParsedPin(options) == None ==>
      status == -EINVAL && rt.calls == old(rt.calls) && data.aio == None
    // two integers: the channel is opened once, with (device, pin, 12)
    ensures ParsedPin(options) != None ==>
      rt.calls == old(rt.calls) + [AioOpen(ParsedPin(options).value.0, ParsedPin(options).value.1, AioPrecision)]
      && data.aio == handle
    ensures status == 0 || status == -EINVAL
    ensures status == 0 <==> data.aio != None
    ensures status == 0 ==> data.pin == ParsedPin(options).value.1 && data.mask == AioPrecision
    ensures status != 0 ==> data.pin == old(data.pin) && data.mask == old(data.mask)
  {
    var parsed := ParsedPin(options);
    if parsed != None {
      var (device, pin) := parsed.value;
      rt.calls := rt.calls + [AioOpen(device, pin, AioPrecision)];
      data.aio := handle;
    }
    if data.aio == None {
      return -EINVAL;
    }
    data.pin := parsed.value.1;
    data.mask := AioPrecision;
    return 0;
  }

  /**
   * The close hook: releases the channel and the timer that are present,
   * and nothing else. The handles are left in place.
   */
  method Close(rt: Runtime, node: NodeId, data: Instance?)
    modifies rt
    ensures data == null ==> rt.calls == old(rt.calls)
    ensures data != null ==>
      rt.calls == old(rt.calls)
        + (if data.aio != None then [AioClose(data.aio.value)] else [])
        + (if data.timer != None then [TimeoutDel(data.timer.value)] else [])
  {
    if data == null {
      return;
    }
    if data.aio != None {
      rt.calls := rt.calls + [AioClose(data.aio.value)];
    }
    if data.timer != None {
      rt.calls := rt.calls + [TimeoutDel(data.timer.value)];
    }
  }

  /**
   * The completion callback `sol_aio_get_value` was given: records the raw
   * sample and sends one integer-range packet on the output port. The
   * sample goes into the range's step; its value stays 0, and the sample is
   * not clamped to the declared bounds.
   */
  method ReadCallback(rt: Runtime, cbData: Instance, aio: Option<Aio>, ret: Int32)
    modifies rt, cbData`retData
    ensures cbData.retData == ret
    // exactly one packet: val 0, bounds [0, 4094], the unclamped sample as step
    ensures rt.calls == old(rt.calls) + [SendIrange(cbData.node, OutPort, IRange(0, ReadingMin, ReadingMax, ret))]
  {
    var reading := IRange(0, ReadingMin, ReadingMax, ret);
    cbData.retData := ret;
    rt.calls := rt.calls + [SendIrange(cbData.node, OutPort, reading)];
  }

  /**
   * The tick hook. `busy` is what `sol_aio_busy` answers and `token` what
   * `sol_aio_get_value` returns (None for a null pending handle). Returns
   * 1 (true) when there is no private data or the channel is busy, and 0
   * otherwise, also when the read could not be issued.
   */
  method Tick(rt: Runtime, node: NodeId, data: Instance?, busy: bool, token: Option<PendingRead>)
    returns (r: int)
    modifies rt, (if data == null then {} else {data})`pending
    ensures r == 1 <==> data == null || busy
    ensures r == 0 || r == 1
    ensures data == null ==> rt.calls == old(rt.calls)
    // busy: the tick is absorbed, no read, no error
    ensures data != null && busy ==>
      rt.calls == old(rt.calls) + [AioBusy(data.aio)] && data.pending == old(data.pending)
    // idle: exactly one read, and one EINVAL error carrying the pin when it could not be issued
    ensures data != null && !busy ==>
      data.pending == token
      && rt.calls == old(rt.calls) + [AioBusy(data.aio), AioGetValue(data.aio)]
           + (if token == None then [SendError(data.node, EINVAL, data.pin)] else [])
  {
    if data == null {
      return 1;
    }
    rt.calls := rt.calls + [AioBusy(data.aio)];
    if busy {
      return 1;
    }
    rt.calls := rt.calls + [AioGetValue(data.aio)];
    data.pending := token;
    if data.pending == None {
      rt.calls := rt.calls + [SendError(data.node, EINVAL, data.pin)];
      return 0;
    }
    return 0;
  }
}
