/**
 * Whole lifecycles of one node instance, driven through the hooks of
 * `GenericAnalog` against a fresh runtime, with the log of calls each one
 * leaves behind.
 */
module GenericAnalogScenarios {
  import opened PinParse
  import opened GenericAnalog

  /** The option text "0 2" names device 0, pin 2. */
  lemma PinZeroTwo()
    ensures ScanPin("0 2") == Some((0, 2))
  {
    ScanPinText(0, 2, "");
    assert IntText(0) == "0" && IntText(2) == "2";
    assert "0 2" == IntText(0) + " " + IntText(2) + "";
  }

  /** Open with the option "0 2" on fresh private data, the hardware granting `Aio(0)`. */
  method OpenZeroTwo(rt: Runtime, data: Instance, handle: Option<Aio>) returns (status: int)
    requires data.aio == None
    modifies rt, data`aio, data`pin, data`mask
    ensures rt.calls == old(rt.calls) + [AioOpen(0, 2, 12)]
    ensures data.aio == handle
    ensures handle != None ==> status == 0 && data.pin == 2 && data.mask == 12
    ensures handle == None ==> status == -22 && data.pin == old(data.pin) && data.mask == old(data.mask)
  {
    PinZeroTwo();
    status := Open(rt, 1, data, NodeOptions(Some("0 2")), handle);
  }

  /**
   * Open on "0 2", a tick that issues a read, a tick absorbed because the
   * channel is busy, the completion with sample 2048, then close: the
   * channel is opened and closed once, one read is issued and one reading
   * is sent.
   */
  method PollOnce() returns (openStatus: int, first: int, second: int, calls: seq<Call>)
    ensures openStatus == 0 && first == 0 && second == 1
    ensures calls == [
      AioOpen(0, 2, 12),
      AioBusy(Some(Aio(0))), AioGetValue(Some(Aio(0))),
      AioBusy(Some(Aio(0))),
      SendIrange(None, 0, IRange(0, 0, 4094, 2048)),
      AioClose(Aio(0))]
  {
    var rt := new Runtime();
    var data := new Instance();
    openStatus := OpenZeroTwo(rt, data, Some(Aio(0)));
    first := Tick(rt, 1, data, false, Some(PendingRead(0)));
    assert rt.calls == [AioOpen(0, 2, 12), AioBusy(Some(Aio(0))), AioGetValue(Some(Aio(0)))];
    second := Tick(rt, 1, data, true, None);
    ReadCallback(rt, data, data.aio, 2048);
    Close(rt, 1, data);
    calls := rt.calls;
  }

  /**
   * A read that cannot be issued: the tick still returns 0, and one EINVAL
   * error packet carrying pin 2 is sent.
   */
  method IssueFails() returns (openStatus: int, status: int, calls: seq<Call>)
    ensures openStatus == 0 && status == 0
    ensures calls == [
      AioOpen(0, 2, 12),
      AioBusy(Some(Aio(0))), AioGetValue(Some(Aio(0))),
      SendError(None, 22, 2)]
  {
    var rt := new Runtime();
    var data := new Instance();
    openStatus := OpenZeroTwo(rt, data, Some(Aio(0)));
    status := Tick(rt, 1, data, false, None);
    calls := rt.calls;
  }

  /**
   * A null pin option: open fails with -EINVAL without touching the
   * hardware, and the close that follows releases nothing.
   */
  method NullPin() returns (openStatus: int, calls: seq<Call>)
    ensures openStatus == -22
    ensures calls == []
  {
    var rt := new Runtime();
    var data := new Instance();
    openStatus := Open(rt, 1, data, NodeOptions(None), Some(Aio(0)));
    Close(rt, 1, data);
    calls := rt.calls;
  }

  /**
   * The hardware refuses the channel: open fails with -EINVAL after one
   * open attempt, pin and mask keep their zero values, and close releases
   * nothing.
   */
  method HardwareRefuses() returns (openStatus: int, pin: int, mask: int, calls: seq<Call>)
    ensures openStatus == -22 && pin == 0 && mask == 0
    ensures calls == [AioOpen(0, 2, 12)]
  {
    var rt := new Runtime();
    var data := new Instance();
    openStatus := OpenZeroTwo(rt, data, None);
    Close(rt, 1, data);
    pin, mask := data.pin, data.mask;
    calls := rt.calls;
  }

  /**
   * Close keeps the handle it released, so a second close on the same
   * private data closes the channel a second time.
   */
  method CloseTwice() returns (calls: seq<Call>)
    ensures calls == [AioOpen(0, 2, 12), AioClose(Aio(0)), AioClose(Aio(0))]
  {
    var rt := new Runtime();
    var data := new Instance();
    var openStatus := OpenZeroTwo(rt, data, Some(Aio(0)));
    Close(rt, 1, data);
    Close(rt, 1, data);
    calls := rt.calls;
  }

  /**
   * Open followed by close, for every `pin` option and every answer of the
   * hardware: the channel is opened only when the option gives two
   * integers, and released exactly once exactly when it was granted.
   */
  method OpenClose(pin: Option<string>, handle: Option<Aio>) returns (status: int, calls: seq<Call>)
    ensures ParsedPin(NodeOptions(pin)) == None ==> status == -EINVAL && calls == []
    ensures ParsedPin(NodeOptions(pin)) != None ==>
      var (device, channel) := ParsedPin(NodeOptions(pin)).value;
      calls == [AioOpen(device, channel, AioPrecision)]
        + (if handle != None then [AioClose(handle.value)] else [])
    ensures status == 0 <==> ParsedPin(NodeOptions(pin)) != None && handle != None
  {
    var rt := new Runtime();
    var data := new Instance();
    status := Open(rt, 1, data, NodeOptions(pin), handle);
    Close(rt, 1, data);
    calls := rt.calls;
  }
}
