/**
 * The session logic of class DTMTransport in dist/nrf-dtm.js. Unlike src, it keeps no
 * open flag: every `sendCMD` calls `open()` and, once that resolves, writes the command
 * and installs the response handler. It has no response timer. The handler uninstalls
 * itself, listens for the port's 'close' event and closes the port; the request resolves
 * with its response only when 'close' fires.
 *
 * The serial driver's callbacks become event methods: the result of `port.open` for a
 * request (OnOpenResult), an incoming chunk (OnData), and the 'close' event (OnClosed).
 */
module BundleTransport {
  import opened Basics
  import opened Transport

  class BundleDtmTransport {
    /** The request whose response handler is installed as `this.callback`. */
    var callback: Option<nat>
    /** `this.dataBuffer`; the empty sequence stands for `undefined`. */
    var dataBuffer: seq<Byte>
    /** Requests suspended at `await this.open()`. */
    var awaitingOpen: set<nat>
    /** Requests whose open threw in its callback: their promise never settles. */
    var stranded: set<nat>
    /** The `whenPortIsClosed` listeners on 'close', each with the response it resolves with. */
    var closeWaiters: map<nat, seq<Byte>>
    var commands: map<nat, seq<Byte>>
    /** Every `port.write`, in order. */
    var written: seq<seq<Byte>>
    /** What each request's promise resolved with. */
    var resolved: map<nat, seq<Byte>>
    var nextRequest: nat
    /** The number of `port.open` and `port.close` calls. */
    var opens: nat
    var closes: nat

    ghost predicate Valid()
      reads this
    {
      && |dataBuffer| <= 1
      && (callback.Some? ==>
            var id := callback.value;
            id < nextRequest && id !in resolved && id !in closeWaiters && id !in awaitingOpen)
      && (forall id :: id in awaitingOpen ==> id in commands && id !in resolved && id !in closeWaiters && id < nextRequest)
      && (forall id :: id in closeWaiters ==> id !in resolved && id < nextRequest && |closeWaiters[id]| == 2)
      && (forall id :: id in resolved ==> id < nextRequest && |resolved[id]| == 2)
    }

    /** No promise that has resolved is ever resolved again or changes its value. */
    twostate predicate KeepsResolved()
      reads this
    {
      forall id :: id in old(resolved) ==> id in resolved && resolved[id] == old(resolved)[id]
    }

    constructor ()
      ensures Valid()
      ensures callback == None && dataBuffer == [] && awaitingOpen == {} && stranded == {} && closeWaiters == map[]
      ensures written == [] && resolved == map[] && nextRequest == 0 && opens == 0 && closes == 0
    {
      callback := None;
      dataBuffer := [];
      awaitingOpen := {};
      stranded := {};
      closeWaiters := map[];
      commands := map[];
      written := [];
      resolved := map[];
      nextRequest := 0;
      opens := 0;
      closes := 0;
    }

    /** sendCMD(cmd) up to `await this.open()`: the port is opened for every command. */
    method SendCmd(cmd: seq<Byte>) returns (id: nat)
      requires Valid()
      modifies this
      ensures Valid() && KeepsResolved()
      ensures id == old(nextRequest) && nextRequest == id + 1 && commands == old(commands)[id := cmd]
      ensures opens == old(opens) + 1 && awaitingOpen == old(awaitingOpen) + {id}
      ensures callback == old(callback) && dataBuffer == old(dataBuffer) && stranded == old(stranded)
      ensures closeWaiters == old(closeWaiters) && written == old(written) && resolved == old(resolved)
      ensures closes == old(closes)
    {
      id := nextRequest;
      nextRequest, commands := nextRequest + 1, commands[id := cmd];
      opens := opens + 1;
      awaitingOpen := awaitingOpen + {id};
    }

    /**
     * The callback of request id's `port.open`. On "Port is already open" and "Port is
     * opening" it throws and the request never continues; otherwise the command is
     * written and the response handler installed, replacing any earlier one.
     */
    method OnOpenResult(id: nat, result: OpenResult)
      requires Valid() && id in awaitingOpen
      modifies this
      ensures Valid() && KeepsResolved()
      ensures awaitingOpen == old(awaitingOpen) - {id}
      ensures result in {AlreadyOpen, AlreadyOpening} ==>
        stranded == old(stranded) + {id} && written == old(written) && callback == old(callback)
      ensures result !in {AlreadyOpen, AlreadyOpening} ==>
        stranded == old(stranded) && written == old(written) + [old(commands)[id]] && callback == Some(id)
      ensures dataBuffer == old(dataBuffer) && closeWaiters == old(closeWaiters) && resolved == old(resolved)
      ensures commands == old(commands) && nextRequest == old(nextRequest) && opens == old(opens) && closes == old(closes)
    {
      awaitingOpen := awaitingOpen - {id};
      if result == AlreadyOpen || result == AlreadyOpening {
        stranded := stranded + {id};
      } else {
        written := written + [commands[id]];
        callback := Some(id);
      }
    }

    /**
     * The `'data'` handler, with the same framing as src. A response handed to the
     * waiter does not resolve its request yet: it is kept for the 'close' event.
     */
    method OnData(data: seq<Byte>)
      requires Valid()
      modifies this
      ensures Valid() && resolved == old(resolved)
      ensures var f := Reassemble(old(dataBuffer), old(callback).Some?, data);
        && dataBuffer == f.buffer
        && (f.delivered.Some? ==>
             && callback == None && closes == old(closes) + 1
             && closeWaiters == old(closeWaiters)[old(callback).value := f.delivered.value])
        && (f.delivered.None? ==>
             callback == old(callback) && closes == old(closes) && closeWaiters == old(closeWaiters))
      ensures awaitingOpen == old(awaitingOpen) && stranded == old(stranded) && written == old(written)
      ensures commands == old(commands) && nextRequest == old(nextRequest) && opens == old(opens)
    {
      if callback.Some? {
        if |data| == 1 {
          if dataBuffer != [] {
            var response := dataBuffer + data;
            dataBuffer := [];
            Respond(response);
          } else {
            dataBuffer := data;
          }
        } else if |data| == 2 {
          Respond(data);
        }
      }
    }

    /** The handler installed by sendCMD: uninstall itself, wait for 'close', close the port. */
    method Respond(data: seq<Byte>)
      requires Valid() && callback.Some? && |data| == 2
      modifies this`callback, this`closeWaiters, this`closes
      ensures Valid()
      ensures callback == None && closes == old(closes) + 1
      ensures closeWaiters == old(closeWaiters)[old(callback).value := data]
    {
      var id := callback.value;
      callback := None;
      closeWaiters := closeWaiters[id := data];
      closes := closes + 1;
    }

    /**
     * The port's 'close' event: every registered `whenPortIsClosed` removes itself and
     * resolves its request with the response it holds.
     */
    method OnClosed()
      requires Valid()
      modifies this
      ensures Valid() && KeepsResolved()
      ensures resolved.Keys == old(resolved).Keys + old(closeWaiters).Keys
      ensures forall id :: id in old(closeWaiters) ==> resolved[id] == old(closeWaiters)[id]
      ensures closeWaiters == map[]
      ensures callback == old(callback) && dataBuffer == old(dataBuffer) && awaitingOpen == old(awaitingOpen)
      ensures stranded == old(stranded) && written == old(written) && commands == old(commands)
      ensures nextRequest == old(nextRequest) && opens == old(opens) && closes == old(closes)
    {
      resolved := resolved + closeWaiters;
      closeWaiters := map[];
    }
  }

  /**
   * One exchange on the bundled transport: open, write, a two-byte response, close. The
   * request resolves with the response only at the 'close' event, after the port was
   * opened and closed once for it.
   */
  method ExchangeScenario(t: BundleDtmTransport, cmd: seq<Byte>, r: seq<Byte>) returns (id: nat)
    requires t.Valid() && t.callback == None && t.dataBuffer == [] && t.closeWaiters == map[] && |r| == 2
    modifies t
    ensures t.Valid() && id in t.resolved && t.resolved[id] == r
    ensures t.opens == old(t.opens) + 1 && t.closes == old(t.closes) + 1
    ensures t.written == old(t.written) + [cmd] && t.callback == None && t.dataBuffer == []
  {
    id := t.SendCmd(cmd);
    t.OnOpenResult(id, OpenOk);
    t.OnData(r);
    assert id !in t.resolved && t.closeWaiters == map[id := r];
    t.OnClosed();
  }

  /** A response split into two single bytes is held until 'close' and then resolves the request whole. */
  method SplitResponseScenario(t: BundleDtmTransport, cmd: seq<Byte>, r: seq<Byte>) returns (id: nat)
    requires t.Valid() && t.callback == None && t.dataBuffer == [] && t.closeWaiters == map[] && |r| == 2
    modifies t
    ensures t.Valid() && id in t.resolved && t.resolved[id] == r && t.dataBuffer == []
  {
    id := t.SendCmd(cmd);
    t.OnOpenResult(id, OpenOk);
    t.OnData(r[..1]);
    t.OnData(r[1..]);
    assert r[..1] + r[1..] == r;
    t.OnClosed();
  }

  /**
   * A request whose open is refused with "Port is already open" is stranded: its command
   * is never written, and with no response timer it stays unresolved whatever bytes and
   * close events follow.
   */
  method UnansweredScenario(t: BundleDtmTransport, cmd: seq<Byte>, r: seq<Byte>) returns (id: nat)
    requires t.Valid() && t.callback == None && |r| == 2
    modifies t
    ensures t.Valid() && id !in t.resolved && id in t.stranded
  {
    id := t.SendCmd(cmd);
    t.OnOpenResult(id, AlreadyOpen);
    t.OnData(r);
    t.OnClosed();
  }
}
