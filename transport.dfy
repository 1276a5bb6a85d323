/**
 * The session logic of class DTMTransport in src/DTM_transport.js: the lazy-open flag
 * `waitForOpen`, the one pending-response waiter `callback`, the one-byte reassembly
 * buffer `dataBuffer`, and the 1000 ms response timer of `sendCMD`.
 *
 * The serial driver is abstracted away. Its callbacks become event methods: the result
 * of `port.open` (OnOpenResult), an incoming chunk (OnData), the expiry of a response
 * timer (OnResponseTimeout), the result of `port.close` (Close). Each `sendCMD` call is
 * a request with an identifier; what its promise resolves with is recorded in `resolved`
 * (None standing for `undefined`). The continuations of the requests suspended at
 * `await this.waitForOpen` run, in the order they were suspended, as part of the event
 * that resolves the open.
 */
module Transport {
  import opened Basics

  /**
   * The `waitForOpen` field: null, a pending open promise, a resolved one, or one whose
   * `port.open` callback threw, which stays pending for ever.
   */
  datatype OpenState = Closed | Opening | Opened | Stranded

  /** What the driver passes to the `port.open` callback. */
  datatype OpenResult = OpenOk | AlreadyOpen | AlreadyOpening | OtherOpenError

  /** The outcome of one incoming chunk: the new buffer and the response handed to the waiter, if any. */
  datatype Framing = Framing(buffer: seq<Byte>, delivered: Option<seq<Byte>>)

  /**
   * The `'data'` handler as a function: a lone byte is buffered, a second lone byte
   * completes the buffered one, a two-byte chunk is passed on as it is, and anything
   * else, or any chunk while no waiter is installed, is dropped.
   */
  function Reassemble(buffer: seq<Byte>, waiting: bool, data: seq<Byte>): (f: Framing)
    ensures f.delivered.Some? ==> waiting && (|data| == 1 || |data| == 2) && f.buffer == (if |data| == 1 then [] else buffer)
    ensures f.delivered.None? ==> f.buffer == buffer || (waiting && |data| == 1 && buffer == [] && f.buffer == data)
  {
    if !waiting then Framing(buffer, None)
    else if |data| == 1 then
      if buffer != [] then Framing([], Some(buffer + data)) else Framing(data, None)
    else if |data| == 2 then Framing(buffer, Some(data))
    else Framing(buffer, None)
  }

  /** The handler keeps at most one byte and only ever hands a two-byte response to the waiter. */
  lemma ReassembleKeepsFraming(buffer: seq<Byte>, waiting: bool, data: seq<Byte>)
    requires |buffer| <= 1
    ensures var f := Reassemble(buffer, waiting, data);
      |f.buffer| <= 1 && (f.delivered.Some? ==> |f.delivered.value| == 2)
  {
  }

  /** Nothing reaches a waiter unless one is installed and the chunk has one or two bytes. */
  lemma ReassembleDrops(buffer: seq<Byte>, waiting: bool, data: seq<Byte>)
    requires !waiting || (|data| != 1 && |data| != 2)
    ensures Reassemble(buffer, waiting, data) == Framing(buffer, None)
  {
  }

  /** A response split into two single bytes reaches the waiter whole and leaves the buffer empty. */
  lemma SplitResponseReassembled(r: seq<Byte>)
    requires |r| == 2
    ensures Reassemble([], true, r[..1]) == Framing(r[..1], None)
    ensures Reassemble(r[..1], true, r[1..]) == Framing([], Some(r))
  {
    assert r[..1] + r[1..] == r;
  }

  /**
   * A byte left in the buffer when a waiter timed out is glued to the first byte of the
   * next response when that response arrives split: the waiter receives the stale byte
   * first and uninstalls itself. The second byte then stays behind only if another
   * request has installed its waiter by the time it arrives; otherwise it is unhandled
   * data and dropped.
   */
  lemma StaleByteShiftsResponse(stale: Byte, r: seq<Byte>)
    requires |r| == 2
    ensures Reassemble([stale], true, r[..1]) == Framing([], Some([stale, r[0]]))
    ensures Reassemble([], true, r[1..]) == Framing(r[1..], None)
    ensures Reassemble([], false, r[1..]) == Framing([], None)
  {
    assert [stale] + r[..1] == [stale, r[0]];
  }

  /** The commands of the requests ids, in their order. */
  function CommandsOf(commands: map<nat, seq<Byte>>, ids: seq<nat>): (r: seq<seq<Byte>>)
    requires forall id :: id in ids ==> id in commands
    ensures |r| == |ids| && forall i :: 0 <= i < |ids| ==> r[i] == commands[ids[i]]
  {
    if ids == [] then [] else CommandsOf(commands, ids[..|ids| - 1]) + [commands[ids[|ids| - 1]]]
  }

  /** The requests ids, as a set. */
  function IdSet(ids: seq<nat>): (r: set<nat>)
    ensures forall id :: id in r <==> id in ids
  {
    set id | id in ids
  }

  /**
   * How the writes, writers and timers of the requests of q resumed so far grow when
   * the next one resumes.
   */
  lemma QueueStep(commands: map<nat, seq<Byte>>, q: seq<nat>, i: nat,
                  w0: seq<seq<Byte>>, r0: seq<nat>, t0: set<nat>)
    requires i < |q| && forall id :: id in q ==> id in commands
    ensures q[i..][1..] == q[i + 1..] && q[i..][0] == q[i]
    ensures (w0 + CommandsOf(commands, q[..i])) + [commands[q[i]]] == w0 + CommandsOf(commands, q[..i + 1])
    ensures (r0 + q[..i]) + [q[i]] == r0 + q[..i + 1]
    ensures (t0 + IdSet(q[..i])) + {q[i]} == t0 + IdSet(q[..i + 1])
  {
    assert q[..i + 1] == q[..i] + [q[i]];
    assert q[..i + 1][..i] == q[..i];
  }

  class DtmTransport {
    var waitForOpen: OpenState
    /** The request whose response handler is installed as `this.callback`. */
    var callback: Option<nat>
    /** `this.dataBuffer`; the empty sequence stands for `undefined`. */
    var dataBuffer: seq<Byte>
    /** Requests whose response timer is armed. */
    var timers: set<nat>
    /** Requests suspended at `await this.waitForOpen` on the pending open, oldest first. */
    var awaitingOpen: seq<nat>
    /** Requests suspended on an open promise whose callback threw: they never resume. */
    var stranded: set<nat>
    var commands: map<nat, seq<Byte>>
    /** Every `port.write`, in order. */
    var written: seq<seq<Byte>>
    /** The request that made each `port.write`. */
    var writers: seq<nat>
    /** What each request's promise resolved with. */
    var resolved: map<nat, Option<seq<Byte>>>
    var nextRequest: nat
    /** The number of `port.open` calls. */
    var opens: nat

    ghost predicate Valid()
      reads this
    {
      && |dataBuffer| <= 1
      && (callback.Some? ==> callback.value in timers)
      && RequestsValid() && QueueValid() && StrandedValid() && WritesValid()
    }

    /** Every request known has an identifier already handed out; an answer is two bytes. */
    ghost predicate RequestsValid()
      reads this`commands, this`timers, this`resolved, this`nextRequest
    {
      && (forall id :: id in commands ==> id < nextRequest)
      && (forall id :: id in timers ==> id !in resolved && id < nextRequest)
      && (forall id :: id in resolved ==> id < nextRequest)
      && (forall id :: id in resolved && resolved[id].Some? ==> |resolved[id].value| == 2)
    }

    /** The suspended requests wait on the pending open only, oldest first, and have done nothing yet. */
    ghost predicate QueueValid()
      reads this`waitForOpen, this`awaitingOpen, this`commands, this`timers, this`resolved
      reads this`writers, this`stranded
    {
      && (waitForOpen != Opening ==> awaitingOpen == [])
      && (forall i, j :: 0 <= i < j < |awaitingOpen| ==> awaitingOpen[i] < awaitingOpen[j])
      && (forall id :: id in awaitingOpen ==>
            id !in resolved && id in commands && id !in timers && id !in writers && id !in stranded)
    }

    /** A stranded request has not written, has no timer and has not resolved. */
    ghost predicate StrandedValid()
      reads this`stranded, this`resolved, this`timers, this`writers, this`nextRequest
    {
      forall id :: id in stranded ==> id !in resolved && id !in timers && id !in writers && id < nextRequest
    }

    /** Each write is the command of the request that made it. */
    ghost predicate WritesValid()
      reads this`writers, this`written, this`commands
    {
      && |writers| == |written|
      && (forall i :: 0 <= i < |writers| ==> writers[i] in commands && written[i] == commands[writers[i]])
    }

    /** No promise that has resolved is ever resolved again or changes its value. */
    twostate predicate KeepsResolved()
      reads this
    {
      forall id :: id in old(resolved) ==> id in resolved && resolved[id] == old(resolved)[id]
    }

    /**
     * A stranded request stays stranded; with Valid(), it is then never written and
     * never resolved.
     */
    twostate predicate KeepsStranded()
      reads this
    {
      old(stranded) <= stranded
    }

    constructor ()
      ensures Valid()
      ensures waitForOpen == Closed && callback == None && dataBuffer == [] && timers == {}
      ensures awaitingOpen == [] && stranded == {} && written == [] && writers == [] && resolved == map[]
      ensures nextRequest == 0 && opens == 0
    {
      waitForOpen := Closed;
      callback := None;
      dataBuffer := [];
      timers := {};
      awaitingOpen := [];
      stranded := {};
      commands := map[];
      written := [];
      writers := [];
      resolved := map[];
      nextRequest := 0;
      opens := 0;
    }

    /**
     * sendCMD(cmd): opens the port only when `waitForOpen` is null. When the open promise
     * has already resolved, the `await` resumes before any other event, so the command is
     * written, the timer armed and the waiter installed at once. While the open is
     * pending the request joins the queue of waiting requests; over an open promise that
     * will never settle it is stranded.
     */
    method SendCmd(cmd: seq<Byte>) returns (id: nat)
      requires Valid()
      modifies this
      ensures Valid() && KeepsResolved() && KeepsStranded()
      ensures id == old(nextRequest) && nextRequest == id + 1 && resolved == old(resolved)
      ensures commands == old(commands)[id := cmd]
      ensures old(waitForOpen) == Closed ==> waitForOpen == Opening && opens == old(opens) + 1
      ensures old(waitForOpen) != Closed ==> waitForOpen == old(waitForOpen) && opens == old(opens)
      ensures old(waitForOpen) == Opened ==>
        && written == old(written) + [cmd] && writers == old(writers) + [id]
        && timers == old(timers) + {id} && callback == Some(id)
      ensures old(waitForOpen) != Opened ==>
        written == old(written) && writers == old(writers) && timers == old(timers) && callback == old(callback)
      ensures old(waitForOpen) in {Closed, Opening} ==> awaitingOpen == old(awaitingOpen) + [id]
      ensures old(waitForOpen) == Stranded ==> stranded == old(stranded) + {id}
      ensures old(waitForOpen) != Stranded ==> stranded == old(stranded)
      ensures old(waitForOpen) in {Opened, Stranded} ==> awaitingOpen == old(awaitingOpen)
      ensures dataBuffer == old(dataBuffer)
    {
      id := NewRequest(cmd);
      if waitForOpen == Closed {
        StartOpen();
      }
      if waitForOpen == Opened {
        Write(id);
      } else if waitForOpen == Opening {
        Enqueue(id);
      } else {
        Strand(id);
      }
    }

    /** Request id has its command and has done nothing yet; it is newer than every suspended one. */
    ghost predicate Unused(id: nat)
      reads this`commands, this`resolved, this`timers, this`writers, this`stranded, this`awaitingOpen
    {
      && id in commands && id !in resolved && id !in timers && id !in writers && id !in stranded
      && (forall x :: x in awaitingOpen ==> x < id)
    }

    /** A new request identifier for cmd. */
    method NewRequest(cmd: seq<Byte>) returns (id: nat)
      requires Valid()
      modifies this`nextRequest, this`commands
      ensures Valid() && id == old(nextRequest) && nextRequest == id + 1 && commands == old(commands)[id := cmd]
      ensures Unused(id)
    {
      id := nextRequest;
      assert forall i :: 0 <= i < |writers| ==> writers[i] < id;
      nextRequest, commands := nextRequest + 1, commands[id := cmd];
    }

    /** `port.open` is called and its promise stored in `waitForOpen`. */
    method StartOpen()
      requires Valid() && waitForOpen == Closed
      modifies this`waitForOpen, this`opens
      ensures Valid() && waitForOpen == Opening && opens == old(opens) + 1
    {
      waitForOpen, opens := Opening, opens + 1;
    }

    /** Request id suspends at `await this.waitForOpen` on the pending open. */
    method Enqueue(id: nat)
      requires Valid() && waitForOpen == Opening && Unused(id)
      modifies this`awaitingOpen
      ensures Valid() && awaitingOpen == old(awaitingOpen) + [id]
    {
      assert forall i :: 0 <= i < |awaitingOpen| ==> awaitingOpen[i] in awaitingOpen;
      awaitingOpen := awaitingOpen + [id];
    }

    /** Request id suspends on an open promise that will never settle. */
    method Strand(id: nat)
      requires Valid() && id !in awaitingOpen && Unused(id)
      modifies this`stranded
      ensures Valid() && stranded == old(stranded) + {id}
    {
      stranded := stranded + {id};
    }

    /** `port.write` of request id's command, the response timer armed and the response handler installed. */
    method Write(id: nat)
      requires Valid() && id in commands && id !in resolved && id !in awaitingOpen && id !in stranded
      requires id !in writers
      modifies this`written, this`writers, this`timers, this`callback
      ensures Valid() && written == old(written) + [commands[id]] && writers == old(writers) + [id]
      ensures timers == old(timers) + {id} && callback == Some(id)
    {
      written, writers, timers, callback := written + [commands[id]], writers + [id], timers + {id}, Some(id);
    }

    /**
     * The callback of `port.open`. The source throws on "Port is already open" and
     * "Port is opening", which leaves the promise pending for ever: every request waiting
     * on it is stranded. On success and on any other error it resolves the promise, and
     * the waiting requests resume in the order they were suspended: each writes its
     * command, arms its timer and installs its waiter, so the last one's waiter remains.
     */
    method OnOpenResult(result: OpenResult)
      requires Valid() && waitForOpen == Opening
      modifies this
      ensures Valid() && KeepsResolved() && KeepsStranded()
      ensures result in {AlreadyOpen, AlreadyOpening} ==>
        && waitForOpen == Stranded && stranded == old(stranded) + IdSet(old(awaitingOpen))
        && written == old(written) && writers == old(writers) && timers == old(timers) && callback == old(callback)
      ensures result !in {AlreadyOpen, AlreadyOpening} ==>
        && waitForOpen == Opened && stranded == old(stranded)
        && writers == old(writers) + old(awaitingOpen)
        && written == old(written) + CommandsOf(old(commands), old(awaitingOpen))
        && timers == old(timers) + IdSet(old(awaitingOpen))
        && callback == (if old(awaitingOpen) == [] then old(callback) else Some(old(awaitingOpen)[|old(awaitingOpen)| - 1]))
      ensures awaitingOpen == [] && dataBuffer == old(dataBuffer) && resolved == old(resolved)
      ensures commands == old(commands) && nextRequest == old(nextRequest) && opens == old(opens)
    {
      if result == AlreadyOpen || result == AlreadyOpening {
        stranded := stranded + IdSet(awaitingOpen);
        awaitingOpen := [];
        waitForOpen := Stranded;
      } else {
        ResumeAll();
        waitForOpen := Opened;
      }
    }

    /** The suspended requests resume one after the other, oldest first. */
    method ResumeAll()
      requires Valid() && waitForOpen == Opening
      modifies this`awaitingOpen, this`written, this`writers, this`timers, this`callback
      ensures Valid() && awaitingOpen == [] && waitForOpen == Opening
      ensures writers == old(writers) + old(awaitingOpen)
      ensures written == old(written) + CommandsOf(old(commands), old(awaitingOpen))
      ensures timers == old(timers) + IdSet(old(awaitingOpen))
      ensures callback == (if old(awaitingOpen) == [] then old(callback) else Some(old(awaitingOpen)[|old(awaitingOpen)| - 1]))
    {
      var q := awaitingOpen;
      ghost var w0, r0 := written, writers;
      var i := 0;
      while i < |q|
        invariant 0 <= i <= |q| && awaitingOpen == q[i..]
        invariant forall id :: id in q ==> id in commands
        invariant Valid() && waitForOpen == Opening
        invariant writers == r0 + q[..i]
        invariant written == w0 + CommandsOf(commands, q[..i])
        invariant timers == old(timers) + IdSet(q[..i])
        invariant callback == (if i == 0 then old(callback) else Some(q[i - 1]))
      {
        QueueStep(commands, q, i, w0, r0, old(timers));
        ResumeNext();
        i := i + 1;
      }
      assert q[..i] == q;
    }

    /** The oldest suspended request resumes: it leaves the queue and writes its command. */
    method ResumeNext()
      requires Valid() && waitForOpen == Opening && awaitingOpen != []
      modifies this`awaitingOpen, this`written, this`writers, this`timers, this`callback
      ensures Valid() && awaitingOpen == old(awaitingOpen)[1..]
      ensures written == old(written) + [commands[old(awaitingOpen)[0]]] && writers == old(writers) + [old(awaitingOpen)[0]]
      ensures timers == old(timers) + {old(awaitingOpen)[0]} && callback == Some(old(awaitingOpen)[0])
    {
      var id := awaitingOpen[0];
      assert forall j :: 0 < j < |awaitingOpen| ==> awaitingOpen[j] != id;
      awaitingOpen := awaitingOpen[1..];
      assert id !in awaitingOpen;
      Write(id);
    }

    /**
     * The `'data'` handler. A response handed to the waiter resolves that request and
     * removes both the waiter and its timer.
     */
    method OnData(data: seq<Byte>)
      requires Valid()
      modifies this
      ensures Valid() && KeepsResolved() && KeepsStranded()
      ensures var f := Reassemble(old(dataBuffer), old(callback).Some?, data);
        && dataBuffer == f.buffer
        && (f.delivered.Some? ==>
             && callback == None
             && timers == old(timers) - {old(callback).value}
             && resolved == old(resolved)[old(callback).value := f.delivered])
        && (f.delivered.None? ==>
             callback == old(callback) && timers == old(timers) && resolved == old(resolved))
      ensures waitForOpen == old(waitForOpen) && awaitingOpen == old(awaitingOpen) && stranded == old(stranded)
      ensures written == old(written) && writers == old(writers)
      ensures commands == old(commands) && nextRequest == old(nextRequest) && opens == old(opens)
    {
      if callback.Some? {
        if |data| == 1 {
          if dataBuffer != [] {
            var response := dataBuffer + data;
            dataBuffer := [];
            Deliver(response);
          } else {
            dataBuffer := data;
          }
        } else if |data| == 2 {
          Deliver(data);
        }
      }
    }

    /** The waiter installed by sendCMD: uninstall itself, cancel its timer, resolve with the data. */
    method Deliver(data: seq<Byte>)
      requires Valid() && callback.Some? && |data| == 2
      modifies this
      ensures Valid() && KeepsResolved() && KeepsStranded()
      ensures callback == None && timers == old(timers) - {old(callback).value}
      ensures resolved == old(resolved)[old(callback).value := Some(data)]
      ensures old(callback).value !in old(resolved)
      ensures dataBuffer == old(dataBuffer) && waitForOpen == old(waitForOpen) && awaitingOpen == old(awaitingOpen)
      ensures stranded == old(stranded) && written == old(written) && writers == old(writers)
      ensures commands == old(commands) && nextRequest == old(nextRequest) && opens == old(opens)
    {
      var id := callback.value;
      callback := None;
      timers := timers - {id};
      resolved := resolved[id := Some(data)];
    }

    /**
     * The 1000 ms response timer of request `id` fires: it clears whatever waiter is
     * installed and resolves the request with `undefined`.
     */
    method OnResponseTimeout(id: nat)
      requires Valid() && id in timers
      modifies this
      ensures Valid() && KeepsResolved() && KeepsStranded()
      ensures id !in old(resolved)
      ensures callback == None && timers == old(timers) - {id} && resolved == old(resolved)[id := None]
      ensures dataBuffer == old(dataBuffer) && waitForOpen == old(waitForOpen) && awaitingOpen == old(awaitingOpen)
      ensures stranded == old(stranded) && written == old(written) && writers == old(writers)
      ensures commands == old(commands) && nextRequest == old(nextRequest) && opens == old(opens)
    {
      callback := None;
      timers := timers - {id};
      resolved := resolved[id := None];
    }

    /**
     * close(): on success `waitForOpen` goes back to null so that the next send reopens;
     * a failed close throws and changes nothing. The driver cannot close a port whose
     * open is still pending, so a close during Opening is a failed one.
     */
    method Close(failed: bool)
      requires Valid() && (waitForOpen == Opening ==> failed)
      modifies this
      ensures Valid() && KeepsResolved() && KeepsStranded()
      ensures failed ==> waitForOpen == old(waitForOpen)
      ensures !failed ==> waitForOpen == Closed
      ensures callback == old(callback) && dataBuffer == old(dataBuffer) && timers == old(timers)
      ensures awaitingOpen == old(awaitingOpen) && stranded == old(stranded)
      ensures written == old(written) && writers == old(writers) && resolved == old(resolved)
      ensures commands == old(commands) && nextRequest == old(nextRequest) && opens == old(opens)
    {
      if !failed {
        waitForOpen := Closed;
      }
    }
  }

  /** A stranded request is never written and never resolved. */
  lemma StrandedNeverServed(t: DtmTransport, id: nat)
    requires t.Valid() && id in t.stranded
    ensures id !in t.resolved && id !in t.writers && id !in t.timers && t.callback != Some(id)
  {
  }

  /** After a successful close, the next send opens the port again and waits for it. */
  method CloseThenSendReopens(t: DtmTransport, cmd: seq<Byte>) returns (id: nat)
    requires t.Valid() && t.waitForOpen != Opening
    modifies t
    ensures t.Valid() && t.opens == old(t.opens) + 1 && t.waitForOpen == Opening
    ensures t.awaitingOpen == [id] && t.written == old(t.written)
  {
    t.Close(false);
    id := t.SendCmd(cmd);
  }

  /** Two sends in a row call `port.open` at most once between them, whatever the port's state. */
  method SendsShareOpen(t: DtmTransport, a: seq<Byte>, b: seq<Byte>) returns (x: nat, y: nat)
    requires t.Valid()
    modifies t
    ensures t.Valid() && t.opens <= old(t.opens) + 1 && x != y
    ensures old(t.waitForOpen) != Closed ==> t.opens == old(t.opens)
  {
    x := t.SendCmd(a);
    y := t.SendCmd(b);
  }

  /**
   * Two sends while the open is pending resume in order once it resolves: both commands
   * are written, in order, and the waiter left installed is the second one's, so the
   * first answer resolves the second request.
   */
  method QueuedSendsScenario(t: DtmTransport, a: seq<Byte>, b: seq<Byte>, r: seq<Byte>) returns (x: nat, y: nat)
    requires t.Valid() && t.waitForOpen == Closed && t.dataBuffer == [] && |r| == 2
    modifies t
    ensures t.Valid() && t.waitForOpen == Opened && t.written == old(t.written) + [a, b]
    ensures y in t.resolved && t.resolved[y] == Some(r) && x !in t.resolved && x in t.timers
  {
    x := t.SendCmd(a);
    y := t.SendCmd(b);
    assert t.awaitingOpen == [x, y];
    assert CommandsOf(t.commands, [x, y]) == [a, b];
    t.OnOpenResult(OpenOk);
    t.OnData(r);
  }

  /**
   * An open that throws strands every request waiting on it, and every request sent
   * before the next successful close: none is written and none ever resolves.
   */
  method StrandedOpenScenario(t: DtmTransport, a: seq<Byte>, b: seq<Byte>) returns (x: nat, y: nat)
    requires t.Valid() && t.waitForOpen == Closed
    modifies t
    ensures t.Valid() && t.waitForOpen == Stranded && t.written == old(t.written)
    ensures x in t.stranded && y in t.stranded && x !in t.resolved && y !in t.resolved
    ensures t.opens == old(t.opens) + 1
  {
    x := t.SendCmd(a);
    t.OnOpenResult(AlreadyOpen);
    y := t.SendCmd(b);
  }

  /**
   * A successful close after a stranded open lets the next send open the port again, but
   * the stranded request stays suspended on the old promise: only the new command is
   * written.
   */
  method StrandedSurvivesReopen(t: DtmTransport, a: seq<Byte>, b: seq<Byte>) returns (x: nat, y: nat)
    requires t.Valid() && t.waitForOpen == Closed
    modifies t
    ensures t.Valid() && t.waitForOpen == Opened && t.opens == old(t.opens) + 2
    ensures t.written == old(t.written) + [b] && t.writers == old(t.writers) + [y] && t.callback == Some(y)
    ensures x in t.stranded && x !in t.resolved && x !in t.writers
  {
    x := t.SendCmd(a);
    t.OnOpenResult(AlreadyOpen);
    t.Close(false);
    y := t.SendCmd(b);
    assert t.awaitingOpen == [y];
    t.OnOpenResult(OpenOk);
    assert CommandsOf(t.commands, [y]) == [b];
  }

  /** A response in two single bytes resolves the request once; a late timer cannot fire for it. */
  method SplitResponseScenario(t: DtmTransport, cmd: seq<Byte>, r: seq<Byte>) returns (id: nat)
    requires t.Valid() && t.waitForOpen == Opened && t.dataBuffer == [] && |r| == 2
    modifies t
    ensures t.Valid() && id in t.resolved && t.resolved[id] == Some(r)
    ensures id !in t.timers && t.dataBuffer == [] && t.callback == None
  {
    id := t.SendCmd(cmd);
    t.OnData(r[..1]);
    assert t.dataBuffer == r[..1];
    t.OnData(r[1..]);
    assert r[..1] + r[1..] == r;
  }

  /**
   * Two requests outstanding at once, as when the End command of a test is sent while
   * its start command still waits: the second send replaces the one waiter, so the
   * device's answer to the first command resolves the second request, and the first
   * request resolves with `undefined` when its 1000 ms timer fires.
   */
  method OverlappingRequestsScenario(t: DtmTransport, first: seq<Byte>, second: seq<Byte>, answer: seq<Byte>)
    returns (x: nat, y: nat)
    requires t.Valid() && t.waitForOpen == Opened && t.dataBuffer == [] && |answer| == 2
    modifies t
    ensures t.Valid() && x in t.resolved && y in t.resolved
    ensures t.resolved[y] == Some(answer) && t.resolved[x] == None
    ensures t.written == old(t.written) + [first, second] && t.callback == None
  {
    x := t.SendCmd(first);
    y := t.SendCmd(second);
    t.OnData(answer);
    assert x in t.timers;
    t.OnResponseTimeout(x);
  }
}
