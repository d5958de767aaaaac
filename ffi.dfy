/** The C interface for embedding: one global pair of slots, the
    initialised-but-not-started state and the running state, changed by
    `init`, `start` and `stop`, plus the address query and the matching
    free. The foreign steps (URI parsing, connecting, creating the TUN
    device, the bridge itself, the stop channel) are outcomes passed in by
    the caller. A C pointer is a number, 0 being null. */
module Ffi {
  import opened Wrappers
  import opened BoundedInts
  import opened Net
  import opened Util

  /** A connected session not yet bridged to its TUN device. */
  datatype InitState = InitState(mux: Mux, tun: nat, mtu: uint16, socketaddr: SocketAddr)

  /** A running bridge: the server address and the channel that stops it. */
  datatype RunningState = RunningState(socketaddr: SocketAddr, channel: nat)

  /** Why an entry point returned false. */
  datatype CallError = NullPointer | Failed(error: WhisperError)

  const NULL: nat := 0

  /** The text tokio gives a send on a channel whose receiver is gone. */
  const CHANNEL_CLOSED: string := "channel closed"

  class Whisper {
    var init: Option<InitState>
    var running: Option<RunningState>
    /** C strings handed out and not yet freed, by address; each holds the
        text of an IP address. */
    var cstrings: map<nat, IpAddr>
    var nextPtr: nat

    /** The two slots are never both occupied, and every live string has
        a non-null address below the next one to hand out. */
    ghost predicate Valid()
      reads this
    {
      && !(init.Some? && running.Some?)
      && nextPtr > NULL
      && forall p :: p in cstrings ==> NULL < p < nextPtr
    }

    /** The process starts with both slots empty. */
    constructor ()
      ensures Valid()
      ensures init.None? && running.None? && cstrings == map[]
    {
      init := None;
      running := None;
      cstrings := map[];
      nextPtr := 1;
    }

    /** `whisper_init`: a null URL returns false before anything else;
        either slot occupied fails with `AlreadyInitialized`; then the URL
        is parsed, the server connected and the TUN device created from
        `fd`, and the session is stored only if all of that worked and the
        connection reported a server address. */
    method Init(fd: int, ws: Option<string>, mtu: uint16,
                parse: Result<Uri, string>,
                connect: Result<(Mux, Option<SocketAddr>), BoxError>,
                tun: Result<nat, string>)
      returns (r: Result<(), CallError>)
      requires Valid()
      modifies this
      ensures Valid()
      ensures ws.None? ==> r == Err(NullPointer) && unchanged(this)
      ensures ws.Some? && (old(init).Some? || old(running).Some?) ==>
                r == Err(Failed(AlreadyInitialized)) && unchanged(this)
      ensures r.Ok? <==> && ws.Some? && old(init).None? && old(running).None?
                         && parse.Ok? && connect.Ok? && tun.Ok? && connect.value.1.Some?
      ensures r.Ok? ==> init == Some(InitState(connect.value.0, tun.value, mtu, connect.value.1.value))
      ensures r.Err? ==> init == old(init)
      ensures running == old(running) && cstrings == old(cstrings) && nextPtr == old(nextPtr)
      ensures ws.Some? && old(init).None? && old(running).None? ==>
                && (parse.Err? ==> r == Err(Failed(OtherError(parse.error))))
                && (parse.Ok? && connect.Err? ==> r == Err(Failed(Other(connect.error))))
                && (parse.Ok? && connect.Ok? && tun.Err? ==> r == Err(Failed(OtherError(tun.error))))
                && (parse.Ok? && connect.Ok? && tun.Ok? && connect.value.1.None? ==> r == Err(Failed(NoSocketAddr)))
    {
      if ws.None? {
        return Err(NullPointer);
      }
      if init.Some? || running.Some? {
        return Err(Failed(AlreadyInitialized));
      }
      if parse.Err? {
        return Err(Failed(OtherError(parse.error)));
      }
      if connect.Err? {
        return Err(Failed(Other(connect.error)));
      }
      var (mux, socketaddr) := connect.value;
      if tun.Err? {
        return Err(Failed(OtherError(tun.error)));
      }
      if socketaddr.None? {
        return Err(Failed(NoSocketAddr));
      }
      init := Some(InitState(mux, tun.value, mtu, socketaddr.value));
      r := Ok(());
    }

    /** `whisper_get_ws_ip`: a new C string with the server's IP address,
        from the initialised state if there is one, else from the running
        state; null when neither slot is occupied. */
    method GetWsIp() returns (ptr: nat)
      requires Valid()
      modifies this
      ensures Valid()
      ensures init == old(init) && running == old(running)
      ensures old(init).None? && old(running).None? <==> ptr == NULL
      ensures ptr == NULL ==> unchanged(this)
      ensures ptr != NULL ==>
                && ptr !in old(cstrings)
                && cstrings == old(cstrings)[ptr := if old(init).Some? then old(init).value.socketaddr.ip
                                                   else old(running).value.socketaddr.ip]
    {
      var ip: IpAddr;
      if init.Some? {
        ip := init.value.socketaddr.ip;
      } else if running.Some? {
        ip := running.value.socketaddr.ip;
      } else {
        return NULL;
      }
      ptr := nextPtr;
      nextPtr := nextPtr + 1;
      cstrings := cstrings[ptr := ip];
    }

    /** `whisper_free`: null is ignored; any other pointer must be one
        handed out by `GetWsIp` and not yet freed, and is released. */
    method Free(ptr: nat)
      requires Valid()
      requires ptr == NULL || ptr in cstrings
      modifies this
      ensures Valid()
      ensures init == old(init) && running == old(running) && nextPtr == old(nextPtr)
      ensures cstrings == old(cstrings) - {ptr}
      ensures ptr == NULL ==> unchanged(this)
    {
      if ptr == NULL {
        return;
      }
      cstrings := cstrings - {ptr};
    }

    /** `whisper_start`: fails with `AlreadyStarted` while running, which is
        checked before `NotInitialized`; otherwise the initialised session
        moves into the running slot with the same server address and a new
        stop channel, and the call then reports how the bridge ended. */
    method Start(channel: nat, bridge: Result<(), string>) returns (r: Result<(), WhisperError>)
      requires Valid()
      modifies this
      ensures Valid()
      ensures cstrings == old(cstrings) && nextPtr == old(nextPtr)
      ensures old(running).Some? ==> r == Err(AlreadyStarted) && unchanged(this)
      ensures old(running).None? && old(init).None? ==> r == Err(NotInitialized) && unchanged(this)
      ensures old(running).None? && old(init).Some? ==>
                && init.None?
                && running == Some(RunningState(old(init).value.socketaddr, channel))
                && (r.Ok? <==> bridge.Ok?)
                && (bridge.Err? ==> r == Err(OtherError(bridge.error)))
    {
      if running.Some? {
        return Err(AlreadyStarted);
      }
      if init.None? {
        return Err(NotInitialized);
      }
      var socketaddr := init.value.socketaddr;
      init := None;
      running := Some(RunningState(socketaddr, channel));
      r := if bridge.Ok? then Ok(()) else Err(OtherError(bridge.error));
    }

    /** `whisper_stop`: fails with `NotStarted` unless running; otherwise
        the running slot is emptied and the stop event sent, which fails
        when the bridge has already ended; the slot stays empty either
        way. */
    method Stop(receiverAlive: bool) returns (r: Result<(), WhisperError>)
      requires Valid()
      modifies this
      ensures Valid()
      ensures cstrings == old(cstrings) && nextPtr == old(nextPtr) && init == old(init)
      ensures old(running).None? ==> r == Err(NotStarted) && unchanged(this)
      ensures old(running).Some? ==>
                && running.None?
                && (r.Ok? <==> receiverAlive)
                && (r.Err? ==> r.error == OtherError(CHANNEL_CLOSED))
    {
      if running.None? {
        return Err(NotStarted);
      }
      running := None;
      r := if receiverAlive then Ok(()) else Err(OtherError(CHANNEL_CLOSED));
    }
  }

  /** init, start, a second init, stop, and an init after the stop, with
      every foreign step succeeding: the second init is refused because the
      session is running, the third is accepted. */
  method Lifecycle(url: Uri, peer: SocketAddr) returns (results: seq<bool>)
    ensures results == [true, true, false, true, true]
  {
    var w := new Whisper();
    var conn: Result<(Mux, Option<SocketAddr>), BoxError> := Ok((Mux(1, false), Some(peer)));
    var r1 := w.Init(3, Some("ws://example"), 1500, Ok(url), conn, Ok(10));
    var r2 := w.Start(20, Ok(()));
    var r3 := w.Init(3, Some("ws://example"), 1500, Ok(url), conn, Ok(11));
    var r4 := w.Stop(true);
    var r5 := w.Init(3, Some("ws://example"), 1500, Ok(url), conn, Ok(12));
    results := [r1.Ok?, r2.Ok?, r3.Ok?, r4.Ok?, r5.Ok?];
  }

  /** What a C string address holds, if it is live. */
  function StringAt(cstrings: map<nat, IpAddr>, ptr: nat): (s: Option<IpAddr>)
    ensures s.Some? <==> ptr in cstrings
    ensures s.Some? ==> s.value == cstrings[ptr]
  {
    if ptr in cstrings then Some(cstrings[ptr]) else None
  }

  /** While a session is initialised or running, the address query returns
      the server address given at init; once both slots are empty it
      returns null. */
  method AddressQueries(url: Uri, peer: SocketAddr) returns (ips: seq<Option<IpAddr>>)
    ensures ips == [None, Some(peer.ip), Some(peer.ip), None]
  {
    var w := new Whisper();
    var conn: Result<(Mux, Option<SocketAddr>), BoxError> := Ok((Mux(1, false), Some(peer)));
    var p0 := w.GetWsIp();
    var r1 := w.Init(3, Some("ws://example"), 1500, Ok(url), conn, Ok(10));
    var p1 := w.GetWsIp();
    var r2 := w.Start(20, Err("tun closed"));
    var p2 := w.GetWsIp();
    var r3 := w.Stop(false);
    var p3 := w.GetWsIp();
    ips := [
      StringAt(w.cstrings, p0),
      StringAt(w.cstrings, p1),
      StringAt(w.cstrings, p2),
      StringAt(w.cstrings, p3)
    ];
  }
}
