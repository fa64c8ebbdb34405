/**
 * AudioDeviceUDP: an audio device that streams raw 16-bit samples over UDP.
 *
 * The device name (after the "udp:" tag) is "ip-addr:port". Depending on the
 * mode it creates a socket to send to that address, binds a socket to that
 * port for receiving, or both. Received datagrams are cut into blocks of
 * `blockSize` frames in a staging buffer; blocks to send are pulled from the
 * upstream source one at a time and written as one datagram each.
 *
 * The socket, address parsing and the splitting of the device name are
 * foreign code: the split fields, the two parse functions and the socket's
 * init outcome are parameters.
 */
module AsyncAudioDeviceUdp {
  import opened Wrappers
  import opened BlockChunking

  /** A native `int16_t` sample. */
  newtype int16 = x: int | -0x8000 <= x < 0x8000

  /** A UDP port number; 0 means "not set". */
  newtype Port = x: int | 0 <= x < 0x1_0000

  /** The mode the device is opened in. */
  datatype Mode = ModeNone | ModeRd | ModeWr | ModeRdWr

  /** An IP address; the default-constructed one is empty. */
  datatype IpAddress = EmptyAddress | HostAddress(host: string)
  {
    predicate IsEmpty() { EmptyAddress? }
  }

  /**
   * The socket the device owns. A send socket is unbound; a bound socket
   * listens on a local port and, once it is up, delivers datagrams to the
   * read handler. `initOk` is what `initOk()` reports after construction.
   */
  datatype Socket =
    | SendSocket(initOk: bool)
    | BoundSocket(localPort: Port, bindAddr: IpAddress, initOk: bool, readHandlerConnected: bool)

  /** The part of the device that opening and closing change. */
  datatype Endpoint = Endpoint(sock: Option<Socket>, ipAddr: IpAddress, port: Port)

  /** One datagram handed to the socket: destination, size in bytes and the samples in it. */
  datatype Datagram = Datagram(dest: IpAddress, destPort: Port, byteCount: nat, samples: seq<int16>)

  /** One datagram as the socket hands it to the read handler: its samples and its size in bytes. */
  datatype Received = Received(buf: seq<int16>, count: nat)

  /** `closeDevice`: the socket is released and the address and port are reset. */
  function Close(e: Endpoint): (r: Endpoint)
    ensures r.sock == None && r.ipAddr.IsEmpty() && r.port == 0
  {
    Endpoint(None, EmptyAddress, 0)
  }

  /** The receive branch of `openDevice`, shared by MODE_RD and the fall-through from MODE_RDWR. */
  function OpenForReading(e: Endpoint, socketOk: bool): (r: (bool, Endpoint))
    ensures r.0 <==> e.port != 0 && socketOk
    ensures r.1.ipAddr == e.ipAddr && r.1.port == e.port
    ensures e.port == 0 ==> r.1.sock == e.sock
    ensures e.port != 0 ==> r.1.sock.Some? && r.1.sock.value.BoundSocket?
                            && r.1.sock.value.localPort == e.port && r.1.sock.value.bindAddr == e.ipAddr
                            && (r.1.sock.value.readHandlerConnected <==> r.0)
  {
    if e.port == 0 then (false, e)
    else (socketOk, e.(sock := Some(BoundSocket(e.port, e.ipAddr, socketOk, socketOk))))
  }

  /**
   * `openDevice`: the outcome and the new endpoint, given the fields the
   * device name splits into at ":", the parsers for the address and the port
   * (the latter yields 0 for a non-numeric port), and whether the socket that
   * gets created comes up.
   */
  function Open(e: Endpoint, fields: seq<string>, mode: Mode,
                addrOf: string -> IpAddress, portOf: string -> Port, socketOk: bool): (r: (bool, Endpoint))
    ensures |fields| != 2 ==> r == (false, e)
    ensures |fields| == 2 && e.sock.Some? ==> r.1.sock.None? && (r.0 <==> mode == ModeNone)
    ensures r.0 && mode != ModeNone ==> r.1.sock.Some? && r.1.sock.value.initOk && r.1.port != 0
    ensures r.0 && (mode == ModeWr || mode == ModeRdWr) ==> !r.1.ipAddr.IsEmpty()
    ensures |fields| == 2 && !r.0 ==> r.1.sock.None? || !r.1.sock.value.initOk
  {
    if |fields| != 2 then (false, e)
    else
      var parsed := e.(ipAddr := addrOf(fields[0]), port := portOf(fields[1]));
      // An open socket is closed only now, which also clears what was just parsed.
      var cur := if parsed.sock.Some? then Close(parsed) else parsed;
      match mode
      case ModeWr =>
        if cur.ipAddr.IsEmpty() || cur.port == 0 then (false, cur)
        else (socketOk, cur.(sock := Some(SendSocket(socketOk))))
      case ModeRdWr =>
        if cur.ipAddr.IsEmpty() then (false, cur) else OpenForReading(cur, socketOk)
      case ModeRd => OpenForReading(cur, socketOk)
      case ModeNone => (true, cur)
  }

  /** A name that does not split into exactly two fields is refused before the endpoint is touched. */
  lemma OpenRejectsMalformedName(e: Endpoint, fields: seq<string>, mode: Mode,
                                 addrOf: string -> IpAddress, portOf: string -> Port, socketOk: bool)
    requires |fields| != 2
    ensures Open(e, fields, mode, addrOf, portOf, socketOk) == (false, e)
  {
  }

  /** MODE_WR succeeds exactly with no socket open, a non-empty address, a non-zero port and a working socket. */
  lemma OpenWriteSucceedsIff(e: Endpoint, fields: seq<string>,
                             addrOf: string -> IpAddress, portOf: string -> Port, socketOk: bool)
    requires |fields| == 2
    ensures var (ok, e') := Open(e, fields, ModeWr, addrOf, portOf, socketOk);
            && (ok <==> e.sock.None? && !addrOf(fields[0]).IsEmpty() && portOf(fields[1]) != 0 && socketOk)
            && (ok ==> e' == Endpoint(Some(SendSocket(true)), addrOf(fields[0]), portOf(fields[1])))
  {
  }

  /**
   * MODE_RDWR needs a non-empty address and then what MODE_RD needs: a
   * non-zero port and a socket bound to it, wired to the read handler.
   */
  lemma OpenReadWriteSucceedsIff(e: Endpoint, fields: seq<string>,
                                 addrOf: string -> IpAddress, portOf: string -> Port, socketOk: bool)
    requires |fields| == 2
    ensures var (ok, e') := Open(e, fields, ModeRdWr, addrOf, portOf, socketOk);
            && (ok <==> e.sock.None? && !addrOf(fields[0]).IsEmpty() && portOf(fields[1]) != 0 && socketOk)
            && (ok ==> e' == Endpoint(Some(BoundSocket(portOf(fields[1]), addrOf(fields[0]), true, true)),
                                      addrOf(fields[0]), portOf(fields[1])))
  {
  }

  /** MODE_RD needs no address: only a non-zero port and a socket that binds. */
  lemma OpenReadSucceedsIff(e: Endpoint, fields: seq<string>,
                            addrOf: string -> IpAddress, portOf: string -> Port, socketOk: bool)
    requires |fields| == 2
    ensures var (ok, e') := Open(e, fields, ModeRd, addrOf, portOf, socketOk);
            && (ok <==> e.sock.None? && portOf(fields[1]) != 0 && socketOk)
            && (ok ==> e' == Endpoint(Some(BoundSocket(portOf(fields[1]), addrOf(fields[0]), true, true)),
                                      addrOf(fields[0]), portOf(fields[1])))
  {
  }

  /** MODE_NONE always succeeds on a well-formed name and leaves no socket. */
  lemma OpenNoneCreatesNoSocket(e: Endpoint, fields: seq<string>,
                                addrOf: string -> IpAddress, portOf: string -> Port, socketOk: bool)
    requires |fields| == 2
    ensures var (ok, e') := Open(e, fields, ModeNone, addrOf, portOf, socketOk);
            ok && e'.sock == None
  {
  }

  /** A port that parses to 0 (non-numeric or "0") makes every mode but MODE_NONE fail. */
  lemma OpenZeroPortFails(e: Endpoint, fields: seq<string>, mode: Mode,
                          addrOf: string -> IpAddress, portOf: string -> Port, socketOk: bool)
    requires |fields| == 2 && portOf(fields[1]) == 0 && mode != ModeNone
    ensures !Open(e, fields, mode, addrOf, portOf, socketOk).0
    ensures Open(e, fields, mode, addrOf, portOf, socketOk).1.sock.None?
  {
  }

  /**
   * Re-opening while a socket is open closes it after the name was parsed,
   * so the mode check sees an empty address and port 0: every mode but
   * MODE_NONE fails and the device is left closed.
   */
  lemma ReopenWhileOpenFails(e: Endpoint, fields: seq<string>, mode: Mode,
                             addrOf: string -> IpAddress, portOf: string -> Port, socketOk: bool)
    requires |fields| == 2 && e.sock.Some? && mode != ModeNone
    ensures Open(e, fields, mode, addrOf, portOf, socketOk) == (false, Close(e))
  {
  }

  /**
   * A failed open on a well-formed name leaves no working socket: either no
   * socket, or one whose construction failed.
   */
  lemma OpenFailureLeavesNoWorkingSocket(e: Endpoint, fields: seq<string>, mode: Mode,
                                         addrOf: string -> IpAddress, portOf: string -> Port, socketOk: bool)
    requires |fields| == 2
    ensures var (ok, e') := Open(e, fields, mode, addrOf, portOf, socketOk);
            !ok ==> e'.sock.None? || !e'.sock.value.initOk
  {
  }

  /** Closing twice is the same as closing once. */
  lemma CloseIdempotent(e: Endpoint)
    ensures Close(Close(e)) == Close(e)
  {
  }

  /** After a close, opening again behaves as on a device that was never opened. */
  lemma CloseThenOpenIsFresh(e: Endpoint, fields: seq<string>, mode: Mode,
                             addrOf: string -> IpAddress, portOf: string -> Port, socketOk: bool)
    ensures Open(Close(e), fields, mode, addrOf, portOf, socketOk)
            == Open(Endpoint(None, EmptyAddress, 0), fields, mode, addrOf, portOf, socketOk)
  {
  }

  /** The frames of a datagram of `count` bytes: whole frames only (`count / (channels * 2)`). */
  function FrameCount(count: nat, channels: nat): (frames: nat)
    requires channels > 0
    ensures frames * channels * 2 <= count < (frames + 1) * channels * 2
  {
    count / (channels * 2)
  }

  /** The samples of the whole frames of a datagram of `count` bytes; a trailing partial frame is dropped. */
  function WholeFrames(buf: seq<int16>, count: nat, channels: nat): (r: seq<int16>)
    requires channels > 0 && FrameCount(count, channels) * channels <= |buf|
    ensures r == buf[..FrameCount(count, channels) * channels]
    ensures |r| * 2 <= count < |r| * 2 + channels * 2
  {
    buf[..FrameCount(count, channels) * channels]
  }

  lemma MulLeq(a: nat, b: nat, c: nat)
    requires a <= b
    ensures a * c <= b * c
  {
  }

  lemma MulLess(a: nat, b: nat, c: nat)
    requires a < b && c > 0
    ensures a * c < b * c
  {
  }

  lemma MulSucc(a: nat, c: nat)
    ensures (a + 1) * c == a * c + c
  {
  }

  /** Taking a longer prefix of `input` appends the slice in between. */
  lemma PrefixExtend<T>(start: seq<T>, input: seq<T>, a: nat, b: nat)
    requires a <= b <= |input|
    ensures start + input[..b] == (start + input[..a]) + input[a..b]
  {
    assert input[..b] == input[..a] + input[a..b];
  }

  /** Every received datagram holds the samples of all whole frames its byte count announces. */
  predicate AllFit(rs: seq<Received>, channels: nat)
  {
    channels > 0 && forall k :: 0 <= k < |rs| ==> FrameCount(rs[k].count, channels) * channels <= |rs[k].buf|
  }

  /** The whole frames of each datagram, one piece per datagram. */
  function FramesOf(rs: seq<Received>, channels: nat): (fs: seq<seq<int16>>)
    requires AllFit(rs, channels)
    ensures |fs| == |rs|
    ensures forall k :: 0 <= k < |rs| ==> fs[k] == WholeFrames(rs[k].buf, rs[k].count, channels)
  {
    seq(|rs|, k requires 0 <= k < |rs| => WholeFrames(rs[k].buf, rs[k].count, channels))
  }

  /** A slice of a prefix is the same slice of the whole. */
  lemma SliceOfPrefix<T>(s: seq<T>, k: nat, a: nat, b: nat)
    requires a <= b <= k <= |s|
    ensures s[..k][a..b] == s[a..b]
  {
  }

  class AudioDeviceUdp {
    /** Frames per block, taken from the block size hint when the device is created. */
    const blockSize: nat
    /** Samples per frame. */
    const channels: nat
    /** The staging buffer of the read path: one block of interleaved samples. */
    const readBuf: array<int16>
    /** Frames staged in `readBuf`; carried over from one datagram to the next. */
    var readBufPos: nat
    var sock: Option<Socket>
    var ipAddr: IpAddress
    var port: Port

    ghost predicate Valid()
      reads this
    {
      blockSize > 0 && channels > 0 && readBuf.Length == blockSize * channels && readBufPos < blockSize
    }

    function State(): Endpoint
      reads this
    {
      Endpoint(sock, ipAddr, port)
    }

    /** The samples staged so far. */
    ghost function Pending(): (p: seq<int16>)
      reads this, readBuf
      requires Valid()
      ensures |p| < blockSize * channels
    {
      MulLeq(readBufPos + 1, blockSize, channels);
      readBuf[..readBufPos * channels]
    }

    /** The device starts closed, with an empty staging buffer of one block. */
    constructor (blockSizeHint: nat, channelCount: nat)
      requires blockSizeHint > 0 && channelCount > 0
      ensures Valid() && fresh(readBuf)
      ensures blockSize == blockSizeHint && channels == channelCount
      ensures readBuf.Length == blockSizeHint * channelCount
      ensures State() == Endpoint(None, EmptyAddress, 0) && Pending() == []
    {
      blockSize := blockSizeHint;
      channels := channelCount;
      readBuf := new int16[blockSizeHint * channelCount];
      readBufPos := 0;
      sock := None;
      ipAddr := EmptyAddress;
      port := 0;
    }

    /** `blocksize()`: the frames per block, which is the staging buffer's capacity in frames. */
    function Blocksize(): (r: nat)
      reads this
      requires Valid()
      ensures r > 0 && readBuf.Length == r * channels
    {
      blockSize
    }

    /** `isFullDuplexCapable()`: one socket can receive and send at once. */
    function IsFullDuplexCapable(): (r: bool)
      ensures r
    {
      true
    }

    /**
     * `samplesToWrite()`: samples still queued in the socket's send buffer.
     * `queuedBytes` is the outcome of the OS queue query (None when it fails).
     */
    function SamplesToWrite(mode: Mode, queuedBytes: Option<nat>): (n: nat)
      reads this
      requires (mode == ModeWr || mode == ModeRdWr) ==> sock.Some?
      ensures mode != ModeWr && mode != ModeRdWr ==> n == 0
      ensures queuedBytes.None? ==> n == 0
      ensures (mode == ModeWr || mode == ModeRdWr) && queuedBytes.Some? ==>
                2 * n <= queuedBytes.value < 2 * n + 2
    {
      if mode != ModeWr && mode != ModeRdWr then 0
      else if queuedBytes.None? then 0
      else queuedBytes.value / 2
    }

    method CloseDevice()
      requires Valid()
      modifies this
      ensures Valid()
      ensures State() == Close(old(State()))
      ensures readBufPos == old(readBufPos)
    {
      sock := None;
      ipAddr := EmptyAddress;
      port := 0;
    }

    method OpenDevice(fields: seq<string>, mode: Mode,
                      addrOf: string -> IpAddress, portOf: string -> Port, socketOk: bool)
        returns (ok: bool)
      requires Valid()
      modifies this
      ensures Valid()
      ensures (ok, State()) == Open(old(State()), fields, mode, addrOf, portOf, socketOk)
      ensures readBufPos == old(readBufPos)
    {
      if |fields| != 2 {
        return false;
      }
      ipAddr := addrOf(fields[0]);
      port := 0;
      port := portOf(fields[1]);
      if sock.Some? {
        CloseDevice();
      }
      if mode == ModeWr {
        if ipAddr.IsEmpty() || port == 0 {
          return false;
        }
        sock := Some(SendSocket(socketOk));
        if !socketOk {
          return false;
        }
      } else if mode == ModeRdWr || mode == ModeRd {
        if mode == ModeRdWr && ipAddr.IsEmpty() {
          return false;
        }
        // MODE_RDWR falls through to MODE_RD here.
        if port == 0 {
          return false;
        }
        sock := Some(BoundSocket(port, ipAddr, socketOk, false));
        if !socketOk {
          return false;
        }
        sock := Some(sock.value.(readHandlerConnected := true));
      }
      return true;
    }

    /** The read path's inner loop: copy the frame at `src` of `buf` into the staging buffer at the cursor. */
    method CopyFrame(buf: seq<int16>, src: nat)
      requires Valid() && src + channels <= |buf|
      modifies readBuf
      ensures Valid()
      ensures (readBufPos + 1) * channels <= readBuf.Length
      ensures readBuf[..(readBufPos + 1) * channels] == old(Pending()) + buf[src .. src + channels]
    {
      MulLeq(readBufPos + 1, blockSize, channels);
      MulSucc(readBufPos, channels);
      var base := readBufPos * channels;
      ghost var staged := Pending();
      var ch := 0;
      while ch < channels
        invariant 0 <= ch <= channels
        invariant readBuf[..base] == staged
        invariant forall j :: base <= j < base + ch ==> readBuf[j] == buf[src + (j - base)]
      {
        readBuf[base + ch] := buf[src + ch];
        ch := ch + 1;
      }
      assert readBuf[..base + channels] == staged + buf[src .. src + channels];
    }

    /**
     * One pass of the read path's outer loop: stage the frame at `src` of
     * `buf`, advance the cursor, and when the block is full emit it and
     * start over.
     */
    method StageFrame(buf: seq<int16>, src: nat) returns (emitted: seq<seq<int16>>)
      requires Valid() && src + channels <= |buf|
      modifies this`readBufPos, readBuf
      ensures Valid()
      ensures emitted == Chunks(old(Pending()) + buf[src .. src + channels], blockSize * channels)
      ensures Pending() == Rest(old(Pending()) + buf[src .. src + channels], blockSize * channels)
    {
      ghost var next := Pending() + buf[src .. src + channels];
      CopyFrame(buf, src);
      MulSucc(readBufPos, channels);
      readBufPos := readBufPos + 1;
      if readBufPos == blockSize {
        assert readBuf[..] == next && |next| == blockSize * channels;
        assert next[..blockSize * channels] == next && next[blockSize * channels..] == [];
        emitted := [readBuf[..]];
        readBufPos := 0;
      } else {
        MulLess(readBufPos, blockSize, channels);
        emitted := [];
      }
    }

    /**
     * `audioReadHandler`: a datagram of `count` bytes arrived, holding the
     * samples `buf`. Its whole frames are staged; every time a block is full
     * it is emitted and staging starts over. The sender's address is ignored.
     */
    method AudioReadHandler(ip: IpAddress, buf: seq<int16>, count: nat) returns (blocks: seq<seq<int16>>)
      requires Valid()
      requires FrameCount(count, channels) * channels <= |buf|
      modifies this`readBufPos, readBuf
      ensures Valid()
      ensures blocks == Chunks(old(Pending()) + WholeFrames(buf, count, channels), blockSize * channels)
      ensures Pending() == Rest(old(Pending()) + WholeFrames(buf, count, channels), blockSize * channels)
      ensures State() == old(State())
    {
      var frames := FrameCount(count, channels);
      ghost var total := frames * channels;
      ghost var start := Pending();
      ghost var input := WholeFrames(buf, count, channels);
      assert input == buf[..total];
      ghost var n := blockSize * channels;
      blocks := [];
      var i, src := 0, 0;
      assert input[..0] == [] && start + [] == start;
      while i < frames
        invariant 0 <= i <= frames && src == i * channels && src <= total && Valid()
        invariant blocks == Chunks(start + input[..src], n)
        invariant Pending() == Rest(start + input[..src], n)
      {
        MulLeq(i + 1, frames, channels);
        MulSucc(i, channels);
        assert src + channels <= total;
        SliceOfPrefix(buf, total, src, src + channels);
        ghost var frame := input[src .. src + channels];
        ghost var prefix := start + input[..src];
        var emitted := StageFrame(buf, src);
        FeedStep(prefix, frame, n, emitted, Pending());
        blocks := blocks + emitted;
        PrefixExtend(start, input, src, src + channels);
        i, src := i + 1, src + channels;
      }
      assert input[..src] == input;
    }

    /**
     * A run of datagrams, each handed to `audioReadHandler` in turn: the
     * blocks emitted are the blocks of all their whole frames, one datagram
     * after the other, behind what was staged before; so they do not depend
     * on where the datagram boundaries fall.
     */
    method ReceiveAll(rs: seq<Received>) returns (blocks: seq<seq<int16>>)
      requires Valid() && AllFit(rs, channels)
      modifies this`readBufPos, readBuf
      ensures Valid()
      ensures blocks == Chunks(old(Pending()) + Flatten(FramesOf(rs, channels)), blockSize * channels)
      ensures Pending() == Rest(old(Pending()) + Flatten(FramesOf(rs, channels)), blockSize * channels)
      ensures blocks == FeedAll(old(Pending()), FramesOf(rs, channels), blockSize * channels).0
      ensures State() == old(State())
    {
      ghost var start := Pending();
      ghost var fs := FramesOf(rs, channels);
      ghost var n := blockSize * channels;
      blocks := [];
      var k := 0;
      assert fs[..0] == [] && start + Flatten(fs[..0]) == start;
      while k < |rs|
        invariant 0 <= k <= |rs| && Valid() && State() == old(State())
        invariant blocks == Chunks(start + Flatten(fs[..k]), n)
        invariant Pending() == Rest(start + Flatten(fs[..k]), n)
      {
        ghost var prefix := start + Flatten(fs[..k]);
        ghost var piece := fs[k];
        assert piece == WholeFrames(rs[k].buf, rs[k].count, channels);
        var emitted := AudioReadHandler(EmptyAddress, rs[k].buf, rs[k].count);
        FeedStep(prefix, piece, n, emitted, Pending());
        blocks := blocks + emitted;
        FlattenSnoc(fs, k);
        assert start + Flatten(fs[..k + 1]) == prefix + piece;
        k := k + 1;
      }
      assert fs[..|rs|] == fs;
      FeedAllIsChunksOfConcat(start, fs, n);
    }

    /** The size in bytes of every datagram the write path sends. */
    function FragSize(): (bytes: nat)
      reads this
      requires Valid()
      ensures bytes == readBuf.Length * 2
    {
      blockSize * 2 * channels
    }

    /**
     * `audioWriteHandler`: pull blocks from the upstream source one at a time
     * (`available` are the blocks it would hand out, in order) and write each
     * as one datagram to the configured address and port. `writeOk(k)` is the
     * outcome of the k-th write. Stops when no block is left, or right after
     * the first failed write. `sent` are the writes attempted.
     */
    method AudioWriteHandler(mode: Mode, available: seq<seq<int16>>, writeOk: nat -> bool)
        returns (sent: seq<Datagram>, failed: bool)
      requires Valid() && sock.Some? && (mode == ModeWr || mode == ModeRdWr)
      requires forall k :: 0 <= k < |available| ==> |available[k]| == blockSize * channels
      ensures |sent| <= |available|
      ensures forall k :: 0 <= k < |sent| ==> sent[k] == Datagram(ipAddr, port, FragSize(), available[k])
      ensures forall k :: 0 <= k < |sent| ==> (writeOk(k) <==> !(failed && k == |sent| - 1))
      ensures failed ==> |sent| > 0
      ensures !failed ==> |sent| == |available|
    {
      var fragSize := blockSize * 2 * channels;
      sent, failed := [], false;
      var k := 0;
      while k < |available|
        invariant k <= |available| && |sent| == k
        invariant forall j :: 0 <= j < k ==> sent[j] == Datagram(ipAddr, port, fragSize, available[j]) && writeOk(j)
      {
        var block := available[k];
        sent := sent + [Datagram(ipAddr, port, fragSize, block)];
        if !writeOk(k) {
          failed := true;
          return;
        }
        k := k + 1;
      }
    }
  }
}
