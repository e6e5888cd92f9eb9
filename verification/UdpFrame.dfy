/** The bytes of the UDP command protocol: chained packet buffers copied into the receive
    buffer, the search for the ZNJJ header, the printer and the parser of a frame
    (readme.md; LWIP/lwip_app/udp_demo/udp_demo.c). */
module UdpFrame {
  type Byte = x: int | 0 <= x < 256

  const RX_BUFSIZE: nat := 2000

  /** sendrecv.length: the size of a frame, and how far the header is searched. */
  const LENGTH: nat := 15

  // ---- packet buffers -----------------------------------------------------------------

  /** A chain of packet buffers; each length fits sixteen bits. */
  datatype Chain = Nil | Pbuf(payload: seq<Byte>, next: Chain)

  predicate Sized(p: Chain) {
    p.Pbuf? ==> |p.payload| < 0x1_0000 && Sized(p.next)
  }

  function Concat(p: Chain): seq<Byte> {
    if p.Nil? then [] else p.payload + Concat(p.next)
  }

  function Zeros(n: nat): (s: seq<Byte>)
    ensures |s| == n
  {
    seq(n, _ => 0)
  }

  /** The part of a datagram that fits a buffer of the given size, padded with zeros. */
  function Padded(s: seq<Byte>, size: nat): (r: seq<Byte>)
    ensures |r| == size
  {
    if |s| >= size then s[..size] else s + Zeros(size - |s|)
  }

  /** What the receive buffer holds after a datagram. */
  function Received(s: seq<Byte>): (r: seq<Byte>)
    ensures |r| == RX_BUFSIZE == 2000
  {
    Padded(s, RX_BUFSIZE)
  }

  /** memset to zero. */
  method Clear(buf: array<Byte>)
    modifies buf
    ensures forall i | 0 <= i < buf.Length :: buf[i] == 0
  {
    forall i | 0 <= i < buf.Length {
      buf[i] := 0;
    }
  }

  /** memcpy of the first `n` bytes of a payload. */
  method Copy(buf: array<Byte>, at: nat, payload: seq<Byte>, n: nat)
    requires at + n <= buf.Length && n <= |payload|
    modifies buf
    ensures buf[..] == old(buf[..at]) + payload[..n] + old(buf[at + n..])
  {
    for i := 0 to n
      invariant buf[..at] == old(buf[..at])
      invariant buf[at..at + i] == payload[..i]
      invariant buf[at + i..] == old(buf[at + i..])
    {
      buf[at + i] := payload[i];
      assert buf[at..at + i + 1] == buf[at..at + i] + [buf[at + i]];
      assert payload[..i + 1] == payload[..i] + [payload[i]];
    }
    assert buf[..] == buf[..at] + buf[at..at + n] + buf[at + n..];
  }

  /** Copying as much of a payload as fits behind what has been copied. */
  lemma FillStep(done: seq<Byte>, payload: seq<Byte>, n: nat, buf: seq<Byte>, buf': seq<Byte>)
    requires |done| <= RX_BUFSIZE && buf == Received(done)
    requires n == (if |payload| > RX_BUFSIZE - |done| then RX_BUFSIZE - |done| else |payload|)
    requires buf' == buf[..|done|] + payload[..n] + buf[|done| + n..]
    ensures buf' == Received(done + payload)
  {
    assert buf[..|done|] == done;
    if n < |payload| {
      assert (done + payload)[..RX_BUFSIZE] == done + payload[..n];
    } else {
      assert payload[..n] == payload;
      assert buf[|done| + n..] == Zeros(RX_BUFSIZE - |done| - n);
      assert buf' == (done + payload) + Zeros(RX_BUFSIZE - |done| - n);
    }
  }

  lemma FullIsReceived(done: seq<Byte>, rest: seq<Byte>)
    requires |done| >= RX_BUFSIZE
    ensures Received(done + rest) == Received(done)
  {
  }

  /** Copy one payload, or the part of it for which there is room. */
  method CopyPayload(buf: array<Byte>, data_len: nat, payload: seq<Byte>, ghost done: seq<Byte>)
    requires buf.Length == RX_BUFSIZE && data_len == |done| <= RX_BUFSIZE && buf[..] == Received(done)
    modifies buf
    ensures buf[..] == Received(done + payload)
  {
    hide Padded, Received;
    ghost var was := buf[..];
    if |payload| > RX_BUFSIZE - data_len {
      Copy(buf, data_len, payload, RX_BUFSIZE - data_len);
      FillStep(done, payload, RX_BUFSIZE - data_len, was, buf[..]);
    } else {
      Copy(buf, data_len, payload, |payload|);
      FillStep(done, payload, |payload|, was, buf[..]);
    }
  }

  lemma ConcatStep(done: seq<Byte>, q: Chain)
    requires q.Pbuf?
    ensures (done + q.payload) + Concat(q.next) == done + Concat(q)
  {
  }

  lemma NothingReceived(buf: seq<Byte>)
    requires |buf| == RX_BUFSIZE && forall i | 0 <= i < |buf| :: buf[i] == 0
    ensures buf == Received([])
  {
  }

  lemma NothingLeft(q: Chain)
    requires q.Nil?
    ensures Concat(q) == []
  {
  }

  /** Copy a chain into the buffer: whatever the fragmentation, the buffer ends as the
      start of the concatenated payloads padded with zeros. The count never passes the
      size when an iteration begins, so the space left is never negative. */
  method CopyChain(buf: array<Byte>, p: Chain)
    requires buf.Length == RX_BUFSIZE && Sized(p)
    modifies buf
    ensures buf[..] == Received(Concat(p))
  {
    hide Padded, Received, Concat;
    Clear(buf);
    NothingReceived(buf[..]);
    var data_len: nat := 0;
    var q := p;
    ghost var done: seq<Byte> := [];
    while q.Pbuf?
      invariant Sized(q) && data_len == |done| <= RX_BUFSIZE
      invariant done + Concat(q) == Concat(p)
      invariant buf[..] == Received(done)
      decreases q
    {
      CopyPayload(buf, data_len, q.payload, done);
      ConcatStep(done, q);
      done := done + q.payload;
      data_len := data_len + |q.payload|;
      q := q.next;
      if data_len > RX_BUFSIZE {
        FullIsReceived(done, Concat(q));
        return;
      }
    }
    NothingLeft(q);
    assert done + Concat(q) == done;
  }

  // ---- the header ---------------------------------------------------------------------------

  const Z: Byte := 0x5A
  const N: Byte := 0x4E
  const J: Byte := 0x4A

  predicate HeaderAt(s: seq<Byte>, k: nat) {
    k + 4 <= |s| && s[k] == Z && s[k + 1] == N && s[k + 2] == J && s[k + 3] == J
  }

  /** The first header among the first fifteen positions. */
  predicate FirstHeader(s: seq<Byte>, k: nat) {
    k < LENGTH && HeaderAt(s, k) && forall j: nat | j < k :: !HeaderAt(s, j)
  }

  /** judge: the position after the first header, or zero. */
  method Judge(buf: array<Byte>) returns (r: nat)
    requires buf.Length == RX_BUFSIZE
    ensures r == 0 <==> forall k: nat | k < LENGTH :: !HeaderAt(buf[..], k)
    ensures r != 0 ==> r >= 4 && FirstHeader(buf[..], r - 4)
  {
    var position := 0;
    while position < LENGTH
      invariant position <= LENGTH
      invariant forall k: nat | k < position :: !HeaderAt(buf[..], k)
    {
      if buf[position] == Z {
        if buf[position + 1] == N {
          if buf[position + 2] == J {
            if buf[position + 3] == J {
              assert HeaderAt(buf[..], position);
              break;
            }
          }
        }
      }
      position := position + 1;
    }
    if position >= LENGTH {
      return 0;
    } else {
      return position + 4;
    }
  }

  lemma FirstHeaderUnique(s: seq<Byte>, j: nat, k: nat)
    requires FirstHeader(s, j) && FirstHeader(s, k)
    ensures j == k
  {
  }

  // ---- the frame --------------------------------------------------------------------------------

  /** The fields of a command. */
  datatype Command = Command(led0: Byte, led1: Byte, led2: Byte, elengine0: Byte, elengine1: Byte,
                             humi0: Byte, humi1: Byte)

  const OFFSET: int := 0x30

  function Wrapped(x: int): Byte {
    x % 256
  }

  /** Header and command. */
  function Head(c: Command): seq<Byte> {
    [Z, N, J, J, c.led0, c.led1, c.led2, c.elengine0, c.elengine1,
     Wrapped(c.humi0 + OFFSET), Wrapped(c.humi1 + OFFSET)]
  }

  /** The fifteen bytes of a frame. */
  function Frame(c: Command, data: seq<Byte>): (s: seq<Byte>)
    requires |data| == 4
    ensures |s| == LENGTH
  {
    Head(c) + data
  }

  /** The command whose first byte is at `k`. */
  function Parsed(s: seq<Byte>, k: nat): Command
    requires k + 7 <= |s|
  {
    Command(s[k], s[k + 1], s[k + 2], s[k + 3], s[k + 4], Wrapped(s[k + 5] - OFFSET), Wrapped(s[k + 6] - OFFSET))
  }

  lemma FirstHeaderWithin(s: seq<Byte>, k: nat)
    requires FirstHeader(s, k)
    ensures k < LENGTH
  {
  }

  /** The command after a datagram: parsed behind the first header, or the old one. */
  ghost function Understood(was: Command, s: seq<Byte>): Command
    requires |s| == RX_BUFSIZE
  {
    if exists k: nat :: FirstHeader(s, k) then
      var k: nat :| FirstHeader(s, k);
      FirstHeaderWithin(s, k);
      Parsed(s, k + 4)
    else was
  }

  lemma UnderstoodAt(was: Command, s: seq<Byte>, k: nat)
    requires |s| == RX_BUFSIZE && FirstHeader(s, k)
    ensures Understood(was, s) == Parsed(s, k + 4)
  {
    var j: nat :| FirstHeader(s, j) && Understood(was, s) == Parsed(s, j + 4);
    FirstHeaderUnique(s, j, k);
  }

  lemma NotUnderstood(was: Command, s: seq<Byte>)
    requires |s| == RX_BUFSIZE && forall k: nat | k < LENGTH :: !HeaderAt(s, k)
    ensures Understood(was, s) == was
  {
  }

  /** The header has no border: two occurrences cannot overlap. */
  lemma NoOverlap(s: seq<Byte>, j: nat, k: nat)
    requires HeaderAt(s, j) && HeaderAt(s, k)
    ensures j == k || j + 4 <= k || k + 4 <= j
  {
  }

  /** A frame behind a prefix is found where it starts exactly when the prefix is short
      enough and holds no header of its own. */
  lemma FrameFound(prefix: seq<Byte>, c: Command, data: seq<Byte>, suffix: seq<Byte>)
    requires |data| == 4
    ensures FirstHeader(prefix + Frame(c, data) + suffix, |prefix|) <==>
            |prefix| < LENGTH && forall j: nat :: !HeaderAt(prefix, j)
  {
    var s := prefix + Frame(c, data) + suffix;
    var k := |prefix|;
    assert HeaderAt(s, k);
    forall j: nat
      ensures HeaderAt(prefix, j) <==> j < k && HeaderAt(s, j)
    {
      if j < k && HeaderAt(s, j) {
        NoOverlap(s, j, k);
      }
    }
  }

  lemma WrapBack(x: Byte)
    ensures Wrapped(Wrapped(x + OFFSET) - OFFSET) == x
  {
  }

  lemma WrapForth(x: Byte)
    ensures Wrapped(Wrapped(x - OFFSET) + OFFSET) == x
  {
  }

  lemma ParsedFrame(prefix: seq<Byte>, c: Command, data: seq<Byte>, suffix: seq<Byte>)
    requires |data| == 4
    ensures Parsed(prefix + Frame(c, data) + suffix, |prefix| + 4) == c
  {
    var s := prefix + Frame(c, data) + suffix;
    assert forall i | 0 <= i < LENGTH :: s[|prefix| + i] == Frame(c, data)[i];
    WrapBack(c.humi0);
    WrapBack(c.humi1);
  }

  /** A buffer with the header, the fields of a command and the data holds its frame. */
  lemma FrameFrom(s: seq<Byte>, c: Command, data: seq<Byte>)
    requires |s| >= LENGTH && |data| == 4
    requires s[..4] == [Z, N, J, J] && Parsed(s, 4) == c && s[11..LENGTH] == data
    ensures s[..LENGTH] == Frame(c, data)
  {
    hide Wrapped;
    WrapForth(s[9]);
    WrapForth(s[10]);
    assert s[..4] == [s[0], s[1], s[2], s[3]];
    assert s[..LENGTH] == s[..4] + s[4..11] + s[11..LENGTH];
  }

  /** The whole frame is within the receive buffer. */
  lemma FramePadded(prefix: seq<Byte>, c: Command, data: seq<Byte>, suffix: seq<Byte>)
    requires |data| == 4 && |prefix| < LENGTH
    ensures exists rest :: Received(prefix + Frame(c, data) + suffix) == prefix + Frame(c, data) + rest
  {
    var head := prefix + Frame(c, data);
    var r := Received(head + suffix);
    assert r[..|head|] == head;
    assert r == prefix + Frame(c, data) + r[|head|..];
  }

  /** The parser undoes the printer, for every value of every byte and behind every short
      prefix without a header: the start of the wire data is understood as the command. */
  lemma ParserUndoesPrinter(was: Command, prefix: seq<Byte>, c: Command, data: seq<Byte>, suffix: seq<Byte>)
    requires |data| == 4 && |prefix| < LENGTH && forall j: nat :: !HeaderAt(prefix, j)
    ensures Understood(was, Received(prefix + Frame(c, data) + suffix)) == c
  {
    var s := prefix + Frame(c, data) + suffix;
    FramePadded(prefix, c, data, suffix);
    var rest :| Received(s) == prefix + Frame(c, data) + rest;
    FrameFound(prefix, c, data, rest);
    ParsedFrame(prefix, c, data, rest);
    UnderstoodAt(was, Received(s), |prefix|);
  }

  /** One frame, byte by byte: "ZNJJ", three LEDs, two bytes for the motors, two sensor digits
      as characters, and four bytes of data. */
  lemma FrameExample(was: Command)
    ensures var s := [0x5A, 0x4E, 0x4A, 0x4A, 1, 2, 3, 4, 5, 0x36, 0x2F, 8, 9, 10, 11];
            Frame(Command(1, 2, 3, 4, 5, 6, 255), [8, 9, 10, 11]) == s &&
            Understood(was, Received(s)) == Command(1, 2, 3, 4, 5, 6, 255)
  {
    var c, data: seq<Byte> := Command(1, 2, 3, 4, 5, 6, 255), [8, 9, 10, 11];
    var s: seq<Byte> := [0x5A, 0x4E, 0x4A, 0x4A, 1, 2, 3, 4, 5, 0x36, 0x2F, 8, 9, 10, 11];
    assert Frame(c, data) == s;
    assert [] + Frame(c, data) + [] == s;
    ParserUndoesPrinter(was, [], c, data, []);
  }

  /** A frame behind fifteen or more bytes without a header is not seen. */
  lemma FrameTooLate(was: Command, s: seq<Byte>)
    requires forall j: nat | j < LENGTH :: !HeaderAt(s, j)
    ensures Understood(was, Received(s)) == was
  {
    forall j: nat | j < LENGTH
      ensures !HeaderAt(Received(s), j)
    {
      if HeaderAt(Received(s), j) {
        assert Received(s)[j + 3] == J;
        assert j + 3 < |s|;
        assert HeaderAt(s, j);
      }
    }
    NotUnderstood(was, Received(s));
  }
}
