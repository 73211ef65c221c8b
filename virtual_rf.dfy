// The virtual RF network of the test suite (tests/virtual_rf/virtual_rf.py):
// a set of serial ports where every frame written to one port is cast to
// all ports, as the radio would carry it, after the gateway on each side
// has had its say.  A gateway rewrites or drops a frame before sending it
// and prefixes an RSSI when receiving one.  Frames are bytes; what goes
// over the ports is recorded as a traffic record, of which the network's
// own log keeps the most recent entries.

module VirtualRf {
  import opened Outcomes
  import opened PyValues

  newtype byte = x: int | 0 <= x < 256

  type Bytes = seq<byte>

  type PortName = string

  // ---------------------------------------------------------------------
  // Text and bytes

  predicate IsAscii(s: string)
  {
    forall i :: 0 <= i < |s| ==> s[i] < 128 as char
  }

  /** The ASCII bytes of a text. */
  function Ascii(s: string): (b: Bytes)
    requires IsAscii(s)
    ensures |b| == |s|
    ensures forall i :: 0 <= i < |s| ==> b[i] as int == s[i] as int
  {
    if s == [] then [] else [s[0] as int as byte] + Ascii(s[1..])
  }

  /** The text of bytes read one character per byte. */
  function Text(b: Bytes): (s: string)
    ensures |s| == |b|
    ensures forall i :: 0 <= i < |b| ==> s[i] as int == b[i] as int
  {
    if b == [] then "" else [b[0] as int as char] + Text(b[1..])
  }

  /** `bytes(s, "ascii")`: a character outside ASCII raises
    * UnicodeEncodeError; otherwise the bytes spell the text. */
  function Encode(s: string): (r: Result<Bytes>)
    ensures r.Err? <==> !IsAscii(s)
    ensures r.Err? ==> r.error == UnicodeEncodeError
  {
    if IsAscii(s) then Ok(Ascii(s)) else Err(UnicodeEncodeError)
  }

  /** Reading encoded text back gives the text. */
  lemma EncodeRoundTrip(s: string)
    requires IsAscii(s)
    ensures Encode(s).Ok? && Text(Encode(s).value) == s
  {
    var t := Text(Ascii(s));
    assert forall i :: 0 <= i < |s| ==> t[i] as int == s[i] as int;
  }

  /** `b"\r\n"`, which ends every frame. */
  const Crlf: Bytes := [13, 10]

  /** `b"!"`: a frame starting with it is a trace flag for the firmware. */
  const Bang: byte := 33

  /** `DEFAULT_GWY_ID`, "18:000730": the address a gateway's own frames
    * carry as addr0 until the firmware puts in its real id. */
  const SentinelId: Bytes := [49, 56, 58, 48, 48, 48, 55, 51, 48]

  /** "000 ", the RSSI a receiving gateway prefixes. */
  const RssiPrefix: Bytes := [48, 48, 48, 32]

  /** "!V", the evofw3 version query, and its answer. */
  const VersionQuery: Bytes := [33, 86]
  const VersionBanner: Bytes := [35, 32, 101, 118, 111, 102, 119, 51, 32, 48, 46, 55, 46, 49, 13, 10]

  const MaxNumPorts := 6
  const DefaultLogSize := 100

  // ---------------------------------------------------------------------
  // Gateways

  /** The two gateway firmwares. */
  datatype FwType = Evofw3 | Hgi80

  /** A gateway attached to a port: its id, firmware and id bytes. */
  datatype Gateway = Gateway(deviceId: string, fw: FwType, idBytes: Bytes)

  /** `_gateways`: the gateway attached to each port. */
  type GatewayTable = map<PortName, Gateway>

  /** `_gateways.get(port)` */
  function GatewayAt(t: GatewayTable, port: PortName): (r: Option<Gateway>)
    ensures r.Some? <==> port in t
    ensures r.Some? ==> r.value == t[port]
  {
    if port in t then Some(t[port]) else None
  }

  /** No device id is attached to two ports. */
  predicate IdsUnique(t: GatewayTable)
  {
    forall p, q :: p in t && q in t && p != q ==> t[p].deviceId != t[q].deviceId
  }

  /** The port a device id is attached to, where ids are not shared. */
  ghost function PortOf(t: GatewayTable, deviceId: string): (p: PortName)
    requires exists p :: p in t && t[p].deviceId == deviceId
    ensures p in t && t[p].deviceId == deviceId
  {
    var p :| p in t && t[p].deviceId == deviceId; p
  }

  /** The `gateways` property: device id to port.  (Built from the table in
    * its order, a later port would win a shared id; ids are not shared in
    * any table the network reaches.) */
  ghost function GatewaysById(t: GatewayTable): (r: map<string, PortName>)
    requires IdsUnique(t)
  {
    map id | id in (set p | p in t :: t[p].deviceId) :: PortOf(t, id)
  }

  /** The property maps exactly the attached ids, each back to its port. */
  lemma GatewaysByIdInverse(t: GatewayTable, port: PortName, deviceId: string)
    requires IdsUnique(t)
    ensures deviceId in GatewaysById(t) <==> exists p :: p in t && t[p].deviceId == deviceId
    ensures port in t ==> t[port].deviceId in GatewaysById(t) && GatewaysById(t)[t[port].deviceId] == port
  {
    if port in t {
      assert t[port].deviceId in (set p | p in t :: t[p].deviceId);
    }
  }

  /** The duplicate check of `set_gateway` as written: it walks the
    * id-to-port property comparing each id with the port name and each
    * port with the device id. */
  ghost predicate DuplicateAsWritten(t: GatewayTable, port: PortName, deviceId: string)
    requires IdsUnique(t)
  {
    var ids := GatewaysById(t);
    exists k :: k in ids && k != port && ids[k] == deviceId
  }

  /** The check as intended: the id is already attached to another port. */
  predicate OnAnotherPort(t: GatewayTable, port: PortName, deviceId: string)
  {
    exists p :: p in t && p != port && t[p].deviceId == deviceId
  }

  /** The intended check read through the property: the id is known and
    * its port is another one. */
  lemma OnAnotherPortById(t: GatewayTable, port: PortName, deviceId: string)
    requires IdsUnique(t)
    ensures OnAnotherPort(t, port, deviceId) <==> deviceId in GatewaysById(t) && GatewaysById(t)[deviceId] != port
  {
    GatewaysByIdInverse(t, port, deviceId);
    if deviceId in GatewaysById(t) {
      GatewaysByIdInverse(t, GatewaysById(t)[deviceId], deviceId);
    }
  }

  /** The check as written can only fire when the new device id is itself
    * the name of a port that holds a gateway. */
  lemma DuplicateAsWrittenNeedsIdAsPortName(t: GatewayTable, port: PortName, deviceId: string)
    requires IdsUnique(t)
    requires DuplicateAsWritten(t, port, deviceId)
    ensures deviceId in t
  {
  }

  /** What the check as written lets through: whenever the id is not
    * itself a port name (as "18:000001" is not "/dev/pts/1"), a second port
    * takes an id already attached to a first, leaving it on two ports. */
  lemma DuplicateAsWrittenMissesDuplicate(g: Gateway, first: PortName, second: PortName)
    requires first != second && g.deviceId != first
    ensures var t := map[first := g];
      IdsUnique(t) &&
      !DuplicateAsWritten(t, second, g.deviceId) &&
      OnAnotherPort(t, second, g.deviceId) &&
      !IdsUnique(t[second := g])
  {
    var t := map[first := g];
    if DuplicateAsWritten(t, second, g.deviceId) {
      DuplicateAsWrittenNeedsIdAsPortName(t, second, g.deviceId);
    }
    var t2 := t[second := g];
    assert first in t2 && second in t2 && t2[first].deviceId == t2[second].deviceId;
  }

  /** The intended check keeps every id on one port. */
  lemma PutKeepsIdsUnique(t: GatewayTable, port: PortName, g: Gateway)
    requires IdsUnique(t)
    requires !OnAnotherPort(t, port, g.deviceId)
    ensures IdsUnique(t[port := g])
  {
  }

  // ---------------------------------------------------------------------
  // What the gateways do to a frame

  /** `frame[:1] == b"!"` */
  predicate IsTrace(frame: Bytes)
  {
    Slice(frame, 0, 1) == [Bang]
  }

  predicate IsEvofw3(gw: Option<Gateway>)
  {
    gw.Some? && gw.value.fw == Evofw3
  }

  /** `_proc_after_rx`: a receiving gateway prefixes an RSSI to an ordinary
    * frame; a trace frame is not received, except the version query at an
    * evofw3 gateway, which answers with its banner. */
  function AfterRx(gw: Option<Gateway>, frame: Bytes): (r: Option<Bytes>)
    ensures !IsTrace(frame) ==> r == Some(RssiPrefix + frame)
    ensures IsTrace(frame) ==> (r.Some? <==> IsEvofw3(gw) && frame == VersionQuery)
    ensures IsTrace(frame) && r.Some? ==> r.value == VersionBanner
  {
    if !IsTrace(frame) then Some(RssiPrefix + frame)
    else if !IsEvofw3(gw) then None
    else if frame == VersionQuery then Some(VersionBanner)
    else None
  }

  /** Whether `_proc_before_tx` echoes a trace frame back to its own port. */
  predicate Echoes(gw: Option<Gateway>, frame: Bytes)
  {
    IsTrace(frame) && IsEvofw3(gw)
  }

  /** `_proc_before_tx`: what a sending gateway puts on the air.  A trace
    * frame is kept off unless the gateway is an evofw3; without a gateway
    * the frame is unchanged; a HGI80 drops any frame whose addr0 (bytes 7
    * to 16) is not the sentinel; a sentinel addr0 becomes the gateway's
    * own id, and nothing else is touched. */
  function BeforeTx(gw: Option<Gateway>, frame: Bytes): (r: Option<Bytes>)
    ensures IsTrace(frame) && !IsEvofw3(gw) ==> r.None?
    ensures gw.None? && !IsTrace(frame) ==> r == Some(frame)
    ensures gw.Some? && gw.value.fw == Hgi80 && Slice(frame, 7, 16) != SentinelId ==> r.None?
    ensures gw.Some? && Slice(frame, 7, 16) == SentinelId && !(IsTrace(frame) && !IsEvofw3(gw)) ==>
      |frame| >= 16 && r == Some(frame[..7] + gw.value.idBytes + frame[16..])
    ensures IsEvofw3(gw) && Slice(frame, 7, 16) != SentinelId ==> r == Some(frame)
  {
    if IsTrace(frame) && !IsEvofw3(gw) then None
    else if gw.None? then Some(frame)
    else if gw.value.fw == Hgi80 && Slice(frame, 7, 16) != SentinelId then None
    else if Slice(frame, 7, 16) == SentinelId then
      assert |frame| >= 16;
      Some(frame[..7] + gw.value.idBytes + frame[16..])
    else Some(frame)
  }

  /** Whatever a HGI80 puts on the air carries its own id as addr0. */
  lemma Hgi80SendsAsItself(g: Gateway, frame: Bytes)
    requires g.fw == Hgi80 && |g.idBytes| == 9
    requires BeforeTx(Some(g), frame).Some?
    ensures var r := BeforeTx(Some(g), frame).value;
      |r| == |frame| && r[7..16] == g.idBytes && r[..7] == frame[..7] && r[16..] == frame[16..]
  {
    var r := BeforeTx(Some(g), frame).value;
    assert r == frame[..7] + g.idBytes + frame[16..];
    assert r[7..16] == g.idBytes;
  }

  /** An evofw3 gateway sends every ordinary frame: as its own when addr0
    * is the sentinel, unchanged (impersonating) otherwise. */
  lemma Evofw3SendsAll(g: Gateway, frame: Bytes)
    requires g.fw == Evofw3
    ensures BeforeTx(Some(g), frame).Some?
    ensures Slice(frame, 7, 16) != SentinelId ==> BeforeTx(Some(g), frame) == Some(frame)
  {
  }

  // ---------------------------------------------------------------------
  // Framing

  predicate CrlfAt(data: Bytes, i: int)
  {
    0 <= i && i + 1 < |data| && data[i] == 13 && data[i + 1] == 10
  }

  predicate HasCrlf(data: Bytes)
  {
    exists i :: 0 <= i < |data| && CrlfAt(data, i)
  }

  /** `data.split(b"\r\n")`: the pieces between separators, found left to
    * right without overlap. */
  function Split(data: Bytes): (r: seq<Bytes>)
    ensures |r| >= 1
    decreases |data|
  {
    if |data| < 2 then [data]
    else if data[..2] == Crlf then [[]] + Split(data[2..])
    else
      var rest := Split(data[1..]);
      [[data[0]] + rest[0]] + rest[1..]
  }

  /** `b"\r\n".join(pieces)` */
  function Join(pieces: seq<Bytes>): (r: Bytes)
    requires |pieces| >= 1
  {
    if |pieces| == 1 then pieces[0] else pieces[0] + Crlf + Join(pieces[1..])
  }

  /** Splitting loses nothing: joining the pieces gives the data back. */
  lemma {:induction false} JoinSplit(data: Bytes)
    ensures Join(Split(data)) == data
    decreases |data|
  {
    if |data| >= 2 {
      if data[..2] == Crlf {
        JoinSplit(data[2..]);
        var none: Bytes := [];
        assert ([none] + Split(data[2..]))[1..] == Split(data[2..]);
        assert data == Crlf + data[2..];
      } else {
        JoinSplit(data[1..]);
        JoinPrepend(data[0], Split(data[1..]));
        assert data == [data[0]] + data[1..];
      }
    }
  }

  /** A byte put before the first piece comes first in the join. */
  lemma {:induction false} JoinPrepend(b: byte, pieces: seq<Bytes>)
    requires |pieces| >= 1
    ensures Join([[b] + pieces[0]] + pieces[1..]) == [b] + Join(pieces)
  {
    var r := [[b] + pieces[0]] + pieces[1..];
    if |pieces| > 1 {
      assert r[1..] == pieces[1..];
      calc {
        Join(r);
        r[0] + Crlf + Join(r[1..]);
        ([b] + pieces[0]) + Crlf + Join(pieces[1..]);
        [b] + (pieces[0] + Crlf + Join(pieces[1..]));
        [b] + Join(pieces);
      }
    }
  }

  /** The first piece of a split is a prefix of the data. */
  lemma {:induction false} SplitFirstIsPrefix(data: Bytes)
    ensures Split(data)[0] <= data
    decreases |data|
  {
    if |data| >= 2 && data[..2] != Crlf {
      SplitFirstIsPrefix(data[1..]);
      assert data == [data[0]] + data[1..];
    }
  }

  /** A byte put in front of separator-free bytes adds a separator only by
    * being the `\r` of one. */
  lemma ConsClean(x: byte, p: Bytes)
    requires !HasCrlf(p)
    requires !(x == 13 && |p| > 0 && p[0] == 10)
    ensures !HasCrlf([x] + p)
  {
    var q := [x] + p;
    forall i | 0 <= i < |q| ensures !CrlfAt(q, i) {
      if i > 0 && CrlfAt(q, i) {
        assert q[i] == p[i - 1] && q[i + 1] == p[i];
        assert CrlfAt(p, i - 1);
      }
    }
  }

  /** No piece of a split holds a separator. */
  lemma {:induction false} SplitPiecesClean(data: Bytes, k: nat)
    requires k < |Split(data)|
    ensures !HasCrlf(Split(data)[k])
    decreases |data|
  {
    if |data| < 2 {
      assert !CrlfAt(data, 0);
    } else if data[..2] == Crlf {
      if k > 0 {
        SplitPiecesClean(data[2..], k - 1);
      }
    } else {
      var rest := Split(data[1..]);
      SplitPiecesClean(data[1..], if k == 0 then 0 else k);
      if k == 0 {
        SplitFirstIsPrefix(data[1..]);
        if |rest[0]| > 0 {
          assert rest[0][0] == data[1];
        }
        ConsClean(data[0], rest[0]);
      } else {
        assert Split(data)[k] == rest[k];
      }
    }
  }

  /** `(d + b"\r\n" for d in pieces if d)` */
  function Terminate(pieces: seq<Bytes>): (r: seq<Bytes>)
    ensures |r| <= |pieces|
  {
    if pieces == [] then []
    else (if pieces[0] == [] then [] else [pieces[0] + Crlf]) + Terminate(pieces[1..])
  }

  /** Every frame is a non-empty piece with `\r\n` after it. */
  lemma {:induction false} TerminateFrames(pieces: seq<Bytes>, k: nat)
    requires k < |Terminate(pieces)|
    ensures |Terminate(pieces)[k]| >= 3 && Terminate(pieces)[k][|Terminate(pieces)[k]| - 2..] == Crlf
    decreases |pieces|
  {
    var head := if pieces[0] == [] then [] else [pieces[0] + Crlf];
    if k < |head| {
      assert Terminate(pieces)[k] == pieces[0] + Crlf;
    } else {
      TerminateFrames(pieces[1..], k - |head|);
      assert Terminate(pieces)[k] == Terminate(pieces[1..])[k - |head|];
    }
  }

  /** Each piece that is kept becomes a frame ending in `\r\n`. */
  lemma TerminateAllFrames(pieces: seq<Bytes>)
    ensures forall k :: 0 <= k < |Terminate(pieces)| ==>
      |Terminate(pieces)[k]| >= 3 && Terminate(pieces)[k][|Terminate(pieces)[k]| - 2..] == Crlf
  {
    forall k | 0 <= k < |Terminate(pieces)|
      ensures |Terminate(pieces)[k]| >= 3 && Terminate(pieces)[k][|Terminate(pieces)[k]| - 2..] == Crlf
    {
      TerminateFrames(pieces, k);
    }
  }

  /** The frames a read of `data` is cut into: each is a non-empty body
    * followed by `\r\n`. */
  function Frames(data: Bytes): (r: seq<Bytes>)
    ensures forall k :: 0 <= k < |r| ==> |r[k]| >= 3 && r[k][|r[k]| - 2..] == Crlf
  {
    TerminateAllFrames(Split(data));
    Terminate(Split(data))
  }

  /** Whole frames: a non-empty body without a separator, then `\r\n`. */
  predicate IsBody(b: Bytes)
  {
    b != [] && !HasCrlf(b)
  }

  function Concat(frames: seq<Bytes>): Bytes
  {
    if frames == [] then [] else frames[0] + Concat(frames[1..])
  }

  function Terminated(bodies: seq<Bytes>): (r: seq<Bytes>)
    ensures |r| == |bodies|
    ensures forall k :: 0 <= k < |bodies| ==> r[k] == bodies[k] + Crlf
  {
    if bodies == [] then [] else [bodies[0] + Crlf] + Terminated(bodies[1..])
  }

  /** Dropping the first byte adds no separator. */
  lemma TailClean(b: Bytes)
    requires b != [] && !HasCrlf(b)
    ensures !HasCrlf(b[1..])
  {
    var t := b[1..];
    forall i | 0 <= i < |t| ensures !CrlfAt(t, i) {
      if CrlfAt(t, i) {
        assert t[i] == b[i + 1] && t[i + 1] == b[i + 2];
        assert CrlfAt(b, i + 1);
      }
    }
  }

  /** A body followed by a separator splits off as one piece. */
  lemma {:induction false} SplitAfterBody(b: Bytes, rest: Bytes)
    requires !HasCrlf(b)
    ensures Split(b + Crlf + rest) == [b] + Split(rest)
    decreases |b|
  {
    var data := b + Crlf + rest;
    if b == [] {
      assert data[..2] == Crlf && data[2..] == rest;
    } else {
      assert data[..2] != Crlf by {
        if |b| >= 2 {
          assert data[..2] == b[..2];
          assert !CrlfAt(b, 0);
        } else {
          assert data[1] == 13;
        }
      }
      TailClean(b);
      SplitAfterBody(b[1..], rest);
      assert data[1..] == b[1..] + Crlf + rest;
      assert [data[0]] + b[1..] == b;
    }
  }

  /** Data made of whole frames is cut back into exactly those frames. */
  lemma {:induction false} FramesOfWholeFrames(bodies: seq<Bytes>)
    requires forall k :: 0 <= k < |bodies| ==> IsBody(bodies[k])
    ensures Frames(Concat(Terminated(bodies))) == Terminated(bodies)
    decreases |bodies|
  {
    if bodies == [] {
      assert Split([]) == [[]];
    } else {
      var b := bodies[0];
      var rest := Concat(Terminated(bodies[1..]));
      assert Terminated(bodies)[1..] == Terminated(bodies[1..]);
      assert Concat(Terminated(bodies)) == b + Crlf + rest;
      SplitAfterBody(b, rest);
      FramesOfWholeFrames(bodies[1..]);
      assert ([b] + Split(rest))[1..] == Split(rest);
    }
  }

  /** A frame cut from a read is never the bare version query, so the
    * evofw3 banner is never produced by data read from a port. */
  lemma ReadFrameIsNotVersionQuery(data: Bytes, k: nat)
    requires k < |Frames(data)|
    ensures Frames(data)[k] != VersionQuery
    ensures IsTrace(Frames(data)[k]) ==> forall gw :: AfterRx(gw, Frames(data)[k]).None?
  {
    TerminateFrames(Split(data), k);
  }

  // ---------------------------------------------------------------------
  // Replies and the log

  /** `_replies`: command pattern to reply frame, in insertion order. */
  type ReplyTable = seq<(string, Bytes)>

  /** `_find_reply_for_cmd`: the reply of the first pattern, in insertion
    * order, that matches the frame.  `matches` stands for `re.match` on the
    * decoded frame. */
  function FindReply(replies: ReplyTable, matches: (string, Bytes) -> bool, frame: Bytes): (r: Option<Bytes>)
    ensures r.None? <==> forall i :: 0 <= i < |replies| ==> !matches(replies[i].0, frame)
  {
    if replies == [] then None
    else if matches(replies[0].0, frame) then Some(replies[0].1)
    else
      assert forall i :: 1 <= i < |replies| ==> replies[1..][i - 1] == replies[i];
      FindReply(replies[1..], matches, frame)
  }

  /** Pattern `i` is the first to match the frame. */
  predicate FirstMatch(replies: ReplyTable, matches: (string, Bytes) -> bool, frame: Bytes, i: int)
  {
    0 <= i < |replies| && matches(replies[i].0, frame) &&
    forall j :: 0 <= j < i ==> !matches(replies[j].0, frame)
  }

  /** The reply found is that of the first matching pattern. */
  lemma {:induction false} FindReplyFirst(replies: ReplyTable, matches: (string, Bytes) -> bool, frame: Bytes, i: nat)
    requires FirstMatch(replies, matches, frame, i)
    ensures FindReply(replies, matches, frame) == Some(replies[i].1)
    decreases i
  {
    if i > 0 {
      assert FirstMatch(replies[1..], matches, frame, i - 1) by {
        assert forall j :: 0 <= j < i - 1 ==> replies[1..][j] == replies[j + 1];
      }
      FindReplyFirst(replies[1..], matches, frame, i - 1);
    }
  }

  predicate HasPattern(replies: ReplyTable, cmd: string)
  {
    exists i :: 0 <= i < |replies| && replies[i].0 == cmd
  }

  /** `_replies[cmd] = reply`: an existing pattern keeps its place, a new
    * one goes last. */
  function PutReply(replies: ReplyTable, cmd: string, reply: Bytes): (r: ReplyTable)
    ensures |r| == if HasPattern(replies, cmd) then |replies| else |replies| + 1
    ensures forall i :: 0 <= i < |replies| ==> r[i] == if replies[i].0 == cmd then (cmd, reply) else replies[i]
    ensures |r| == |replies| + 1 ==> r[|replies|] == (cmd, reply)
  {
    if HasPattern(replies, cmd) then
      seq(|replies|, i requires 0 <= i < |replies| => if replies[i].0 == cmd then (cmd, reply) else replies[i])
    else replies + [(cmd, reply)]
  }

  /** A reply found is that of some matching pattern. */
  lemma {:induction false} FindReplyMatches(replies: ReplyTable, matches: (string, Bytes) -> bool, frame: Bytes)
    requires FindReply(replies, matches, frame).Some?
    ensures exists i :: (0 <= i < |replies| && matches(replies[i].0, frame) &&
      FindReply(replies, matches, frame).value == replies[i].1)
    decreases |replies|
  {
    if !matches(replies[0].0, frame) {
      FindReplyMatches(replies[1..], matches, frame);
      var i :| 0 <= i < |replies[1..]| && matches(replies[1..][i].0, frame) &&
        FindReply(replies[1..], matches, frame).value == replies[1..][i].1;
      assert replies[1..][i] == replies[i + 1];
    }
  }

  /** A reply added for a pattern is the one found for a frame that no
    * other pattern matches. */
  lemma PutReplyFound(replies: ReplyTable, cmd: string, reply: Bytes, matches: (string, Bytes) -> bool, frame: Bytes)
    requires matches(cmd, frame)
    requires forall i :: 0 <= i < |replies| && replies[i].0 != cmd ==> !matches(replies[i].0, frame)
    ensures FindReply(PutReply(replies, cmd, reply), matches, frame) == Some(reply)
  {
    var r := PutReply(replies, cmd, reply);
    var k := if |r| == |replies| then (var k :| 0 <= k < |replies| && replies[k].0 == cmd; k) else |replies|;
    assert r[k] == (cmd, reply);
    FindReplyMatches(r, matches, frame);
    var i :| 0 <= i < |r| && matches(r[i].0, frame) && FindReply(r, matches, frame).value == r[i].1;
    assert r[i].0 == cmd;
  }

  /** Which way a logged frame went. */
  datatype Direction = Sent | Rcvd

  /** An entry of the log: the port, the direction and the bytes. */
  datatype LogEntry = LogEntry(port: PortName, dir: Direction, data: Bytes)

  lemma AppendAssoc<T>(a: seq<T>, b: seq<T>, c: seq<T>)
    ensures a + (b + c) == (a + b) + c
  {
  }

  /** The contents of a `deque(maxlen=n)` after the entries `s` were
    * appended in turn: the last `n` of them. */
  function Last<T>(s: seq<T>, n: nat): (r: seq<T>)
    ensures |r| == if |s| <= n then |s| else n
    ensures r == s[|s| - |r|..]
  {
    if |s| <= n then s else s[|s| - n..]
  }

  /** Appending to the bounded log is taking the last entries of the
    * longer record. */
  lemma LastSnoc<T>(s: seq<T>, e: T, n: nat)
    ensures Last(Last(s, n) + [e], n) == Last(s + [e], n)
  {
    var a := Last(Last(s, n) + [e], n);
    var b := Last(s + [e], n);
    assert |a| == |b|;
    forall i | 0 <= i < |a| ensures a[i] == b[i] {
      if i < |a| - 1 {
        assert a[i] == (Last(s, n) + [e])[|Last(s, n)| + 1 - |a| + i];
      }
    }
  }

  // ---------------------------------------------------------------------
  // The traffic each operation causes

  /** `_push_frame_to_dst_port`: what the port receives, if anything. */
  function PushEvents(t: GatewayTable, dst: PortName, frame: Bytes): (r: seq<LogEntry>)
    ensures |r| <= 1
  {
    var d := AfterRx(GatewayAt(t, dst), frame);
    if d.Some? && d.value != [] then [LogEntry(dst, Rcvd, d.value)] else []
  }

  /** The frame pushed to each of `dsts` in turn. */
  function BroadcastEvents(t: GatewayTable, dsts: seq<PortName>, frame: Bytes): (r: seq<LogEntry>)
    ensures |r| <= |dsts|
    ensures forall k :: 0 <= k < |r| ==> r[k].dir == Rcvd && r[k].port in dsts
  {
    if dsts == [] then [] else BroadcastEvents(t, dsts[..|dsts| - 1], frame) + PushEvents(t, dsts[|dsts| - 1], frame)
  }

  /** An ordinary frame reaches every port, the sender's included, with the
    * RSSI prefixed. */
  lemma {:induction false} BroadcastReachesAll(t: GatewayTable, dsts: seq<PortName>, frame: Bytes)
    requires !IsTrace(frame)
    ensures |BroadcastEvents(t, dsts, frame)| == |dsts|
    ensures forall k :: 0 <= k < |dsts| ==> BroadcastEvents(t, dsts, frame)[k] == LogEntry(dsts[k], Rcvd, RssiPrefix + frame)
    decreases |dsts|
  {
    if dsts != [] {
      var front := dsts[..|dsts| - 1];
      var last := dsts[|dsts| - 1];
      BroadcastReachesAll(t, front, frame);
      var before := BroadcastEvents(t, front, frame);
      assert PushEvents(t, last, frame) == [LogEntry(last, Rcvd, RssiPrefix + frame)];
      var all := before + [LogEntry(last, Rcvd, RssiPrefix + frame)];
      assert BroadcastEvents(t, dsts, frame) == all;
      forall k | 0 <= k < |dsts|
        ensures all[k] == LogEntry(dsts[k], Rcvd, RssiPrefix + frame)
      {
        if k < |front| {
          assert front[k] == dsts[k];
        }
      }
    }
  }

  /** A trace frame other than the version query reaches no port. */
  lemma {:induction false} BroadcastTraceSilent(t: GatewayTable, dsts: seq<PortName>, frame: Bytes)
    requires IsTrace(frame) && frame != VersionQuery
    ensures BroadcastEvents(t, dsts, frame) == []
    decreases |dsts|
  {
    if dsts != [] {
      BroadcastTraceSilent(t, dsts[..|dsts| - 1], frame);
    }
  }

  /** `_cast_frame_to_all_ports`: the frame to every port, then the reply
    * registered for it, if any, to every port. */
  function CastEvents(t: GatewayTable, ports: seq<PortName>, replies: ReplyTable, matches: (string, Bytes) -> bool,
                      frame: Bytes): (r: seq<LogEntry>)
    ensures |r| <= 2 * |ports|
    ensures forall k :: 0 <= k < |r| ==> r[k].dir == Rcvd && r[k].port in ports
    ensures FindReply(replies, matches, frame).None? ==> r == BroadcastEvents(t, ports, frame)
  {
    var reply := FindReply(replies, matches, frame);
    BroadcastEvents(t, ports, frame) +
    if reply.Some? && reply.value != [] then BroadcastEvents(t, ports, reply.value) else []
  }

  /** One frame read from `src`: the echo of a trace frame, then the cast
    * of what the sending gateway lets through. */
  function TxEvents(t: GatewayTable, ports: seq<PortName>, replies: ReplyTable, matches: (string, Bytes) -> bool,
                    src: PortName, frame: Bytes): (r: seq<LogEntry>)
    ensures |r| <= 1 + 2 * |ports|
    ensures forall k :: 0 <= k < |r| ==> r[k].dir == Rcvd && (r[k].port in ports || r[k].port == src)
  {
    var gw := GatewayAt(t, src);
    var fr := BeforeTx(gw, frame);
    (if Echoes(gw, frame) then PushEvents(t, src, frame) else []) +
    if fr.Some? && fr.value != [] then CastEvents(t, ports, replies, matches, fr.value) else []
  }

  /** The frames of one read, in order. */
  function FramesEvents(t: GatewayTable, ports: seq<PortName>, replies: ReplyTable, matches: (string, Bytes) -> bool,
                        src: PortName, frames: seq<Bytes>): (r: seq<LogEntry>)
    ensures forall k :: 0 <= k < |r| ==> r[k].dir == Rcvd && (r[k].port in ports || r[k].port == src)
    ensures frames == [] ==> r == []
  {
    if frames == [] then []
    else (FramesEvents(t, ports, replies, matches, src, frames[..|frames| - 1]) +
          TxEvents(t, ports, replies, matches, src, frames[|frames| - 1]))
  }

  /** The frames up to `k` inclusive: those before it, then frame `k`. */
  lemma FramesEventsStep(t: GatewayTable, ports: seq<PortName>, replies: ReplyTable, matches: (string, Bytes) -> bool,
                         src: PortName, frames: seq<Bytes>, k: nat)
    requires k < |frames|
    ensures FramesEvents(t, ports, replies, matches, src, frames[..k + 1]) ==
      FramesEvents(t, ports, replies, matches, src, frames[..k]) + TxEvents(t, ports, replies, matches, src, frames[k])
  {
    assert frames[..k + 1][..k] == frames[..k];
  }

  /** `_pull_data_from_src_port`: the read itself, then its frames. */
  function PullEvents(t: GatewayTable, ports: seq<PortName>, replies: ReplyTable, matches: (string, Bytes) -> bool,
                      src: PortName, data: Bytes): (r: seq<LogEntry>)
    ensures |r| >= 1 && r[0] == LogEntry(src, Sent, data)
    ensures forall k :: 1 <= k < |r| ==> r[k].dir == Rcvd
  {
    [LogEntry(src, Sent, data)] + FramesEvents(t, ports, replies, matches, src, Frames(data))
  }

  /** A trace frame a gateway lets through is still a trace frame, and
    * still not the version query. */
  lemma BeforeTxKeepsTrace(gw: Option<Gateway>, frame: Bytes)
    requires IsTrace(frame) && frame != VersionQuery
    requires BeforeTx(gw, frame).Some?
    ensures IsTrace(BeforeTx(gw, frame).value) && BeforeTx(gw, frame).value != VersionQuery
  {
    var v := BeforeTx(gw, frame).value;
    if v != frame {
      assert |frame| >= 16 && v == frame[..7] + gw.value.idBytes + frame[16..];
      assert v[0] == frame[0] && |v| >= 7;
    }
  }

  /** A trace frame read from a port reaches no port, even where it is
    * echoed or cast; only a reply registered for it can be heard. */
  lemma ReadTraceFrameSilent(t: GatewayTable, ports: seq<PortName>, replies: ReplyTable, matches: (string, Bytes) -> bool,
                             src: PortName, data: Bytes, k: nat)
    requires k < |Frames(data)| && IsTrace(Frames(data)[k])
    requires forall f :: FindReply(replies, matches, f).None?
    ensures TxEvents(t, ports, replies, matches, src, Frames(data)[k]) == []
  {
    var f := Frames(data)[k];
    ReadFrameIsNotVersionQuery(data, k);
    var fr := BeforeTx(GatewayAt(t, src), f);
    if fr.Some? {
      BeforeTxKeepsTrace(GatewayAt(t, src), f);
      BroadcastTraceSilent(t, ports, fr.value);
    }
  }

  // ---------------------------------------------------------------------
  // The network

  /** The error `VirtualRfBase.__init__` raises, if any: its port-count
    * guard is written as a chained comparison that no count satisfies, so
    * only a negative log size (refused by the deque) fails. */
  function InitError(numPorts: int, logSize: int): (r: Option<Error>)
    ensures r.Some? <==> logSize < 0
    ensures r.Some? ==> r.value == ValueError
  {
    if 1 > numPorts > MaxNumPorts then Some(ValueError)
    else if logSize < 0 then Some(ValueError)
    else None
  }

  class VirtualRf {
    /** The port names, in creation order (`ports`). */
    const ports: seq<PortName>
    /** The deque's `maxlen`. */
    const logSize: nat
    /** `re.match(pattern, frame.decode())` succeeds. */
    const matches: (string, Bytes) -> bool

    var gateways: GatewayTable
    /** The firmware each port presents itself as (`_port_info_list`). */
    var portInfo: map<PortName, FwType>
    var replies: ReplyTable
    /** Everything read from and written to the ports, oldest first. */
    var traffic: seq<LogEntry>
    /** `_log`: the most recent part of the traffic. */
    var log: seq<LogEntry>

    /** Gateways sit on existing ports, and no id is on two of them. */
    ghost predicate GatewaysValid()
      reads this`gateways
    {
      IdsUnique(gateways) && forall p :: p in gateways ==> p in ports
    }

    /** The log holds the most recent `logSize` entries of the traffic. */
    ghost predicate LogValid()
      reads this`traffic, this`log
    {
      log == Last(traffic, logSize)
    }

    /** A network of the given ports, none with a gateway, each presented
      * as an evofw3. */
    constructor (ports: seq<PortName>, logSize: int, matches: (string, Bytes) -> bool)
      requires InitError(|ports|, logSize).None?
      ensures GatewaysValid() && LogValid()
      ensures this.ports == ports && this.logSize == logSize && this.matches == matches
      ensures gateways == map[] && replies == [] && traffic == [] && log == []
      ensures forall p :: p in portInfo <==> p in ports
      ensures forall p :: p in portInfo ==> portInfo[p] == Evofw3
    {
      this.ports := ports;
      this.logSize := logSize;
      this.matches := matches;
      gateways := map[];
      portInfo := map p | p in ports :: Evofw3;
      replies := [];
      traffic := [];
      log := [];
    }

    /** The `gateways` property. */
    ghost function Gateways(): (r: map<string, PortName>)
      reads this
      requires GatewaysValid()
      ensures forall p :: p in gateways ==> gateways[p].deviceId in r && r[gateways[p].deviceId] == p
      ensures forall id :: id in r ==> exists p :: p in gateways && gateways[p].deviceId == id
    {
      var r := GatewaysById(gateways);
      assert forall p :: p in gateways ==> gateways[p].deviceId in r && r[gateways[p].deviceId] == p by {
        forall p | p in gateways ensures gateways[p].deviceId in r && r[gateways[p].deviceId] == p {
          GatewaysByIdInverse(gateways, p, gateways[p].deviceId);
        }
      }
      r
    }

    /** `set_gateway`: an unknown port, an id attached to another port or
      * an unknown firmware (None here) raise LookupError, in that order; an
      * id that is not ASCII fails its encoding; otherwise the port's
      * gateway and presented firmware are set. */
    method SetGateway(port: PortName, deviceId: string, fw: Option<FwType>) returns (r: Result<()>)
      requires GatewaysValid()
      modifies this`gateways, this`portInfo
      ensures GatewaysValid()
      ensures port !in ports ==> r == Err(LookupError)
      ensures port in ports && OnAnotherPort(old(gateways), port, deviceId) ==> r == Err(LookupError)
      ensures port in ports && !OnAnotherPort(old(gateways), port, deviceId) && fw.None? ==> r == Err(LookupError)
      ensures port in ports && !OnAnotherPort(old(gateways), port, deviceId) && fw.Some? && !IsAscii(deviceId) ==>
        r == Err(UnicodeEncodeError)
      ensures r.Err? ==> port !in ports || OnAnotherPort(old(gateways), port, deviceId) || fw.None? || !IsAscii(deviceId)
      ensures r.Err? ==> gateways == old(gateways) && portInfo == old(portInfo)
      ensures r.Ok? ==> (fw.Some? && IsAscii(deviceId) &&
        gateways == old(gateways)[port := Gateway(deviceId, fw.value, Ascii(deviceId))] &&
        portInfo == old(portInfo)[port := fw.value])
    {
      if port !in ports {
        return Err(LookupError);
      }
      if OnAnotherPort(gateways, port, deviceId) {
        return Err(LookupError);
      }
      if fw.None? {
        return Err(LookupError);
      }
      var idBytes := Encode(deviceId);
      if idBytes.Err? {
        return Err(idBytes.error);
      }
      var g := Gateway(deviceId, fw.value, idBytes.value);
      PutKeepsIdsUnique(gateways, port, g);
      gateways := gateways[port := g];
      portInfo := portInfo[port := fw.value];
      return Ok(());
    }

    /** `add_reply_for_cmd`: the reply, already encoded, is stored with its
      * `\r\n` under the pattern. */
    method AddReplyForCmd(cmd: string, reply: Bytes)
      modifies this`replies
      ensures replies == PutReply(old(replies), cmd, reply + Crlf)
    {
      replies := PutReply(replies, cmd, reply + Crlf);
    }

    /** Records one entry of traffic and appends it to the bounded log. */
    method Record(e: LogEntry)
      requires LogValid()
      modifies this`traffic, this`log
      ensures LogValid()
      ensures traffic == old(traffic) + [e]
    {
      LastSnoc(traffic, e, logSize);
      traffic := traffic + [e];
      log := log + [e];
      log := Last(log, logSize);
    }

    /** `_push_frame_to_dst_port` */
    method Push(dst: PortName, frame: Bytes)
      requires LogValid()
      modifies this`traffic, this`log
      ensures LogValid()
      ensures traffic == old(traffic) + PushEvents(gateways, dst, frame)
    {
      var data := AfterRx(GatewayAt(gateways, dst), frame);
      if data.Some? && data.value != [] {
        Record(LogEntry(dst, Rcvd, data.value));
      }
    }

    /** The frame pushed to every port in turn. */
    method Broadcast(frame: Bytes)
      requires LogValid()
      modifies this`traffic, this`log
      ensures LogValid()
      ensures traffic == old(traffic) + BroadcastEvents(gateways, ports, frame)
    {
      ghost var traffic0 := traffic;
      var k := 0;
      while k < |ports|
        invariant 0 <= k <= |ports|
        invariant LogValid()
        invariant traffic == traffic0 + BroadcastEvents(gateways, ports[..k], frame)
      {
        Push(ports[k], frame);
        assert ports[..k + 1][..k] == ports[..k];
        k := k + 1;
      }
      assert ports[..k] == ports;
    }

    /** `_cast_frame_to_all_ports` */
    method Cast(frame: Bytes)
      requires LogValid()
      modifies this`traffic, this`log
      ensures LogValid()
      ensures traffic == old(traffic) + CastEvents(gateways, ports, replies, matches, frame)
    {
      Broadcast(frame);
      var reply := FindReply(replies, matches, frame);
      if reply.Some? && reply.value != [] {
        Broadcast(reply.value);
      }
    }

    /** `_proc_before_tx`, with the echo of a trace frame to its own port. */
    method ProcBeforeTx(src: PortName, frame: Bytes) returns (r: Option<Bytes>)
      requires LogValid()
      modifies this`traffic, this`log
      ensures LogValid()
      ensures r == BeforeTx(GatewayAt(gateways, src), frame)
      ensures traffic == old(traffic) + (if Echoes(GatewayAt(gateways, src), frame) then PushEvents(gateways, src, frame) else [])
    {
      var gw := GatewayAt(gateways, src);
      if Echoes(gw, frame) {
        Push(src, frame);
      }
      r := BeforeTx(gw, frame);
    }

    /** `_pull_data_from_src_port`: the read is logged, cut into frames,
      * and each frame the sending gateway lets through is cast. */
    method PullData(src: PortName, data: Bytes)
      requires LogValid()
      modifies this`traffic, this`log
      ensures LogValid()
      ensures traffic == old(traffic) + PullEvents(gateways, ports, replies, matches, src, data)
    {
      Record(LogEntry(src, Sent, data));
      ghost var traffic0 := traffic;
      var frames := Frames(data);
      var k := 0;
      while k < |frames|
        invariant 0 <= k <= |frames|
        invariant LogValid()
        invariant traffic == traffic0 + FramesEvents(gateways, ports, replies, matches, src, frames[..k])
      {
        Transmit(src, frames[k]);
        FramesEventsStep(gateways, ports, replies, matches, src, frames, k);
        AppendAssoc(traffic0, FramesEvents(gateways, ports, replies, matches, src, frames[..k]),
          TxEvents(gateways, ports, replies, matches, src, frames[k]));
        k := k + 1;
      }
      assert frames[..k] == frames;
      AppendAssoc(old(traffic), [LogEntry(src, Sent, data)], FramesEvents(gateways, ports, replies, matches, src, frames));
    }

    /** One frame of a read: the sending gateway's treatment, then the cast
      * of whatever it lets through. */
    method Transmit(src: PortName, frame: Bytes)
      requires LogValid()
      modifies this`traffic, this`log
      ensures LogValid()
      ensures traffic == old(traffic) + TxEvents(gateways, ports, replies, matches, src, frame)
    {
      var fr := ProcBeforeTx(src, frame);
      if fr.Some? && fr.value != [] {
        Cast(fr.value);
      }
    }
  }
}
