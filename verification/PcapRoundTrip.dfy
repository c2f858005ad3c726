/** Writing a capture, of Ethernet frames, Linux cooked frames of either version or bare packets, that holds IPv4 and
    IPv6 packets (section 3.1 of RFC 791, section 3 of RFC 8200) with TCP segments (section 3.1 of RFC 9293) and DNS
    queries (section 4.1.2 of RFC 1035), and reading it back. */
module PcapRoundTrip {
  import opened Wrappers
  import opened ByteStrings
  import opened Pcap
  import opened PcapFacts

  // ----------------------------------------------------------------------------------------
  // Writing
  // ----------------------------------------------------------------------------------------

  function Put16(n: nat): Bytes
    requires n < 0x1_0000
  {
    [n / 256, n % 256]
  }

  function Put32(order: Order, n: nat): (b: Bytes)
    requires n < 0x1_0000_0000
    ensures |b| == 4
  {
    var b0: Byte, b1: Byte, b2: Byte, b3: Byte := n / 16777216, n / 65536 % 256, n / 256 % 256, n % 256;
    if order.Big? then [b0, b1, b2, b3] else [b3, b2, b1, b0]
  }

  lemma ReadsBack32(order: Order, n: nat)
    requires n < 0x1_0000_0000
    ensures U32(order, Put32(order, n)) == n
  {
    assert n / 65536 == 256 * (n / 16777216) + n / 65536 % 256;
    assert n / 256 == 256 * (n / 65536) + n / 256 % 256;
  }

  /** An uncompressed name: each label its length and its bytes, then a zero. */
  function NameBytes(labels: seq<Bytes>): Bytes
    requires forall l | l in labels :: 1 <= |l| <= 63
  {
    if labels == [] then [0] else [|labels[0]|] + labels[0] + NameBytes(labels[1..])
  }

  function NameText(labels: seq<Bytes>): string {
    Joined('.', seq(|labels|, i requires 0 <= i < |labels| => Ascii(labels[i])))
  }

  datatype Segment =
    | Tcp(src: Bytes, port: nat, middle: Bytes, flags: Byte, rest: Bytes)
    | Dns(src: Bytes, udp: Bytes, header: Bytes, labels: seq<Bytes>, tail: Bytes)
    | Opaque(proto: Byte, data: Bytes)
  {
    predicate Valid() {
      match this
      case Tcp(src, port, middle, _, _) => |src| == 2 && port < 0x1_0000 && |middle| == 9
      case Dns(src, udp, header, labels, _) =>
        |src| == 2 && |udp| == 4 && |header| == 12 && forall l | l in labels :: 1 <= |l| <= 63
      case Opaque(proto, _) => proto != 6 && proto != 17
    }

    function Proto(): Byte {
      match this
      case Tcp(_, _, _, _, _) => 6
      case Dns(_, _, _, _, _) => 17
      case Opaque(proto, _) => proto
    }

    function Encode(): Bytes
      requires Valid()
    {
      match this
      case Tcp(src, port, middle, flags, rest) => src + Put16(port) + middle + [flags] + rest
      case Dns(src, udp, header, labels, tail) => src + Put16(53) + udp + header + NameBytes(labels) + tail
      case Opaque(_, data) => data
    }

    /** What a reader should see of the segment. */
    function Meaning(dst: string): Seen
      requires Valid()
    {
      match this
      case Tcp(_, port, _, flags, _) =>
        if HasFlag(flags, SYN) && !HasFlag(flags, ACK) then Target(dst + ":" + Digits(port)) else Nothing
      case Dns(_, _, _, labels, _) => Query(NameText(labels))
      case Opaque(_, _) => Nothing
    }
  }

  /** An IP packet. */
  datatype Packet =
    | V4(head: Bytes, checksum: Bytes, src: Bytes, dst: Bytes, options: Bytes, seg: Segment)
    | V6(traffic: Byte, head: Bytes, hops: Byte, src: Bytes, dst: Bytes, seg: Segment)
  {
    predicate Valid() {
      match this
      case V4(head, checksum, src, dst, options, seg) =>
        && |head| == 8 && |checksum| == 2 && |src| == 4 && |dst| == 4
        && |options| % 4 == 0 && |options| <= 40 && seg.Valid()
      case V6(traffic, head, _, src, dst, seg) =>
        traffic < 16 && |head| == 5 && |src| == 16 && |dst| == 16 && seg.Valid()
    }

    function Encode(): Bytes
      requires Valid()
    {
      match this
      case V4(head, checksum, src, dst, options, seg) =>
        [64 + 5 + |options| / 4] + head + [seg.Proto()] + checksum + src + dst + options + seg.Encode()
      case V6(traffic, head, hops, src, dst, seg) =>
        [96 + traffic as int] + head + [seg.Proto()] + [hops] + src + dst + seg.Encode()
    }

    function Meaning(): Seen
      requires Valid()
    {
      match this
      case V4(_, _, _, dst, _, seg) => seg.Meaning(V4Text(dst))
      case V6(_, _, _, _, dst, seg) => seg.Meaning(V6Text(dst))
    }
  }

  /** What a packet is framed by, each with its number in the capture's header. */
  datatype Link = Wire | Cooked | Cooked2 | Bare {
    function Number(): nat {
      match this
      case Wire => 1
      case Cooked => 113
      case Cooked2 => 276
      case Bare => 101
    }

    /** Bytes of the frame before and behind its protocol field. */
    function Front(): nat {
      match this
      case Wire => 12
      case Cooked => 14
      case _ => 0
    }

    function Back(): nat {
      if Cooked2? then 18 else 0
    }

    /** These bytes hold no IP packet: too few of them, or another protocol. */
    predicate IsOther(bytes: Bytes) {
      if Bare? then |bytes| < 20 || (bytes[0] / 16 != 4 && !(bytes[0] / 16 == 6 && |bytes| >= 40))
      else |bytes| < Front() + 2 + Back() || !IsIp(bytes[Front()..Front() + 2])
    }
  }

  datatype Frame = Ip(front: Bytes, back: Bytes, packet: Packet) | Other(bytes: Bytes) {
    predicate Valid(link: Link) {
      match this
      case Ip(front, back, packet) => |front| == link.Front() && |back| == link.Back() && packet.Valid()
      case Other(bytes) => link.IsOther(bytes)
    }

    function Encode(link: Link): Bytes
      requires Valid(link)
    {
      match this
      case Ip(front, back, packet) =>
        var protocol := if packet.V4? then IPV4 else IPV6;
        if link.Bare? then packet.Encode() else front + protocol + back + packet.Encode()
      case Other(bytes) => bytes
    }

    function Meaning(link: Link): Seen
      requires Valid(link)
    {
      if Ip? then packet.Meaning() else Nothing
    }
  }

  predicate Writable(link: Link, frames: seq<Frame>) {
    forall i | 0 <= i < |frames| :: frames[i].Valid(link) && |frames[i].Encode(link)| < 0x1_0000_0000
  }

  function Encodings(link: Link, frames: seq<Frame>): seq<Bytes>
    requires Writable(link, frames)
  {
    seq(|frames|, i requires 0 <= i < |frames| => frames[i].Encode(link))
  }

  predicate Sizes(ps: seq<Bytes>) {
    forall i | 0 <= i < |ps| :: |ps[i]| < 0x1_0000_0000
  }

  function Records(order: Order, stamp: Bytes, ps: seq<Bytes>): Bytes
    requires |stamp| == 8 && Sizes(ps)
  {
    if ps == [] then []
    else stamp + Put32(order, |ps[0]|) + Put32(order, |ps[0]|) + ps[0] + Records(order, stamp, ps[1..])
  }

  function Magic(order: Order, nanos: bool): Bytes {
    match order
    case Little => if nanos then [0x4d, 0x3c, 0xb2, 0xa1] else [0xd4, 0xc3, 0xb2, 0xa1]
    case Big => if nanos then [0xa1, 0xb2, 0x3c, 0x4d] else [0xa1, 0xb2, 0xc3, 0xd4]
  }

  function Capture(order: Order, nanos: bool, version: Bytes, stamp: Bytes, link: Link, frames: seq<Frame>): Bytes
    requires |version| == 16 && |stamp| == 8 && Writable(link, frames)
  {
    Magic(order, nanos) + version + Put32(order, link.Number()) + Records(order, stamp, Encodings(link, frames))
  }

  // ----------------------------------------------------------------------------------------
  // Reading back
  // ----------------------------------------------------------------------------------------

  lemma CutsLabel(q: Bytes, i: nat, l: Bytes, rest: Bytes)
    requires 1 <= |l| <= 63 && i <= |q| && q[i..] == [|l|] + l + rest
    ensures i < |q| && q[i] == |l| && Slice(q, i + 1, |l|) == l
    ensures i + 1 + |l| <= |q| && q[i + 1 + |l|..] == rest
  {
    var whole := [|l|] + l + rest;
    assert |q| - i == |whole|;
    assert q[i] == whole[0];
    assert q[i + 1..i + 1 + |l|] == whole[1..1 + |l|] == l;
    assert q[i + 1 + |l|..] == whole[1 + |l|..] == rest;
  }

  lemma {:induction false} ReadsBackLabels(q: Bytes, i: nat, labels: seq<Bytes>, tail: Bytes)
    requires forall l | l in labels :: 1 <= |l| <= 63
    requires i <= |q| && q[i..] == NameBytes(labels) + tail
    ensures Labels(q, i) == seq(|labels|, k requires 0 <= k < |labels| => Ascii(labels[k]))
    decreases |labels|
  {
    hide Ascii, Slice, Labels;
    if labels == [] {
      assert q[i] == q[i..][0];
      NoLabel(q, i);
    } else {
      var l := labels[0];
      var rest := NameBytes(labels[1..]) + tail;
      assert q[i..] == [|l|] + l + rest;
      CutsLabel(q, i, l, rest);
      FirstLabel(q, i);
      ReadsBackLabels(q, i + 1 + |l|, labels[1..], tail);
      var texts := seq(|labels|, k requires 0 <= k < |labels| => Ascii(labels[k]));
      assert texts == [Ascii(l)] + Labels(q, i + 1 + |l|);
    }
  }

  lemma FirstLabel(q: Bytes, i: nat)
    requires i < |q| && q[i] != 0
    ensures Labels(q, i) == [Ascii(Slice(q, i + 1, q[i]))] + Labels(q, i + 1 + q[i])
  {
  }

  lemma NoLabel(q: Bytes, i: nat)
    requires i < |q| && q[i] == 0
    ensures Labels(q, i) == []
  {
  }

  lemma ReadsBackTcp(seg: Segment, dst: string)
    requires seg.Valid() && seg.Tcp?
    ensures L4Sees(seg.Proto(), seg.Encode(), dst) == seg.Meaning(dst)
  {
    hide HasFlag, Digits, QName;
    var b := seg.Encode();
    assert b[2..4] == Put16(seg.port);
    assert b[13] == seg.flags;
  }

  lemma ReadsBackDns(seg: Segment, dst: string)
    requires seg.Valid() && seg.Dns?
    ensures L4Sees(seg.Proto(), seg.Encode(), dst) == seg.Meaning(dst)
  {
    hide HasFlag, Digits, Ascii, Joined, NameBytes, Labels;
    var b := seg.Encode();
    assert b[2..4] == Put16(53);
    var q := b[20..];
    assert q[0..] == q == NameBytes(seg.labels) + seg.tail;
    ReadsBackLabels(q, 0, seg.labels, seg.tail);
  }

  lemma ReadsBackSegment(seg: Segment, dst: string)
    requires seg.Valid()
    ensures L4Sees(seg.Proto(), seg.Encode(), dst) == seg.Meaning(dst)
  {
    match seg {
      case Tcp(_, _, _, _, _) => ReadsBackTcp(seg, dst);
      case Dns(_, _, _, _, _) => ReadsBackDns(seg, dst);
      case Opaque(_, _) =>
    }
  }

  lemma ReadsBackPacket(p: Packet)
    requires p.Valid()
    ensures IpSees(p.Encode()) == p.Meaning()
    ensures |p.Encode()| >= 20 && p.Encode()[0] / 16 == if p.V4? then 4 else 6
  {
    match p {
      case V4(_, _, _, _, _, _) => ReadsBackV4(p);
      case V6(_, _, _, _, _, _) => ReadsBackV6(p);
    }
  }

  lemma V4Layout(p: Packet)
    requires p.Valid() && p.V4?
    ensures var b := p.Encode();
            && |b| >= 20 + |p.options| && b[0] == 64 + 5 + |p.options| / 4 && b[9] == p.seg.Proto()
            && b[16..20] == p.dst && b[20 + |p.options|..] == p.seg.Encode()
  {
  }

  lemma ReadsBackV4(p: Packet)
    requires p.Valid() && p.V4?
    ensures IpSees(p.Encode()) == p.Meaning()
    ensures |p.Encode()| >= 20 && p.Encode()[0] / 16 == 4
  {
    hide L4Sees, V4Text, V6Text;
    var b := p.Encode();
    V4Layout(p);
    ReadsBackSegment(p.seg, V4Text(p.dst));
    assert b[0] % 16 * 4 == 20 + |p.options|;
    assert From(b, 20 + |p.options|) == p.seg.Encode();
  }

  lemma V6Layout(p: Packet)
    requires p.Valid() && p.V6?
    ensures var b := p.Encode();
            && |b| >= 40 && b[0] == 96 + p.traffic as int && b[6] == p.seg.Proto()
            && b[24..40] == p.dst && b[40..] == p.seg.Encode()
  {
  }

  lemma ReadsBackV6(p: Packet)
    requires p.Valid() && p.V6?
    ensures IpSees(p.Encode()) == p.Meaning()
    ensures |p.Encode()| >= 20 && p.Encode()[0] / 16 == 6
  {
    hide L4Sees, V4Text, V6Text;
    V6Layout(p);
    ReadsBackSegment(p.seg, V6Text(p.dst));
  }

  /** However it is framed, a packet is seen alike. */
  lemma ReadsBackFrame(link: Link, f: Frame)
    requires f.Valid(link)
    ensures LinuxSees(link.Number(), f.Encode(link)) == f.Meaning(link)
    ensures link.Wire? && |f.Encode(link)| >= 15 ==> Matches(f.Encode(link)[12..14], f.Encode(link)[14] / 16)
  {
    hide IpSees;
    match f {
      case Ip(_, _, packet) =>
        ReadsBackPacket(packet);
        FramedSees(link, f);
      case Other(bytes) =>
        OtherSees(link, bytes);
    }
  }

  lemma FramedSees(link: Link, f: Frame)
    requires f.Valid(link) && f.Ip?
    ensures var p, ip := f.Encode(link), f.packet.Encode();
            && (|ip| >= 20 ==> LinuxSees(link.Number(), p) == IpSees(ip))
            && (link.Wire? && |ip| >= 1 ==>
                  |p| >= 15 && p[12..14] == (if f.packet.V4? then IPV4 else IPV6) && p[14] == ip[0])
  {
    hide IpSees;
    var p, ip := f.Encode(link), f.packet.Encode();
    if !link.Bare? {
      var n := link.Front();
      assert p[n..n + 2] == if f.packet.V4? then IPV4 else IPV6;
      assert p[n + 2 + link.Back()..] == ip;
    }
  }

  lemma OtherSees(link: Link, bytes: Bytes)
    requires link.IsOther(bytes)
    ensures LinuxSees(link.Number(), bytes) == Nothing
  {
    hide L4Sees, V4Text, V6Text;
  }

  /** The packet of the first record, and the rest. */
  lemma ReadsBackRecord(order: Order, stamp: Bytes, p: Bytes, later: Bytes)
    requires |stamp| == 8 && |p| < 0x1_0000_0000
    ensures Packets(order, stamp + Put32(order, |p|) + Put32(order, |p|) + p + later) == [p] + Packets(order, later)
  {
    hide U32, Put32, Slice, From, Packets;
    var all := stamp + Put32(order, |p|) + Put32(order, |p|) + p + later;
    ReadsBack32(order, |p|);
    assert all[8..12] == Put32(order, |p|);
    CutsRecord(all, p, later);
    FirstPacket(order, all);
  }

  lemma FirstPacket(order: Order, all: Bytes)
    requires |all| >= 16
    ensures var incl := U32(order, all[8..12]);
            Packets(order, all) == [Slice(all, 16, incl)] + Packets(order, From(all, 16 + incl))
  {
    hide U32, Slice, From;
  }

  lemma CutsRecord(all: Bytes, p: Bytes, later: Bytes)
    requires |all| == 16 + |p| + |later| && all[16..] == p + later
    ensures Slice(all, 16, |p|) == p && From(all, 16 + |p|) == later
  {
    assert all[16..16 + |p|] == all[16..][..|p|] == p;
    assert all[16 + |p|..] == all[16..][|p|..] == later;
  }

  lemma {:induction false} ReadsBackRecords(order: Order, stamp: Bytes, ps: seq<Bytes>)
    requires |stamp| == 8 && Sizes(ps)
    ensures Packets(order, Records(order, stamp, ps)) == ps
    decreases |ps|
  {
    hide U32, Put32, Packets;
    if ps == [] {
      NoMorePackets(order, []);
    } else {
      ReadsBackRecord(order, stamp, ps[0], Records(order, stamp, ps[1..]));
      ReadsBackRecords(order, stamp, ps[1..]);
    }
  }

  lemma ReadsBackHeader(order: Order, nanos: bool, version: Bytes, stamp: Bytes, link: Link, frames: seq<Frame>)
    requires |version| == 16 && |stamp| == 8 && Writable(link, frames)
    ensures var d := Capture(order, nanos, version, stamp, link, frames);
            && HeaderOf(d) == Some(Header(order, link.Number()))
            && d[24..] == Records(order, stamp, Encodings(link, frames))
  {
    hide U32, Put32;
    var d := Capture(order, nanos, version, stamp, link, frames);
    var magic := Magic(order, nanos);
    assert d[..4] == magic;
    assert d[20..24] == Put32(order, link.Number());
    ReadsBack32(order, link.Number());
    var le, be: Bytes := [0xd4, 0xc3, 0xb2, 0xa1], [0x4d, 0x3c, 0xb2, 0xa1];
    assert order.Big? ==> magic[0] != le[0] && magic[0] != be[0];
  }

  /** A name some frame asks for. */
  ghost predicate Queried(link: Link, frames: seq<Frame>, i: nat, name: string)
    requires i < |frames| && Writable(link, frames)
  {
    frames[i].Meaning(link) == Query(name) && name != ""
  }

  ghost predicate FirstQueried(link: Link, frames: seq<Frame>, i: nat, name: string)
    requires i < |frames| && Writable(link, frames)
  {
    Queried(link, frames, i, name) && forall j | 0 <= j < i :: !Queried(link, frames, j, name)
  }

  /** A written capture, in either byte order and of any of the four kinds of frames, is read as the distinct names
      its queries ask for, in first-seen order, and the targets of its SYN segments without ACK; the Windows reader
      reads the same of Ethernet frames and nothing of the others. */
  lemma CapturesReadBack(order: Order, nanos: bool, version: Bytes, stamp: Bytes, link: Link, frames: seq<Frame>)
    requires |version| == 16 && |stamp| == 8 && Writable(link, frames)
    ensures var d := Capture(order, nanos, version, stamp, link, frames);
            var f := LinuxReads(d);
            && WindowsReads(d) == (if link.Wire? then f else NO_FINDINGS)
            && (forall a, b | 0 <= a < b < |f.dns| :: f.dns[a] != f.dns[b])
            && (forall name :: name in f.dns <==> exists i | 0 <= i < |frames| :: Queried(link, frames, i, name))
            && (forall a, b, i, j | 0 <= a < b < |f.dns| && 0 <= i < |frames| && 0 <= j < |frames|
                  && FirstQueried(link, frames, i, f.dns[a]) && FirstQueried(link, frames, j, f.dns[b]) :: i < j)
            && (forall text ::
                  text in f.syns <==> exists i | 0 <= i < |frames| :: frames[i].Meaning(link) == Target(text))
  {
    hide LinuxReads, WindowsReads, Capture, Packets, LinuxSees, WindowsSees, Records, HeaderOf, LinuxCollect;
    var d := Capture(order, nanos, version, stamp, link, frames);
    var ps := Encodings(link, frames);
    ReadsBackHeader(order, nanos, version, stamp, link, frames);
    ReadsBackRecords(order, stamp, ps);
    SightingsAreMeanings(link, frames);
    if link.Wire? {
      ReadersAgree(d, Header(order, 1));
    } else {
      WindowsReadsEthernetOnly(d, Header(order, link.Number()));
    }
    LinuxReadsCollects(d, Header(order, link.Number()));
    CollectionSummarises(link.Number(), ps);
    SameQueries(link, frames, LinuxReads(d));
  }

  lemma WindowsReadsEthernetOnly(d: Bytes, h: Header)
    requires HeaderOf(d) == Some(h) && h.linktype != 1
    ensures WindowsReads(d) == NO_FINDINGS
  {
  }

  /** Of any other kind of frame nothing is read. */
  lemma OtherLinksReadNothing(linktype: nat, p: Bytes)
    requires forall link: Link :: linktype != link.Number()
    ensures LinuxSees(linktype, p) == Nothing
  {
    assert Wire.Number() == 1 && Cooked.Number() == 113 && Cooked2.Number() == 276 && Bare.Number() == 101;
  }

  lemma LinuxReadsCollects(d: Bytes, h: Header)
    requires HeaderOf(d) == Some(h)
    ensures |d| >= 24 && LinuxReads(d) == LinuxCollect(h.linktype, Packets(h.order, d[24..]))
  {
    hide U32, Packets, LinuxCollect;
  }

  lemma SightingsAreMeanings(link: Link, frames: seq<Frame>)
    requires Writable(link, frames)
    ensures forall i | 0 <= i < |frames| ::
              LinuxSees(link.Number(), Encodings(link, frames)[i]) == frames[i].Meaning(link)
    ensures link.Wire? ==> AllMatch(Encodings(link, frames))
  {
    hide LinuxSees;
    forall i | 0 <= i < |frames|
      ensures LinuxSees(link.Number(), Encodings(link, frames)[i]) == frames[i].Meaning(link)
      ensures var p := Encodings(link, frames)[i]; link.Wire? && |p| >= 15 ==> Matches(p[12..14], p[14] / 16)
    {
      ReadsBackFrame(link, frames[i]);
    }
  }

  lemma SameQueries(link: Link, frames: seq<Frame>, f: Findings)
    requires Writable(link, frames)
    requires forall i | 0 <= i < |frames| ::
               LinuxSees(link.Number(), Encodings(link, frames)[i]) == frames[i].Meaning(link)
    requires Summarises(link.Number(), f, Encodings(link, frames))
    ensures forall name :: name in f.dns <==> exists i | 0 <= i < |frames| :: Queried(link, frames, i, name)
    ensures forall a, b, i, j | 0 <= a < b < |f.dns| && 0 <= i < |frames| && 0 <= j < |frames|
              && FirstQueried(link, frames, i, f.dns[a]) && FirstQueried(link, frames, j, f.dns[b]) :: i < j
    ensures forall text :: text in f.syns <==> exists i | 0 <= i < |frames| :: frames[i].Meaning(link) == Target(text)
  {
    hide LinuxSees;
    var ps := Encodings(link, frames);
    forall i: nat, name | i < |frames| ensures Queried(link, frames, i, name) == AsksFor(link.Number(), ps, i, name) {
    }
    forall i: nat, name | i < |frames|
      ensures FirstQueried(link, frames, i, name) == FirstAsked(link.Number(), ps, i, name)
    {
      assert forall j | 0 <= j < i :: Queried(link, frames, j, name) == AsksFor(link.Number(), ps, j, name);
    }
  }
}
