/** Reading a packet capture: the two independent readers of the collectors
    (src/sandbox_infra/qemu/detonate.py and src/sandbox_infra/qemu/win_detonate.py,
    `_parse_pcap`). */
module Pcap {
  import opened Wrappers
  import opened ByteStrings

  // ----------------------------------------------------------------------------------------
  // Text
  // ----------------------------------------------------------------------------------------

  function Digits(n: nat): string {
    (if n < 10 then "" else Digits(n / 10)) + [('0' as int + n % 10) as char]
  }

  function StripZeros(s: string): string {
    if s != "" && s[0] == '0' then StripZeros(s[1..]) else s
  }

  /** One group of an IPv6 address, without leading zeros. */
  function Group(hi: Byte, lo: Byte): string {
    var text := StripZeros([HexDigit(hi / 16), HexDigit(hi % 16), HexDigit(lo / 16), HexDigit(lo % 16)]);
    if text == "" then "0" else text
  }

  function Joined(sep: char, parts: seq<string>): string {
    if parts == [] then ""
    else if |parts| == 1 then parts[0]
    else parts[0] + [sep] + Joined(sep, parts[1..])
  }

  function V4Text(a: Bytes): string
    requires |a| == 4
  {
    Joined('.', [Digits(a[0]), Digits(a[1]), Digits(a[2]), Digits(a[3])])
  }

  function V6Text(a: Bytes): string
    requires |a| == 16
  {
    "[" + Joined(':', seq(8, i requires 0 <= i < 8 => Group(a[2 * i], a[2 * i + 1]))) + "]"
  }

  /** `decode("ascii", "replace")`. */
  function Ascii(b: Bytes): string {
    seq(|b|, i requires 0 <= i < |b| => if b[i] < 128 then b[i] as char else '\U{FFFD}')
  }

  // ----------------------------------------------------------------------------------------
  // One packet
  // ----------------------------------------------------------------------------------------

  /** The labels from position `i` on, up to a zero length or the end. */
  function Labels(q: Bytes, i: nat): seq<string>
    decreases |q| - i
  {
    if i < |q| && q[i] != 0 then [Ascii(Slice(q, i + 1, q[i]))] + Labels(q, i + 1 + q[i]) else []
  }

  function QName(q: Bytes): string {
    Joined('.', Labels(q, 0))
  }

  datatype Seen = Nothing | Query(name: string) | Target(text: string)

  predicate HasFlag(flags: Byte, bit: Byte)
    requires bit > 0
  {
    flags / bit % 2 == 1
  }

  const SYN: Byte := 2
  const ACK: Byte := 16

  /** `l4_handle`: a SYN without ACK, or a query to port 53. */
  function L4Sees(proto: Byte, l4: Bytes, dst: string): Seen {
    if proto == 6 && |l4| >= 14 then
      if HasFlag(l4[13], SYN) && !HasFlag(l4[13], ACK) then Target(dst + ":" + Digits(U16(Big, l4[2..4]))) else Nothing
    else if proto == 17 && |l4| >= 20 && U16(Big, l4[2..4]) == 53 then Query(QName(l4[20..]))
    else Nothing
  }

  /** `ip_handle` of the Linux reader: the version nibble decides. */
  function IpSees(p: Bytes): Seen {
    if |p| < 20 then Nothing
    else if p[0] / 16 == 4 then L4Sees(p[9], From(p, p[0] % 16 * 4), V4Text(p[16..20]))
    else if p[0] / 16 == 6 && |p| >= 40 then L4Sees(p[6], p[40..], V6Text(p[24..40]))
    else Nothing
  }

  const IPV4: Bytes := [8, 0]
  const IPV6: Bytes := [0x86, 0xdd]

  predicate IsIp(et: Bytes) {
    et == IPV4 || et == IPV6
  }

  function LinuxSees(linktype: nat, p: Bytes): Seen {
    if linktype == 1 && |p| >= 14 then (if IsIp(p[12..14]) then IpSees(p[14..]) else Nothing)
    else if linktype == 113 && |p| >= 16 then (if IsIp(p[14..16]) then IpSees(p[16..]) else Nothing)
    else if linktype == 276 && |p| >= 20 then (if IsIp(p[0..2]) then IpSees(p[20..]) else Nothing)
    else if linktype == 101 then IpSees(p)
    else Nothing
  }

  /** The Windows reader: the EtherType decides. */
  function WindowsSees(p: Bytes): Seen {
    if |p| < 14 then Nothing
    else if p[12..14] == IPV4 && |p| >= 34 then L4Sees(p[23], From(p, 14 + p[14] % 16 * 4), V4Text(p[30..34]))
    else if p[12..14] == IPV6 && |p| >= 54 then L4Sees(p[20], p[54..], V6Text(p[38..54]))
    else Nothing
  }

  // ----------------------------------------------------------------------------------------
  // A capture
  // ----------------------------------------------------------------------------------------

  datatype Findings = Findings(dns: seq<string>, syns: set<string>)

  function Add(f: Findings, s: Seen): Findings {
    match s
    case Nothing => f
    case Query(name) => if name != "" && name !in f.dns then f.(dns := f.dns + [name]) else f
    case Target(text) => f.(syns := f.syns + {text})
  }

  datatype Header = Header(order: Order, linktype: nat)

  function HeaderOf(d: Bytes): Option<Header> {
    if |d| < 24 then None
    else if d[..4] == [0xd4, 0xc3, 0xb2, 0xa1] || d[..4] == [0x4d, 0x3c, 0xb2, 0xa1] then
      Some(Header(Little, U32(Little, d[20..24])))
    else if d[..4] == [0xa1, 0xb2, 0xc3, 0xd4] || d[..4] == [0xa1, 0xb2, 0x3c, 0x4d] then
      Some(Header(Big, U32(Big, d[20..24])))
    else None
  }

  /** The packets after the file header, the last one cut short with the file. */
  function Packets(order: Order, rest: Bytes): seq<Bytes>
    decreases |rest|
  {
    if |rest| < 16 then []
    else
      var incl := U32(order, rest[8..12]);
      [Slice(rest, 16, incl)] + Packets(order, From(rest, 16 + incl))
  }

  const NO_FINDINGS := Findings([], {})

  function LinuxCollect(linktype: nat, ps: seq<Bytes>): Findings
    decreases |ps|
  {
    if ps == [] then NO_FINDINGS
    else Add(LinuxCollect(linktype, ps[..|ps| - 1]), LinuxSees(linktype, ps[|ps| - 1]))
  }

  function WindowsCollect(ps: seq<Bytes>): Findings
    decreases |ps|
  {
    if ps == [] then NO_FINDINGS else Add(WindowsCollect(ps[..|ps| - 1]), WindowsSees(ps[|ps| - 1]))
  }

  function LinuxReads(d: Bytes): Findings {
    var h := HeaderOf(d);
    if h.None? then NO_FINDINGS else LinuxCollect(h.value.linktype, Packets(h.value.order, d[24..]))
  }

  function WindowsReads(d: Bytes): Findings {
    var h := HeaderOf(d);
    if h.None? || h.value.linktype != 1 then NO_FINDINGS else WindowsCollect(Packets(h.value.order, d[24..]))
  }

  // ----------------------------------------------------------------------------------------
  // The readers
  // ----------------------------------------------------------------------------------------

  method ReadQName(q: Bytes) returns (name: string)
    ensures name == QName(q)
  {
    hide Ascii, Slice, Joined;
    var labels: seq<string> := [];
    var i := 0;
    while i < |q| && q[i] != 0
      invariant 0 <= i
      invariant labels + Labels(q, i) == Labels(q, 0)
      decreases |q| - i
    {
      labels := labels + [Ascii(Slice(q, i + 1, q[i]))];
      i := i + 1 + q[i] as int;
    }
    assert labels + [] == labels;
    name := Joined('.', labels);
  }

  method L4Handle(proto: Byte, l4: Bytes, dst: string, f: Findings) returns (after: Findings)
    ensures after == Add(f, L4Sees(proto, l4, dst))
  {
    hide QName, Digits, HasFlag, U16;
    after := f;
    if proto == 6 && |l4| >= 14 {
      var flags := l4[13];
      if HasFlag(flags, SYN) && !HasFlag(flags, ACK) {
        after := f.(syns := f.syns + {dst + ":" + Digits(U16(Big, l4[2..4]))});
      }
    } else if proto == 17 && |l4| >= 20 && U16(Big, l4[2..4]) == 53 {
      var name := ReadQName(l4[20..]);
      if name != "" && name !in f.dns {
        after := f.(dns := f.dns + [name]);
      }
    }
  }

  method IpHandle(p: Bytes, f: Findings) returns (after: Findings)
    ensures after == Add(f, IpSees(p))
  {
    hide L4Sees, V4Text, V6Text;
    after := f;
    if |p| < 20 {
      return;
    }
    var version := p[0] / 16;
    if version == 4 {
      after := L4Handle(p[9], From(p, p[0] % 16 * 4), V4Text(p[16..20]), f);
    } else if version == 6 && |p| >= 40 {
      after := L4Handle(p[6], p[40..], V6Text(p[24..40]), f);
    }
  }

  method LinuxPacket(linktype: nat, p: Bytes, f: Findings) returns (after: Findings)
    ensures after == Add(f, LinuxSees(linktype, p))
  {
    hide IpSees, Add;
    NoSighting(f);
    after := f;
    if linktype == 1 && |p| >= 14 {
      if IsIp(p[12..14]) {
        after := IpHandle(p[14..], f);
      }
    } else if linktype == 113 && |p| >= 16 {
      if IsIp(p[14..16]) {
        after := IpHandle(p[16..], f);
      }
    } else if linktype == 276 && |p| >= 20 {
      if IsIp(p[0..2]) {
        after := IpHandle(p[20..], f);
      }
    } else if linktype == 101 {
      after := IpHandle(p, f);
    }
  }

  lemma HeaderFits(d: Bytes)
    ensures HeaderOf(d).Some? ==> |d| >= 24
  {
  }

  lemma LinuxCollectsOne(linktype: nat, ps: seq<Bytes>, p: Bytes)
    ensures LinuxCollect(linktype, ps + [p]) == Add(LinuxCollect(linktype, ps), LinuxSees(linktype, p))
  {
    assert (ps + [p])[..|ps|] == ps;
  }

  lemma LinuxCollectsNone(linktype: nat)
    ensures LinuxCollect(linktype, []) == NO_FINDINGS
  {
  }

  method LinuxParse(d: Bytes) returns (dns: seq<string>, syns: set<string>)
    ensures Findings(dns, syns) == LinuxReads(d)
  {
    hide LinuxSees, LinuxCollect, Add, U32, Packets, Slice, HeaderOf;
    HeaderFits(d);
    var h := HeaderOf(d);
    if h.None? {
      return [], {};
    }
    var order, linktype := h.value.order, h.value.linktype;
    LinuxCollectsNone(linktype);
    var f, off := NO_FINDINGS, 24;
    ghost var done: seq<Bytes> := [];
    while off + 16 <= |d|
      invariant 24 <= off
      invariant Packets(order, d[24..]) == done + Packets(order, From(d, off))
      invariant f == LinuxCollect(linktype, done)
      decreases |d| - off
    {
      var incl := U32(order, d[off + 8..off + 12]);
      var p := Slice(d, off + 16, incl);
      PacketsStep(order, d, off);
      LinuxCollectsOne(linktype, done, p);
      done := done + [p];
      off := off + 16 + incl;
      f := LinuxPacket(linktype, p, f);
    }
    NoMorePackets(order, From(d, off));
    assert done + [] == done;
    return f.dns, f.syns;
  }

  lemma NoSighting(f: Findings)
    ensures Add(f, Nothing) == f
  {
  }

  lemma NoMorePackets(order: Order, rest: Bytes)
    requires |rest| < 16
    ensures Packets(order, rest) == []
  {
  }

  lemma PacketsStep(order: Order, d: Bytes, off: nat)
    requires off + 16 <= |d|
    ensures var incl := U32(order, d[off + 8..off + 12]);
            Packets(order, From(d, off)) == [Slice(d, off + 16, incl)] + Packets(order, From(d, off + 16 + incl))
  {
    hide U32;
    var rest := From(d, off);
    assert rest[8..12] == d[off + 8..off + 12];
    var incl := U32(order, d[off + 8..off + 12]);
    assert Slice(rest, 16, incl) == Slice(d, off + 16, incl);
    assert From(rest, 16 + incl) == From(d, off + 16 + incl);
  }

  method WindowsPacket(p: Bytes, f: Findings) returns (after: Findings)
    ensures after == Add(f, WindowsSees(p))
  {
    hide L4Sees, Add, V4Text, V6Text;
    NoSighting(f);
    after := f;
    if |p| < 14 {
      return;
    }
    var et := p[12..14];
    if et == IPV4 && |p| >= 34 {
      after := L4Handle(p[23], From(p, 14 + p[14] % 16 * 4), V4Text(p[30..34]), f);
    } else if et == IPV6 && |p| >= 54 {
      after := L4Handle(p[20], p[54..], V6Text(p[38..54]), f);
    }
  }

  lemma WindowsCollectsOne(ps: seq<Bytes>, p: Bytes)
    ensures WindowsCollect(ps + [p]) == Add(WindowsCollect(ps), WindowsSees(p))
  {
    assert (ps + [p])[..|ps|] == ps;
  }

  lemma WindowsCollectsNone()
    ensures WindowsCollect([]) == NO_FINDINGS
  {
  }

  method WindowsParse(d: Bytes) returns (dns: seq<string>, syns: set<string>)
    ensures Findings(dns, syns) == WindowsReads(d)
  {
    hide WindowsSees, WindowsCollect, Add, U32, Packets, Slice, HeaderOf;
    HeaderFits(d);
    var h := HeaderOf(d);
    if h.None? || h.value.linktype != 1 {
      return [], {};
    }
    var order := h.value.order;
    WindowsCollectsNone();
    var f, off := NO_FINDINGS, 24;
    ghost var done: seq<Bytes> := [];
    while off + 16 <= |d|
      invariant 24 <= off
      invariant Packets(order, d[24..]) == done + Packets(order, From(d, off))
      invariant f == WindowsCollect(done)
      decreases |d| - off
    {
      var incl := U32(order, d[off + 8..off + 12]);
      var p := Slice(d, off + 16, incl);
      PacketsStep(order, d, off);
      WindowsCollectsOne(done, p);
      done := done + [p];
      off := off + 16 + incl;
      f := WindowsPacket(p, f);
    }
    NoMorePackets(order, From(d, off));
    assert done + [] == done;
    return f.dns, f.syns;
  }
}
