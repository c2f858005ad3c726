/** The two capture readers agree exactly where the version nibble matches the EtherType, and
    both read back what a written Ethernet capture holds. */
module PcapFacts {
  import opened Wrappers
  import opened ByteStrings
  import opened Pcap

  // ----------------------------------------------------------------------------------------
  // Agreement
  // ----------------------------------------------------------------------------------------

  /** An Ethernet frame with at least one byte after its EtherType, and that byte's nibble. */
  predicate Ethernet(p: Bytes, et: Bytes, nibble: nat) {
    |p| >= 15 && p[12..14] == et && p[14] / 16 == nibble
  }

  predicate Matches(et: Bytes, nibble: nat) {
    (et == IPV4 ==> nibble == 4) && (et == IPV6 ==> nibble == 6)
  }

  lemma SameSighting(p: Bytes)
    requires |p| >= 15 ==> Matches(p[12..14], p[14] / 16)
    ensures LinuxSees(1, p) == WindowsSees(p)
  {
    hide L4Sees, V4Text, V6Text;
    if |p| >= 34 {
      var ip := p[14..];
      assert ip[16..20] == p[30..34];
      assert From(ip, p[14] % 16 * 4) == From(p, 14 + p[14] % 16 * 4);
      if |p| >= 54 {
        assert ip[24..40] == p[38..54] && ip[40..] == p[54..];
      }
    }
  }

  function Zeros(n: nat): Bytes {
    seq(n, i => 0)
  }

  /** A SYN behind a header with the given EtherType and version nibble. */
  function Witness(et: Bytes, nibble: nat): Bytes
    requires nibble < 16
  {
    var tcp := Zeros(13) + [SYN];
    if et == IPV4 then Zeros(12) + et + [16 * nibble + 5] + Zeros(8) + [6] + Zeros(10) + tcp
    else Zeros(12) + et + [16 * nibble] + Zeros(5) + [6] + Zeros(33) + tcp
  }

  lemma WitnessTellsThemApart(et: Bytes, nibble: nat)
    requires IsIp(et) && nibble < 16 && !Matches(et, nibble)
    ensures var p := Witness(et, nibble);
            Ethernet(p, et, nibble) && LinuxSees(1, p) == Nothing && WindowsSees(p).Target?
  {
    hide V4Text, V6Text, Digits, U16;
    var p := Witness(et, nibble);
    assert p[12..14] == et;
    var ip := p[14..];
    if et == IPV4 {
      assert p[23] == 6 && From(p, 34) == Zeros(13) + [SYN];
    } else {
      assert p[20] == 6 && p[54..] == Zeros(13) + [SYN];
      assert ip[9] == 0;
    }
  }

  /** The readers agree on every frame of a kind exactly when the kind's version nibble is the
      one its EtherType stands for. */
  lemma AgreeExactlyWhenNibbleMatches(et: Bytes, nibble: nat)
    requires |et| == 2 && nibble < 16
    ensures (forall p: Bytes | Ethernet(p, et, nibble) :: LinuxSees(1, p) == WindowsSees(p)) <==> Matches(et, nibble)
  {
    if Matches(et, nibble) {
      forall p: Bytes | Ethernet(p, et, nibble) ensures LinuxSees(1, p) == WindowsSees(p) {
        SameSighting(p);
      }
    } else {
      WitnessTellsThemApart(et, nibble);
    }
  }

  predicate AllMatch(ps: seq<Bytes>) {
    forall i | 0 <= i < |ps| :: |ps[i]| >= 15 ==> Matches(ps[i][12..14], ps[i][14] / 16)
  }

  lemma {:induction false} SameCollection(ps: seq<Bytes>)
    requires AllMatch(ps)
    ensures LinuxCollect(1, ps) == WindowsCollect(ps)
    decreases |ps|
  {
    hide LinuxSees, WindowsSees, Add;
    if ps != [] {
      SameCollection(ps[..|ps| - 1]);
      SameSighting(ps[|ps| - 1]);
    }
  }

  /** On every Ethernet capture whose version nibbles match, both readers report the same. */
  lemma ReadersAgree(d: Bytes, h: Header)
    requires HeaderOf(d) == Some(h) && h.linktype == 1 && AllMatch(Packets(h.order, d[24..]))
    ensures LinuxReads(d) == WindowsReads(d)
  {
    hide U32, AllMatch, Packets;
    SameCollection(Packets(h.order, d[24..]));
  }

  // ----------------------------------------------------------------------------------------
  // What a list of sightings amounts to
  // ----------------------------------------------------------------------------------------

  /** The name is asked for in some packet. */
  ghost predicate AsksFor(linktype: nat, ps: seq<Bytes>, i: nat, name: string)
    requires i < |ps|
  {
    LinuxSees(linktype, ps[i]) == Query(name) && name != ""
  }

  ghost predicate FirstAsked(linktype: nat, ps: seq<Bytes>, i: nat, name: string)
    requires i < |ps|
  {
    AsksFor(linktype, ps, i, name) && forall j | 0 <= j < i :: !AsksFor(linktype, ps, j, name)
  }

  /** The distinct names asked for, in the order of their first query, and the set of targets. */
  ghost predicate Summarises(linktype: nat, f: Findings, ps: seq<Bytes>) {
    && (forall a, b | 0 <= a < b < |f.dns| :: f.dns[a] != f.dns[b])
    && (forall name :: name in f.dns <==> exists i | 0 <= i < |ps| :: AsksFor(linktype, ps, i, name))
    && (forall a, b, i, j | 0 <= a < b < |f.dns| && 0 <= i < |ps| && 0 <= j < |ps|
            && FirstAsked(linktype, ps, i, f.dns[a]) && FirstAsked(linktype, ps, j, f.dns[b]) :: i < j)
    && (forall text :: text in f.syns <==> exists i | 0 <= i < |ps| :: LinuxSees(linktype, ps[i]) == Target(text))
  }

  lemma {:induction false} CollectionSummarises(linktype: nat, ps: seq<Bytes>)
    ensures Summarises(linktype, LinuxCollect(linktype, ps), ps)
    decreases |ps|
  {
    hide LinuxSees;
    if ps != [] {
      var n := |ps| - 1;
      var before, f, g := ps[..n], LinuxCollect(linktype, ps[..n]), LinuxCollect(linktype, ps);
      CollectionSummarises(linktype, before);
      NamesAfter(linktype, ps, f, g);
      TargetsAfter(linktype, ps, f, g);
      OrderAfter(linktype, ps, f, g);
    }
  }

  lemma NamesAfter(linktype: nat, ps: seq<Bytes>, f: Findings, g: Findings)
    requires ps != [] && g == Add(f, LinuxSees(linktype, ps[|ps| - 1]))
    requires Summarises(linktype, f, ps[..|ps| - 1])
    ensures forall a, b | 0 <= a < b < |g.dns| :: g.dns[a] != g.dns[b]
    ensures forall name :: name in g.dns <==> exists i | 0 <= i < |ps| :: AsksFor(linktype, ps, i, name)
  {
    hide LinuxSees;
    var n := |ps| - 1;
    forall name ensures name in g.dns <==> exists i | 0 <= i < |ps| :: AsksFor(linktype, ps, i, name) {
      if name in f.dns {
        var i :| 0 <= i < n && AsksFor(linktype, ps[..n], i, name);
        assert AsksFor(linktype, ps, i, name);
      } else if AsksFor(linktype, ps, n, name) {
        assert name == g.dns[|g.dns| - 1];
      }
      if i :| 0 <= i < |ps| && AsksFor(linktype, ps, i, name) {
        if i < n {
          assert AsksFor(linktype, ps[..n], i, name);
        }
      }
    }
  }

  lemma TargetsAfter(linktype: nat, ps: seq<Bytes>, f: Findings, g: Findings)
    requires ps != [] && g == Add(f, LinuxSees(linktype, ps[|ps| - 1]))
    requires Summarises(linktype, f, ps[..|ps| - 1])
    ensures forall text :: text in g.syns <==> exists i | 0 <= i < |ps| :: LinuxSees(linktype, ps[i]) == Target(text)
  {
    hide LinuxSees, AsksFor, FirstAsked;
    var n := |ps| - 1;
    forall text ensures text in g.syns <==> exists i | 0 <= i < |ps| :: LinuxSees(linktype, ps[i]) == Target(text) {
      if text in f.syns {
        var i :| 0 <= i < n && LinuxSees(linktype, ps[..n][i]) == Target(text);
        assert LinuxSees(linktype, ps[i]) == Target(text);
      }
      if i :| 0 <= i < |ps| && LinuxSees(linktype, ps[i]) == Target(text) {
        if i < n {
          assert LinuxSees(linktype, ps[..n][i]) == Target(text);
        }
      }
    }
  }

  lemma OrderAfter(linktype: nat, ps: seq<Bytes>, f: Findings, g: Findings)
    requires ps != [] && g == Add(f, LinuxSees(linktype, ps[|ps| - 1]))
    requires Summarises(linktype, f, ps[..|ps| - 1])
    ensures forall a, b, i, j | 0 <= a < b < |g.dns| && 0 <= i < |ps| && 0 <= j < |ps|
              && FirstAsked(linktype, ps, i, g.dns[a]) && FirstAsked(linktype, ps, j, g.dns[b]) :: i < j
  {
    hide LinuxSees;
    var n := |ps| - 1;
    forall j, name | 0 <= j < n && AsksFor(linktype, ps, j, name) ensures name in f.dns {
      assert AsksFor(linktype, ps[..n], j, name);
    }
    forall a, b, i, j | 0 <= a < b < |g.dns| && 0 <= i < |ps| && 0 <= j < |ps|
      && FirstAsked(linktype, ps, i, g.dns[a]) && FirstAsked(linktype, ps, j, g.dns[b])
      ensures i < j
    {
      assert a < |f.dns| && g.dns[a] == f.dns[a] && f.dns[a] in f.dns;
      var k :| 0 <= k < n && AsksFor(linktype, ps[..n], k, f.dns[a]);
      assert AsksFor(linktype, ps, k, f.dns[a]) && i <= k;
      assert FirstAsked(linktype, ps[..n], i, f.dns[a]) by {
        assert forall j | 0 <= j < i :: AsksFor(linktype, ps[..n], j, f.dns[a]) ==> AsksFor(linktype, ps, j, f.dns[a]);
      }
      if b < |f.dns| && j < n {
        assert g.dns[b] == f.dns[b];
        assert FirstAsked(linktype, ps[..n], j, f.dns[b]) by {
          assert forall m | 0 <= m < j ::
            AsksFor(linktype, ps[..n], m, f.dns[b]) ==> AsksFor(linktype, ps, m, f.dns[b]);
        }
      }
    }
  }
}
