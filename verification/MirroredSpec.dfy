/** Noninterference of the stored specification over whole runs, with the dictionaries that a
    submission and a promotion share: below the mirrors a fact can follow an agent, elsewhere none does. */
module MirroredSpec {
  import opened Wrappers
  import opened SpecPolicy
  import opened SpecDocument
  import opened EnvSpec
  import opened SharedSpec

  // ----------------------------------------------------------------------------------------
  // Sharing only below the mirrors
  // ----------------------------------------------------------------------------------------

  predicate Outside(p: seq<string>, mirrors: set<seq<string>>) {
    forall m | m in mirrors :: !(m <= p)
  }

  predicate Apart(p: seq<string>, mirrors: set<seq<string>>) {
    forall m | m in mirrors :: !Comparable(m, p)
  }

  ghost predicate LeadsTo(h: Heap, root: nat, p: seq<string>, r: nat) {
    StoreRead(h, Ref(root), p) == Some(Ref(r))
  }

  /** Outside the mirrors every dictionary is reached by one path only. */
  ghost predicate SharedOnlyBelow(h: Heap, root: nat, mirrors: set<seq<string>>) {
    forall p, q, r | Outside(p, mirrors) && Outside(q, mirrors) && LeadsTo(h, root, p, r) && LeadsTo(h, root, q, r) ::
      p == q
  }

  lemma {:induction false} ReadOn(h: Heap, s: Slot, p: seq<string>, q: seq<string>)
    ensures StoreRead(h, s, p + q) ==
            if StoreRead(h, s, p).Some? then StoreRead(h, StoreRead(h, s, p).value, q) else None
    decreases |p|
  {
    if p == [] {
      assert p + q == q;
    } else if s.Ref? && s.id in h && p[0] in h[s.id] {
      assert (p + q)[1..] == p[1..] + q;
      ReadOn(h, h[s.id][p[0]], p[1..], q);
    }
  }

  lemma OutsidePrefix(p: seq<string>, i: nat, mirrors: set<seq<string>>)
    requires i <= |p| && Outside(p, mirrors)
    ensures Outside(p[..i], mirrors)
  {
    forall m | m in mirrors ensures !(m <= p[..i]) {
      assert m <= p[..i] ==> m <= p;
    }
  }

  lemma ApartExtends(p: seq<string>, q: seq<string>, mirrors: set<seq<string>>)
    requires Apart(p, mirrors)
    ensures Outside(p + q, mirrors)
  {
    forall m | m in mirrors ensures !(m <= p + q) {
      PrefixOfJoin(m, p, q);
    }
  }

  lemma PrefixOfJoin(m: seq<string>, p: seq<string>, q: seq<string>)
    ensures m <= p + q ==> Comparable(m, p)
  {
  }

  /** The written dictionary is where the key's own walk leads. */
  lemma {:induction false} SpotOnKey(h: Heap, next: nat, cur: nat, segs: seq<string>) returns (i: nat)
    requires |segs| >= 1 && cur in h && WellFormed(h, next)
    ensures var sp := WrittenSpot(h, next, cur, segs);
            i < |segs| && LeadsTo(h, cur, segs[..i], sp.dict) && segs[i] == sp.key && segs[i + 1..] == sp.tail
    decreases |segs|
  {
    if |segs| > 1 && segs[0] in h[cur] && h[cur][segs[0]].Ref? {
      var j := SpotOnKey(h, next, h[cur][segs[0]].id, segs[1..]);
      i := j + 1;
      assert segs[1..][..j] == segs[..i][1..];
      assert segs[1..][j + 1..] == segs[i + 1..];
    } else {
      i := 0;
    }
  }

  lemma {:induction false} WalkTouches(h: Heap, s: Slot, path: seq<string>, sp: Spot) returns (i: nat)
    requires Touches(h, s, path, sp)
    ensures i < |path| && StoreRead(h, s, path[..i]) == Some(Ref(sp.dict)) && path[i] == sp.key
    ensures Comparable(path[i + 1..], sp.tail)
    decreases |path|
  {
    if s.id == sp.dict && path[0] == sp.key && Comparable(path[1..], sp.tail) {
      i := 0;
    } else {
      var j := WalkTouches(h, h[s.id][path[0]], path[1..], sp);
      i := j + 1;
      assert path[1..][..j] == path[..i][1..];
      assert path[1..][j + 1..] == path[i + 1..];
    }
  }

  lemma {:induction false} FootIsReached(h: Heap, s: Slot, v: Value, r: nat) returns (q: seq<string>)
    requires Shows(h, s, v) && r in Foot(h, s, v)
    ensures StoreRead(h, s, q) == Some(Ref(r))
    decreases v
  {
    if s.id == r {
      q := [];
    } else {
      var k :| k in v.fields && r in Foot(h, h[s.id][k], v.fields[k]);
      var t := FootIsReached(h, h[s.id][k], v.fields[k], r);
      q := [k] + t;
      assert q[1..] == t;
    }
  }

  lemma {:induction false} ReachedIsFoot(h: Heap, s: Slot, v: Value, p: seq<string>, r: nat)
    requires Shows(h, s, v) && StoreRead(h, s, p) == Some(Ref(r))
    ensures r in Foot(h, s, v)
    decreases v
  {
    if p != [] {
      ReachedIsFoot(h, h[s.id][p[0]], v.fields[p[0]], p[1..], r);
    }
  }

  lemma {:induction false} UnsharedPathsAreUnique(h: Heap, s: Slot, v: Value, p: seq<string>, q: seq<string>, r: nat)
    requires Shows(h, s, v) && Unshared(h, s, v)
    requires StoreRead(h, s, p) == Some(Ref(r)) && StoreRead(h, s, q) == Some(Ref(r))
    ensures p == q
    decreases v
  {
    if p != [] {
      ReachedIsFoot(h, h[s.id][p[0]], v.fields[p[0]], p[1..], r);
    }
    if q != [] {
      ReachedIsFoot(h, h[s.id][q[0]], v.fields[q[0]], q[1..], r);
    }
    if p != [] && q != [] {
      if p[0] == q[0] {
        UnsharedPathsAreUnique(h, h[s.id][p[0]], v.fields[p[0]], p[1..], q[1..], r);
        assert p == [p[0]] + p[1..] && q == [q[0]] + q[1..];
      }
    }
  }

  lemma ApartIsOutside(p: seq<string>, mirrors: set<seq<string>>)
    requires Apart(p, mirrors)
    ensures Outside(p, mirrors)
  {
    ApartExtends(p, [], mirrors);
    assert p + [] == p;
  }

  /** A walk apart from the mirrors that reads the written slot along the key is related to the key. */
  lemma TouchingPathIsRelated(h: Heap, next: nat, root: nat, segs: seq<string>, path: seq<string>,
                              mirrors: set<seq<string>>)
    requires |segs| >= 1 && root in h && WellFormed(h, next)
    requires SharedOnlyBelow(h, root, mirrors) && Outside(segs[..|segs| - 1], mirrors) && Apart(path, mirrors)
    requires Touches(h, Ref(root), path, WrittenSpot(h, next, root, segs))
    ensures Comparable(segs, path)
  {
    hide Touches, StoreRead, Outside, Apart, WrittenSpot, Comparable;
    var sp := WrittenSpot(h, next, root, segs);
    var i := SpotOnKey(h, next, root, segs);
    var j := WalkTouches(h, Ref(root), path, sp);
    OutsidePrefix(segs[..|segs| - 1], i, mirrors);
    assert segs[..|segs| - 1][..i] == segs[..i];
    ApartIsOutside(path, mirrors);
    OutsidePrefix(path, j, mirrors);
    assert LeadsTo(h, root, path[..j], sp.dict);
    SameWalk(segs, i, path, j);
  }

  lemma SameWalk(p: seq<string>, i: nat, q: seq<string>, j: nat)
    requires i < |p| && j < |q| && p[..i] == q[..j] && p[i] == q[j] && Comparable(p[i + 1..], q[j + 1..])
    ensures Comparable(p, q)
  {
    var start := p[..i] + [p[i]];
    assert p == start + p[i + 1..];
    assert q == start + q[j + 1..];
    SameStart(start, p[i + 1..], q[j + 1..]);
  }

  /** A value apart from the mirrors that holds the written dictionary is on the key's walk. */
  lemma ChangedValueIsRelated(h: Heap, next: nat, root: nat, segs: seq<string>, path: seq<string>, w: Option<Value>,
                              mirrors: set<seq<string>>)
    requires |segs| >= 1 && root in h && WellFormed(h, next) && ReadsAs(h, root, path, w)
    requires SharedOnlyBelow(h, root, mirrors) && Outside(segs[..|segs| - 1], mirrors) && Apart(path, mirrors)
    requires WrittenSpot(h, next, root, segs).dict in FootAt(h, root, path, w)
    ensures Comparable(segs, path)
  {
    hide Shows, Foot, StoreRead, Outside, Apart;
    var sp := WrittenSpot(h, next, root, segs);
    var i := SpotOnKey(h, next, root, segs);
    OutsidePrefix(segs[..|segs| - 1], i, mirrors);
    assert segs[..|segs| - 1][..i] == segs[..i];
    var q := FootIsReached(h, StoreRead(h, Ref(root), path).value, w.value, sp.dict);
    ReadOn(h, Ref(root), path, q);
    ApartExtends(path, q, mirrors);
    assert LeadsTo(h, root, path + q, sp.dict);
    assert path <= segs[..i];
  }

  /** A key whose walk stays outside the mirrors: its write neither lies on the walk to an unrelated path
      apart from the mirrors, nor in the value there. */
  lemma SpotAvoids(h: Heap, next: nat, root: nat, segs: seq<string>, path: seq<string>, w: Option<Value>,
                   mirrors: set<seq<string>>)
    requires |segs| >= 1 && root in h && WellFormed(h, next) && ReadsAs(h, root, path, w)
    requires SharedOnlyBelow(h, root, mirrors) && Outside(segs[..|segs| - 1], mirrors) && Apart(path, mirrors)
    requires !Comparable(segs, path)
    ensures var sp := WrittenSpot(h, next, root, segs);
            !Touches(h, Ref(root), path, sp) && sp.dict !in FootAt(h, root, path, w)
  {
    hide Touches, FootAt, StoreRead, Apart, SharedOnlyBelow, Comparable, Outside;
    if Touches(h, Ref(root), path, WrittenSpot(h, next, root, segs)) {
      TouchingPathIsRelated(h, next, root, segs, path, mirrors);
    }
    if WrittenSpot(h, next, root, segs).dict in FootAt(h, root, path, w) {
      ChangedValueIsRelated(h, next, root, segs, path, w, mirrors);
    }
  }

  lemma ApartStartsOutside(segs: seq<string>, mirrors: set<seq<string>>)
    requires |segs| >= 1 && Apart(segs, mirrors)
    ensures Outside(segs[..|segs| - 1], mirrors)
  {
    hide Apart, Outside;
    ApartIsOutside(segs, mirrors);
    OutsidePrefix(segs, |segs| - 1, mirrors);
  }

  lemma SameStart(p: seq<string>, a: seq<string>, b: seq<string>)
    requires Comparable(a, b)
    ensures Comparable(p + a, p + b)
  {
  }

  // ----------------------------------------------------------------------------------------
  // Writes apart from the mirrors share nothing new
  // ----------------------------------------------------------------------------------------

  /** What the written slot holds after a write of an object of its own. */
  function Content(tail: seq<string>, x: Value): Value {
    if tail == [] then x else Obj(Put(map[], tail, x))
  }

  /** The written slot shows what was written, unshared and made of none of the dictionaries `before`. */
  ghost predicate HoldsContent(h': Heap, sp: Spot, x: Value, before: set<nat>) {
    && sp.dict in h' && sp.key in h'[sp.dict]
    && var c, v := h'[sp.dict][sp.key], Content(sp.tail, x);
       Shows(h', c, v) && Unshared(h', c, v) && Foot(h', c, v) !! before
  }

  lemma ContentDirect(h: Heap, next: nat, cur: nat, segs: seq<string>, slot: Slot, x: Value, before: set<nat>)
    requires |segs| == 1 && cur in h && WellFormed(h, next)
    requires Shows(h, slot, x) && Unshared(h, slot, x) && Foot(h, slot, x) !! before && cur in before
             && before <= h.Keys
    ensures HoldsContent(StoreWrite(h, next, cur, segs, slot).0, WrittenSpot(h, next, cur, segs), x, before)
  {
    hide Shows, Unshared, Foot;
    FootInHeap(h, slot, x);
    ShowsFrame(h, StoreWrite(h, next, cur, segs, slot).0, slot, x);
  }

  lemma ContentFresh(h: Heap, next: nat, cur: nat, segs: seq<string>, slot: Slot, x: Value, before: set<nat>)
    requires |segs| > 1 && cur in h && WellFormed(h, next) && !(segs[0] in h[cur] && h[cur][segs[0]].Ref?)
    requires Shows(h, slot, x) && Unshared(h, slot, x) && Foot(h, slot, x) !! before && cur in before
             && before <= h.Keys
    ensures HoldsContent(StoreWrite(h, next, cur, segs, slot).0, WrittenSpot(h, next, cur, segs), x, before)
  {
    hide Shows, Unshared, Foot, StoreWrite, WrittenSpot;
    SlotInHeap(h, slot, x);
    FootInHeap(h, slot, x);
    var h1 := Linked(h, next, cur, segs[0]);
    EmptyDictionary(h1, next);
    ShowsFrame(h, h1, slot, x);
    StoreWriteIsPut(h1, next + 1, next, map[], segs[1..], slot, x);
    InsideFresh(h, next, cur, segs, slot);
  }

  lemma {:induction false} WrittenContent(h: Heap, next: nat, cur: nat, segs: seq<string>, slot: Slot, x: Value,
                                          before: set<nat>)
    requires |segs| >= 1 && cur in h && WellFormed(h, next)
    requires Shows(h, slot, x) && Unshared(h, slot, x) && Foot(h, slot, x) !! before && cur in before
             && before <= h.Keys
    requires forall q, j | q in before && j in h[q] && h[q][j].Ref? :: h[q][j].id in before
    ensures HoldsContent(StoreWrite(h, next, cur, segs, slot).0, WrittenSpot(h, next, cur, segs), x, before)
    decreases |segs|
  {
    hide Shows, Unshared, Foot, HoldsContent;
    if |segs| == 1 {
      ContentDirect(h, next, cur, segs, slot, x, before);
    } else if segs[0] in h[cur] && h[cur][segs[0]].Ref? {
      WrittenContent(h, next, h[cur][segs[0]].id, segs[1..], slot, x, before);
    } else {
      ContentFresh(h, next, cur, segs, slot, x, before);
    }
  }

  /** Where a path outside the mirrors leads after a write: past the written slot into what was
      written, and otherwise where it led before. */
  lemma ReadAfterWrite(h: Heap, next: nat, root: nat, segs: seq<string>, slot: Slot, i: nat, p: seq<string>,
                       mirrors: set<seq<string>>)
    requires |segs| >= 1 && root in h && WellFormed(h, next) && (slot.Ref? ==> slot.id in h)
    requires SharedOnlyBelow(h, root, mirrors) && Outside(p, mirrors)
    requires i < |segs| && Outside(segs[..|segs| - 1], mirrors)
    requires var sp := WrittenSpot(h, next, root, segs);
             LeadsTo(h, root, segs[..i], sp.dict) && segs[i] == sp.key && segs[i + 1..] == sp.tail
    ensures var (h', sp) := (StoreWrite(h, next, root, segs, slot).0, WrittenSpot(h, next, root, segs));
            && sp.dict in h' && sp.key in h'[sp.dict]
            && StoreRead(h', Ref(root), p)
            == if segs[..i + 1] <= p then StoreRead(h', h'[sp.dict][sp.key], p[i + 1..]) else StoreRead(h, Ref(root), p)
  {
    hide StoreRead, StoreWrite, WrittenSpot, SharedOnlyBelow, Outside, Apart, Touches;
    var sp := WrittenSpot(h, next, root, segs);
    var h' := StoreWrite(h, next, root, segs, slot).0;
    OneSlotChanges(h, next, root, segs, slot);
    forall rest | !Comparable(rest, sp.tail) ensures StoreRead(h', h'[sp.dict][sp.key], rest) == None {
      InsideWritten(h, next, root, segs, slot, rest);
    }
    if segs[..i + 1] <= p {
      KeyStartUntouched(h, next, root, segs, i, mirrors);
      UntouchedWalk(h, h', Ref(root), segs[..i], sp);
      assert p == segs[..i] + p[i..];
      ReadOn(h', Ref(root), segs[..i], p[i..]);
      ReadOne(h', sp.dict, p[i..]);
      assert p[i] == segs[..i + 1][i] && p[i..][1..] == p[i + 1..];
    } else {
      OtherStartUntouched(h, next, root, segs, i, p, mirrors);
      UntouchedWalk(h, h', Ref(root), p, sp);
    }
  }

  lemma ReadOne(h: Heap, r: nat, p: seq<string>)
    requires p != [] && r in h && p[0] in h[r]
    ensures StoreRead(h, Ref(r), p) == StoreRead(h, h[r][p[0]], p[1..])
  {
  }

  /** A path outside the mirrors reads the written slot only by starting as the key does. */
  lemma TouchStartsAsKey(h: Heap, root: nat, segs: seq<string>, i: nat, sp: Spot, p: seq<string>,
                         mirrors: set<seq<string>>)
    requires SharedOnlyBelow(h, root, mirrors) && i < |segs| && Outside(segs[..|segs| - 1], mirrors)
             && Outside(p, mirrors)
    requires LeadsTo(h, root, segs[..i], sp.dict) && segs[i] == sp.key && Touches(h, Ref(root), p, sp)
    ensures segs[..i + 1] <= p
  {
    hide StoreRead, Touches, Outside, Apart;
    OutsidePrefix(segs[..|segs| - 1], i, mirrors);
    assert segs[..|segs| - 1][..i] == segs[..i];
    var j := WalkTouches(h, Ref(root), p, sp);
    OutsidePrefix(p, j, mirrors);
    assert LeadsTo(h, root, p[..j], sp.dict);
    assert segs[..i + 1] == segs[..i] + [segs[i]];
    assert p[..j + 1] == p[..j] + [p[j]];
  }

  lemma KeyStartUntouched(h: Heap, next: nat, root: nat, segs: seq<string>, i: nat, mirrors: set<seq<string>>)
    requires |segs| >= 1 && root in h && WellFormed(h, next) && i < |segs|
    requires SharedOnlyBelow(h, root, mirrors) && Outside(segs[..|segs| - 1], mirrors)
    requires var sp := WrittenSpot(h, next, root, segs); LeadsTo(h, root, segs[..i], sp.dict) && segs[i] == sp.key
    ensures !Touches(h, Ref(root), segs[..i], WrittenSpot(h, next, root, segs))
  {
    hide StoreRead, Touches, Outside, SharedOnlyBelow, WrittenSpot;
    OutsidePrefix(segs[..|segs| - 1], i, mirrors);
    assert segs[..|segs| - 1][..i] == segs[..i];
    if Touches(h, Ref(root), segs[..i], WrittenSpot(h, next, root, segs)) {
      TouchStartsAsKey(h, root, segs, i, WrittenSpot(h, next, root, segs), segs[..i], mirrors);
    }
  }

  lemma OtherStartUntouched(h: Heap, next: nat, root: nat, segs: seq<string>, i: nat, p: seq<string>,
                            mirrors: set<seq<string>>)
    requires |segs| >= 1 && root in h && WellFormed(h, next) && i < |segs|
    requires SharedOnlyBelow(h, root, mirrors) && Outside(segs[..|segs| - 1], mirrors)
    requires Outside(p, mirrors) && !(segs[..i + 1] <= p)
    requires var sp := WrittenSpot(h, next, root, segs); LeadsTo(h, root, segs[..i], sp.dict) && segs[i] == sp.key
    ensures !Touches(h, Ref(root), p, WrittenSpot(h, next, root, segs))
  {
    hide StoreRead, Touches, Outside, SharedOnlyBelow, WrittenSpot;
    if Touches(h, Ref(root), p, WrittenSpot(h, next, root, segs)) {
      TouchStartsAsKey(h, root, segs, i, WrittenSpot(h, next, root, segs), p, mirrors);
    }
  }

  /** A write apart from the mirrors of an object of its own shares nothing outside the mirrors. */
  lemma WriteSharesNothing(h: Heap, next: nat, root: nat, segs: seq<string>, mirrors: set<seq<string>>,
                           h1: Heap, next1: nat, slot: Slot, x: Value)
    requires |segs| >= 1 && root in h && WellFormed(h, next) && HandedOver(h, next, h1, next1, slot, x)
    requires SharedOnlyBelow(h, root, mirrors) && Apart(segs, mirrors)
    ensures SharedOnlyBelow(StoreWrite(h1, next1, root, segs, slot).0, root, mirrors)
  {
    hide StoreRead, StoreWrite, WrittenSpot, Shows, Unshared, Foot, Outside, Apart, Content;
    var sp := WrittenSpot(h1, next1, root, segs);
    var h' := StoreWrite(h1, next1, root, segs, slot).0;
    SlotInHeap(h1, slot, x);
    WrittenContent(h1, next1, root, segs, slot, x, h.Keys);
    var i := SpotOnKey(h1, next1, root, segs);
    SharedOnlyBelowExtended(h, next, h1, root, mirrors);
    ApartStartsOutside(segs, mirrors);
    forall p, q, r | Outside(p, mirrors) && Outside(q, mirrors) && LeadsTo(h', root, p, r) && LeadsTo(h', root, q, r)
      ensures p == q
    {
      ReadAfterWrite(h1, next1, root, segs, slot, i, p, mirrors);
      ReadAfterWrite(h1, next1, root, segs, slot, i, q, mirrors);
      ReadExtended(h, h1, Ref(root), p);
      ReadExtended(h, h1, Ref(root), q);
      var c, v := h'[sp.dict][sp.key], Content(sp.tail, x);
      if segs[..i + 1] <= p {
        ReachedIsFoot(h', c, v, p[i + 1..], r);
        assert r !in h;
      }
      if segs[..i + 1] <= q {
        ReachedIsFoot(h', c, v, q[i + 1..], r);
        assert r !in h;
      }
      if segs[..i + 1] <= p && segs[..i + 1] <= q {
        UnsharedPathsAreUnique(h', c, v, p[i + 1..], q[i + 1..], r);
        assert p == segs[..i + 1] + p[i + 1..] && q == segs[..i + 1] + q[i + 1..];
      } else {
        assert LeadsTo(h1, root, p, r) && LeadsTo(h1, root, q, r);
      }
    }
  }

  lemma SharedOnlyBelowExtended(h: Heap, next: nat, h1: Heap, root: nat, mirrors: set<seq<string>>)
    requires root in h && WellFormed(h, next) && forall q | q in h :: q in h1 && h1[q] == h[q]
    requires SharedOnlyBelow(h, root, mirrors)
    ensures SharedOnlyBelow(h1, root, mirrors)
  {
    hide StoreRead, Outside;
    forall p, r ensures LeadsTo(h1, root, p, r) == LeadsTo(h, root, p, r) {
      ReadExtended(h, h1, Ref(root), p);
    }
  }

  // ----------------------------------------------------------------------------------------
  // The mirrors of a submission and of a promotion
  // ----------------------------------------------------------------------------------------

  /** Where the controller stores an object that holds live parts of the document: the effective
      configuration of a submission, and the promoted report. */
  const MIRROR_KEYS := {"sandbox.actual", "cape_submission.actual", "report"}

  function Mirrors(): set<seq<string>> {
    set m | m in MIRROR_KEYS :: Segments(m)
  }

  lemma MirrorsAreOwned(m: string)
    requires m in MIRROR_KEYS
    ensures OwnedByController(m)
  {
    var sandbox, submission, report := CONTROLLER_OWNED[7], CONTROLLER_OWNED[6], CONTROLLER_OWNED[2];
    if m == "sandbox.actual" {
      assert "actual" in sandbox.names && m == "sandbox" + "." + "actual";
      ListedByRow(CONTROLLER_OWNED, sandbox, m);
    } else if m == "cape_submission.actual" {
      assert "actual" in submission.names && m == "cape_submission" + "." + "actual";
      ListedByRow(CONTROLLER_OWNED, submission, m);
    } else {
      ListedByRow(CONTROLLER_OWNED, report, m);
    }
  }

  /** What a role may write lies apart from the mirrors. */
  lemma WritableIsApart(actor: string, key: string)
    requires MayWrite(actor, key)
    ensures Apart(Segments(key), Mirrors())
  {
    hide MayWrite, OwnedByController, MIRROR_KEYS;
    forall p | p in Mirrors() ensures !Comparable(p, Segments(key)) {
      var m :| m in MIRROR_KEYS && Segments(m) == p;
      MirrorsAreOwned(m);
      WritableNeverTouchesOwned(actor, key, m);
    }
  }

  /** One write to the stored document. `mid` is the heap once the object to be stored has been built:
      an agent's out of dictionaries of its own, a mirrored one out of any. */
  datatype StoreStep =
    | AgentStep(actor: string, key: string, mid: Heap, midNext: nat, slot: Slot, value: Value)
    | MirrorStep(key: string, mid: Heap, midNext: nat, slot: Slot)

  ghost predicate Admissible(h: Heap, next: nat, root: nat, step: StoreStep) {
    match step
    case AgentStep(actor, _, mid, midNext, slot, value) =>
      actor != CONTROLLER && HandedOver(h, next, mid, midNext, slot, value)
    case MirrorStep(key, mid, midNext, slot) =>
      && key in MIRROR_KEYS && WellFormed(mid, midNext) && next <= midNext && (slot.Ref? ==> slot.id in mid)
      && (forall q | q in h :: q in mid && mid[q] == h[q])
  }

  ghost function AfterStep(h: Heap, next: nat, root: nat, step: StoreStep, alnum: char -> bool): (Heap, nat)
    requires root in h && WellFormed(h, next) && Admissible(h, next, root, step)
  {
    match step
    case AgentStep(actor, key, mid, midNext, slot, value) =>
      if CheckWrite(key, value, actor, alnum) == Accepted then StoreWrite(mid, midNext, root, Segments(key), slot)
      else (mid, midNext)
    case MirrorStep(key, mid, midNext, slot) => StoreWrite(mid, midNext, root, Segments(key), slot)
  }

  lemma MirrorStartsOutside(segs: seq<string>, mirrors: set<seq<string>>)
    requires segs in mirrors && |segs| >= 1 && forall m | m in mirrors && m != segs :: !Comparable(m, segs)
    ensures Outside(segs[..|segs| - 1], mirrors)
  {
    forall m | m in mirrors ensures !(m <= segs[..|segs| - 1]) {
      assert m <= segs[..|segs| - 1] ==> m <= segs;
    }
  }

  /** A fresh chain below the written slot: its dictionaries are new, one for each step. */
  lemma {:induction false} ChainRead(h: Heap, next: nat, cur: nat, segs: seq<string>, slot: Slot, rest: seq<string>)
    requires |segs| >= 1 && cur in h && WellFormed(h, next) && (slot.Ref? ==> slot.id in h)
    requires rest < WrittenSpot(h, next, cur, segs).tail
    ensures var (h', sp) := (StoreWrite(h, next, cur, segs, slot).0, WrittenSpot(h, next, cur, segs));
            sp.dict in h' && sp.key in h'[sp.dict]
            && StoreRead(h', h'[sp.dict][sp.key], rest) == Some(Ref(next + |rest|))
    decreases |segs|
  {
    hide StoreWrite;
    WalkStep(h, next, cur, segs, slot);
    if segs[0] in h[cur] && h[cur][segs[0]].Ref? {
      ChainRead(h, next, h[cur][segs[0]].id, segs[1..], slot, rest);
    } else {
      InsideFresh(h, next, cur, segs, slot);
      if rest != [] {
        assert rest[0] == segs[1..][0] && rest[1..] < segs[2..];
        ChainRead(Linked(h, next, cur, segs[0]), next + 1, next, segs[1..], slot, rest[1..]);
      }
    }
  }

  /** A path outside the mirrors that runs into the slot of a mirror ends on the chain to it. */
  lemma MirrorIsEntered(h: Heap, next: nat, root: nat, segs: seq<string>, slot: Slot, i: nat, p: seq<string>, r: nat,
                        mirrors: set<seq<string>>)
    requires |segs| >= 1 && root in h && WellFormed(h, next) && (slot.Ref? ==> slot.id in h)
    requires segs in mirrors && Outside(p, mirrors) && i < |segs| && segs[..i + 1] <= p
    requires var (h', sp) := (StoreWrite(h, next, root, segs, slot).0, WrittenSpot(h, next, root, segs));
             segs[i + 1..] == sp.tail && sp.dict in h' && sp.key in h'[sp.dict]
             && StoreRead(h', h'[sp.dict][sp.key], p[i + 1..]) == Some(Ref(r))
    ensures p < segs && r == next + (|p| - i - 1)
  {
    hide StoreRead, StoreWrite, WrittenSpot;
    var sp := WrittenSpot(h, next, root, segs);
    InsideWritten(h, next, root, segs, slot, p[i + 1..]);
    assert p == segs[..i + 1] + p[i + 1..] && segs == segs[..i + 1] + sp.tail;
    assert sp.tail <= p[i + 1..] ==> segs <= p;
    assert p[i + 1..] < sp.tail;
    ChainRead(h, next, root, segs, slot, p[i + 1..]);
  }

  /** Storing a mirror shares nothing outside the mirrors, whatever object is stored. */
  lemma MirrorSharesNothing(h: Heap, next: nat, root: nat, segs: seq<string>, mid: Heap, midNext: nat, slot: Slot,
                            mirrors: set<seq<string>>)
    requires |segs| >= 1 && root in h && WellFormed(h, next) && SharedOnlyBelow(h, root, mirrors)
    requires segs in mirrors && Outside(segs[..|segs| - 1], mirrors)
    requires WellFormed(mid, midNext) && (forall q | q in h :: q in mid && mid[q] == h[q])
             && (slot.Ref? ==> slot.id in mid)
    ensures SharedOnlyBelow(StoreWrite(mid, midNext, root, segs, slot).0, root, mirrors)
  {
    hide StoreRead, StoreWrite, WrittenSpot, Outside;
    var h' := StoreWrite(mid, midNext, root, segs, slot).0;
    var i := SpotOnKey(mid, midNext, root, segs);
    SharedOnlyBelowExtended(h, next, mid, root, mirrors);
    forall p, q, r | Outside(p, mirrors) && Outside(q, mirrors) && LeadsTo(h', root, p, r) && LeadsTo(h', root, q, r)
      ensures p == q
    {
      ReadAfterWrite(mid, midNext, root, segs, slot, i, p, mirrors);
      ReadAfterWrite(mid, midNext, root, segs, slot, i, q, mirrors);
      ReadExtended(mid, mid, Ref(root), p);
      ReadExtended(mid, mid, Ref(root), q);
      if segs[..i + 1] <= p {
        MirrorIsEntered(mid, midNext, root, segs, slot, i, p, r, mirrors);
        assert r !in mid;
      }
      if segs[..i + 1] <= q {
        MirrorIsEntered(mid, midNext, root, segs, slot, i, q, r, mirrors);
        assert r !in mid;
      }
      if !(segs[..i + 1] <= p) && !(segs[..i + 1] <= q) {
        assert LeadsTo(mid, root, p, r) && LeadsTo(mid, root, q, r);
      }
    }
  }

  /** ... and keeps the value of every fact apart from the mirrors. */
  lemma MirrorWriteKeepsFact(h: Heap, next: nat, root: nat, segs: seq<string>, mid: Heap, midNext: nat, slot: Slot,
                             p: seq<string>, w: Option<Value>, mirrors: set<seq<string>>)
    requires |segs| >= 1 && root in h && WellFormed(h, next) && SharedOnlyBelow(h, root, mirrors)
    requires segs in mirrors && Outside(segs[..|segs| - 1], mirrors) && Apart(p, mirrors)
    requires WellFormed(mid, midNext) && (forall q | q in h :: q in mid && mid[q] == h[q])
             && (slot.Ref? ==> slot.id in mid)
    requires ReadsAs(h, root, p, w)
    ensures ReadsAs(StoreWrite(mid, midNext, root, segs, slot).0, root, p, w)
  {
    hide Outside, SharedOnlyBelow, WrittenSpot, Touches, FootAt, StoreRead, StoreWrite;
    SpotAvoids(h, next, root, segs, p, w, mirrors);
    AvoidedFactStays(h, next, root, segs, p, w, mid, midNext, slot);
  }

  // ----------------------------------------------------------------------------------------
  // Whole runs
  // ----------------------------------------------------------------------------------------

  /** The state a run of the store keeps: references resolve, and sharing is below the mirrors. */
  ghost predicate Kept(h: Heap, next: nat, root: nat) {
    root in h && WellFormed(h, next) && SharedOnlyBelow(h, root, Mirrors())
  }

  lemma MirrorsAreIncomparable(m: string)
    requires m in MIRROR_KEYS
    ensures Segments(m) in Mirrors()
    ensures forall p | p in Mirrors() && p != Segments(m) :: !Comparable(p, Segments(m))
  {
    forall p | p in Mirrors() && p != Segments(m) ensures !Comparable(p, Segments(m)) {
      var n :| n in MIRROR_KEYS && Segments(n) == p;
      SegmentPrefixIsDottedPrefix(m, n);
      SegmentPrefixIsDottedPrefix(n, m);
      MirrorKeysDiffer(m, n);
    }
  }

  lemma MirrorKeysDiffer(m: string, n: string)
    requires m in MIRROR_KEYS && n in MIRROR_KEYS && m != n
    ensures !Related(m, n)
  {
    assert m[0] != n[0];
  }

  lemma StepKeepsSharing(h: Heap, next: nat, root: nat, step: StoreStep, alnum: char -> bool)
    requires Kept(h, next, root) && Admissible(h, next, root, step)
    ensures var (h', next') := AfterStep(h, next, root, step, alnum); Kept(h', next', root)
  {
    hide StoreRead, StoreWrite, SharedOnlyBelow, CheckWrite, MIRROR_KEYS, Mirrors, Shows, Unshared, Foot, MayWrite,
         WrittenSpot;
    match step {
      case AgentStep(actor, key, mid, midNext, slot, value) =>
        SlotInHeap(mid, slot, value);
        OneSlotChanges(mid, midNext, root, Segments(key), slot);
        SharedOnlyBelowExtended(h, next, mid, root, Mirrors());
        if CheckWrite(key, value, actor, alnum) == Accepted {
          AcceptedIsPermitted(key, value, actor, alnum);
          WritableIsApart(actor, key);
          WriteSharesNothing(h, next, root, Segments(key), Mirrors(), mid, midNext, slot, value);
        }
      case MirrorStep(key, mid, midNext, slot) =>
        OneSlotChanges(mid, midNext, root, Segments(key), slot);
        MirrorsAreIncomparable(key);
        MirrorStartsOutside(Segments(key), Mirrors());
        MirrorSharesNothing(h, next, root, Segments(key), mid, midNext, slot, Mirrors());
    }
  }

  lemma AcceptedIsPermitted(key: string, value: Value, actor: string, alnum: char -> bool)
    requires actor != CONTROLLER && CheckWrite(key, value, actor, alnum) == Accepted
    ensures MayWrite(actor, key)
  {
    hide MayWrite, GoodKey, FitsSchema;
  }

  lemma StepKeepsFact(h: Heap, next: nat, root: nat, step: StoreStep, alnum: char -> bool, path: string,
                      w: Option<Value>)
    requires Kept(h, next, root) && Admissible(h, next, root, step)
    requires OwnedByController(path) && (forall m | m in MIRROR_KEYS :: !Related(m, path))
             && ReadsAs(h, root, Segments(path), w)
    ensures ReadsAs(AfterStep(h, next, root, step, alnum).0, root, Segments(path), w)
  {
    hide StoreRead, StoreWrite, SharedOnlyBelow, CheckWrite, Shows, Unshared, Foot, MayWrite, WrittenSpot,
         OwnedByController, MIRROR_KEYS, Touches, FootAt;
    UnrelatedIsApart(path);
    match step {
      case AgentStep(actor, key, mid, midNext, slot, value) =>
        if CheckWrite(key, value, actor, alnum) == Accepted {
          AcceptedIsPermitted(key, value, actor, alnum);
          WritableIsApart(actor, key);
          WritableNeverTouchesOwned(actor, key, path);
          ApartStartsOutside(Segments(key), Mirrors());
          SpotAvoids(h, next, root, Segments(key), Segments(path), w, Mirrors());
          AvoidingWriteKeepsValue(h, next, root, Segments(key), Segments(path), w, mid, midNext, slot, value);
        } else {
          ExtensionKeepsValue(h, next, root, Segments(path), w, mid);
        }
      case MirrorStep(key, mid, midNext, slot) =>
        MirrorsAreIncomparable(key);
        MirrorStartsOutside(Segments(key), Mirrors());
        MirrorWriteKeepsFact(h, next, root, Segments(key), mid, midNext, slot, Segments(path), w, Mirrors());
    }
  }

  lemma UnrelatedIsApart(path: string)
    requires forall m | m in MIRROR_KEYS :: !Related(m, path)
    ensures Apart(Segments(path), Mirrors())
  {
    hide MIRROR_KEYS;
    forall p | p in Mirrors() ensures !Comparable(p, Segments(path)) {
      var m :| m in MIRROR_KEYS && Segments(m) == p;
      SegmentPrefixIsDottedPrefix(m, path);
      SegmentPrefixIsDottedPrefix(path, m);
    }
  }

  lemma ExtensionKeepsValue(h: Heap, next: nat, root: nat, path: seq<string>, w: Option<Value>, mid: Heap)
    requires root in h && WellFormed(h, next) && ReadsAs(h, root, path, w)
    requires forall q | q in h :: q in mid && mid[q] == h[q]
    ensures ReadsAs(mid, root, path, w)
  {
    hide StoreRead, Shows, Foot;
    ReadExtended(h, mid, Ref(root), path);
    if w.Some? {
      var s := StoreRead(h, Ref(root), path).value;
      FootInHeap(h, s, w.value);
      ShowsFrame(h, mid, s, w.value);
    }
  }

  /** Each step is admissible where it is taken. */
  ghost predicate ValidRun(h: Heap, next: nat, root: nat, steps: seq<StoreStep>, alnum: char -> bool)
    requires Kept(h, next, root)
    decreases |steps|
  {
    steps == [] ||
    (Admissible(h, next, root, steps[0]) &&
     (StepKeepsSharing(h, next, root, steps[0], alnum);
      var (h', next') := AfterStep(h, next, root, steps[0], alnum);
      ValidRun(h', next', root, steps[1..], alnum)))
  }

  ghost function AfterRun(h: Heap, next: nat, root: nat, steps: seq<StoreStep>, alnum: char -> bool): (Heap, nat)
    requires Kept(h, next, root) && ValidRun(h, next, root, steps, alnum)
    decreases |steps|
  {
    if steps == [] then (h, next)
    else
      StepKeepsSharing(h, next, root, steps[0], alnum);
      var (h', next') := AfterStep(h, next, root, steps[0], alnum);
      AfterRun(h', next', root, steps[1..], alnum)
  }

  /** Noninterference of the stored document: over every run of agent writes, and of the writes that
      store live parts of the document in the mirrors, every controller-owned fact apart from the
      mirrors, present or missing, keeps its value, and sharing stays below the mirrors. */
  lemma {:induction false} OwnedFactsOutliveRuns(h: Heap, next: nat, root: nat, steps: seq<StoreStep>,
                                                 alnum: char -> bool, path: string, w: Option<Value>)
    requires Kept(h, next, root) && ValidRun(h, next, root, steps, alnum)
    requires OwnedByController(path) && (forall m | m in MIRROR_KEYS :: !Related(m, path))
             && ReadsAs(h, root, Segments(path), w)
    ensures ReadsAs(AfterRun(h, next, root, steps, alnum).0, root, Segments(path), w)
    ensures Kept(AfterRun(h, next, root, steps, alnum).0, AfterRun(h, next, root, steps, alnum).1, root)
    decreases |steps|
  {
    hide Admissible, AfterStep, ReadsAs, SharedOnlyBelow, OwnedByController, MIRROR_KEYS, Related;
    if steps != [] {
      StepKeepsSharing(h, next, root, steps[0], alnum);
      StepKeepsFact(h, next, root, steps[0], alnum, path, w);
      var (h', next') := AfterStep(h, next, root, steps[0], alnum);
      OwnedFactsOutliveRuns(h', next', root, steps[1..], alnum, path, w);
    }
  }

  /** An unshared document shares nothing outside the mirrors, so every run starts kept. */
  lemma UnsharedIsKept(h: Heap, next: nat, root: nat, f: Fields)
    requires root in h && WellFormed(h, next) && Shows(h, Ref(root), Obj(f)) && Unshared(h, Ref(root), Obj(f))
    ensures Kept(h, next, root)
  {
    hide StoreRead, Shows, Unshared, Outside;
    forall p, q, r | LeadsTo(h, root, p, r) && LeadsTo(h, root, q, r) ensures p == q {
      UnsharedPathsAreUnique(h, Ref(root), Obj(f), p, q, r);
    }
  }

  // ----------------------------------------------------------------------------------------
  // Below a mirror a fact can follow an agent
  // ----------------------------------------------------------------------------------------

  /** Some path outside the mirrors leads to the dictionary. */
  ghost predicate ReachedOutside(h: Heap, root: nat, r: nat, mirrors: set<seq<string>>) {
    exists p :: Outside(p, mirrors) && LeadsTo(h, root, p, r)
  }

  /** A mirrored fact still survives every permitted write when nothing it is read through below the
      mirror, and nothing it is made of, is reached outside the mirrors. */
  lemma OwnPartsOfMirrorsSurvive(h: Heap, next: nat, root: nat, actor: string, key: string, path: string,
                                 w: Option<Value>, mid: Heap, midNext: nat, slot: Slot, x: Value)
    requires Kept(h, next, root) && HandedOver(h, next, mid, midNext, slot, x)
    requires MayWrite(actor, key) && OwnedByController(path) && ReadsAs(h, root, Segments(path), w)
    requires forall j, r | 0 <= j < |Segments(path)| && LeadsTo(h, root, Segments(path)[..j], r)
                           && !Outside(Segments(path)[..j], Mirrors()) :: !ReachedOutside(h, root, r, Mirrors())
    requires forall r | r in FootAt(h, root, Segments(path), w) :: !ReachedOutside(h, root, r, Mirrors())
    ensures ReadsAs(StoreWrite(mid, midNext, root, Segments(key), slot).0, root, Segments(path), w)
  {
    hide MayWrite, OwnedByController, StoreRead, Shows, Foot, FootAt, Touches, StoreWrite, Mirrors, Outside, Apart,
         Segments;
    var segs, p, ms := Segments(key), Segments(path), Mirrors();
    var sp := WrittenSpot(h, next, root, segs);
    var i := SpotOnKey(h, next, root, segs);
    WritableIsApart(actor, key);
    WritableNeverTouchesOwned(actor, key, path);
    ApartIsOutside(segs, ms);
    OutsidePrefix(segs, i, ms);
    assert ReachedOutside(h, root, sp.dict, ms);
    if Touches(h, Ref(root), p, sp) {
      TouchMeetsKey(h, root, segs, i, sp, p, ms);
    }
    AvoidingWriteKeepsValue(h, next, root, segs, p, w, mid, midNext, slot, x);
  }

  /** A touching walk reaches the written dictionary below a mirror, or is related to the key. */
  lemma TouchMeetsKey(h: Heap, root: nat, segs: seq<string>, i: nat, sp: Spot, p: seq<string>,
                      mirrors: set<seq<string>>)
    requires SharedOnlyBelow(h, root, mirrors) && i < |segs| && Outside(segs[..i], mirrors)
             && Touches(h, Ref(root), p, sp)
    requires LeadsTo(h, root, segs[..i], sp.dict) && segs[i] == sp.key && segs[i + 1..] == sp.tail
    ensures Comparable(segs, p)
            || exists j :: 0 <= j < |p| && LeadsTo(h, root, p[..j], sp.dict) && !Outside(p[..j], mirrors)
  {
    hide StoreRead, Touches, Outside, Comparable;
    var j := WalkTouches(h, Ref(root), p, sp);
    assert LeadsTo(h, root, p[..j], sp.dict);
    if Outside(p[..j], mirrors) {
      SameWalk(segs, i, p, j);
    }
  }

  lemma {:induction false} OneSegment(x: string)
    requires '.' !in x
    ensures Segments(x) == [x]
  {
    if x != "" {
      assert x == [x[0]] + x[1..];
      OneSegment(x[1..]);
    }
  }

  lemma TwoSegments(x: string, y: string)
    requires '.' !in x
    ensures Segments(x + "." + y) == [x] + Segments(y)
  {
    hide Segments;
    OneSegment(x);
    SegmentsAppend(x, y);
  }

  const MIRRORED_MONITORS := "sandbox.actual.proposed_monitors."

  lemma MonitorsPath(name: string)
    requires '.' !in name
    ensures Segments("monitors." + name) == ["monitors", name]
  {
    hide Segments;
    OneSegment(name);
    TwoSegments("monitors", name);
    assert "monitors" + "." + name == "monitors." + name;
  }

  lemma MirrorSpelling(name: string)
    ensures MIRRORED_MONITORS + name == "sandbox" + "." + ("actual" + "." + ("proposed_monitors" + "." + name))
  {
    assert MIRRORED_MONITORS == "sandbox" + "." + "actual" + "." + "proposed_monitors" + ".";
  }

  lemma MirrorPath(name: string)
    requires '.' !in name
    ensures Segments(MIRRORED_MONITORS + name) == ["sandbox", "actual", "proposed_monitors", name]
  {
    hide Segments, MIRRORED_MONITORS;
    OneSegment(name);
    MirrorSpelling(name);
    TwoSegments("proposed_monitors", name);
    TwoSegments("actual", "proposed_monitors" + "." + name);
    TwoSegments("sandbox", "actual" + "." + ("proposed_monitors" + "." + name));
  }

  /** The document after a submission: the mirror holds the live `monitors` dictionary itself. */
  ghost predicate MonitorsAreMirrored(h: Heap, root: nat, sandbox: nat, actual: nat, monitors: nat) {
    && root in h && sandbox in h && actual in h && monitors in h
    && "monitors" in h[root] && h[root]["monitors"] == Ref(monitors)
    && "sandbox" in h[root] && h[root]["sandbox"] == Ref(sandbox)
    && "actual" in h[sandbox] && h[sandbox]["actual"] == Ref(actual)
    && "proposed_monitors" in h[actual] && h[actual]["proposed_monitors"] == Ref(monitors)
    && monitors != root && monitors != sandbox && monitors != actual
  }

  lemma MirrorReadsOn(h: Heap, root: nat, sandbox: nat, actual: nat, monitors: nat, name: string)
    requires MonitorsAreMirrored(h, root, sandbox, actual, monitors)
    ensures StoreRead(h, Ref(root), ["sandbox", "actual", "proposed_monitors", name])
            == StoreRead(h, Ref(monitors), [name])
  {
    ReadOne(h, root, ["sandbox", "actual", "proposed_monitors", name]);
    assert ["sandbox", "actual", "proposed_monitors", name][1..] == ["actual", "proposed_monitors", name];
    ReadOne(h, sandbox, ["actual", "proposed_monitors", name]);
    assert ["actual", "proposed_monitors", name][1..] == ["proposed_monitors", name];
    ReadOne(h, actual, ["proposed_monitors", name]);
    assert ["proposed_monitors", name][1..] == [name];
  }

  lemma MonitorsWrite(h: Heap, next: nat, root: nat, sandbox: nat, actual: nat, monitors: nat, name: string, v: Value)
    requires WellFormed(h, next) && MonitorsAreMirrored(h, root, sandbox, actual, monitors)
    ensures StoreWrite(h, next, root, ["monitors", name], Leaf(v)).0 == h[monitors := h[monitors][name := Leaf(v)]]
  {
    assert ["monitors", name][1..] == [name];
  }

  /** After a submission what the Executor is allowed to write below `monitors` is what the
      controller-owned path below the mirror then reads. */
  lemma MirroredMonitorsFollowTheAgent(h: Heap, next: nat, root: nat, sandbox: nat, actual: nat, monitors: nat,
                                       name: string, v: Value, alnum: char -> bool)
    requires WellFormed(h, next) && MonitorsAreMirrored(h, root, sandbox, actual, monitors)
    requires '.' !in name && !v.Obj? && CheckWrite("monitors." + name, v, "Executor", alnum) == Accepted
    ensures OwnedByController(MIRRORED_MONITORS + name)
    ensures ReadsAs(StoreWrite(h, next, root, Segments("monitors." + name), Leaf(v)).0,
                    root, Segments(MIRRORED_MONITORS + name), Some(v))
  {
    hide OwnedByController, CheckWrite, Segments, StoreWrite, MIRRORED_MONITORS;
    MirrorIsOwned(name);
    MonitorsPath(name);
    MirrorPath(name);
    MonitorsWrite(h, next, root, sandbox, actual, monitors, name, v);
    var h' := h[monitors := h[monitors][name := Leaf(v)]];
    MirrorReadsOn(h', root, sandbox, actual, monitors, name);
    assert [name][1..] == [];
    assert StoreRead(h', Ref(monitors), [name]) == Some(Leaf(v));
  }

  lemma NullFitsAnywhere(path: string)
    ensures FitsSchema(path, Null)
  {
    hide FieldTypeOf, FIELD_ENUMS, FIELD_BOUNDS;
  }

  /** Such writes are accepted: for every short name of admissible characters. */
  lemma MonitorsWritesAreAccepted(name: string, alnum: char -> bool)
    requires '.' !in name && GoodSegment(name, alnum) && |name| <= 100
    requires forall c | 'a' <= c <= 'z' :: alnum(c)
    ensures CheckWrite("monitors." + name, Null, "Executor", alnum) == Accepted
  {
    hide OwnedByController, Segments, FitsSchema, MayWrite;
    MonitorsAreWritable(name);
    NullFitsAnywhere("monitors." + name);
    MonitorsPath(name);
    MonitorsIsGood(alnum);
  }

  lemma MonitorsIsGood(alnum: char -> bool)
    requires forall c | 'a' <= c <= 'z' :: alnum(c)
    ensures GoodSegment("monitors", alnum)
  {
    assert "monitors"[0] != '_' && "monitors"[0] != '-';
  }

  /** The policy lets the Executor write every path below `monitors` ... */
  lemma MonitorsAreWritable(name: string)
    ensures MayWrite("Executor", "monitors." + name)
  {
    hide OwnedByController;
    var k, e := "monitors." + name, Under("monitors", {""});
    assert "" in e.names && "monitors" + "." + "" <= k;
    assert EXECUTOR_WRITABLE[4] == e;
    PermittedByRow(EXECUTOR_WRITABLE, e, k);
    OwnershipTestIsRedundant("Executor", k);
  }

  /** ... and nobody but the controller any path below its mirror. */
  lemma MirrorIsOwned(name: string)
    ensures OwnedByController(MIRRORED_MONITORS + name)
  {
    var p, o := MIRRORED_MONITORS + name, Under("sandbox", {"actual."});
    assert "actual." in o.names && "sandbox" + "." + "actual." <= p;
    assert CONTROLLER_OWNED_PREFIXES[2] == o && ListsPrefixOf(o, p);
    PrefixedByRow(CONTROLLER_OWNED_PREFIXES, o, p);
  }

  lemma {:induction false} PrefixedByRow(table: seq<Entries>, e: Entries, path: string)
    requires e in table && ListsPrefixOf(e, path)
    ensures AnyListsPrefixOf(table, path)
  {
    if e != table[0] {
      PrefixedByRow(table[1..], e, path);
    }
  }
}
