/** The environment specification when dictionaries are shared inside it, as they are after a
    submission (src/core/agent_loop.py:1643-1648): exactly which facts a write can change, and what
    every run of agent writes keeps. */
module SharedSpec {
  import opened Wrappers
  import opened SpecPolicy
  import opened SpecDocument
  import opened EnvSpec

  // ----------------------------------------------------------------------------------------
  // What a write changes
  // ----------------------------------------------------------------------------------------

  /** The one slot of an existing dictionary that a write assigns, and the segments after it. */
  datatype Spot = Spot(dict: nat, key: string, tail: seq<string>)

  function WrittenSpot(h: Heap, next: nat, cur: nat, segs: seq<string>): Spot
    requires |segs| >= 1 && cur in h && WellFormed(h, next)
    decreases |segs|
  {
    if |segs| > 1 && segs[0] in h[cur] && h[cur][segs[0]].Ref? then WrittenSpot(h, next, h[cur][segs[0]].id, segs[1..])
    else Spot(cur, segs[0], segs[1..])
  }

  predicate Comparable(p: seq<string>, q: seq<string>) {
    p <= q || q <= p
  }

  /** The heaps differ in the one slot only, and a fresh chain replaces no dictionary. */
  ghost predicate ChangesOnly(h: Heap, h': Heap, sp: Spot) {
    && sp.dict in h && sp.dict in h' && sp.key in h'[sp.dict]
    && (forall q | q in h && q != sp.dict :: q in h' && h'[q] == h[q])
    && (forall j | j != sp.key ::
          (j in h'[sp.dict] <==> j in h[sp.dict]) && (j in h[sp.dict] ==> h'[sp.dict][j] == h[sp.dict][j]))
    && (sp.tail != [] ==> h'[sp.dict][sp.key].Ref? && (sp.key in h[sp.dict] ==> h[sp.dict][sp.key].Leaf?))
  }

  lemma {:induction false} OneSlotChanges(h: Heap, next: nat, cur: nat, segs: seq<string>, slot: Slot)
    requires |segs| >= 1 && cur in h && WellFormed(h, next) && (slot.Ref? ==> slot.id in h)
    ensures var (h', next') := StoreWrite(h, next, cur, segs, slot);
            && WellFormed(h', next') && next <= next'
            && ChangesOnly(h, h', WrittenSpot(h, next, cur, segs))
    decreases |segs|
  {
    if |segs| > 1 {
      if segs[0] in h[cur] && h[cur][segs[0]].Ref? {
        OneSlotChanges(h, next, h[cur][segs[0]].id, segs[1..], slot);
      } else {
        OneSlotChanges(Linked(h, next, cur, segs[0]), next + 1, next, segs[1..], slot);
      }
    }
  }

  /** Reading on from the written slot: along the rest of the key one reaches what was handed over,
      and off it nothing. */
  ghost predicate ReadsInside(h': Heap, sp: Spot, slot: Slot, rest: seq<string>) {
    && sp.dict in h' && sp.key in h'[sp.dict]
    && var content := StoreRead(h', h'[sp.dict][sp.key], rest);
       if sp.tail <= rest then content == StoreRead(h', slot, rest[|sp.tail|..])
       else if rest <= sp.tail then content.Some? && content.value.Ref?
       else content == None
  }

  lemma {:induction false} InsideWritten(h: Heap, next: nat, cur: nat, segs: seq<string>, slot: Slot, rest: seq<string>)
    requires |segs| >= 1 && cur in h && WellFormed(h, next) && (slot.Ref? ==> slot.id in h)
    ensures ReadsInside(StoreWrite(h, next, cur, segs, slot).0, WrittenSpot(h, next, cur, segs), slot, rest)
    decreases |segs|
  {
    hide ReadsInside;
    if |segs| == 1 {
      InsideDirect(h, next, cur, segs, slot, rest);
    } else if segs[0] in h[cur] && h[cur][segs[0]].Ref? {
      InsideWritten(h, next, h[cur][segs[0]].id, segs[1..], slot, rest);
    } else {
      InsideFresh(h, next, cur, segs, slot);
      if rest != [] {
        InsideWritten(Linked(h, next, cur, segs[0]), next + 1, next, segs[1..], slot, rest[1..]);
      }
      InsideChain(StoreWrite(h, next, cur, segs, slot).0, cur, next, segs, slot, rest);
    }
  }

  lemma InsideDirect(h: Heap, next: nat, cur: nat, segs: seq<string>, slot: Slot, rest: seq<string>)
    requires |segs| == 1 && cur in h && WellFormed(h, next)
    ensures ReadsInside(StoreWrite(h, next, cur, segs, slot).0, WrittenSpot(h, next, cur, segs), slot, rest)
  {
  }

  /** The first step into a fresh chain. */
  lemma InsideFresh(h: Heap, next: nat, cur: nat, segs: seq<string>, slot: Slot)
    requires |segs| > 1 && cur in h && WellFormed(h, next) && (slot.Ref? ==> slot.id in h)
    requires !(segs[0] in h[cur] && h[cur][segs[0]].Ref?)
    ensures var h' := StoreWrite(h, next, cur, segs, slot).0;
            && h' == StoreWrite(Linked(h, next, cur, segs[0]), next + 1, next, segs[1..], slot).0
            && cur in h' && segs[0] in h'[cur] && h'[cur][segs[0]] == Ref(next)
            && next in h' && h'[next].Keys == {segs[1]}
            && WrittenSpot(h, next, cur, segs) == Spot(cur, segs[0], segs[1..])
            && WrittenSpot(Linked(h, next, cur, segs[0]), next + 1, next, segs[1..]) == Spot(next, segs[1], segs[2..])
  {
    var h1 := Linked(h, next, cur, segs[0]);
    OneSlotChanges(h1, next + 1, next, segs[1..], slot);
    assert h1[next] == map[];
  }

  lemma InsideChain(h': Heap, cur: nat, made: nat, segs: seq<string>, slot: Slot, rest: seq<string>)
    requires |segs| > 1 && cur in h' && segs[0] in h'[cur] && h'[cur][segs[0]] == Ref(made)
    requires made in h' && h'[made].Keys == {segs[1]}
    requires rest != [] ==> ReadsInside(h', Spot(made, segs[1], segs[2..]), slot, rest[1..])
    ensures ReadsInside(h', Spot(cur, segs[0], segs[1..]), slot, rest)
  {
    var tail := segs[1..];
    assert tail == [segs[1]] + segs[2..];
    if rest != [] {
      assert rest == [rest[0]] + rest[1..];
      assert tail <= rest ==> rest[|tail|..] == rest[1..][|segs[2..]|..];
    }
  }

  // ----------------------------------------------------------------------------------------
  // Which walks read what a write changes
  // ----------------------------------------------------------------------------------------

  /** The walk from `s` along `path` reads the written slot, and its rest lies along the written key. */
  predicate Touches(h: Heap, s: Slot, path: seq<string>, sp: Spot)
    decreases |path|
  {
    && path != [] && s.Ref? && s.id in h
    && ((s.id == sp.dict && path[0] == sp.key && Comparable(path[1..], sp.tail))
        || (path[0] in h[s.id] && Touches(h, h[s.id][path[0]], path[1..], sp)))
  }

  /** Where on the path the written slot is read. */
  function TouchIndex(h: Heap, s: Slot, path: seq<string>, sp: Spot): (i: nat)
    requires Touches(h, s, path, sp)
    ensures i < |path|
    decreases |path|
  {
    if s.id == sp.dict && path[0] == sp.key && Comparable(path[1..], sp.tail) then 0
    else 1 + TouchIndex(h, h[s.id][path[0]], path[1..], sp)
  }

  lemma {:induction false} TouchingWalk(h: Heap, h': Heap, s: Slot, path: seq<string>, sp: Spot)
    requires ChangesOnly(h, h', sp) && Touches(h, s, path, sp)
    ensures var i := TouchIndex(h, s, path, sp);
            && path[i] == sp.key && Comparable(path[i + 1..], sp.tail)
            && StoreRead(h, s, path[..i]) == Some(Ref(sp.dict))
            && StoreRead(h', s, path) == StoreRead(h', h'[sp.dict][sp.key], path[i + 1..])
            && StoreRead(h, s, path)
            == if sp.key in h[sp.dict] then StoreRead(h, h[sp.dict][sp.key], path[i + 1..]) else None
    decreases |path|
  {
    if !(s.id == sp.dict && path[0] == sp.key && Comparable(path[1..], sp.tail)) {
      TouchingWalk(h, h', h[s.id][path[0]], path[1..], sp);
      var j := TouchIndex(h, h[s.id][path[0]], path[1..], sp);
      assert path[1..][..j] == path[..j + 1][1..];
      assert path[1..][j + 1..] == path[j + 2..];
    }
  }

  lemma {:induction false} UntouchedWalk(h: Heap, h': Heap, s: Slot, path: seq<string>, sp: Spot)
    requires ChangesOnly(h, h', sp) && !Touches(h, s, path, sp)
    requires forall q, j | q in h && j in h[q] && h[q][j].Ref? :: h[q][j].id in h
    requires s.Ref? ==> s.id in h
    requires forall rest | !Comparable(rest, sp.tail) :: StoreRead(h', h'[sp.dict][sp.key], rest) == None
    ensures StoreRead(h', s, path) == StoreRead(h, s, path)
    decreases |path|
  {
    if path != [] && s.Ref? {
      if s.id == sp.dict && path[0] == sp.key {
        assert !Comparable(path[1..], sp.tail);
        assert sp.tail != [] && path[1..] != [];
      } else if path[0] in h[s.id] {
        UntouchedWalk(h, h', h[s.id][path[0]], path[1..], sp);
      }
    }
  }

  // ----------------------------------------------------------------------------------------
  // Values read through shared dictionaries
  // ----------------------------------------------------------------------------------------

  /** Read through the heap, the path leads to the value `w`, or nowhere when `w` is missing. */
  ghost predicate ReadsAs(h: Heap, root: nat, path: seq<string>, w: Option<Value>) {
    var s := StoreRead(h, Ref(root), path);
    if w.None? then s.None? else s.Some? && Shows(h, s.value, w.value)
  }

  /** The dictionaries the value at a path is made of. */
  ghost function FootAt(h: Heap, root: nat, path: seq<string>, w: Option<Value>): set<nat>
    requires ReadsAs(h, root, path, w)
  {
    if w.None? then {} else Foot(h, StoreRead(h, Ref(root), path).value, w.value)
  }

  /** Since `h` an object for the value `x` has been built, out of dictionaries of its own. */
  ghost predicate HandedOver(h: Heap, next: nat, h1: Heap, next1: nat, slot: Slot, x: Value) {
    && WellFormed(h1, next1) && next <= next1
    && (forall q | q in h :: q in h1 && h1[q] == h[q])
    && Shows(h1, slot, x) && Unshared(h1, slot, x) && Foot(h1, slot, x) !! h.Keys
  }

  lemma {:induction false} ReadExtended(h: Heap, h1: Heap, s: Slot, path: seq<string>)
    requires forall q | q in h :: q in h1 && h1[q] == h[q]
    requires forall q, j | q in h && j in h[q] && h[q][j].Ref? :: h[q][j].id in h
    requires s.Ref? ==> s.id in h
    ensures StoreRead(h1, s, path) == StoreRead(h, s, path)
    ensures StoreRead(h, s, path).Some? && StoreRead(h, s, path).value.Ref? ==> StoreRead(h, s, path).value.id in h
    decreases |path|
  {
    if path != [] && s.Ref? && path[0] in h[s.id] {
      ReadExtended(h, h1, h[s.id][path[0]], path[1..]);
    }
  }

  lemma {:induction false} TouchesExtended(h: Heap, h1: Heap, s: Slot, path: seq<string>, sp: Spot)
    requires forall q | q in h :: q in h1 && h1[q] == h[q]
    requires forall q, j | q in h && j in h[q] && h[q][j].Ref? :: h[q][j].id in h
    requires s.Ref? ==> s.id in h
    ensures Touches(h1, s, path, sp) == Touches(h, s, path, sp)
    decreases |path|
  {
    if path != [] && s.Ref? && path[0] in h[s.id] {
      TouchesExtended(h, h1, h[s.id][path[0]], path[1..], sp);
    }
  }

  lemma {:induction false} SpotExtended(h: Heap, next: nat, h1: Heap, next1: nat, cur: nat, segs: seq<string>)
    requires |segs| >= 1 && cur in h && WellFormed(h, next) && WellFormed(h1, next1)
    requires forall q | q in h :: q in h1 && h1[q] == h[q]
    ensures WrittenSpot(h1, next1, cur, segs) == WrittenSpot(h, next, cur, segs)
    ensures WrittenSpot(h, next, cur, segs).dict in h
    decreases |segs|
  {
    if |segs| > 1 && segs[0] in h[cur] && h[cur][segs[0]].Ref? {
      SpotExtended(h, next, h1, next1, h[cur][segs[0]].id, segs[1..]);
    }
  }

  /** Two values shown by one slot are equal. */
  lemma {:induction false} ShownValueIsUnique(h: Heap, s: Slot, v: Value, w: Value)
    requires Shows(h, s, v) && Shows(h, s, w)
    ensures v == w
    decreases v
  {
    if v.Obj? {
      forall k | k in v.fields ensures v.fields[k] == w.fields[k] {
        ShownValueIsUnique(h, h[s.id][k], v.fields[k], w.fields[k]);
      }
    }
  }

  /** When a value made of dictionary `r` is shown before and after a change of that dictionary,
      the dictionary shows one and the same object before and after. */
  lemma {:induction false} ChangedPartShowsTheSame(h: Heap, h': Heap, s: Slot, w: Value, r: nat) returns (f: Fields)
    requires Shows(h, s, w) && Shows(h', s, w) && r in Foot(h, s, w)
    requires forall q | q in h && q != r :: q in h' && h'[q] == h[q]
    ensures Shows(h, Ref(r), Obj(f)) && Shows(h', Ref(r), Obj(f))
    decreases w
  {
    if s.id == r {
      f := w.fields;
    } else {
      var k :| k in w.fields && r in Foot(h, h[s.id][k], w.fields[k]);
      f := ChangedPartShowsTheSame(h, h', h[s.id][k], w.fields[k], r);
    }
  }

  /** A write of any slot whose spot is neither on the walk nor part of the value leaves the value as it was. */
  lemma AvoidedFactStays(h: Heap, next: nat, root: nat, segs: seq<string>, path: seq<string>, w: Option<Value>,
                         h1: Heap, next1: nat, slot: Slot)
    requires |segs| >= 1 && root in h && WellFormed(h, next) && ReadsAs(h, root, path, w)
    requires WellFormed(h1, next1) && (forall q | q in h :: q in h1 && h1[q] == h[q]) && (slot.Ref? ==> slot.id in h1)
    requires var sp := WrittenSpot(h, next, root, segs);
             !Touches(h, Ref(root), path, sp) && sp.dict !in FootAt(h, root, path, w)
    ensures ReadsAs(StoreWrite(h1, next1, root, segs, slot).0, root, path, w)
  {
    hide Shows, Foot, StoreRead, Touches;
    var sp := WrittenSpot(h, next, root, segs);
    var h' := StoreWrite(h1, next1, root, segs, slot).0;
    SpotExtended(h, next, h1, next1, root, segs);
    TouchesExtended(h, h1, Ref(root), path, sp);
    ReadExtended(h, h1, Ref(root), path);
    OneSlotChanges(h1, next1, root, segs, slot);
    forall rest | !Comparable(rest, sp.tail) ensures StoreRead(h', h'[sp.dict][sp.key], rest) == None {
      InsideWritten(h1, next1, root, segs, slot, rest);
    }
    UntouchedWalk(h1, h', Ref(root), path, sp);
    if w.Some? {
      var s := StoreRead(h, Ref(root), path).value;
      FootInHeap(h, s, w.value);
      ShowsFrame(h, h', s, w.value);
    }
  }

  /** In particular a write of an object handed over. */
  lemma AvoidingWriteKeepsValue(h: Heap, next: nat, root: nat, segs: seq<string>, path: seq<string>, w: Option<Value>,
                                h1: Heap, next1: nat, slot: Slot, x: Value)
    requires |segs| >= 1 && root in h && WellFormed(h, next) && ReadsAs(h, root, path, w)
    requires HandedOver(h, next, h1, next1, slot, x)
    requires var sp := WrittenSpot(h, next, root, segs);
             !Touches(h, Ref(root), path, sp) && sp.dict !in FootAt(h, root, path, w)
    ensures ReadsAs(StoreWrite(h1, next1, root, segs, slot).0, root, path, w)
  {
    hide Shows, Foot, Unshared, StoreRead, Touches, WrittenSpot, ReadsAs, FootAt, StoreWrite;
    SlotInHeap(h1, slot, x);
    AvoidedFactStays(h, next, root, segs, path, w, h1, next1, slot);
  }

  lemma SlotInHeap(h: Heap, slot: Slot, x: Value)
    requires Shows(h, slot, x)
    ensures slot.Ref? ==> slot.id in h
  {
  }

  // ----------------------------------------------------------------------------------------
  // Writes that change a fact
  // ----------------------------------------------------------------------------------------

  /** What is known after a write of a plain value. */
  lemma LeafWrite(h: Heap, next: nat, root: nat, segs: seq<string>, v: Value)
    requires |segs| >= 1 && root in h && WellFormed(h, next) && !v.Obj?
    ensures HandedOver(h, next, h, next, Leaf(v), v)
    ensures var h' := StoreWrite(h, next, root, segs, Leaf(v)).0;
            var sp := WrittenSpot(h, next, root, segs);
            ChangesOnly(h, h', sp) && (sp.tail == [] ==> h'[sp.dict][sp.key] == Leaf(v))
  {
    OneSlotChanges(h, next, root, segs, Leaf(v));
    InsideWritten(h, next, root, segs, Leaf(v), []);
  }

  /** When a fact on a touching walk survives the write of a plain value, it is that value. */
  lemma TouchedFactIsWritten(h: Heap, next: nat, root: nat, segs: seq<string>, path: seq<string>, w: Value, v: Value)
    requires |segs| >= 1 && root in h && WellFormed(h, next) && !v.Obj?
    requires ReadsAs(h, root, path, Some(w)) && Touches(h, Ref(root), path, WrittenSpot(h, next, root, segs))
    requires ReadsAs(StoreWrite(h, next, root, segs, Leaf(v)).0, root, path, Some(w))
    ensures w == v
  {
    hide Touches, StoreWrite;
    var sp := WrittenSpot(h, next, root, segs);
    var h' := StoreWrite(h, next, root, segs, Leaf(v)).0;
    LeafWrite(h, next, root, segs, v);
    TouchingWalk(h, h', Ref(root), path, sp);
    var rest := path[TouchIndex(h, Ref(root), path, sp) + 1..];
    InsideWritten(h, next, root, segs, Leaf(v), rest);
  }

  /** When a value made of the written dictionary survives the write of a plain value, that
      dictionary already held it. */
  lemma ChangedPartIsWritten(h: Heap, next: nat, root: nat, segs: seq<string>, path: seq<string>, w: Value, v: Value)
    returns (f: Fields)
    requires |segs| >= 1 && root in h && WellFormed(h, next) && !v.Obj? && ReadsAs(h, root, path, Some(w))
    requires var sp := WrittenSpot(h, next, root, segs);
             !Touches(h, Ref(root), path, sp) && sp.dict in FootAt(h, root, path, Some(w))
    requires ReadsAs(StoreWrite(h, next, root, segs, Leaf(v)).0, root, path, Some(w))
    ensures var sp := WrittenSpot(h, next, root, segs);
            Shows(h, Ref(sp.dict), Obj(f)) && sp.key in f && f[sp.key] == v
  {
    hide Touches, StoreWrite;
    var sp := WrittenSpot(h, next, root, segs);
    var h' := StoreWrite(h, next, root, segs, Leaf(v)).0;
    LeafWrite(h, next, root, segs, v);
    forall rest | !Comparable(rest, sp.tail) ensures StoreRead(h', h'[sp.dict][sp.key], rest) == None {
      InsideWritten(h, next, root, segs, Leaf(v), rest);
    }
    UntouchedWalk(h, h', Ref(root), path, sp);
    f := ChangedPartShowsTheSame(h, h', StoreRead(h, Ref(root), path).value, w, sp.dict);
  }

  /** An object made of fresh dictionaries in which the path leads somewhere. */
  lemma FreshObject(h: Heap, next: nat, path: seq<string>) returns (h1: Heap, next1: nat, slot: Slot, x: Value)
    requires WellFormed(h, next)
    ensures HandedOver(h, next, h1, next1, slot, x) && Get(x, path).Some?
  {
    hide Unshared, Foot;
    if path == [] {
      h1, next1, slot, x := h, next, Leaf(Null), Null;
      PlainIsOwn(h);
    } else {
      var h0 := h[next := map[]];
      EmptyDictionary(h0, next);
      PlainIsOwn(h0);
      slot, x := Ref(next), Obj(Put(map[], path, Null));
      StoreWriteIsPut(h0, next + 1, next, map[], path, Leaf(Null), Null);
      OneSlotChanges(h0, next + 1, next, path, Leaf(Null));
      h1, next1 := StoreWrite(h0, next + 1, next, path, Leaf(Null)).0,
        StoreWrite(h0, next + 1, next, path, Leaf(Null)).1;
      GetAfterPut(map[], path, Null);
    }
  }

  lemma PlainIsOwn(h: Heap)
    ensures Shows(h, Leaf(Null), Null) && Unshared(h, Leaf(Null), Null) && Foot(h, Leaf(Null), Null) == {}
  {
  }

  /** A missing fact on a touching walk is there after some write. */
  lemma MissingFactCanAppear(h: Heap, next: nat, root: nat, segs: seq<string>, path: seq<string>)
    returns (h1: Heap, next1: nat, slot: Slot, x: Value)
    requires |segs| >= 1 && root in h && WellFormed(h, next)
    requires ReadsAs(h, root, path, None) && Touches(h, Ref(root), path, WrittenSpot(h, next, root, segs))
    ensures HandedOver(h, next, h1, next1, slot, x)
    ensures !ReadsAs(StoreWrite(h1, next1, root, segs, slot).0, root, path, None)
  {
    hide Touches, Shows, Foot, Unshared, StoreRead;
    var sp := WrittenSpot(h, next, root, segs);
    LeafWrite(h, next, root, segs, Null);
    TouchingWalk(h, StoreWrite(h, next, root, segs, Leaf(Null)).0, Ref(root), path, sp);
    var rest := path[TouchIndex(h, Ref(root), path, sp) + 1..];
    var more := if sp.tail <= rest then rest[|sp.tail|..] else [];
    h1, next1, slot, x := FreshObject(h, next, more);
    SpotExtended(h, next, h1, next1, root, segs);
    TouchesExtended(h, h1, Ref(root), path, sp);
    SameIndex(h, h1, Ref(root), path, sp);
    ObjectAppears(h1, next1, root, segs, path, slot, x, more);
  }

  lemma ObjectAppears(h: Heap, next: nat, root: nat, segs: seq<string>, path: seq<string>, slot: Slot, x: Value,
                      more: seq<string>)
    requires |segs| >= 1 && root in h && WellFormed(h, next) && Shows(h, slot, x) && Get(x, more).Some?
    requires var sp := WrittenSpot(h, next, root, segs);
             && Touches(h, Ref(root), path, sp) && sp.dict !in Foot(h, slot, x)
             && var rest := path[TouchIndex(h, Ref(root), path, sp) + 1..];
                Comparable(rest, sp.tail) && more == if sp.tail <= rest then rest[|sp.tail|..] else []
    ensures StoreRead(StoreWrite(h, next, root, segs, slot).0, Ref(root), path).Some?
  {
    hide Touches, Shows, Foot, Unshared, StoreRead, StoreWrite;
    var sp := WrittenSpot(h, next, root, segs);
    var h' := StoreWrite(h, next, root, segs, slot).0;
    SlotInHeap(h, slot, x);
    OneSlotChanges(h, next, root, segs, slot);
    TouchingWalk(h, h', Ref(root), path, sp);
    InsideWritten(h, next, root, segs, slot, path[TouchIndex(h, Ref(root), path, sp) + 1..]);
    FootInHeap(h, slot, x);
    ShowsFrame(h, h', slot, x);
    StoreReadIsGet(h', slot, x, more);
  }

  lemma {:induction false} SameIndex(h: Heap, h1: Heap, s: Slot, path: seq<string>, sp: Spot)
    requires forall q | q in h :: q in h1 && h1[q] == h[q]
    requires Touches(h, s, path, sp) && Touches(h1, s, path, sp)
    requires forall q, j | q in h && j in h[q] && h[q][j].Ref? :: h[q][j].id in h
    ensures TouchIndex(h1, s, path, sp) == TouchIndex(h, s, path, sp)
    decreases |path|
  {
    if !(s.id == sp.dict && path[0] == sp.key && Comparable(path[1..], sp.tail)) {
      TouchesExtended(h, h1, h[s.id][path[0]], path[1..], sp);
      SameIndex(h, h1, h[s.id][path[0]], path[1..], sp);
    }
  }

  /** Every condition the next theorem names is needed. */
  lemma SomeWriteChanges(h: Heap, next: nat, root: nat, segs: seq<string>, path: seq<string>, w: Option<Value>)
    returns (h1: Heap, next1: nat, slot: Slot, x: Value)
    requires |segs| >= 1 && root in h && WellFormed(h, next) && ReadsAs(h, root, path, w)
    requires var sp := WrittenSpot(h, next, root, segs);
             Touches(h, Ref(root), path, sp) || sp.dict in FootAt(h, root, path, w)
    ensures HandedOver(h, next, h1, next1, slot, x)
    ensures !ReadsAs(StoreWrite(h1, next1, root, segs, slot).0, root, path, w)
  {
    hide Touches, ReadsAs, HandedOver, Shows, Foot, StoreWrite;
    var sp := WrittenSpot(h, next, root, segs);
    if w.None? {
      EmptyFoot(h, root, path);
      h1, next1, slot, x := MissingFactCanAppear(h, next, root, segs, path);
      return;
    }
    h1, next1, x := h, next, Bool(false);
    LeafWrite(h, next, root, segs, Bool(false));
    LeafWrite(h, next, root, segs, Bool(true));
    if ReadsAs(StoreWrite(h, next, root, segs, Leaf(x)).0, root, path, w) {
      x := Bool(true);
      if ReadsAs(StoreWrite(h, next, root, segs, Leaf(x)).0, root, path, w) {
        if Touches(h, Ref(root), path, sp) {
          TouchedFactIsWritten(h, next, root, segs, path, w.value, Bool(false));
          TouchedFactIsWritten(h, next, root, segs, path, w.value, Bool(true));
        } else {
          var f := ChangedPartIsWritten(h, next, root, segs, path, w.value, Bool(false));
          var g := ChangedPartIsWritten(h, next, root, segs, path, w.value, Bool(true));
          ShownValueIsUnique(h, Ref(sp.dict), Obj(f), Obj(g));
        }
        assert false;
      }
    }
    slot := Leaf(x);
  }

  lemma EmptyFoot(h: Heap, root: nat, path: seq<string>)
    requires ReadsAs(h, root, path, None)
    ensures FootAt(h, root, path, None) == {}
  {
  }

  /** In any document, shared or not: the value at a path, present or missing, is the same after every
      write of any value to a key, if and only if the walk to it does not read the written slot along
      the key and the written dictionary is no part of the value. */
  lemma FactOutlivesWrites(h: Heap, next: nat, root: nat, segs: seq<string>, path: seq<string>, w: Option<Value>)
    requires |segs| >= 1 && root in h && WellFormed(h, next) && ReadsAs(h, root, path, w)
    ensures (forall h1, next1, slot, x | HandedOver(h, next, h1, next1, slot, x) ::
               ReadsAs(StoreWrite(h1, next1, root, segs, slot).0, root, path, w))
            <==> (var sp := WrittenSpot(h, next, root, segs);
                  !Touches(h, Ref(root), path, sp) && sp.dict !in FootAt(h, root, path, w))
  {
    hide Touches, ReadsAs, Shows, Foot, StoreWrite, FootAt;
    var sp := WrittenSpot(h, next, root, segs);
    if Touches(h, Ref(root), path, sp) || sp.dict in FootAt(h, root, path, w) {
      var h1, next1, slot, x := SomeWriteChanges(h, next, root, segs, path, w);
    } else {
      forall h1, next1, slot, x | HandedOver(h, next, h1, next1, slot, x)
        ensures ReadsAs(StoreWrite(h1, next1, root, segs, slot).0, root, path, w)
      {
        AvoidingWriteKeepsValue(h, next, root, segs, path, w, h1, next1, slot, x);
      }
    }
  }
}
