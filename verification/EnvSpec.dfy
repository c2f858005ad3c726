/** The shared environment specification (src/core/env_spec.py): the document read as a JSON
    value, and the noninterference the write policy gives it. */
module SpecDocument {
  import opened Wrappers
  import opened SpecPolicy

  type Fields = map<string, Value>

  /** Dotted read: the value at a segment path, if every step is a dictionary holding the next segment. */
  function Get(doc: Value, segs: seq<string>): Option<Value> {
    if segs == [] then Some(doc)
    else if doc.Obj? && segs[0] in doc.fields then Get(doc.fields[segs[0]], segs[1..])
    else None
  }

  /** Dotted write: missing steps, and steps that are not dictionaries, become fresh dictionaries. */
  function Put(fields: Fields, segs: seq<string>, value: Value): Fields
    requires |segs| >= 1
    decreases |segs|
  {
    if |segs| == 1 then fields[segs[0] := value]
    else
      var child := if segs[0] in fields && fields[segs[0]].Obj? then fields[segs[0]].fields else map[];
      fields[segs[0] := Obj(Put(child, segs[1..], value))]
  }

  function Read(fields: Fields, key: string): Option<Value> {
    Get(Obj(fields), Segments(key))
  }

  function Write(fields: Fields, key: string, value: Value): Fields {
    Put(fields, Segments(key), value)
  }

  // ----------------------------------------------------------------------------------------
  // Laws of reading and writing
  // ----------------------------------------------------------------------------------------

  lemma {:induction false} GetAfterPut(fields: Fields, segs: seq<string>, value: Value)
    requires |segs| >= 1
    ensures Get(Obj(Put(fields, segs, value)), segs) == Some(value)
    decreases |segs|
  {
    if |segs| > 1 {
      var child := if segs[0] in fields && fields[segs[0]].Obj? then fields[segs[0]].fields else map[];
      GetAfterPut(child, segs[1..], value);
    } else {
      assert Get(value, segs[1..]) == Some(value);
    }
  }

  lemma {:induction false} PutFrame(fields: Fields, segs: seq<string>, value: Value, other: seq<string>)
    requires |segs| >= 1
    requires !(segs <= other) && !(other <= segs)
    ensures Get(Obj(Put(fields, segs, value)), other) == Get(Obj(fields), other)
    decreases |segs|
  {
    if other[0] == segs[0] {
      assert segs == [segs[0]] + segs[1..] && other == [other[0]] + other[1..];
      assert |segs| > 1 && !(segs[1..] <= other[1..]) && !(other[1..] <= segs[1..]);
      var child := if segs[0] in fields && fields[segs[0]].Obj? then fields[segs[0]].fields else map[];
      PutFrame(child, segs[1..], value, other[1..]);
      assert Get(Obj(map[]), other[1..]) == None;
    }
  }

  /** What was written is what is read back; a key that is not the same node, an ancestor or a
      descendant reads as before. */
  lemma WriteLaws(fields: Fields, key: string, value: Value, other: string)
    ensures Read(Write(fields, key, value), key) == Some(value)
    ensures !Related(key, other) ==> Read(Write(fields, key, value), other) == Read(fields, other)
  {
    GetAfterPut(fields, Segments(key), value);
    if !Related(key, other) {
      SegmentPrefixIsDottedPrefix(key, other);
      SegmentPrefixIsDottedPrefix(other, key);
      PutFrame(fields, Segments(key), value, Segments(other));
    }
  }

  // ----------------------------------------------------------------------------------------
  // Runs of agent writes
  // ----------------------------------------------------------------------------------------

  /** One `update_spec` or `append_spec` call: any role name, any key, any value. */
  datatype AgentWrite =
    | SetOp(actor: string, key: string, value: Value)
    | AppendOp(actor: string, key: string, value: Value)

  /** The document and the verdict after `set`. */
  function SetStep(fields: Fields, key: string, value: Value, actor: string, alnum: char -> bool): (Fields, Verdict) {
    var verdict := CheckWrite(key, value, actor, alnum);
    (if verdict == Accepted then Write(fields, key, value) else fields, verdict)
  }

  /** The list `append` hands to `set`, or None when the present value is not a list. */
  function Extended(present: Option<Value>, value: Value): Option<Value> {
    match present
    case None => Some(List([value]))
    case Some(Null) => Some(List([value]))
    case Some(List(items)) => Some(List(items + [value]))
    case Some(_) => None
  }

  function AppendStep(fields: Fields, key: string, value: Value, actor: string, alnum: char -> bool)
    : (Fields, Verdict)
  {
    match Extended(Read(fields, key), value)
    case None => (fields, Malformed)
    case Some(list) => SetStep(fields, key, list, actor, alnum)
  }

  function AgentStep(fields: Fields, op: AgentWrite, alnum: char -> bool): Fields {
    match op
    case SetOp(actor, key, value) => SetStep(fields, key, value, actor, alnum).0
    case AppendOp(actor, key, value) => AppendStep(fields, key, value, actor, alnum).0
  }

  function AgentRun(fields: Fields, ops: seq<AgentWrite>, alnum: char -> bool): Fields
    decreases |ops|
  {
    if ops == [] then fields else AgentRun(AgentStep(fields, ops[0], alnum), ops[1..], alnum)
  }

  lemma AgentStepKeepsOwned(fields: Fields, op: AgentWrite, alnum: char -> bool, path: string)
    requires op.actor != CONTROLLER && OwnedByController(path)
    ensures Read(AgentStep(fields, op, alnum), path) == Read(fields, path)
  {
    hide OwnedByController, RoleWritable, FitsSchema, GoodKey;
    if MayWrite(op.actor, op.key) {
      WritableNeverTouchesOwned(op.actor, op.key, path);
      forall value {
        WriteLaws(fields, op.key, value, path);
      }
    }
  }

  /** Noninterference: whatever the agents write, in whatever order, the value read at every
      controller-owned path and below every controller-owned prefix stays what it was. */
  lemma {:induction false} AgentsNeverChangeOwned(fields: Fields, ops: seq<AgentWrite>, alnum: char -> bool,
                                                  path: string)
    requires forall i | 0 <= i < |ops| :: ops[i].actor != CONTROLLER
    requires OwnedByController(path)
    ensures Read(AgentRun(fields, ops, alnum), path) == Read(fields, path)
    decreases |ops|
  {
    hide OwnedByController, AgentStep;
    if ops != [] {
      AgentStepKeepsOwned(fields, ops[0], alnum, path);
      AgentsNeverChangeOwned(AgentStep(fields, ops[0], alnum), ops[1..], alnum, path);
    }
  }
}

/** The document as the program holds it: dictionaries are objects that are updated in place and
    can be shared, so the document is a graph of them. */
module EnvSpec {
  import opened Wrappers
  import opened SpecPolicy
  import opened SpecDocument

  /** What a dictionary slot holds: another dictionary, by reference, or any other value. */
  datatype Slot = Leaf(value: Value) | Ref(id: nat)

  type Heap = map<nat, map<string, Slot>>

  datatype WriteRecord = WriteRecord(at: real, actor: string, key: string, valueType: string)

  function TypeName(v: Value): string {
    match v
    case Null => "NoneType"
    case Bool(_) => "bool"
    case Int(_) => "int"
    case Float(_) => "float"
    case Str(_) => "str"
    case List(_) => "list"
    case Obj(_) => "dict"
  }

  /** Every reference leads to a dictionary, and identities from `next` on are unused. */
  ghost predicate WellFormed(h: Heap, next: nat) {
    && (forall r | r in h :: r < next)
    && (forall r, k | r in h && k in h[r] :: h[r][k].Ref? ==> h[r][k].id in h)
  }

  function StoreRead(h: Heap, s: Slot, segs: seq<string>): Option<Slot>
    decreases |segs|
  {
    if segs == [] then Some(s)
    else if s.Ref? && s.id in h && segs[0] in h[s.id] then StoreRead(h, h[s.id][segs[0]], segs[1..])
    else None
  }

  /** The in-place walk of `set` from dictionary `cur`: the resulting heap and next free identity. */
  function StoreWrite(h: Heap, next: nat, cur: nat, segs: seq<string>, slot: Slot): (Heap, nat)
    requires |segs| >= 1 && cur in h && WellFormed(h, next)
    decreases |segs|
  {
    if |segs| == 1 then (h[cur := h[cur][segs[0] := slot]], next)
    else if segs[0] in h[cur] && h[cur][segs[0]].Ref? then StoreWrite(h, next, h[cur][segs[0]].id, segs[1..], slot)
    else StoreWrite(Linked(h, next, cur, segs[0]), next + 1, next, segs[1..], slot)
  }

  lemma WalkEnd(h: Heap, next: nat, cur: nat, k: string, slot: Slot)
    requires cur in h && WellFormed(h, next)
    ensures StoreWrite(h, next, cur, [k], slot) == (h[cur := h[cur][k := slot]], next)
  {
  }

  /** One turn of the walk: into the dictionary at the first segment, or into a fresh one put there. */
  lemma WalkStep(h: Heap, next: nat, cur: nat, segs: seq<string>, slot: Slot)
    requires |segs| > 1 && cur in h && WellFormed(h, next)
    ensures StoreWrite(h, next, cur, segs, slot) ==
            if segs[0] in h[cur] && h[cur][segs[0]].Ref? then
              StoreWrite(h, next, h[cur][segs[0]].id, segs[1..], slot)
            else
              StoreWrite(Linked(h, next, cur, segs[0]), next + 1, next, segs[1..], slot)
  {
  }

  /** `current[k] = {}`. */
  function Linked(h: Heap, next: nat, cur: nat, k: string): (h': Heap)
    requires cur in h && WellFormed(h, next)
    ensures WellFormed(h', next + 1)
  {
    h[next := map[]][cur := h[cur][k := Ref(next)]]
  }

  class EnvironmentSpec {
    var heap: Heap
    var next: nat
    var writes: seq<WriteRecord>
    const root: nat
    const alnum: char -> bool

    ghost predicate Valid()
      reads this
    {
      root in heap && WellFormed(heap, next)
    }

    /** A specification over dictionaries the caller has built. */
    constructor (initial: Heap, next: nat, root: nat, alnum: char -> bool)
      requires root in initial && WellFormed(initial, next)
      ensures Valid() && heap == initial && writes == [] && this.root == root && this.alnum == alnum
    {
      heap, this.next, writes, this.root, this.alnum := initial, next, [], root, alnum;
    }

    method Get(key: string) returns (r: Option<Slot>)
      requires Valid()
      ensures r == StoreRead(heap, Ref(root), Segments(key))
    {
      var keys := Segments(key);
      var val := Ref(root);
      var i := 0;
      while i < |keys|
        invariant 0 <= i <= |keys|
        invariant StoreRead(heap, val, keys[i..]) == StoreRead(heap, Ref(root), keys)
      {
        if !val.Ref? || val.id !in heap || keys[i] !in heap[val.id] {
          return None;
        }
        val := heap[val.id][keys[i]];
        assert keys[i..][1..] == keys[i + 1..];
        i := i + 1;
      }
      r := Some(val);
    }

    /** `slot` is the object handed over and `value` what it holds at that moment. */
    method Set(key: string, slot: Slot, value: Value, actor: string, now: real) returns (verdict: Verdict)
      requires Valid() && Shows(heap, slot, value)
      modifies this
      ensures Valid()
      ensures verdict == CheckWrite(key, value, actor, alnum)
      ensures verdict != Accepted ==> heap == old(heap) && next == old(next) && writes == old(writes)
      ensures verdict == Accepted ==>
                && (heap, next) == StoreWrite(old(heap), old(next), root, Segments(key), slot)
                && writes == old(writes) + [WriteRecord(now, actor, key, TypeName(value))]
    {
      hide CheckWrite, StoreWrite, Shows;
      verdict := CheckWrite(key, value, actor, alnum);
      if verdict != Accepted {
        return;
      }
      if slot.Ref? {
        ShowsRef(heap, slot, value);
      }
      var keys := Segments(key);
      var current := root;
      var i := 0;
      while i < |keys| - 1
        invariant 0 <= i <= |keys| - 1
        invariant current in heap && root in heap && WellFormed(heap, next)
        invariant slot.Ref? ==> slot.id in heap
        invariant writes == old(writes)
        invariant StoreWrite(heap, next, current, keys[i..], slot) == StoreWrite(old(heap), old(next), root, keys, slot)
      {
        var k := keys[i];
        assert keys[i..][1..] == keys[i + 1..] && keys[i..][0] == k;
        WalkStep(heap, next, current, keys[i..], slot);
        if k !in heap[current] || !heap[current][k].Ref? {
          heap, next, current := Linked(heap, next, current, k), next + 1, next;
        } else {
          current := heap[current][k].id;
        }
        i := i + 1;
      }
      WalkEnd(heap, next, current, keys[i], slot);
      assert keys[i..] == [keys[i]];
      heap := heap[current := heap[current][keys[i] := slot]];
      writes := writes + [WriteRecord(now, actor, key, TypeName(value))];
    }

    /** The list at `key` is replaced by one with `value` added; lists are never changed in place. */
    method Append(key: string, value: Value, actor: string, now: real) returns (verdict: Verdict)
      requires Valid()
      modifies this
      ensures Valid()
      ensures verdict != Accepted ==> heap == old(heap) && next == old(next) && writes == old(writes)
      ensures match AppendedSlot(StoreRead(old(heap), Ref(root), Segments(key)), value)
              case None => verdict == Malformed
              case Some(list) =>
                && verdict == CheckWrite(key, list, actor, alnum)
                && (verdict == Accepted ==>
                     && (heap, next) == StoreWrite(old(heap), old(next), root, Segments(key), Leaf(list))
                     && writes == old(writes) + [WriteRecord(now, actor, key, "list")])
    {
      var existing := Get(key);
      match AppendedSlot(existing, value)
      case None =>
        verdict := Malformed;
      case Some(list) =>
        verdict := Set(key, Leaf(list), list, actor, now);
    }
  }

  /** `[*existing, value]`, when the existing value is absent, None or a list. */
  function AppendedSlot(existing: Option<Slot>, value: Value): (r: Option<Value>)
    ensures r.Some? ==> r.value.List?
  {
    match existing
    case None => Some(List([value]))
    case Some(Ref(_)) => None
    case Some(Leaf(v)) => Extended(Some(v), value)
  }

  // ----------------------------------------------------------------------------------------
  // A document whose dictionaries are not shared behaves as its JSON value
  // ----------------------------------------------------------------------------------------

  /** Read through the heap, `s` is the JSON value `v`. */
  ghost predicate Shows(h: Heap, s: Slot, v: Value)
    decreases v
  {
    match v
    case Obj(f) =>
      && s.Ref? && s.id in h && h[s.id].Keys == f.Keys
      && forall k | k in f :: Shows(h, h[s.id][k], f[k])
    case _ => s == Leaf(v)
  }

  /** The dictionaries `v` is made of. */
  ghost function Foot(h: Heap, s: Slot, v: Value): set<nat>
    requires Shows(h, s, v)
    decreases v
  {
    match v
    case Obj(f) => {s.id} + set k, q | k in f && q in Foot(h, h[s.id][k], f[k]) :: q
    case _ => {}
  }

  /** No dictionary of `v` is reached twice. */
  ghost predicate Unshared(h: Heap, s: Slot, v: Value)
    requires Shows(h, s, v)
    decreases v
  {
    match v
    case Obj(f) =>
      && (forall k | k in f :: Unshared(h, h[s.id][k], f[k]) && s.id !in Foot(h, h[s.id][k], f[k]))
      && (forall j, k | j in f && k in f && j != k :: Foot(h, h[s.id][j], f[j]) !! Foot(h, h[s.id][k], f[k]))
    case _ => true
  }

  lemma {:induction false} FootInHeap(h: Heap, s: Slot, v: Value)
    requires Shows(h, s, v)
    ensures Foot(h, s, v) <= h.Keys
    decreases v
  {
    if v.Obj? {
      forall k | k in v.fields {
        FootInHeap(h, h[s.id][k], v.fields[k]);
      }
    }
  }

  /** A value depends only on its own dictionaries. */
  lemma {:induction false} ShowsFrame(h: Heap, h': Heap, s: Slot, v: Value)
    requires Shows(h, s, v)
    requires forall r | r in Foot(h, s, v) :: r in h && r in h' && h'[r] == h[r]
    ensures Shows(h', s, v) && Foot(h', s, v) == Foot(h, s, v)
    ensures Unshared(h, s, v) ==> Unshared(h', s, v)
    decreases v
  {
    if v.Obj? {
      forall k | k in v.fields
        ensures Shows(h', h'[s.id][k], v.fields[k])
        ensures Foot(h', h'[s.id][k], v.fields[k]) == Foot(h, h[s.id][k], v.fields[k])
        ensures Unshared(h, h[s.id][k], v.fields[k]) ==> Unshared(h', h'[s.id][k], v.fields[k])
      {
        assert Foot(h, h[s.id][k], v.fields[k]) <= Foot(h, s, v);
        ShowsFrame(h, h', h[s.id][k], v.fields[k]);
      }
    }
  }

  /** What an unshared dictionary says about each of its slots. */
  lemma Disassemble(h: Heap, cur: nat, f: Fields)
    requires Shows(h, Ref(cur), Obj(f)) && Unshared(h, Ref(cur), Obj(f))
    ensures cur in h && h[cur].Keys == f.Keys && cur in Foot(h, Ref(cur), Obj(f))
    ensures forall k | k in f ::
              && Shows(h, h[cur][k], f[k]) && Unshared(h, h[cur][k], f[k]) && (h[cur][k].Ref? <==> f[k].Obj?)
              && cur !in Foot(h, h[cur][k], f[k]) && Foot(h, h[cur][k], f[k]) <= Foot(h, Ref(cur), Obj(f))
    ensures forall j, k | j in f && k in f && j != k :: Foot(h, h[cur][j], f[j]) !! Foot(h, h[cur][k], f[k])
  {
  }

  lemma Assemble(h: Heap, cur: nat, f: Fields)
    requires cur in h && h[cur].Keys == f.Keys
    requires forall k | k in f ::
               Shows(h, h[cur][k], f[k]) && Unshared(h, h[cur][k], f[k]) && cur !in Foot(h, h[cur][k], f[k])
    requires forall j, k | j in f && k in f && j != k :: Foot(h, h[cur][j], f[j]) !! Foot(h, h[cur][k], f[k])
    ensures Shows(h, Ref(cur), Obj(f)) && Unshared(h, Ref(cur), Obj(f))
    ensures forall r | r in Foot(h, Ref(cur), Obj(f)) :: r == cur || exists k | k in f :: r in Foot(h, h[cur][k], f[k])
  {
  }

  /** The dictionaries of the value now in slot `k`. */
  ghost function OldChild(h: Heap, cur: nat, f: Fields, k: string): set<nat>
    requires Shows(h, Ref(cur), Obj(f))
  {
    if k in f then Foot(h, h[cur][k], f[k]) else {}
  }

  /** Giving slot `k` of dictionary `cur` a new unshared value, made of dictionaries of the old value,
      dictionaries from outside (`extra`) and fresh ones, keeps the rest of the document. */
  lemma ReplaceChild(h: Heap, h': Heap, next: nat, cur: nat, f: Fields, k: string, x: Slot, w: Value, extra: set<nat>)
    requires Shows(h, Ref(cur), Obj(f)) && Unshared(h, Ref(cur), Obj(f)) && forall q | q in h :: q < next
    requires cur in h && cur in h' && h'[cur] == h[cur][k := x]
    requires Shows(h', x, w) && Unshared(h', x, w) && extra !! Foot(h, Ref(cur), Obj(f))
    requires forall r | r in Foot(h', x, w) :: r in OldChild(h, cur, f, k) || r in extra || r >= next
    requires forall q | q in h && q != cur && q !in OldChild(h, cur, f, k) :: q in h' && h'[q] == h[q]
    ensures Shows(h', Ref(cur), Obj(f[k := w])) && Unshared(h', Ref(cur), Obj(f[k := w]))
    ensures forall r | r in Foot(h', Ref(cur), Obj(f[k := w])) ::
            r in Foot(h, Ref(cur), Obj(f)) || r in extra || r >= next
  {
    hide Shows, Unshared, Foot;
    FootInHeap(h, Ref(cur), Obj(f));
    Disassemble(h, cur, f);
    var f' := f[k := w];
    forall j | j in f && j != k
      ensures Shows(h', h'[cur][j], f'[j]) && Unshared(h', h'[cur][j], f'[j])
      ensures Foot(h', h'[cur][j], f'[j]) == Foot(h, h[cur][j], f[j])
    {
      ShowsFrame(h, h', h[cur][j], f[j]);
    }
    Assemble(h', cur, f');
  }

  /** The document `f` held by dictionary `cur` became `f'`: it is unshared again, made of dictionaries it
      had, dictionaries of `extra` and fresh ones, and no other dictionary changed. */
  ghost predicate Became(h: Heap, next: nat, h': Heap, cur: nat, f: Fields, f': Fields, extra: set<nat>)
    requires Shows(h, Ref(cur), Obj(f))
  {
    && Shows(h', Ref(cur), Obj(f'))
    && Unshared(h', Ref(cur), Obj(f'))
    && (forall r | r in Foot(h', Ref(cur), Obj(f')) :: r in Foot(h, Ref(cur), Obj(f)) || r in extra || r >= next)
    && (forall r | r in h && r !in Foot(h, Ref(cur), Obj(f)) :: r in h' && h'[r] == h[r])
  }

  /** What became of the dictionary in slot `k` is what became of the document. */
  lemma BecameBelow(h: Heap, next: nat, h': Heap, cur: nat, f: Fields, k: string, f': Fields, extra: set<nat>)
    requires Shows(h, Ref(cur), Obj(f)) && Unshared(h, Ref(cur), Obj(f)) && WellFormed(h, next)
    requires k in f && f[k].Obj? && Shows(h, h[cur][k], f[k])
    requires Became(h, next, h', h[cur][k].id, f[k].fields, f', extra) && extra !! Foot(h, Ref(cur), Obj(f))
    ensures Became(h, next, h', cur, f, f[k := Obj(f')], extra)
  {
    hide Shows, Unshared, Foot;
    Disassemble(h, cur, f);
    ShowsRef(h, h[cur][k], f[k]);
    assert h[cur] == h[cur][k := h[cur][k]];
    ReplaceChild(h, h', next, cur, f, k, h[cur][k], Obj(f'), extra);
  }

  /** The same for a fresh dictionary put into slot `k`. */
  lemma BecameFresh(h: Heap, next: nat, h': Heap, cur: nat, f: Fields, k: string, f': Fields, extra: set<nat>)
    requires Shows(h, Ref(cur), Obj(f)) && Unshared(h, Ref(cur), Obj(f)) && cur in h && WellFormed(h, next)
    requires Shows(Linked(h, next, cur, k), Ref(next), Obj(map[]))
    requires Foot(Linked(h, next, cur, k), Ref(next), Obj(map[])) == {next}
    requires Became(Linked(h, next, cur, k), next + 1, h', next, map[], f', extra) && extra !! Foot(h, Ref(cur), Obj(f))
    ensures Became(h, next, h', cur, f, f[k := Obj(f')], extra)
  {
    hide Shows, Unshared, Foot;
    Disassemble(h, cur, f);
    assert h'[cur] == h[cur][k := Ref(next)];
    ReplaceChild(h, h', next, cur, f, k, Ref(next), Obj(f'), extra);
  }

  /** The in-place write of an unshared object into an unshared document is the dotted write on
      values: nothing else in the document changes, and it stays unshared. */
  lemma {:induction false} StoreWriteIsPut(h: Heap, next: nat, cur: nat, f: Fields, segs: seq<string>, slot: Slot,
                                           v: Value)
    requires |segs| >= 1 && cur in h && WellFormed(h, next)
    requires Shows(h, Ref(cur), Obj(f)) && Unshared(h, Ref(cur), Obj(f))
    requires Shows(h, slot, v) && Unshared(h, slot, v)
    requires Foot(h, slot, v) !! Foot(h, Ref(cur), Obj(f))
    ensures Became(h, next, StoreWrite(h, next, cur, segs, slot).0, cur, f, Put(f, segs, v), Foot(h, slot, v))
    decreases |segs|
  {
    hide Shows, Unshared, Foot, Became;
    var k := segs[0];
    FootInHeap(h, slot, v);
    Disassemble(h, cur, f);
    if |segs| == 1 {
      WriteLast(h, next, cur, f, k, slot, v);
    } else if k in h[cur] && h[cur][k].Ref? {
      ShowsRef(h, h[cur][k], f[k]);
      StoreWriteIsPut(h, next, h[cur][k].id, f[k].fields, segs[1..], slot, v);
      var h' := StoreWrite(h, next, cur, segs, slot).0;
      BecameBelow(h, next, h', cur, f, k, Put(f[k].fields, segs[1..], v), Foot(h, slot, v));
    } else {
      var h1 := Linked(h, next, cur, k);
      EmptyDictionary(h1, next);
      ShowsFrame(h, h1, slot, v);
      StoreWriteIsPut(h1, next + 1, next, map[], segs[1..], slot, v);
      var h' := StoreWrite(h, next, cur, segs, slot).0;
      BecameFresh(h, next, h', cur, f, k, Put(map[], segs[1..], v), Foot(h, slot, v));
    }
  }

  lemma WriteLast(h: Heap, next: nat, cur: nat, f: Fields, k: string, slot: Slot, v: Value)
    requires cur in h && WellFormed(h, next)
    requires Shows(h, Ref(cur), Obj(f)) && Unshared(h, Ref(cur), Obj(f))
    requires Shows(h, slot, v) && Unshared(h, slot, v)
    requires Foot(h, slot, v) !! Foot(h, Ref(cur), Obj(f))
    ensures Became(h, next, h[cur := h[cur][k := slot]], cur, f, f[k := v], Foot(h, slot, v))
  {
    hide Shows, Unshared, Foot;
    var h' := h[cur := h[cur][k := slot]];
    FootInHeap(h, slot, v);
    Disassemble(h, cur, f);
    ShowsFrame(h, h', slot, v);
    ReplaceChild(h, h', next, cur, f, k, slot, v, Foot(h, slot, v));
  }

  lemma ShowsRef(h: Heap, s: Slot, v: Value)
    requires Shows(h, s, v) && s.Ref?
    ensures v.Obj? && s.id in h && s == Ref(s.id) && v == Obj(v.fields)
  {
  }

  lemma EmptyDictionary(h: Heap, r: nat)
    requires r in h && h[r] == map[]
    ensures Shows(h, Ref(r), Obj(map[])) && Unshared(h, Ref(r), Obj(map[])) && Foot(h, Ref(r), Obj(map[])) == {r}
  {
  }

  /** Reading through the heap reads the JSON value. */
  lemma {:induction false} StoreReadIsGet(h: Heap, s: Slot, v: Value, segs: seq<string>)
    requires Shows(h, s, v)
    ensures StoreRead(h, s, segs).Some? <==> Get(v, segs).Some?
    ensures StoreRead(h, s, segs).Some? ==> Shows(h, StoreRead(h, s, segs).value, Get(v, segs).value)
    decreases |segs|
  {
    if segs != [] && v.Obj? && segs[0] in v.fields {
      StoreReadIsGet(h, h[s.id][segs[0]], v.fields[segs[0]], segs[1..]);
    }
  }

  /** Noninterference of the in-place store: an accepted agent write of its own object into an unshared
      document leaves the document unshared, and every owned path leads to the value it led to before. */
  lemma InPlaceWriteKeepsOwned(
    h: Heap, next: nat, root: nat, f: Fields, key: string, slot: Slot, v: Value, actor: string, alnum: char -> bool,
    path: string)
    requires root in h && WellFormed(h, next)
    requires Shows(h, Ref(root), Obj(f)) && Unshared(h, Ref(root), Obj(f))
    requires Shows(h, slot, v) && Unshared(h, slot, v) && Foot(h, slot, v) !! Foot(h, Ref(root), Obj(f))
    requires actor != CONTROLLER && CheckWrite(key, v, actor, alnum) == Accepted && OwnedByController(path)
    ensures
      var h' := StoreWrite(h, next, root, Segments(key), slot).0;
      && Shows(h', Ref(root), Obj(Write(f, key, v))) && Unshared(h', Ref(root), Obj(Write(f, key, v)))
      && (Read(f, path).None? ==> StoreRead(h', Ref(root), Segments(path)).None?)
      && (Read(f, path).Some? ==> && StoreRead(h', Ref(root), Segments(path)).Some?
                                  && Shows(h', StoreRead(h', Ref(root), Segments(path)).value, Read(f, path).value))
  {
    hide Shows, Unshared, Foot, OwnedByController;
    StoreWriteIsPut(h, next, root, f, Segments(key), slot, v);
    AgentStepKeepsOwned(f, SetOp(actor, key, v), alnum, path);
    StoreReadIsGet(StoreWrite(h, next, root, Segments(key), slot).0, Ref(root), Obj(Write(f, key, v)), Segments(path));
  }
}
