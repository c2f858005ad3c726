/** What the value schema lets into the specification (src/core/spec_policy.py:233-418): the accepted writes, by
    field name, and what that keeps of the typed fields over every run. */
module SchemaFacts {
  import opened Wrappers
  import opened SpecPolicy
  import opened SpecDocument

  // ----------------------------------------------------------------------------------------
  // Which writes are accepted
  // ----------------------------------------------------------------------------------------

  const TEXT_FIELDS: set<string> := {
    "sample.format", "sample.os_target", "sample.architecture", "sample.interpreter", "sample.file_type",
    "sample.proposed_path", "network.proposed_mode", "network.c2_server", "network.reasoning", "cape_submission.tags",
    "cape_submission.reasoning", "cape_submission.error", "cape_submission.package", "cape_submission.options",
    "cape_submission.machine", "cape_submission.platform", "classification.type", "classification.confidence",
    "classification.family", "sandbox.isolation", "sandbox.os", "sandbox.arch", "sandbox.reasoning"}

  const FLAG_FIELDS: set<string> := {
    "sample.packed", "sample.pe_is_dll", "network.intercept_dns", "network.intercept_http",
    "cape_submission.enforce_timeout", "cape_submission.memory", "pass1.completed", "pass2.completed",
    "executor.empty_data_retry_done"}

  const LIST_FIELDS: set<string> := {"classification.basis", "pass1.observations", "passes", "executor.corrections"}

  const TABLE_FIELDS: set<string> := {"analysis.report", "monitors"}

  const DURATION := "pass1.duration_s"

  /** The smallest and the greatest number a field takes. */
  function RangeOf(key: string): Option<(int, int)> {
    if key == "sandbox.ram_mb" then Some((256, 65536))
    else if key == "sandbox.disk_gb" then Some((1, 2048))
    else if key == "cape_submission.timeout" then Some((10, 1800))
    else if key == "cape_submission.priority" then Some((1, 3))
    else if key == "executor.current_pass" then Some((0, 16))
    else None
  }

  function WordsOf(key: string): Option<set<string>> {
    if key == "classification.confidence" then Some({"high", "medium", "low", "unknown"})
    else if key == "cape_submission.platform" then Some({"windows", "linux", "macos", "android"})
    else if key == "network.proposed_mode" then Some({"isolated", "fakenet", "nat", "internet"})
    else if key == "sample.os_target" then Some({"windows", "linux", "macos", "android", "cross-platform", "unknown"})
    else None
  }

  /** The value is of the field's kind, one of its words and within its range; every field may be null. */
  predicate Shaped(key: string, v: Value) {
    v != Null ==>
      && (key in TEXT_FIELDS ==> v.Str?)
      && (WordsOf(key).Some? ==> v.Str? && v.s in WordsOf(key).value)
      && (key in FLAG_FIELDS ==> v.Bool?)
      && (RangeOf(key).Some? ==> v.Int? && RangeOf(key).value.0 <= v.i <= RangeOf(key).value.1)
      && (key in LIST_FIELDS ==> v.List?)
      && (key in TABLE_FIELDS ==> v.Obj?)
      && (key == DURATION ==> v.Int? || v.Float? || v.Bool?)
  }

  /** One step into a value: to a member of a dictionary or an element of a list. */
  datatype Step = Member(name: string) | Element(index: nat)

  function At(v: Value, path: seq<Step>): Option<Value>
    decreases |path|
  {
    if path == [] then Some(v)
    else
      match path[0]
      case Member(name) => if v.Obj? && name in v.fields then At(v.fields[name], path[1..]) else None
      case Element(i) => if v.List? && i < |v.items| then At(v.items[i], path[1..]) else None
  }

  /** Nothing lies more than eight steps inside, and no list or text on the way is too long. */
  ghost predicate Sized(v: Value) {
    forall path | At(v, path).Some? :: SizedAt(v, path)
  }

  predicate SizedAt(v: Value, path: seq<Step>)
    requires At(v, path).Some?
  {
    var here := At(v, path).value;
    |path| <= 8 && (here.List? ==> |here.items| <= 2048) && (here.Str? ==> |here.s| <= 65536)
  }

  /** At most six parts between the dots, each with a character besides `_` and `-`, 160 characters in all. */
  ghost predicate LegalKey(key: string, alnum: char -> bool) {
    && 1 <= |key| <= 160
    && exists parts ::
         && 1 <= |parts| <= 6 && key == Join(parts)
         && forall i | 0 <= i < |parts| :: '.' !in parts[i] && GoodSegment(parts[i], alnum)
  }

  lemma {:induction false} PartsHaveNoDot(path: string)
    ensures forall i | 0 <= i < |Segments(path)| :: '.' !in Segments(path)[i]
  {
    if path != "" {
      PartsHaveNoDot(path[1..]);
    }
  }

  lemma {:induction false} SegmentsOfPart(part: string)
    requires '.' !in part
    ensures Segments(part) == [part]
  {
    if part != "" {
      SegmentsOfPart(part[1..]);
      assert [part[0]] + part[1..] == part;
    }
  }

  lemma {:induction false} SegmentsOfJoin(parts: seq<string>)
    requires |parts| >= 1 && forall i | 0 <= i < |parts| :: '.' !in parts[i]
    ensures Segments(Join(parts)) == parts
  {
    SegmentsOfPart(parts[0]);
    if |parts| > 1 {
      var rest := Join(parts[1..]);
      SegmentsOfJoin(parts[1..]);
      SegmentsAppend(parts[0], rest);
      assert parts[0] + "." + rest == Join(parts);
      assert parts == [parts[0]] + parts[1..];
    }
  }

  lemma KeysByParts(key: string, alnum: char -> bool)
    ensures GoodKey(key, alnum) <==> LegalKey(key, alnum)
  {
    if GoodKey(key, alnum) {
      PartsHaveNoDot(key);
      JoinSegments(key);
    }
    if LegalKey(key, alnum) {
      var parts :| 1 <= |parts| <= 6 && key == Join(parts)
                   && forall i | 0 <= i < |parts| :: '.' !in parts[i] && GoodSegment(parts[i], alnum);
      SegmentsOfJoin(parts);
    }
  }

  lemma {:induction false} LimitsReachInside(v: Value, depth: nat, path: seq<Step>)
    requires WithinLimits(v, depth) && At(v, path).Some?
    ensures depth + |path| <= 8 && WithinLimits(At(v, path).value, depth + |path|)
    decreases |path|
  {
    if path != [] {
      match path[0]
      case Member(name) => LimitsReachInside(v.fields[name], depth + 1, path[1..]);
      case Element(i) => LimitsReachInside(v.items[i], depth + 1, path[1..]);
    }
  }

  /** What is beyond the limits shows at some place inside. */
  lemma {:induction false} LimitsBroken(v: Value, depth: nat) returns (path: seq<Step>)
    requires depth <= 8 && !WithinLimits(v, depth)
    ensures At(v, path).Some? && !(depth + |path| <= 8 && SizedAt(v, path))
    decreases v
  {
    path := [];
    match v
    case Obj(fields) =>
      var k :| k in fields && !WithinLimits(fields[k], depth + 1);
      path := [Member(k)];
      if depth < 8 {
        var rest := LimitsBroken(fields[k], depth + 1);
        path := [Member(k)] + rest;
        assert path[1..] == rest;
      }
    case List(items) =>
      if |items| <= 2048 {
        var i :| 0 <= i < |items| && !WithinLimits(items[i], depth + 1);
        path := [Element(i)];
        if depth < 8 {
          var rest := LimitsBroken(items[i], depth + 1);
          path := [Element(i)] + rest;
          assert path[1..] == rest;
        }
      }
    case _ =>
  }

  lemma LimitsByPlaces(v: Value)
    ensures WithinLimits(v, 0) <==> Sized(v)
  {
    if WithinLimits(v, 0) {
      forall path | At(v, path).Some? ensures SizedAt(v, path) {
        LimitsReachInside(v, 0, path);
      }
    } else {
      var path := LimitsBroken(v, 0);
    }
  }

  predicate Typed(key: string, t: FieldType) {
    FieldTypeOf(key) == Some(t)
  }

  /** Field names of one length differ at one of these positions. */
  lemma Marks(key: string)
    ensures var marks := [if |key| > 4 then key[4] else ' ', if |key| > 8 then key[8] else ' ',
                          if |key| > 19 then key[19] else ' '];
            |marks| == 3
  {
  }

  lemma TextFields(key: string)
    ensures key in TEXT_FIELDS ==> Typed(key, StrType)
  {
    Marks(key);
  }

  lemma SampleFlags(key: string)
    ensures key == "sample.packed" ==> Typed(key, BoolType)
    ensures key == "sample.pe_is_dll" ==> Typed(key, BoolType)
  {
    Marks(key);
  }

  lemma NetworkFlags(key: string)
    ensures key == "network.intercept_dns" ==> Typed(key, BoolType)
    ensures key == "network.intercept_http" ==> Typed(key, BoolType)
  {
    Marks(key);
  }

  lemma PlanFlags(key: string)
    ensures key == "cape_submission.enforce_timeout" ==> Typed(key, BoolType)
    ensures key == "cape_submission.memory" ==> Typed(key, BoolType)
  {
    Marks(key);
  }

  lemma FirstPassFlag(key: string)
    ensures key == "pass1.completed" ==> Typed(key, BoolType)
  {
    Marks(key);
  }

  lemma SecondPassFlag(key: string)
    ensures key == "pass2.completed" ==> Typed(key, BoolType)
  {
    Marks(key);
  }

  lemma ExecutorFlag(key: string)
    ensures key == "executor.empty_data_retry_done" ==> Typed(key, BoolType)
  {
    Marks(key);
  }

  lemma SandboxNumbers(key: string)
    ensures key == "sandbox.ram_mb" ==> Typed(key, IntType)
    ensures key == "sandbox.disk_gb" ==> Typed(key, IntType)
  {
    Marks(key);
  }

  lemma PlanNumbers(key: string)
    ensures key == "cape_submission.timeout" ==> Typed(key, IntType)
    ensures key == "cape_submission.priority" ==> Typed(key, IntType)
  {
    Marks(key);
  }

  lemma PassNumber(key: string)
    ensures key == "executor.current_pass" ==> Typed(key, IntType)
  {
    Marks(key);
  }

  lemma Duration(key: string)
    ensures key == "pass1.duration_s" ==> Typed(key, NumberType)
  {
    Marks(key);
  }

  lemma FirstLists(key: string)
    ensures key == "classification.basis" ==> Typed(key, ListType)
    ensures key == "pass1.observations" ==> Typed(key, ListType)
  {
    Marks(key);
  }

  lemma PassList(key: string)
    ensures key == "passes" ==> Typed(key, ListType)
  {
    Marks(key);
  }

  lemma CorrectionList(key: string)
    ensures key == "executor.corrections" ==> Typed(key, ListType)
  {
    Marks(key);
  }

  lemma ReportTable(key: string)
    ensures key == "analysis.report" ==> Typed(key, DictType)
  {
    Marks(key);
  }

  lemma MonitorTable(key: string)
    ensures key == "monitors" ==> Typed(key, DictType)
  {
    Marks(key);
  }

  lemma TypedIsNamed(key: string)
    ensures FieldTypeOf(key).Some? ==>
              || key in TEXT_FIELDS || key in FLAG_FIELDS || key in LIST_FIELDS || key in TABLE_FIELDS
              || RangeOf(key).Some? || key == DURATION
  {
  }

  lemma NamedIsTyped(key: string)
    ensures key in TEXT_FIELDS ==> Typed(key, StrType)
    ensures key in FLAG_FIELDS ==> Typed(key, BoolType)
    ensures RangeOf(key).Some? ==> Typed(key, IntType)
    ensures key in LIST_FIELDS ==> Typed(key, ListType)
    ensures key in TABLE_FIELDS ==> Typed(key, DictType)
    ensures key == DURATION ==> Typed(key, NumberType)
  {
    hide Typed, TEXT_FIELDS;
    TextFields(key);
    SampleFlags(key);
    NetworkFlags(key);
    PlanFlags(key);
    FirstPassFlag(key);
    SecondPassFlag(key);
    ExecutorFlag(key);
    SandboxNumbers(key);
    PlanNumbers(key);
    PassNumber(key);
    Duration(key);
    FirstLists(key);
    PassList(key);
    CorrectionList(key);
    ReportTable(key);
    MonitorTable(key);
  }

  /** The kinds by field name are the kinds of the table. */
  lemma TypesByName(key: string)
    ensures key in TEXT_FIELDS <==> Typed(key, StrType)
    ensures key in FLAG_FIELDS <==> Typed(key, BoolType)
    ensures RangeOf(key).Some? <==> Typed(key, IntType)
    ensures key in LIST_FIELDS <==> Typed(key, ListType)
    ensures key in TABLE_FIELDS <==> Typed(key, DictType)
    ensures key == DURATION <==> Typed(key, NumberType)
  {
    hide FieldTypeOf, TEXT_FIELDS, FLAG_FIELDS, LIST_FIELDS, TABLE_FIELDS, RangeOf, DURATION;
    NamedIsTyped(key);
    TypedIsNamed(key);
  }

  lemma RulesByName(key: string)
    ensures WordsOf(key) == if key in FIELD_ENUMS then Some(FIELD_ENUMS[key]) else None
    ensures RangeOf(key) == if key in FIELD_BOUNDS then Some(FIELD_BOUNDS[key]) else None
    ensures WordsOf(key).Some? ==> key in TEXT_FIELDS
  {
  }

  /** A write is accepted if and only if its key is legal, a role other than the controller may write it, and the
      value is of the field's shape and not too large. */
  lemma AcceptedWrites(key: string, v: Value, actor: string, alnum: char -> bool)
    ensures CheckWrite(key, v, actor, alnum) == Accepted
       <==> LegalKey(key, alnum) && (actor == CONTROLLER || MayWrite(actor, key)) && Shaped(key, v) && Sized(v)
  {
    hide GoodKey, LegalKey, MayWrite, WithinLimits, Sized, TEXT_FIELDS, FLAG_FIELDS, LIST_FIELDS, TABLE_FIELDS,
         FieldTypeOf, FIELD_ENUMS, FIELD_BOUNDS, RangeOf, WordsOf;
    KeysByParts(key, alnum);
    LimitsByPlaces(v);
    TypesByName(key);
    RulesByName(key);
  }

  // ----------------------------------------------------------------------------------------
  // The typed fields over runs of writes
  // ----------------------------------------------------------------------------------------

  predicate Below(key: string, field: string) {
    field + "." <= key
  }

  /** What a value written at `key`, above the field, holds at the field's place. */
  function Inside(v: Value, key: string, field: string): Option<Value>
    requires Below(field, key)
  {
    Get(v, Segments(field[|key| + 1..]))
  }

  /** The field is missing or of its shape. */
  predicate Fits(doc: Fields, field: string) {
    Read(doc, field).Some? ==> Shaped(field, Read(doc, field).value)
  }

  lemma {:induction false} GetBelowPut(fields: Fields, segs: seq<string>, v: Value, rest: seq<string>)
    requires |segs| >= 1
    ensures Get(Obj(Put(fields, segs, v)), segs + rest) == Get(v, rest)
    decreases |segs|
  {
    assert (segs + rest)[1..] == segs[1..] + rest;
    if |segs| > 1 {
      var child := if segs[0] in fields && fields[segs[0]].Obj? then fields[segs[0]].fields else map[];
      GetBelowPut(child, segs[1..], v, rest);
    } else {
      assert segs[1..] + rest == rest;
    }
  }

  lemma {:induction false} GetAbovePut(fields: Fields, front: seq<string>, v: Value, rest: seq<string>)
    requires |rest| >= 1
    ensures var above := Get(Obj(Put(fields, front + rest, v)), front);
            above.Some? && above.value.Obj?
    decreases |front|
  {
    if front != [] {
      assert (front + rest)[1..] == front[1..] + rest;
      var child := if front[0] in fields && fields[front[0]].Obj? then fields[front[0]].fields else map[];
      GetAbovePut(child, front[1..], v, rest);
    }
  }

  /** Writing above a field puts what the value holds there in its place; writing below it leaves a dictionary. */
  lemma RelatedWrites(doc: Fields, key: string, v: Value, field: string)
    ensures Below(field, key) ==> Read(Write(doc, key, v), field) == Inside(v, key, field)
    ensures Below(key, field) ==> Read(Write(doc, key, v), field).Some? && Read(Write(doc, key, v), field).value.Obj?
  {
    if Below(field, key) {
      var t := field[|key| + 1..];
      assert field == key + "." + t;
      SegmentsAppend(key, t);
      GetBelowPut(doc, Segments(key), v, Segments(t));
    }
    if Below(key, field) {
      var t := key[|field| + 1..];
      assert key == field + "." + t;
      SegmentsAppend(field, t);
      GetAbovePut(doc, Segments(field), v, Segments(t));
    }
  }

  /** The write puts something of another shape where the field is. */
  predicate Misfits(key: string, v: Value, field: string) {
    if Below(key, field) then !Shaped(field, Obj(map[]))
    else Below(field, key) && Inside(v, key, field).Some? && !Shaped(field, Inside(v, key, field).value)
  }

  /** After an accepted write a field is of its shape if and only if the write puts nothing else there, and, when it
      lies elsewhere, the field was of its shape before. */
  lemma FieldAfterWrite(doc: Fields, key: string, v: Value, actor: string, alnum: char -> bool, field: string)
    requires CheckWrite(key, v, actor, alnum) == Accepted
    ensures Fits(Write(doc, key, v), field) <==> !Misfits(key, v, field) && (Related(key, field) || Fits(doc, field))
  {
    hide CheckWrite, Write, Read, Shaped, Inside;
    AcceptedWrites(key, v, actor, alnum);
    WriteLaws(doc, key, v, field);
    RelatedWrites(doc, key, v, field);
    if Below(key, field) {
      DictionariesAlike(field, Read(Write(doc, key, v), field).value);
    }
  }

  lemma DictionariesAlike(field: string, v: Value)
    requires v.Obj?
    ensures Shaped(field, v) <==> Shaped(field, Obj(map[]))
  {
    hide TEXT_FIELDS, FLAG_FIELDS, LIST_FIELDS, TABLE_FIELDS, RangeOf, WordsOf;
  }

  /** An agent's call does not reach into or over the field with something of another shape. */
  predicate Respects(op: AgentWrite, field: string) {
    match op
    case SetOp(_, key, v) => !Misfits(key, v, field)
    case AppendOp(_, key, _) => Below(key, field) ==> Shaped(field, Obj(map[]))
  }

  /** Whatever is written, by whom and in what order: while no call does that, the field keeps its shape. */
  lemma {:induction false} FieldsKeepTheirShape(doc: Fields, ops: seq<AgentWrite>, alnum: char -> bool, field: string)
    requires Fits(doc, field) && forall op | op in ops :: Respects(op, field)
    ensures Fits(AgentRun(doc, ops, alnum), field)
    decreases |ops|
  {
    hide Fits, Respects, AgentStep;
    if ops != [] {
      CallKeepsShape(doc, ops[0], alnum, field);
      FieldsKeepTheirShape(AgentStep(doc, ops[0], alnum), ops[1..], alnum, field);
    }
  }

  lemma CallKeepsShape(doc: Fields, op: AgentWrite, alnum: char -> bool, field: string)
    requires Fits(doc, field) && Respects(op, field)
    ensures Fits(AgentStep(doc, op, alnum), field)
  {
    hide CheckWrite, Fits, Shaped, Write, Read, Below;
    match op
    case SetOp(actor, key, v) =>
      if CheckWrite(key, v, actor, alnum) == Accepted {
        FieldAfterWrite(doc, key, v, actor, alnum, field);
      }
    case AppendOp(actor, key, v) =>
      var list := Extended(Read(doc, key), v);
      if list.Some? && CheckWrite(key, list.value, actor, alnum) == Accepted {
        FieldAfterWrite(doc, key, list.value, actor, alnum, field);
        NothingInsideLists(list.value, key, field);
      }
  }

  lemma NothingInsideLists(v: Value, key: string, field: string)
    requires v.List?
    ensures Below(field, key) ==> Inside(v, key, field) == None
  {
  }

  // ----------------------------------------------------------------------------------------
  // Appending
  // ----------------------------------------------------------------------------------------

  /** What is held at a path, as a list; nothing when something else is there. */
  function Held(doc: Fields, key: string): Option<seq<Value>> {
    var v := Read(doc, key);
    if v.None? || v == Some(Null) then Some([])
    else if v.value.List? then Some(v.value.items)
    else None
  }

  function Appends(actor: string, key: string, values: seq<Value>): seq<AgentWrite> {
    seq(|values|, i requires 0 <= i < |values| => AppendOp(actor, key, values[i]))
  }

  /** Appending puts the value behind the held ones, when the longer list is accepted; else nothing changes. */
  lemma AppendedOnce(doc: Fields, key: string, value: Value, actor: string, alnum: char -> bool)
    ensures var after, held := AgentStep(doc, AppendOp(actor, key, value), alnum), Held(doc, key);
            if held.Some? && CheckWrite(key, List(held.value + [value]), actor, alnum) == Accepted then
              Read(after, key) == Some(List(held.value + [value]))
            else after == doc
  {
    hide CheckWrite, Read, Write;
    var held := Held(doc, key);
    if held.Some? {
      assert [] + [value] == [value];
      WriteLaws(doc, key, List(held.value + [value]), key);
    }
  }

  /** Over a run of accepted appends to a path the values come to stand behind the held ones, in order. */
  lemma {:induction false} AppendsAccumulate(doc: Fields, key: string, values: seq<Value>, actor: string,
                                             alnum: char -> bool)
    requires Held(doc, key).Some?
    requires forall n | 1 <= n <= |values| ::
               CheckWrite(key, List(Held(doc, key).value + values[..n]), actor, alnum) == Accepted
    ensures Held(AgentRun(doc, Appends(actor, key, values), alnum), key) == Some(Held(doc, key).value + values)
    decreases |values|
  {
    hide CheckWrite, AgentStep, Read;
    var held := Held(doc, key).value;
    if values == [] {
      assert held + [] == held;
    } else {
      var v, rest := values[0], values[1..];
      var after := AgentStep(doc, AppendOp(actor, key, v), alnum);
      assert values[..1] == [v];
      AppendedOnce(doc, key, v, actor, alnum);
      assert Held(after, key) == Some(held + [v]);
      forall n | 1 <= n <= |rest|
        ensures CheckWrite(key, List(held + [v] + rest[..n]), actor, alnum) == Accepted
      {
        assert held + [v] + rest[..n] == held + values[..n + 1];
      }
      AppendsAccumulate(after, key, rest, actor, alnum);
      assert Appends(actor, key, values)[1..] == Appends(actor, key, rest);
      assert held + [v] + rest == held + values;
    }
  }

  // ----------------------------------------------------------------------------------------
  // Where shapes are lost
  // ----------------------------------------------------------------------------------------

  /** No entry of the table ends in more than one dot. */
  predicate Plain(e: Entries) {
    && |e.head| > 0 && e.head[|e.head| - 1] != '.'
    && (e.Under? ==> forall n | n in e.names :: n == "" || n[|n| - 1] != '.')
  }

  lemma ScoutTableIsPlain(e: Entries)
    requires e in SCOUT_WRITABLE
    ensures Plain(e)
  {
  }

  lemma ArchitectTableIsPlain(e: Entries)
    requires e in ARCHITECT_WRITABLE
    ensures Plain(e)
  {
  }

  lemma OtherTablesArePlain(e: Entries)
    requires e in EXECUTOR_WRITABLE || e in ANALYST_WRITABLE
    ensures Plain(e)
  {
  }

  lemma StripOnce(a: string)
    requires |a| > 0
    ensures a[|a| - 1] != '.' ==> StripTrailingDots(a) == a
    ensures a[|a| - 1] != '.' ==> StripTrailingDots(a + ".") == a
  {
    assert (a + ".")[..|a|] == a;
  }

  lemma ExtendsBelow(a: string, path: string, t: string)
    requires a <= path || a == path + "."
    ensures a <= path + "." + t
  {
    if a <= path {
      assert path + "." + t == a + (path[|a|..] + "." + t);
    } else {
      assert path + "." + t == a + t;
    }
  }

  /** Who may write a path may write below it. */
  lemma PermittedBelow(e: Entries, path: string, t: string)
    requires Plain(e) && Permits(e, path)
    ensures Permits(e, path + "." + t)
  {
    hide StripTrailingDots;
    match e
    case Root(head) =>
      StripOnce(head);
      ExtendsBelow(head, path, t);
    case Under(head, names) =>
      var n :| n in names && (path == StripTrailingDots(head + "." + n) || head + "." + n <= path);
      if n == "" {
        assert head + "." + n == head + ".";
        StripOnce(head);
      } else {
        StripOnce(head + "." + n);
      }
      ExtendsBelow(head + "." + n, path, t);
  }

  lemma MayWriteBelow(actor: string, path: string, t: string)
    requires MayWrite(actor, path)
    ensures MayWrite(actor, path + "." + t)
  {
    hide OwnedByController, Permits, Plain, SCOUT_WRITABLE, ARCHITECT_WRITABLE, EXECUTOR_WRITABLE, ANALYST_WRITABLE;
    var table := RoleWritable(actor).value;
    var e := PermittingEntry(table, path);
    if actor == "Scout" {
      ScoutTableIsPlain(e);
    } else if actor == "Architect" {
      ArchitectTableIsPlain(e);
    } else {
      OtherTablesArePlain(e);
    }
    PermittedBelow(e, path, t);
    PermittedByRow(table, e, path + "." + t);
    OwnershipTestIsRedundant(actor, path + "." + t);
  }

  lemma LegalBelow(field: string, name: string, alnum: char -> bool)
    requires LegalKey(field, alnum) && |Segments(field)| <= 5
    requires '.' !in name && GoodSegment(name, alnum) && |field| + 1 + |name| <= 160
    ensures LegalKey(field + "." + name, alnum)
  {
    KeysByParts(field, alnum);
    KeysByParts(field + "." + name, alnum);
    SegmentsAppend(field, name);
    SegmentsOfPart(name);
  }

  /** Every role that may write a typed field can leave a dictionary in its place, by an accepted write one level
      below it: only the two fields that are dictionaries keep their shape then. */
  lemma WritersCanReplace(doc: Fields, actor: string, field: string, name: string, alnum: char -> bool)
    requires MayWrite(actor, field) && LegalKey(field, alnum) && |Segments(field)| <= 5
    requires '.' !in name && GoodSegment(name, alnum) && |field| + 1 + |name| <= 160
    ensures CheckWrite(field + "." + name, Null, actor, alnum) == Accepted
    ensures var after := Write(doc, field + "." + name, Null);
            && Read(after, field).Some? && Read(after, field).value.Obj?
            && (FieldTypeOf(field).Some? && field !in TABLE_FIELDS ==> !Fits(after, field))
  {
    hide CheckWrite, Write, Read, MayWrite, LegalKey, FieldTypeOf, TEXT_FIELDS, FLAG_FIELDS, LIST_FIELDS, TABLE_FIELDS,
         RangeOf, WordsOf;
    var key := field + "." + name;
    MayWriteBelow(actor, field, name);
    LegalBelow(field, name, alnum);
    forall path | At(Null, path).Some? ensures SizedAt(Null, path) {
    }
    AcceptedWrites(key, Null, actor, alnum);
    RelatedWrites(doc, key, Null, field);
    if FieldTypeOf(field).Some? && field !in TABLE_FIELDS {
      DictionaryMisfits(field, Read(Write(doc, key, Null), field).value);
    }
  }

  lemma DictionaryMisfits(field: string, v: Value)
    requires FieldTypeOf(field).Some? && field !in TABLE_FIELDS && v.Obj?
    ensures !Shaped(field, v)
  {
    hide FieldTypeOf, TEXT_FIELDS, FLAG_FIELDS, LIST_FIELDS, TABLE_FIELDS, RangeOf, WordsOf;
    TypesByName(field);
    var kind := FieldTypeOf(field).value;
    assert Typed(field, kind);
    assert kind.StrType? || kind.BoolType? || kind.IntType? || kind.ListType? || kind.NumberType?;
  }

  /** Small letters and `_` make a part, when a letter comes first. */
  lemma LettersAreGood(part: string, alnum: char -> bool)
    requires forall c | 'a' <= c <= 'z' :: alnum(c)
    requires part != "" && 'a' <= part[0] <= 'z'
    requires forall i | 0 <= i < |part| :: 'a' <= part[i] <= 'z' || part[i] == '_'
    ensures GoodSegment(part, alnum) && '.' !in part
  {
    assert part[0] != '_' && part[0] != '-';
  }

  /** So the Architect can make the timeout of the submission a dictionary. */
  lemma TimeoutCanBeReplaced(doc: Fields, alnum: char -> bool)
    requires forall c | 'a' <= c <= 'z' :: alnum(c)
    ensures CheckWrite("cape_submission.timeout.x", Null, "Architect", alnum) == Accepted
    ensures !Fits(Write(doc, "cape_submission.timeout.x", Null), "cape_submission.timeout")
  {
    hide CheckWrite, Fits, Write, Segments, OwnedByController, TABLE_FIELDS, FieldTypeOf, LegalKey, AnyPermits;
    var field, e := "cape_submission.timeout", ARCHITECT_WRITABLE[2];
    assert Permits(e, field) by {
      assert "timeout" in e.names && "cape_submission" + "." + "timeout" <= field;
    }
    PermittedByRow(ARCHITECT_WRITABLE, e, field);
    OwnershipTestIsRedundant("Architect", field);
    TimeoutIsLegal(alnum);
    assert "x"[0] != '_' && "x"[0] != '-';
    PlanNumbers(field);
    TimeoutIsNoTable();
    WritersCanReplace(doc, "Architect", field, "x", alnum);
    assert field + "." + "x" == "cape_submission.timeout.x";
  }

  lemma TimeoutIsNoTable()
    ensures "cape_submission.timeout" !in TABLE_FIELDS
  {
    assert |"cape_submission.timeout"| == 23;
  }

  lemma TimeoutIsLegal(alnum: char -> bool)
    requires forall c | 'a' <= c <= 'z' :: alnum(c)
    ensures LegalKey("cape_submission.timeout", alnum) && |Segments("cape_submission.timeout")| == 2
  {
    hide Segments, LegalKey, GoodSegment, Join;
    var a, b := "cape_submission", "timeout";
    assert a + "." + b == "cape_submission.timeout";
    LettersAreGood(a, alnum);
    LettersAreGood(b, alnum);
    SegmentsAppend(a, b);
    SegmentsOfPart(a);
    SegmentsOfPart(b);
    KeysByParts(a + "." + b, alnum);
  }

  /** The flag that stops the one retry is the Executor's own to set. */
  lemma RetryFlagIsTheAgents(alnum: char -> bool)
    requires forall c | 'a' <= c <= 'z' :: alnum(c)
    ensures CheckWrite("executor.empty_data_retry_done", Bool(true), "Executor", alnum) == Accepted
  {
    hide CheckWrite, OwnedByController, TABLE_FIELDS, TEXT_FIELDS, LIST_FIELDS, FLAG_FIELDS, RangeOf, WordsOf, DURATION,
         FieldTypeOf, LegalKey, AnyPermits, Join;
    var field, e := "executor.empty_data_retry_done", EXECUTOR_WRITABLE[3];
    assert Permits(e, field) by {
      assert "empty_data_retry_done" in e.names && "executor" + "." + "empty_data_retry_done" <= field;
    }
    PermittedByRow(EXECUTOR_WRITABLE, e, field);
    OwnershipTestIsRedundant("Executor", field);
    RetryFlagIsLegal(alnum);
    forall path | At(Bool(true), path).Some? ensures SizedAt(Bool(true), path) {
    }
    ExecutorFlag(field);
    FlagsTakeBooleans(field);
    AcceptedWrites(field, Bool(true), "Executor", alnum);
  }

  lemma FlagsTakeBooleans(field: string)
    requires Typed(field, BoolType)
    ensures Shaped(field, Bool(true))
  {
    hide TABLE_FIELDS, TEXT_FIELDS, LIST_FIELDS, FLAG_FIELDS, RangeOf, WordsOf, FieldTypeOf;
    TypesByName(field);
    RulesByName(field);
  }

  lemma RetryFlagIsLegal(alnum: char -> bool)
    requires forall c | 'a' <= c <= 'z' :: alnum(c)
    ensures LegalKey("executor.empty_data_retry_done", alnum)
  {
    hide Segments, LegalKey, GoodSegment, Join;
    var a, b := "executor", "empty_data_retry_done";
    assert a + "." + b == "executor.empty_data_retry_done";
    LettersAreGood(a, alnum);
    LettersAreGood(b, alnum);
    SegmentsAppend(a, b);
    SegmentsOfPart(a);
    SegmentsOfPart(b);
    KeysByParts(a + "." + b, alnum);
  }
}
