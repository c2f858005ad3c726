/** Which reports are complete (src/core/report_validation.py:35-123), stated over the report as the Analyst left it. */
module ReportRules {
  import opened Wrappers
  import opened SpecPolicy
  import opened ReportValidation
  import opened SchemaFacts

  // ----------------------------------------------------------------------------------------
  // Equal values
  // ----------------------------------------------------------------------------------------

  /** Two values are alike at their top: one number, one text, lists of one length or dictionaries of the same names. */
  predicate AlikeOnTop(v: Value, w: Value) {
    || (IsNumber(v) && IsNumber(w) && NumberOf(v) == NumberOf(w))
    || (v.Null? && w.Null?)
    || (v.Str? && w.Str? && v.s == w.s)
    || (v.List? && w.List? && |v.items| == |w.items|)
    || (v.Obj? && w.Obj? && v.fields.Keys == w.fields.Keys)
  }

  predicate AlikeAt(v: Value, w: Value, path: seq<Step>) {
    At(v, path).Some? ==> At(w, path).Some? && AlikeOnTop(At(v, path).value, At(w, path).value)
  }

  lemma {:induction false} SameIsAlike(v: Value, w: Value, path: seq<Step>)
    requires SameJson(v, w)
    ensures AlikeAt(v, w, path)
    decreases |path|
  {
    if path != [] {
      match path[0]
      case Member(name) =>
        if v.Obj? && name in v.fields {
          assert name in w.fields.Keys;
          SameIsAlike(v.fields[name], w.fields[name], path[1..]);
        }
      case Element(i) =>
        if v.List? && i < |v.items| {
          SameIsAlike(v.items[i], w.items[i], path[1..]);
        }
    }
  }

  lemma AlikeInside(v: Value, w: Value, step: Step)
    requires forall path :: AlikeAt(v, w, path)
    requires At(v, [step]).Some? && At(w, [step]).Some?
    ensures forall path :: AlikeAt(At(v, [step]).value, At(w, [step]).value, path)
  {
    forall path ensures AlikeAt(At(v, [step]).value, At(w, [step]).value, path) {
      assert AlikeAt(v, w, [step] + path);
      assert ([step] + path)[1..] == path && [step][1..] == [];
    }
  }

  lemma ElementAt(v: Value, i: nat)
    requires v.List? && i < |v.items|
    ensures At(v, [Element(i)]) == Some(v.items[i])
  {
    assert [Element(i)][1..] == [];
  }

  lemma MemberAt(v: Value, name: string)
    requires v.Obj? && name in v.fields
    ensures At(v, [Member(name)]) == Some(v.fields[name])
  {
    assert [Member(name)][1..] == [];
  }

  lemma {:induction false} AlikeIsSame(v: Value, w: Value)
    requires forall path :: AlikeAt(v, w, path)
    ensures SameJson(v, w)
    decreases v
  {
    assert AlikeAt(v, w, []);
    match v
    case Obj(fields) =>
      forall k | k in fields ensures SameJson(fields[k], w.fields[k]) {
        assert k in w.fields.Keys;
        MemberAt(v, k);
        MemberAt(w, k);
        AlikeInside(v, w, Member(k));
        AlikeIsSame(fields[k], w.fields[k]);
      }
    case List(items) =>
      assert w.List? && |w.items| == |items|;
      forall i: nat | i < |items| ensures SameJson(items[i], w.items[i]) {
        ElementAt(v, i);
        ElementAt(w, i);
        AlikeInside(v, w, Element(i));
        AlikeIsSame(items[i], w.items[i]);
      }
    case _ =>
  }

  /** Two values are the same if and only if they are alike at every place of the one. */
  lemma SameExactlyWhenAlike(v: Value, w: Value)
    ensures SameJson(v, w) <==> forall path :: AlikeAt(v, w, path)
  {
    if SameJson(v, w) {
      forall path ensures AlikeAt(v, w, path) {
        SameIsAlike(v, w, path);
      }
    }
    if forall path :: AlikeAt(v, w, path) {
      AlikeIsSame(v, w);
    }
  }

  // ----------------------------------------------------------------------------------------
  // Complete reports
  // ----------------------------------------------------------------------------------------

  /** An indicator: a label, whatever it says, and a value that is not blank. */
  predicate Indicator(ioc: Value, text: TextTests) {
    && ioc.Obj? && "type" in ioc.fields && ioc.fields["type"].Str?
    && "value" in ioc.fields && ioc.fields["value"].Str? && !text.blank(ioc.fields["value"].s)
  }

  predicate Technique(item: Value, text: TextTests) {
    item.Str? && text.technique(item.s)
  }

  /** Everything a report has to have, and the task it has to name. */
  predicate Whole(report: Value, task: Option<int>, text: TextTests) {
    && report.Obj?
    && var f := report.fields;
       && "classification" in f && f["classification"].Str?
       && "confidence" in f && f["confidence"] in [Str("high"), Str("medium"), Str("low"), Str("unknown")]
       && "behaviour_summary" in f && f["behaviour_summary"].List?
       && "iocs" in f && f["iocs"].List? && (forall ioc | ioc in f["iocs"].items :: Indicator(ioc, text))
       && "mitre_attack" in f && f["mitre_attack"].List?
       && (forall item | item in f["mitre_attack"].items :: Technique(item, text))
       && (task.Some? ==> "cape_task_id" in f && f["cape_task_id"] == Int(task.value))
  }

  /** What becomes of an indicator with an unknown label: the label moves, and nothing else changes. */
  lemma RelabelledIoc(ioc: Value)
    ensures var unknown := ioc.Obj? && "type" in ioc.fields && ioc.fields["type"].Str?
                           && ioc.fields["type"].s !in IOC_TYPES;
            if !unknown then NormalizeIoc(ioc) == ioc
            else
              && NormalizeIoc(ioc).Obj?
              && var f := NormalizeIoc(ioc).fields;
                 && f.Keys == ioc.fields.Keys + {"raw_type"}
                 && f["type"] == Str("other") && f["raw_type"] == ioc.fields["type"]
                 && forall k | k in ioc.fields && k != "type" && k != "raw_type" :: f[k] == ioc.fields[k]
  {
    assert "type" != "raw_type" by {
      assert |"type"| == 4 && |"raw_type"| == 8;
    }
  }

  lemma IocByParts(ioc: Value, i: nat, text: TextTests)
    ensures IocProblemsOf(NormalizeIoc(ioc), i, text) == [] <==> Indicator(ioc, text)
  {
    hide IOC_TYPES;
    RelabelledIoc(ioc);
    NormalizeIocIsStable(ioc);
    KeysOfIoc();
  }

  lemma KeysOfIoc()
    ensures "value" != "type" && "value" != "raw_type"
  {
    assert |"type"| == 4 && |"value"| == 5 && |"raw_type"| == 8;
  }

  lemma {:induction false} IocsByParts(iocs: seq<Value>, i: nat, text: TextTests)
    ensures IocProblems(NormalizeIocs(iocs), i, text) == []
       <==> forall k | i <= k < |iocs| :: Indicator(iocs[k], text)
    decreases |iocs| - i
  {
    hide IocProblemsOf, Indicator, NormalizeIoc, NormalizeIocs;
    if i < |iocs| {
      IocsByParts(iocs, i + 1, text);
      IocByParts(iocs[i], i, text);
    }
  }

  lemma {:induction false} TechniquesByParts(items: seq<Value>, i: nat, text: TextTests)
    ensures TechniqueProblems(items, i, text) == [] <==> forall k | i <= k < |items| :: Technique(items[k], text)
    decreases |items| - i
  {
    if i < |items| {
      TechniquesByParts(items, i + 1, text);
    }
  }

  lemma FieldsByParts(f: map<string, Value>)
    ensures FieldProblems(f, REQUIRED_FIELDS) == [] <==>
              && "classification" in f && f["classification"].Str? && "confidence" in f && f["confidence"].Str?
              && "behaviour_summary" in f && f["behaviour_summary"].List? && "iocs" in f && f["iocs"].List?
              && "mitre_attack" in f && f["mitre_attack"].List?
  {
    var r := REQUIRED_FIELDS;
    assert r[1..][0] == r[1] && r[1..][1..] == r[2..] && r[2..][1..] == r[3..] && r[3..][1..] == r[4..];
    assert r[4..][1..] == [];
    assert FieldProblems(f, r[4..]) == [] <==> "mitre_attack" in f && f["mitre_attack"].List?;
    assert FieldProblems(f, r[3..]) == [] <==>
      "iocs" in f && f["iocs"].List? && FieldProblems(f, r[4..]) == [];
    assert FieldProblems(f, r[2..]) == [] <==>
      "behaviour_summary" in f && f["behaviour_summary"].List? && FieldProblems(f, r[3..]) == [];
    assert FieldProblems(f, r[1..]) == [] <==>
      "confidence" in f && f["confidence"].Str? && FieldProblems(f, r[2..]) == [];
  }

  lemma WholeByParts(report: Value, task: Option<int>, text: TextTests)
    ensures Validate(Normalize(report), task, text) == [] <==> Whole(report, task, text)
  {
    hide FieldProblems, IocProblems, TechniqueProblems, REQUIRED_FIELDS, Indicator, Technique, NormalizeIocs;
    NormalizeIsStable(report);
    if report.Obj? {
      var f, g := report.fields, Normalize(report).fields;
      FieldsByParts(g);
      TechniquesByParts(ListOf(g, "mitre_attack"), 0, text);
      IocsByParts(ListOf(f, "iocs"), 0, text);
      NamesOfReport();
    }
  }

  lemma NamesOfReport()
    ensures "classification" != "iocs" && "confidence" != "iocs" && "behaviour_summary" != "iocs"
    ensures "mitre_attack" != "iocs" && "cape_task_id" != "iocs"
  {
    assert |"iocs"| == 4 && |"classification"| == 14 && |"confidence"| == 10 && |"behaviour_summary"| == 17;
    assert |"mitre_attack"| == 12 && |"cape_task_id"| == 12;
  }

  /** A report is complete if and only if it is whole, the delivered file is whole, and both are the same after their
      unknown labels are moved. */
  lemma CompleteReports(report: Value, delivery: Option<Value>, task: Option<int>, text: TextTests)
    ensures CompletionProblems(report, delivery, task, text) == []
       <==> && Whole(report, task, text) && delivery.Some? && Whole(delivery.value, task, text)
            && forall path :: AlikeAt(Normalize(delivery.value), Normalize(report), path)
  {
    hide Whole, Validate, SameJson, AlikeAt, Normalize;
    WholeByParts(report, task, text);
    if delivery.Some? {
      WholeByParts(delivery.value, task, text);
      SameExactlyWhenAlike(Normalize(delivery.value), Normalize(report));
    }
  }
}
