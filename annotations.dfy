/**
 * Which document setters the annotate phase runs, and with what arguments
 * (index.js lines 110-132). The document itself is a library object and is
 * not modelled: the plan lists the setter calls in the order they are made.
 */
module Annotations {
  import opened Outcomes
  import opened JsValues

  /** The eight metadata fields, in the order the handler visits them. */
  datatype MetaField =
    Title | Author | Subject | Keywords | Creator | Producer | CreationDate | ModificationDate

  function MetaKey(f: MetaField): string {
    match f
    case Title => "title"
    case Author => "author"
    case Subject => "subject"
    case Keywords => "keywords"
    case Creator => "creator"
    case Producer => "producer"
    case CreationDate => "creationDate"
    case ModificationDate => "modificationDate"
  }

  function MetaRank(f: MetaField): nat {
    match f
    case Title => 0
    case Author => 1
    case Subject => 2
    case Keywords => 3
    case Creator => 4
    case Producer => 5
    case CreationDate => 6
    case ModificationDate => 7
  }

  /**
   * One metadata setter call with the caller's value. For the two dates the
   * value is what is handed to `new Date(...)`; date parsing is not modelled.
   */
  datatype MetaSetter = MetaSetter(field: MetaField, value: JsValue)

  /** The six viewer-preference flags, in the order the handler visits them. */
  datatype PrefFlag = HideToolbar | HideMenubar | HideWindowUI | FitWindow | CenterWindow | DisplayDocTitle

  function PrefKey(f: PrefFlag): string {
    match f
    case HideToolbar => "hideToolbar"
    case HideMenubar => "hideMenubar"
    case HideWindowUI => "hideWindowUI"
    case FitWindow => "fitWindow"
    case CenterWindow => "centerWindow"
    case DisplayDocTitle => "displayDocTitle"
  }

  function PrefRank(f: PrefFlag): nat {
    match f
    case HideToolbar => 0
    case HideMenubar => 1
    case HideWindowUI => 2
    case FitWindow => 3
    case CenterWindow => 4
    case DisplayDocTitle => 5
  }

  /** One viewer-preference setter call; the caller's (truthy) value is passed on as it is. */
  datatype PrefSetter = PrefSetter(flag: PrefFlag, value: JsValue)

  /**
   * The setter calls of the annotate phase. `viewerPreferences` is `None`
   * when the preferences record is not touched at all, and `Some(calls)` when
   * it is fetched or created, even if `calls` turns out empty.
   */
  datatype AnnotationPlan = AnnotationPlan(
    metadata: seq<MetaSetter>,
    viewerPreferences: Option<seq<PrefSetter>>)

  /**
   * A metadata field is set when the metadata block and the field are both
   * present with a value other than undefined, null, false, 0 or ''; the
   * keyword list is set exactly when it is an array, even an empty one.
   */
  predicate MetaSelected(m: JsValue, f: MetaField) {
    !IsFalsyValue(m) &&
    if f == Keywords then IsArray(Prop(m, "keywords")) else !IsFalsyValue(Prop(m, MetaKey(f)))
  }

  /** The fields in the order the handler visits them. */
  const MetaFieldOrder: seq<MetaField> :=
    [Title, Author, Subject, Keywords, Creator, Producer, CreationDate, ModificationDate]

  /** One guarded setter call, `if (m.f) pdfDoc.setF(m.f)`, with the source's own test. */
  function MetaIf(m: JsValue, f: MetaField): (r: seq<MetaSetter>)
    requires Truthy(m)
    ensures |r| <= 1
    ensures r != [] <==> MetaSelected(m, f)
    ensures r != [] ==> r[0] == MetaSetter(f, Prop(m, MetaKey(f)))
  {
    var v := Prop(m, MetaKey(f));
    var guard := if f == Keywords then Truthy(v) && IsArray(v) else Truthy(v);
    if guard then [MetaSetter(f, v)] else []
  }

  /** The guarded setter calls for `fields`, one after the other. */
  function MetaSettersFor(m: JsValue, fields: seq<MetaField>): seq<MetaSetter>
    requires Truthy(m)
  {
    if fields == [] then [] else MetaIf(m, fields[0]) + MetaSettersFor(m, fields[1..])
  }

  /** Every call is for a selected field and carries the caller's value. */
  predicate MetaSound(m: JsValue, r: seq<MetaSetter>) {
    forall i :: 0 <= i < |r| ==> MetaSelected(m, r[i].field) && r[i].value == Prop(m, MetaKey(r[i].field))
  }

  /** Every selected entry of `fields` gets a call. */
  predicate MetaComplete(m: JsValue, fields: seq<MetaField>, r: seq<MetaSetter>) {
    forall f :: f in fields && MetaSelected(m, f) ==> exists i :: 0 <= i < |r| && r[i].field == f
  }

  /** The calls come in the handler's order, so no entry is set twice. */
  predicate MetaOrdered(r: seq<MetaSetter>) {
    forall i, j :: 0 <= i < j < |r| ==> MetaRank(r[i].field) < MetaRank(r[j].field)
  }

  /** Every call made while visiting `fields` is for a selected field, with the caller's value. */
  lemma {:induction false} MetaSettersForSound(m: JsValue, fields: seq<MetaField>)
    requires Truthy(m)
    ensures MetaSound(m, MetaSettersFor(m, fields))
  {
    if fields != [] {
      MetaSettersForSound(m, fields[1..]);
      var head, rest := MetaIf(m, fields[0]), MetaSettersFor(m, fields[1..]);
      var r := head + rest;
      forall i | 0 <= i < |r|
        ensures MetaSelected(m, r[i].field) && r[i].value == Prop(m, MetaKey(r[i].field))
      {
        if i >= |head| {
          assert r[i] == rest[i - |head|];
        }
      }
    }
  }

  /** Visiting only fields ranked above `bound` makes only calls ranked above it. */
  lemma {:induction false} MetaSettersForAbove(m: JsValue, fields: seq<MetaField>, bound: int)
    requires Truthy(m)
    requires forall k :: 0 <= k < |fields| ==> MetaRank(fields[k]) > bound
    ensures forall i :: 0 <= i < |MetaSettersFor(m, fields)| ==> MetaRank(MetaSettersFor(m, fields)[i].field) > bound
  {
    if fields != [] {
      MetaSettersForAbove(m, fields[1..], bound);
      var head, rest := MetaIf(m, fields[0]), MetaSettersFor(m, fields[1..]);
      var r := head + rest;
      forall i | 0 <= i < |r|
        ensures MetaRank(r[i].field) > bound
      {
        if i >= |head| {
          assert r[i] == rest[i - |head|];
        }
      }
    }
  }

  /** Every selected field among `fields` gets a call. */
  lemma {:induction false} MetaSettersForComplete(m: JsValue, fields: seq<MetaField>)
    requires Truthy(m)
    ensures MetaComplete(m, fields, MetaSettersFor(m, fields))
  {
    if fields != [] {
      MetaSettersForComplete(m, fields[1..]);
      var head, rest := MetaIf(m, fields[0]), MetaSettersFor(m, fields[1..]);
      var r := head + rest;
      forall f | f in fields && MetaSelected(m, f)
        ensures exists i :: 0 <= i < |r| && r[i].field == f
      {
        if f == fields[0] {
          assert r[0] == head[0];
        } else {
          assert f in fields[1..];
          var i :| 0 <= i < |rest| && rest[i].field == f;
          assert r[|head| + i] == rest[i];
        }
      }
    }
  }

  /** Visiting fields in increasing order makes the calls in increasing order. */
  lemma {:induction false} MetaSettersForOrdered(m: JsValue, fields: seq<MetaField>)
    requires Truthy(m)
    requires forall i, j :: 0 <= i < j < |fields| ==> MetaRank(fields[i]) < MetaRank(fields[j])
    ensures MetaOrdered(MetaSettersFor(m, fields))
  {
    if fields != [] {
      MetaSettersForOrdered(m, fields[1..]);
      MetaSettersForAbove(m, fields[1..], MetaRank(fields[0]));
      var head, rest := MetaIf(m, fields[0]), MetaSettersFor(m, fields[1..]);
      var r := head + rest;
      forall i, j | 0 <= i < j < |r|
        ensures MetaRank(r[i].field) < MetaRank(r[j].field)
      {
        assert r[j] == rest[j - |head|];
        if i >= |head| {
          assert r[i] == rest[i - |head|];
        }
      }
    }
  }

  /**
   * The `if (pdfLibOpts.metadata) { ... }` block: a setter runs for exactly
   * the selected fields, carries the caller's value, and the calls come in
   * the handler's order, each field at most once.
   */
  function MetadataSetters(m: JsValue): (r: seq<MetaSetter>)
    ensures forall i :: 0 <= i < |r| ==>
      MetaSelected(m, r[i].field) && r[i].value == Prop(m, MetaKey(r[i].field))
    ensures forall f :: MetaSelected(m, f) ==> exists i :: 0 <= i < |r| && r[i].field == f
    ensures forall i, j :: 0 <= i < j < |r| ==> MetaRank(r[i].field) < MetaRank(r[j].field)
  {
    if !Truthy(m) then []
    else
      MetaSettersForSound(m, MetaFieldOrder);
      MetaSettersForComplete(m, MetaFieldOrder);
      MetaSettersForOrdered(m, MetaFieldOrder);
      MetaSettersFor(m, MetaFieldOrder)
  }

  /**
   * A preference flag is set only when the preferences block is present and
   * the flag's value is not undefined, null, false, 0 or ''. An explicit
   * `false` is therefore never written: flags can be turned on, not off.
   */
  predicate PrefSelected(vp: JsValue, f: PrefFlag) {
    !IsFalsyValue(vp) && !IsFalsyValue(Prop(vp, PrefKey(f)))
  }

  /** The flags in the order the handler visits them. */
  const PrefFlagOrder: seq<PrefFlag> :=
    [HideToolbar, HideMenubar, HideWindowUI, FitWindow, CenterWindow, DisplayDocTitle]

  /** One guarded setter call, `if (vp.f) prefs.setF(vp.f)`. */
  function PrefIf(vp: JsValue, f: PrefFlag): (r: seq<PrefSetter>)
    requires Truthy(vp)
    ensures |r| <= 1
    ensures r != [] <==> PrefSelected(vp, f)
    ensures r != [] ==> r[0] == PrefSetter(f, Prop(vp, PrefKey(f)))
  {
    var v := Prop(vp, PrefKey(f));
    if Truthy(v) then [PrefSetter(f, v)] else []
  }

  /** The guarded setter calls for `flags`, one after the other. */
  function PrefSettersFor(vp: JsValue, flags: seq<PrefFlag>): seq<PrefSetter>
    requires Truthy(vp)
  {
    if flags == [] then [] else PrefIf(vp, flags[0]) + PrefSettersFor(vp, flags[1..])
  }

  /** Every call is for a selected flag and carries the caller's value. */
  predicate PrefSound(vp: JsValue, r: seq<PrefSetter>) {
    forall i :: 0 <= i < |r| ==> PrefSelected(vp, r[i].flag) && r[i].value == Prop(vp, PrefKey(r[i].flag))
  }

  /** Every selected entry of `flags` gets a call. */
  predicate PrefComplete(vp: JsValue, flags: seq<PrefFlag>, r: seq<PrefSetter>) {
    forall f :: f in flags && PrefSelected(vp, f) ==> exists i :: 0 <= i < |r| && r[i].flag == f
  }

  /** The calls come in the handler's order, so no entry is set twice. */
  predicate PrefOrdered(r: seq<PrefSetter>) {
    forall i, j :: 0 <= i < j < |r| ==> PrefRank(r[i].flag) < PrefRank(r[j].flag)
  }

  /** Every call made while visiting `flags` is for a selected flag, with the caller's value. */
  lemma {:induction false} PrefSettersForSound(vp: JsValue, flags: seq<PrefFlag>)
    requires Truthy(vp)
    ensures PrefSound(vp, PrefSettersFor(vp, flags))
  {
    if flags != [] {
      PrefSettersForSound(vp, flags[1..]);
      var head, rest := PrefIf(vp, flags[0]), PrefSettersFor(vp, flags[1..]);
      var r := head + rest;
      forall i | 0 <= i < |r|
        ensures PrefSelected(vp, r[i].flag) && r[i].value == Prop(vp, PrefKey(r[i].flag))
      {
        if i >= |head| {
          assert r[i] == rest[i - |head|];
        }
      }
    }
  }

  /** Visiting only flags ranked above `bound` makes only calls ranked above it. */
  lemma {:induction false} PrefSettersForAbove(vp: JsValue, flags: seq<PrefFlag>, bound: int)
    requires Truthy(vp)
    requires forall k :: 0 <= k < |flags| ==> PrefRank(flags[k]) > bound
    ensures forall i :: 0 <= i < |PrefSettersFor(vp, flags)| ==> PrefRank(PrefSettersFor(vp, flags)[i].flag) > bound
  {
    if flags != [] {
      PrefSettersForAbove(vp, flags[1..], bound);
      var head, rest := PrefIf(vp, flags[0]), PrefSettersFor(vp, flags[1..]);
      var r := head + rest;
      forall i | 0 <= i < |r|
        ensures PrefRank(r[i].flag) > bound
      {
        if i >= |head| {
          assert r[i] == rest[i - |head|];
        }
      }
    }
  }

  /** Every selected flag among `flags` gets a call. */
  lemma {:induction false} PrefSettersForComplete(vp: JsValue, flags: seq<PrefFlag>)
    requires Truthy(vp)
    ensures PrefComplete(vp, flags, PrefSettersFor(vp, flags))
  {
    if flags != [] {
      PrefSettersForComplete(vp, flags[1..]);
      var head, rest := PrefIf(vp, flags[0]), PrefSettersFor(vp, flags[1..]);
      var r := head + rest;
      forall f | f in flags && PrefSelected(vp, f)
        ensures exists i :: 0 <= i < |r| && r[i].flag == f
      {
        if f == flags[0] {
          assert r[0] == head[0];
        } else {
          assert f in flags[1..];
          var i :| 0 <= i < |rest| && rest[i].flag == f;
          assert r[|head| + i] == rest[i];
        }
      }
    }
  }

  /** Visiting flags in increasing order makes the calls in increasing order. */
  lemma {:induction false} PrefSettersForOrdered(vp: JsValue, flags: seq<PrefFlag>)
    requires Truthy(vp)
    requires forall i, j :: 0 <= i < j < |flags| ==> PrefRank(flags[i]) < PrefRank(flags[j])
    ensures PrefOrdered(PrefSettersFor(vp, flags))
  {
    if flags != [] {
      PrefSettersForOrdered(vp, flags[1..]);
      PrefSettersForAbove(vp, flags[1..], PrefRank(flags[0]));
      var head, rest := PrefIf(vp, flags[0]), PrefSettersFor(vp, flags[1..]);
      var r := head + rest;
      forall i, j | 0 <= i < j < |r|
        ensures PrefRank(r[i].flag) < PrefRank(r[j].flag)
      {
        assert r[j] == rest[j - |head|];
        if i >= |head| {
          assert r[i] == rest[i - |head|];
        }
      }
    }
  }

  /**
   * The `if (pdfLibOpts.viewerPreferences) { ... }` block: nothing at all
   * when the block is absent or falsy; otherwise the record is fetched or
   * created and a setter runs for exactly the selected flags, in order.
   */
  function PreferenceSetters(vp: JsValue): (r: Option<seq<PrefSetter>>)
    ensures r.None? <==> IsFalsyValue(vp)
    ensures r.Some? ==> forall i :: 0 <= i < |r.value| ==>
      PrefSelected(vp, r.value[i].flag) && r.value[i].value == Prop(vp, PrefKey(r.value[i].flag))
    ensures r.Some? ==> forall f :: PrefSelected(vp, f) ==>
      exists i :: 0 <= i < |r.value| && r.value[i].flag == f
    ensures r.Some? ==> forall i, j :: 0 <= i < j < |r.value| ==>
      PrefRank(r.value[i].flag) < PrefRank(r.value[j].flag)
  {
    if !Truthy(vp) then None
    else
      PrefSettersForSound(vp, PrefFlagOrder);
      PrefSettersForComplete(vp, PrefFlagOrder);
      PrefSettersForOrdered(vp, PrefFlagOrder);
      Some(PrefSettersFor(vp, PrefFlagOrder))
  }

  /**
   * Both blocks together. Reading `pdfLibOpts.metadata` throws when the
   * caller sent `pdfLib: null` (an absent block was already replaced by `{}`).
   */
  function AnnotationPlanOf(pdfLib: JsValue): (r: Attempt<AnnotationPlan>)
    ensures r.Threw? <==> Nullish(pdfLib)
    ensures r.Threw? ==> r.message == ReadErrorMessage(pdfLib, "metadata")
  {
    match Read(pdfLib, "metadata")
    case Threw(message) => Threw(message)
    case Done(m) =>
      Done(AnnotationPlan(MetadataSetters(m), PreferenceSetters(Prop(pdfLib, "viewerPreferences"))))
  }

  /**
   * A plan holds the metadata setters selected from `pdfLib.metadata` and
   * the preference setters selected from `pdfLib.viewerPreferences`, each
   * with the guarantees proved above.
   */
  lemma PlanParts(pdfLib: JsValue, plan: AnnotationPlan)
    requires AnnotationPlanOf(pdfLib) == Done(plan)
    ensures plan.metadata == MetadataSetters(Prop(pdfLib, "metadata"))
    ensures plan.viewerPreferences == PreferenceSetters(Prop(pdfLib, "viewerPreferences"))
  {
  }

  /** An explicit `false` for a flag leaves that preference untouched. */
  lemma ExplicitFalseIsIgnored(vp: JsValue, f: PrefFlag)
    requires vp.Object? && PrefKey(f) in vp.props && vp.props[PrefKey(f)] == Bool(false)
    ensures var r := PreferenceSetters(vp);
      r.Some? && forall i :: 0 <= i < |r.value| ==> r.value[i].flag != f
  {
  }
}
