/** Field extraction from a parsed GraphQL document (ast.go). */
module Ast {
  import opened Options

  // Only the shape that ast.go looks at. A non-field selection is an inline
  // fragment or a fragment spread.
  datatype Selection = Field(name: string) | InlineFragment | FragmentSpread
  datatype SelectionSet = SelectionSet(selections: seq<Selection>)
  datatype Definition =
    | OperationDefinition(operation: string, selectionSet: Option<SelectionSet>)
    | FragmentDefinition(fragmentSet: SelectionSet)
    | TypeSystemDefinition
  datatype Document = Document(definitions: seq<Definition>)

  // ---------------------------------------------------------------------------
  // Declarative reading
  // ---------------------------------------------------------------------------

  predicate IsOperation(d: Definition, op: string) {
    d.OperationDefinition? && d.operation == op
  }

  /** The top-level selections of one definition, when it is a subscription. */
  function TopSelectionsOf(d: Definition): seq<Selection> {
    if IsOperation(d, "subscription") && d.selectionSet.Some?
    then d.selectionSet.value.selections
    else []
  }

  /** All top-level selections of subscription operations, in document order. */
  function TopSelections(defs: seq<Definition>): seq<Selection> {
    if defs == [] then [] else TopSelectionsOf(defs[0]) + TopSelections(defs[1..])
  }

  /** A selection that is not a field leaves the zero string in the result. */
  function SelectionName(s: Selection): string {
    if s.Field? then s.name else ""
  }

  function Names(selections: seq<Selection>): (names: seq<string>)
    ensures |names| == |selections|
  {
    seq(|selections|, i requires 0 <= i < |selections| => SelectionName(selections[i]))
  }

  function FieldNames(doc: Document): seq<string> {
    Names(TopSelections(doc.definitions))
  }

  /** Some subscription operation of the document selects field f at top level. */
  ghost predicate SelectsField(doc: Document, f: string) {
    exists d :: d in doc.definitions && d.OperationDefinition? && d.operation == "subscription"
                && d.selectionSet.Some? && Field(f) in d.selectionSet.value.selections
  }

  // ---------------------------------------------------------------------------
  // The staged walk of the source, as functions the loops are proved against
  // ---------------------------------------------------------------------------

  function WithOperation(defs: seq<Definition>, op: string): seq<Definition> {
    if defs == [] then []
    else if IsOperation(defs[|defs| - 1], op) then WithOperation(defs[..|defs| - 1], op) + [defs[|defs| - 1]]
    else WithOperation(defs[..|defs| - 1], op)
  }

  function SetOf(d: Definition): Option<SelectionSet> {
    if d.OperationDefinition? then d.selectionSet else None
  }

  function SelectionSets(defs: seq<Definition>): seq<SelectionSet> {
    if defs == [] then []
    else
      var last := SetOf(defs[|defs| - 1]);
      SelectionSets(defs[..|defs| - 1]) + (if last.Some? then [last.value] else [])
  }

  function NamesOfSets(sets: seq<SelectionSet>): seq<string> {
    if sets == [] then []
    else NamesOfSets(sets[..|sets| - 1]) + Names(sets[|sets| - 1].selections)
  }

  // ---------------------------------------------------------------------------
  // The loops
  // ---------------------------------------------------------------------------

  method OperationDefinitionsWithOperation(doc: Document, op: string) returns (defs: seq<Definition>)
    ensures defs == WithOperation(doc.definitions, op)
  {
    defs := [];
    for i := 0 to |doc.definitions|
      invariant defs == WithOperation(doc.definitions[..i], op)
    {
      assert doc.definitions[..i + 1][..i] == doc.definitions[..i];
      var node := doc.definitions[i];
      if node.OperationDefinition? {
        if node.operation == op {
          defs := defs + [node];
        }
      }
    }
    assert doc.definitions[..|doc.definitions|] == doc.definitions;
  }

  method SelectionSetsForOperationDefinitions(defs: seq<Definition>) returns (sets: seq<SelectionSet>)
    ensures sets == SelectionSets(defs)
  {
    sets := [];
    for i := 0 to |defs|
      invariant sets == SelectionSets(defs[..i])
    {
      assert defs[..i + 1][..i] == defs[..i];
      var set_ := SetOf(defs[i]);
      if set_.Some? {
        sets := sets + [set_.value];
      }
    }
    assert defs[..|defs|] == defs;
  }

  method NameForSelectionSet(selectionSet: SelectionSet) returns (names: seq<string>, ok: bool)
    ensures ok <==> |selectionSet.selections| >= 1
    ensures names == Names(selectionSet.selections)
  {
    var selections := selectionSet.selections;
    if |selections| >= 1 {
      var r := new string[|selections|](_ => "");
      for i := 0 to |selections|
        invariant forall j :: 0 <= j < i ==> r[j] == SelectionName(selections[j])
        invariant forall j :: i <= j < |selections| ==> r[j] == ""
      {
        if selections[i].Field? {
          r[i] := selections[i].name;
        }
      }
      return r[..], true;
    }
    return [], false;
  }

  method NamesForSelectionSets(sets: seq<SelectionSet>) returns (names: seq<string>)
    ensures names == NamesOfSets(sets)
  {
    names := [];
    for i := 0 to |sets|
      invariant names == NamesOfSets(sets[..i])
    {
      assert sets[..i + 1][..i] == sets[..i];
      var nameList, ok := NameForSelectionSet(sets[i]);
      if ok {
        names := names + nameList;
      }
    }
    assert sets[..|sets|] == sets;
  }

  method SubscriptionFieldNamesFromDocument(doc: Document) returns (names: seq<string>)
    ensures names == FieldNames(doc)
  {
    var defs := OperationDefinitionsWithOperation(doc, "subscription");
    var sets := SelectionSetsForOperationDefinitions(defs);
    names := NamesForSelectionSets(sets);
    StagedWalkIsReading(doc.definitions);
  }

  // ---------------------------------------------------------------------------
  // Lemmas
  // ---------------------------------------------------------------------------

  lemma {:induction false} TopSelectionsSplit(a: seq<Definition>, b: seq<Definition>)
    ensures TopSelections(a + b) == TopSelections(a) + TopSelections(b)
  {
    if a == [] {
      assert a + b == b;
    } else {
      assert (a + b)[1..] == a[1..] + b;
      TopSelectionsSplit(a[1..], b);
    }
  }

  lemma WithOperationSnoc(defs: seq<Definition>, d: Definition, op: string)
    ensures WithOperation(defs + [d], op)
            == WithOperation(defs, op) + (if d.OperationDefinition? && d.operation == op then [d] else [])
  {
    assert (defs + [d])[..|defs|] == defs;
  }

  /** The filter keeps the operations of that kind and nothing else. */
  lemma {:induction false} WithOperationMember(defs: seq<Definition>, op: string, d: Definition)
    ensures d in WithOperation(defs, op) <==> d in defs && d.OperationDefinition? && d.operation == op
  {
    if defs != [] {
      var init, last := defs[..|defs| - 1], defs[|defs| - 1];
      WithOperationMember(init, op, d);
      WithOperationSnoc(init, last, op);
      assert defs == init + [last];
    }
  }

  lemma SelectionSetsSnoc(defs: seq<Definition>, d: Definition)
    ensures SelectionSets(defs + [d])
            == SelectionSets(defs)
               + (if d.OperationDefinition? && d.selectionSet.Some? then [d.selectionSet.value] else [])
  {
    assert (defs + [d])[..|defs|] == defs;
  }

  lemma NamesOfSetsSnoc(sets: seq<SelectionSet>, s: SelectionSet)
    ensures NamesOfSets(sets + [s])
            == NamesOfSets(sets)
               + seq(|s.selections|, i requires 0 <= i < |s.selections| =>
                       match s.selections[i] case Field(name) => name case _ => "")
  {
    assert (sets + [s])[..|sets|] == sets;
  }

  lemma NamesSplit(a: seq<Selection>, b: seq<Selection>)
    ensures Names(a + b) == Names(a) + Names(b)
  {}

  /** Filtering, collecting the sets and flattening agrees with the single reading. */
  lemma {:induction false} StagedWalkIsReading(defs: seq<Definition>)
    ensures NamesOfSets(SelectionSets(WithOperation(defs, "subscription"))) == Names(TopSelections(defs))
  {
    if defs != [] {
      var init, last := defs[..|defs| - 1], defs[|defs| - 1];
      StagedWalkIsReading(init);
      assert defs == init + [last];
      TopSelectionsSplit(init, [last]);
      assert TopSelections([last]) == TopSelectionsOf(last);
      NamesSplit(TopSelections(init), TopSelectionsOf(last));
      WithOperationSnoc(init, last, "subscription");
      if IsOperation(last, "subscription") {
        SelectionSetsSnoc(WithOperation(init, "subscription"), last);
        if last.selectionSet.Some? {
          NamesOfSetsSnoc(SelectionSets(WithOperation(init, "subscription")), last.selectionSet.value);
        } else {
          assert SelectionSets(WithOperation(defs, "subscription"))
                 == SelectionSets(WithOperation(init, "subscription"));
        }
      }
    }
  }

  /** What a document of one definition yields: for a subscription with a selection set
      the name of each selection, empty for those that are no fields; else nothing. With
      the homomorphism below this determines the extraction. */
  lemma ExtractionOfOne(d: Definition)
    ensures FieldNames(Document([d])) ==
              if d.OperationDefinition? && d.operation == "subscription" && d.selectionSet.Some? then
                var all := d.selectionSet.value.selections;
                seq(|all|, i requires 0 <= i < |all| => match all[i] case Field(name) => name case _ => "")
              else []
  {
    assert TopSelections([d]) == TopSelectionsOf(d);
  }

  /** Extraction is a homomorphism from document concatenation. */
  lemma ExtractionHomomorphism(a: seq<Definition>, b: seq<Definition>)
    ensures FieldNames(Document(a + b)) == FieldNames(Document(a)) + FieldNames(Document(b))
  {
    TopSelectionsSplit(a, b);
  }

  function TotalSelections(defs: seq<Definition>): nat {
    if defs == [] then 0 else |TopSelectionsOf(defs[0])| + TotalSelections(defs[1..])
  }

  lemma {:induction false} TotalIsLength(defs: seq<Definition>)
    ensures |TopSelections(defs)| == TotalSelections(defs)
  {
    if defs != [] { TotalIsLength(defs[1..]); }
  }

  lemma SelectionAt(defs: seq<Definition>, k: nat, i: nat)
    requires k < |defs| && i < |TopSelectionsOf(defs[k])|
    ensures var p := |TopSelections(defs[..k])| + i;
            p < |TopSelections(defs)| && TopSelections(defs)[p] == TopSelectionsOf(defs[k])[i]
  {
    var rest := TopSelections(defs[k..]);
    assert defs == defs[..k] + defs[k..];
    TopSelectionsSplit(defs[..k], defs[k..]);
    assert rest == TopSelectionsOf(defs[k]) + TopSelections(defs[k..][1..]);
    assert rest[i] == TopSelectionsOf(defs[k])[i];
  }

  /** One entry per top-level selection of a subscription operation: as many as there
      are selections in total, the one for selection i of definition k right after those
      of the definitions before; its name for a field, the empty string otherwise. */
  lemma EntryPerSelection(doc: Document, k: nat, i: nat)
    requires k < |doc.definitions| && doc.definitions[k].OperationDefinition?
    requires doc.definitions[k].operation == "subscription" && doc.definitions[k].selectionSet.Some?
    requires i < |doc.definitions[k].selectionSet.value.selections|
    ensures |FieldNames(doc)| == TotalSelections(doc.definitions)
    ensures var p := TotalSelections(doc.definitions[..k]) + i;
            p < |FieldNames(doc)|
            && FieldNames(doc)[p]
               == match doc.definitions[k].selectionSet.value.selections[i] case Field(name) => name case _ => ""
  {
    TotalIsLength(doc.definitions);
    TotalIsLength(doc.definitions[..k]);
    SelectionAt(doc.definitions, k, i);
  }

  lemma {:induction false} TopSelectionsMember(defs: seq<Definition>, x: Selection)
    ensures x in TopSelections(defs)
            <==> exists k :: 0 <= k < |defs| && x in TopSelectionsOf(defs[k])
  {
    if defs != [] {
      TopSelectionsMember(defs[1..], x);
      if x in TopSelections(defs[1..]) {
        var k :| 0 <= k < |defs[1..]| && x in TopSelectionsOf(defs[1..][k]);
        assert defs[k + 1] == defs[1..][k];
      }
      if k :| 0 < k < |defs| && x in TopSelectionsOf(defs[k]) {
        assert defs[1..][k - 1] == defs[k];
      }
    }
  }

  /** A non-empty name is extracted exactly when a subscription selects it at top level. */
  lemma ExtractedIffSelected(doc: Document, f: string)
    requires f != ""
    ensures f in FieldNames(doc) <==> SelectsField(doc, f)
  {
    var all := TopSelections(doc.definitions);
    TopSelectionsMember(doc.definitions, Field(f));
    if f in FieldNames(doc) {
      var i :| 0 <= i < |all| && Names(all)[i] == f;
      assert all[i] == Field(f);
      var k :| 0 <= k < |doc.definitions| && Field(f) in TopSelectionsOf(doc.definitions[k]);
      assert doc.definitions[k] in doc.definitions;
    }
    if SelectsField(doc, f) {
      var d :| d in doc.definitions && d.OperationDefinition? && d.operation == "subscription"
               && d.selectionSet.Some? && Field(f) in d.selectionSet.value.selections;
      var k :| 0 <= k < |doc.definitions| && doc.definitions[k] == d;
      assert Field(f) in TopSelectionsOf(doc.definitions[k]);
      var i :| 0 <= i < |all| && all[i] == Field(f);
      assert Names(all)[i] == f;
    }
  }
}
