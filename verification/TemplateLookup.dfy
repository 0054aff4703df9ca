/** Finding a template or an alias over several entities: one query for all of them against one query for each
    (src/utils/whatsapp-template.js, src/utils/template-alias.js). */
module TemplateLookup {
  import opened Text

  // ---------------------------------------------------------------- queries over candidates

  /** The rows of each entity that a query's other conditions leave, in its order within the entity. */
  type Table<R> = map<string, seq<R>>

  function RowsOf<R>(table: Table<R>, entity: string): seq<R> {
    if entity in table then table[entity] else []
  }

  /** array_position: where an entity stands first. */
  predicate FirstAt(entities: seq<string>, i: int) {
    0 <= i < |entities| && entities[i] !in entities[..i]
  }

  /** Row j of the candidate first standing at i is the answer to ORDER BY array_position, ... LIMIT 1. */
  ghost predicate Earliest<R>(entities: seq<string>, table: Table<R>, keep: R -> bool, i: int, j: int) {
    && FirstAt(entities, i) && 0 <= j < |RowsOf(table, entities[i])| && keep(RowsOf(table, entities[i])[j])
    && (forall h, k | FirstAt(entities, h) && 0 <= k < |RowsOf(table, entities[h])|
        && keep(RowsOf(table, entities[h])[k]) ::
          i < h || (i == h && j <= k))
  }

  ghost predicate NoneKept<R>(entities: seq<string>, table: Table<R>, keep: R -> bool) {
    forall e, k | e in entities && 0 <= k < |RowsOf(table, e)| :: !keep(RowsOf(table, e)[k])
  }

  ghost predicate Answers<R(!new)>(entities: seq<string>, table: Table<R>, keep: R -> bool, r: Option<(string, R)>) {
    match r
    case None => NoneKept(entities, table, keep)
    case Some(row) => exists i, j ::
        Earliest(entities, table, keep, i, j) && row == (entities[i], RowsOf(table, entities[i])[j])
  }

  function FirstKept<R>(rows: seq<R>, keep: R -> bool): (j: nat)
    ensures j <= |rows| && (j < |rows| ==> keep(rows[j])) && forall k | 0 <= k < j :: !keep(rows[k])
  {
    if rows == [] || keep(rows[0]) then 0 else 1 + FirstKept(rows[1..], keep)
  }

  /** The batch query. */
  function Query<R>(entities: seq<string>, table: Table<R>, keep: R -> bool, from: nat): Option<(string, R)>
    requires from <= |entities|
    decreases |entities| - from
  {
    if from == |entities| then None
    else
      var rows := RowsOf(table, entities[from]);
      var j := FirstKept(rows, keep);
      if j < |rows| then Some((entities[from], rows[j])) else Query(entities, table, keep, from + 1)
  }

  /** The query answers with the earliest row kept. */
  lemma {:induction false} QueryAnswers<R(!new)>(entities: seq<string>, table: Table<R>, keep: R -> bool, from: nat)
    requires from <= |entities| && NoneKept(entities[..from], table, keep)
    ensures Answers(entities, table, keep, Query(entities, table, keep, from))
    decreases |entities| - from
  {
    if from == |entities| {
      assert entities[..from] == entities;
    } else {
      var rows := RowsOf(table, entities[from]);
      var j := FirstKept(rows, keep);
      if j < |rows| {
        assert entities[from] !in entities[..from];
        assert Earliest(entities, table, keep, from, j) by {
          forall h, k | FirstAt(entities, h) && 0 <= k < |RowsOf(table, entities[h])|
              && keep(RowsOf(table, entities[h])[k])
            ensures from < h || (from == h && j <= k)
          {
          }
        }
      } else {
        assert entities[..from + 1] == entities[..from] + [entities[from]];
        QueryAnswers(entities, table, keep, from + 1);
      }
    }
  }

  // ---------------------------------------------------------------- templates

  datatype Template = Template(language: string, status: string)

  /** isSendableStatus, which ignores case; the batch query compares exactly. */
  predicate Sendable(t: Template) {
    Upper(t.status) == "APPROVED"
  }

  predicate Approved(t: Template) {
    t.status == "APPROVED"
  }

  type Found = Option<(string, Template)>

  /** One query for all candidates, approved rows first. */
  function FindBatch(entities: seq<string>, table: Table<Template>): Found {
    var approved := Query(entities, table, Approved, 0);
    if approved.Some? then approved else Query(entities, table, (t: Template) => true, 0)
  }

  /** One query for each candidate: the first with rows decides. */
  method FindSequential(entities: seq<string>, table: Table<Template>) returns (r: Found)
    ensures SequentialFinds(entities, table, r)
  {
    var i := 0;
    while i < |entities|
      invariant i <= |entities| && forall e | e in entities[..i] :: RowsOf(table, e) == []
    {
      var rows := RowsOf(table, entities[i]);
      var j := FirstKept(rows, Sendable);
      if j < |rows| {
        return Some((entities[i], rows[j]));
      }
      if |rows| > 0 {
        return Some((entities[i], rows[0]));
      }
      assert entities[..i + 1] == entities[..i] + [entities[i]];
      i := i + 1;
    }
    assert entities[..i] == entities;
    r := None;
  }

  /** Of an entity's rows: the first sendable one, else the first. */
  function ChosenOf(rows: seq<Template>): Template
    requires rows != []
  {
    var j := FirstKept(rows, Sendable);
    if j < |rows| then rows[j] else rows[0]
  }

  /** What FindSequential returns. */
  ghost predicate SequentialFinds(entities: seq<string>, table: Table<Template>, r: Found) {
    && (r.None? <==> forall e | e in entities :: RowsOf(table, e) == [])
    && (r.Some? ==> exists i ::
        Decides(entities, table, i) && r.value == (entities[i], ChosenOf(RowsOf(table, entities[i]))))
  }

  ghost predicate Decides(entities: seq<string>, table: Table<Template>, i: int) {
    FirstAt(entities, i) && RowsOf(table, entities[i]) != [] && forall e | e in entities[..i] :: RowsOf(table, e) == []
  }

  /** Statuses are spelled as Meta spells them. */
  predicate Plain(table: Table<Template>) {
    forall e, k | e in table && 0 <= k < |table[e]| :: Sendable(table[e][k]) ==> Approved(table[e][k])
  }

  predicate SomeApproved(entities: seq<string>, table: Table<Template>) {
    exists e, k | e in entities && 0 <= k < |RowsOf(table, e)| :: Approved(RowsOf(table, e)[k])
  }

  lemma ApprovedIsSendable(t: Template)
    requires Approved(t)
    ensures Sendable(t)
  {
    UpperIsSame("APPROVED");
  }

  /** The earliest row of all is the first row of the entity that decides. */
  lemma EarliestDecides(entities: seq<string>, table: Table<Template>, i: int)
    requires Decides(entities, table, i)
    ensures Query(entities, table, (t: Template) => true, 0) == Some((entities[i], RowsOf(table, entities[i])[0]))
  {
    var all := (t: Template) => true;
    QueryAnswers(entities, table, all, 0);
    var r := Query(entities, table, all, 0);
    assert all(RowsOf(table, entities[i])[0]);
    var h, j :| Earliest(entities, table, all, h, j) && r.value == (entities[h], RowsOf(table, entities[h])[j]);
  }

  /** If the entity that decides has an approved row, the batch query finds the same one. */
  lemma ApprovedDecides(entities: seq<string>, table: Table<Template>, i: int)
    requires Decides(entities, table, i) && Approved(ChosenOf(RowsOf(table, entities[i])))
    ensures Query(entities, table, Approved, 0) == Some((entities[i], ChosenOf(RowsOf(table, entities[i]))))
  {
    QueryAnswers(entities, table, Approved, 0);
    var rows, r := RowsOf(table, entities[i]), Query(entities, table, Approved, 0);
    ApprovedIsSendable(ChosenOf(rows));
    var c := FirstKept(rows, Sendable);
    assert c < |rows| && Approved(rows[c]);
    var h, j :| Earliest(entities, table, Approved, h, j) && r.value == (entities[h], RowsOf(table, entities[h])[j]);
    ApprovedIsSendable(rows[j]);
  }

  /** An entity chooses an approved row, or no candidate has one and it chooses its first. */
  ghost predicate FormsAgreeAt(entities: seq<string>, table: Table<Template>, rows: seq<Template>)
    requires rows != []
  {
    Approved(ChosenOf(rows)) || (!SomeApproved(entities, table) && ChosenOf(rows) == rows[0])
  }

  /** The first candidate with rows does so. */
  ghost predicate FormsAgree(entities: seq<string>, table: Table<Template>) {
    forall i | Decides(entities, table, i) :: FormsAgreeAt(entities, table, RowsOf(table, entities[i]))
  }

  lemma OneDecides(entities: seq<string>, table: Table<Template>, i: int, j: int)
    requires Decides(entities, table, i) && Decides(entities, table, j)
    ensures i == j
  {
  }

  lemma BatchFindsApprovedIff(entities: seq<string>, table: Table<Template>)
    ensures var batch := FindBatch(entities, table);
            && (SomeApproved(entities, table) <==> batch.Some? && Approved(batch.value.1))
            && (batch.None? <==> forall e | e in entities :: RowsOf(table, e) == [])
  {
    QueryAnswers(entities, table, Approved, 0);
    QueryAnswers(entities, table, (t: Template) => true, 0);
    if exists e :: e in entities && RowsOf(table, e) != [] {
      var e :| e in entities && RowsOf(table, e) != [];
      assert ((t: Template) => true)(RowsOf(table, e)[0]);
    }
  }

  /** The batch form finds an approved row whenever any candidate has one. The two forms agree exactly when the first
      candidate with rows chooses an approved row, or no candidate has one and it chooses its first row. */
  lemma LookupsAgreeIff(entities: seq<string>, table: Table<Template>, sequential: Found)
    requires SequentialFinds(entities, table, sequential)
    ensures var batch := FindBatch(entities, table);
            && (SomeApproved(entities, table) <==> batch.Some? && Approved(batch.value.1))
            && (batch == sequential <==> FormsAgree(entities, table))
  {
    BatchFindsApprovedIff(entities, table);
    if sequential.Some? {
      var i :| Decides(entities, table, i) && sequential.value == (entities[i], ChosenOf(RowsOf(table, entities[i])));
      AgreeAtIff(entities, table, i);
      OnlyAt(entities, table, i);
    }
  }

  lemma AgreeAtIff(entities: seq<string>, table: Table<Template>, i: int)
    requires Decides(entities, table, i)
    ensures var rows := RowsOf(table, entities[i]);
            FindBatch(entities, table) == Some((entities[i], ChosenOf(rows))) <==> FormsAgreeAt(entities, table, rows)
  {
    BatchFindsApprovedIff(entities, table);
    QueryAnswers(entities, table, Approved, 0);
    EarliestDecides(entities, table, i);
    if Approved(ChosenOf(RowsOf(table, entities[i]))) {
      ApprovedDecides(entities, table, i);
    }
  }

  lemma OnlyAt(entities: seq<string>, table: Table<Template>, i: int)
    requires Decides(entities, table, i)
    ensures FormsAgree(entities, table) <==> FormsAgreeAt(entities, table, RowsOf(table, entities[i]))
  {
    forall j | Decides(entities, table, j) ensures j == i {
      OneDecides(entities, table, i, j);
    }
  }

  /** With statuses spelled as Meta spells them: when the first candidate with rows has an approved one, or none has. */
  lemma PlainFormsAgreeIff(entities: seq<string>, table: Table<Template>)
    requires Plain(table)
    ensures FormsAgree(entities, table) <==>
              !SomeApproved(entities, table)
              || forall i | Decides(entities, table, i) :: exists k ::
                  0 <= k < |RowsOf(table, entities[i])| && Approved(RowsOf(table, entities[i])[k])
  {
    forall i | Decides(entities, table, i)
      ensures var rows := RowsOf(table, entities[i]);
              && (Approved(ChosenOf(rows)) <==> exists k :: 0 <= k < |rows| && Approved(rows[k]))
              && (!Approved(ChosenOf(rows)) ==> ChosenOf(rows) == rows[0])
    {
      PlainChoice(RowsOf(table, entities[i]));
    }
  }

  lemma PlainChoice(rows: seq<Template>)
    requires rows != [] && forall k | 0 <= k < |rows| :: Sendable(rows[k]) ==> Approved(rows[k])
    ensures Approved(ChosenOf(rows)) <==> exists k :: 0 <= k < |rows| && Approved(rows[k])
    ensures !Approved(ChosenOf(rows)) ==> ChosenOf(rows) == rows[0]
  {
    forall k | 0 <= k < |rows| && Approved(rows[k]) ensures Sendable(rows[k]) {
      ApprovedIsSendable(rows[k]);
    }
  }

  // ---------------------------------------------------------------- aliases, over any list of scopes, repeats included

  /** The targets of one type's aliases: at most one row for each scope. */
  type Aliases = map<string, string>

  function AsTable(aliases: Aliases): Table<string> {
    map e | e in aliases :: [aliases[e]]
  }

  /** Resolved to a target in a scope, or not aliased. */
  type Alias = Option<(string, string)>

  function ResolveBatch(scopes: seq<string>, aliases: Aliases): Alias {
    var row := Query(scopes, AsTable(aliases), (target: string) => true, 0);
    if row.Some? && row.value.1 != "" then row else None
  }

  function ResolvedFrom(scopes: seq<string>, aliases: Aliases, from: nat): Alias
    requires from <= |scopes|
    decreases |scopes| - from
  {
    if from == |scopes| then None
    else if scopes[from] in aliases && aliases[scopes[from]] != "" then Some((scopes[from], aliases[scopes[from]]))
    else ResolvedFrom(scopes, aliases, from + 1)
  }

  method ResolveSequential(scopes: seq<string>, aliases: Aliases) returns (r: Alias)
    ensures r == ResolvedFrom(scopes, aliases, 0)
    ensures r.None? <==> forall s | s in scopes :: s !in aliases || aliases[s] == ""
  {
    for i := 0 to |scopes|
      invariant ResolvedFrom(scopes, aliases, 0) == ResolvedFrom(scopes, aliases, i)
      invariant forall s | s in scopes[..i] :: s !in aliases || aliases[s] == ""
    {
      assert scopes[..i + 1] == scopes[..i] + [scopes[i]];
      if scopes[i] in aliases && aliases[scopes[i]] != "" {
        return Some((scopes[i], aliases[scopes[i]]));
      }
    }
    assert scopes[..|scopes|] == scopes;
    r := None;
  }

  predicate HasTarget(aliases: Aliases, scope: string) {
    scope in aliases && aliases[scope] != ""
  }

  predicate FirstWithRow(scopes: seq<string>, aliases: Aliases, from: nat, i: int) {
    from <= i < |scopes| && scopes[i] in aliases && forall h | from <= h < i :: scopes[h] !in aliases
  }

  /** If any scope after the first one with a row has a target that is not blank, so has that first one. */
  ghost predicate BlankHidesNothing(scopes: seq<string>, aliases: Aliases, from: nat) {
    forall i, j | FirstWithRow(scopes, aliases, from, i) && i < j < |scopes| && HasTarget(aliases, scopes[j]) ::
      HasTarget(aliases, scopes[i])
  }

  lemma {:induction false} NoneIffNoTarget(scopes: seq<string>, aliases: Aliases, from: nat)
    requires from <= |scopes|
    ensures ResolvedFrom(scopes, aliases, from) == None
            <==> forall j | from <= j < |scopes| :: !HasTarget(aliases, scopes[j])
    decreases |scopes| - from
  {
    if from < |scopes| {
      NoneIffNoTarget(scopes, aliases, from + 1);
    }
  }

  lemma {:induction false} AliasesAgreeFrom(scopes: seq<string>, aliases: Aliases, from: nat)
    requires from <= |scopes|
    ensures var row := Query(scopes, AsTable(aliases), (target: string) => true, from);
            (if row.Some? && row.value.1 != "" then row else None) == ResolvedFrom(scopes, aliases, from)
            <==> BlankHidesNothing(scopes, aliases, from)
    decreases |scopes| - from
  {
    if from < |scopes| {
      var all := (target: string) => true;
      var rows := RowsOf(AsTable(aliases), scopes[from]);
      if scopes[from] in aliases {
        assert rows == [aliases[scopes[from]]] && all(rows[0]);
        NoneIffNoTarget(scopes, aliases, from + 1);
        assert FirstWithRow(scopes, aliases, from, from);
      } else {
        AliasesAgreeFrom(scopes, aliases, from + 1);
        assert forall i :: FirstWithRow(scopes, aliases, from, i) <==> FirstWithRow(scopes, aliases, from + 1, i);
      }
    }
  }

  /** The two alias forms agree unless a blank target hides a later one; with no blank target they always agree. */
  lemma AliasesAgreeIff(scopes: seq<string>, aliases: Aliases)
    ensures ResolveBatch(scopes, aliases) == ResolvedFrom(scopes, aliases, 0) <==> BlankHidesNothing(scopes, aliases, 0)
    ensures (forall s | s in scopes && s in aliases :: aliases[s] != "") ==>
              ResolveBatch(scopes, aliases) == ResolvedFrom(scopes, aliases, 0)
  {
    AliasesAgreeFrom(scopes, aliases, 0);
  }
}
