/** When the cache agrees with Meta after a sync, and when a second sync writes nothing. */
module TemplateSyncProperties {
  import opened Jsonb
  import opened TemplateSync
  import opened Text

  /** Every row holds what the column gave back when it was written. */
  predicate Columns(table: Table) {
    forall k | k in table :: Ordered(table[k].components)
  }

  predicate Distinct(templates: seq<Template>) {
    forall i, j | 0 <= i < j < |templates| :: templates[i].key != templates[j].key
  }

  predicate AllOk(ok: seq<bool>) {
    forall i | 0 <= i < |ok| :: ok[i]
  }

  /** Cache and Meta agree on a template: same status, and the components the column makes of Meta's. */
  predicate Agrees(row: Row, t: Template) {
    row.status == Incoming(t).status && row.components == Canon(t.components)
  }

  /** Nothing Meta has is newer than the cache: its time is not behind, and without one the category agrees too. */
  predicate UpToDate(row: Row, t: Template) {
    && (HasTime(t.updated) ==> HasTime(row.updated) && t.updated.value <= row.updated.value)
    && (!HasTime(t.updated) ==> row.category == t.category)
  }

  /** The row of a template after a sync of distinct templates. */
  lemma {:induction false} UpsertedRow(table: Table, templates: seq<Template>, ok: seq<bool>, n: nat, k: Key)
    requires n <= |templates| == |ok| && Distinct(templates)
    ensures var after := Upserted(table, templates, ok, n);
            && (k !in Keys(templates, n) ==> Lookup(after, k) == Lookup(table, k))
            && forall i | 0 <= i < n && templates[i].key == k ::
                 Lookup(after, k) == if ActionOn(table, templates[i]) == Skip || !ok[i] then Lookup(table, k)
                     else Some(Stored(Incoming(templates[i])))
  {
    if n > 0 {
      UpsertedRow(table, templates, ok, n - 1, k);
      assert Keys(templates, n) == Keys(templates, n - 1) + {templates[n - 1].key};
      if templates[n - 1].key == k {
        assert k !in Keys(templates, n - 1);
      }
    }
  }

  /** A row is the one that was there, or the one written for some template of its key. */
  lemma {:induction false} UpsertedFrom(table: Table, templates: seq<Template>, ok: seq<bool>, n: nat, k: Key)
    requires n <= |templates| == |ok|
    ensures var after := Upserted(table, templates, ok, n);
            || Lookup(after, k) == Lookup(table, k)
            || exists i :: 0 <= i < n && templates[i].key == k
                && Lookup(after, k) == Some(Stored(Incoming(templates[i])))
  {
    if n > 0 {
      UpsertedFrom(table, templates, ok, n - 1, k);
    }
  }

  lemma {:induction false} UpsertedElsewhere(table: Table, templates: seq<Template>, ok: seq<bool>, n: nat, k: Key)
    requires n <= |templates| == |ok| && k !in Keys(templates, n)
    ensures Lookup(Upserted(table, templates, ok, n), k) == Lookup(table, k)
  {
    if n > 0 {
      assert Keys(templates, n) == Keys(templates, n - 1) + {templates[n - 1].key};
      UpsertedElsewhere(table, templates, ok, n - 1, k);
    }
  }

  lemma {:induction false} UpsertedColumns(table: Table, templates: seq<Template>, ok: seq<bool>, n: nat)
    requires n <= |templates| == |ok| && Columns(table)
    ensures Columns(Upserted(table, templates, ok, n))
  {
    if n > 0 {
      UpsertedColumns(table, templates, ok, n - 1);
      CanonIsOrdered(templates[n - 1].components);
    }
  }

  /** A sync keeps the rows as a JSONB column has them. */
  lemma SyncKeepsColumns(table: Table, fetch: Fetch, ok: seq<bool>)
    requires |ok| == |fetch.templates| && Columns(table)
    ensures Columns(Synced(table, fetch, ok))
  {
    UpsertedColumns(table, fetch.templates, ok, |ok|);
  }

  /** The row a sync leaves for a template it fetched. */
  lemma SyncedRow(table: Table, fetch: Fetch, ok: seq<bool>, i: nat)
    requires i < |ok| == |fetch.templates| && Distinct(fetch.templates) && AllOk(ok)
    ensures var t := fetch.templates[i];
            Lookup(Synced(table, fetch, ok), t.key) == if ActionOn(table, t) == Skip then Lookup(table, t.key)
                else Some(Stored(Incoming(t)))
  {
    var t := fetch.templates[i];
    UpsertedRow(table, fetch.templates, ok, |ok|, t.key);
    assert t.key in Keys(fetch.templates, |ok|);
  }

  /** The row a sync leaves for a key it did not fetch. */
  lemma SyncedOther(table: Table, fetch: Fetch, ok: seq<bool>, k: Key)
    requires |ok| == |fetch.templates| && k !in Keys(fetch.templates, |ok|)
    ensures Lookup(Synced(table, fetch, ok), k)
            == if k in table && !fetch.truncated && !Deleted(table[k]) then Some(table[k].(status := "DELETED"))
                else Lookup(table, k)
  {
    UpsertedElsewhere(table, fetch.templates, ok, |ok|, k);
  }

  lemma DeletedIsDeleted(row: Row)
    ensures Deleted(row.(status := "DELETED"))
  {
  }

  /** Convergence: after a complete fetch and successful writes the cache holds every template as Meta has it, and
      every other row is DELETED. */
  lemma SyncConverges(table: Table, fetch: Fetch, ok: seq<bool>)
    requires |ok| == |fetch.templates| && Columns(table) && Distinct(fetch.templates) && AllOk(ok) && !fetch.truncated
    ensures var after := Synced(table, fetch, ok);
            && after.Keys == table.Keys + Keys(fetch.templates, |ok|)
            && (forall i | 0 <= i < |ok| ::
                fetch.templates[i].key in after && Agrees(after[fetch.templates[i].key], fetch.templates[i])
                                            && UpToDate(after[fetch.templates[i].key], fetch.templates[i]))
            && (forall k | k in after && k !in Keys(fetch.templates, |ok|) :: Deleted(after[k]))
  {
    var after := Synced(table, fetch, ok);
    forall i | 0 <= i < |ok|
      ensures fetch.templates[i].key in after && Agrees(after[fetch.templates[i].key], fetch.templates[i])
              && UpToDate(after[fetch.templates[i].key], fetch.templates[i])
    {
      SyncedRow(table, fetch, ok, i);
      CanonIsSameIffOrdered(fetch.templates[i].components);
    }
    forall k | k !in Keys(fetch.templates, |ok|)
      ensures k in after <==> k in table
      ensures k in after ==> Deleted(after[k])
    {
      SyncedOther(table, fetch, ok, k);
      if k in table {
        DeletedIsDeleted(table[k]);
      }
    }
    forall k | k in Keys(fetch.templates, |ok|) ensures k in after {
      var i :| 0 <= i < |ok| && fetch.templates[i].key == k;
    }
  }

  /** A sync cut short by a 429 marks nothing, whichever writes fail: a row becomes DELETED only if Meta says so. */
  lemma TruncatedSyncMarksNothing(table: Table, fetch: Fetch, ok: seq<bool>, k: Key)
    requires |ok| == |fetch.templates| && fetch.truncated
    requires k in Synced(table, fetch, ok) && Deleted(Synced(table, fetch, ok)[k])
    ensures (k in table && Deleted(table[k])) || exists i ::
            0 <= i < |ok| && fetch.templates[i].key == k && Deleted(Incoming(fetch.templates[i]))
  {
    UpsertedFrom(table, fetch.templates, ok, |ok|, k);
  }

  /** A row that was not fetched, and is not DELETED yet, is marked if and only if no 429 cut the fetch short. In
      particular a fetch that broke off on any other error after its first page marks what Meta still lists on the
      pages that were never read. */
  lemma MarkedIffNotTruncated(table: Table, fetch: Fetch, ok: seq<bool>, k: Key)
    requires |ok| == |fetch.templates|
    requires k in table && !Deleted(table[k]) && k !in Keys(fetch.templates, |ok|)
    ensures k in Synced(table, fetch, ok) && (Deleted(Synced(table, fetch, ok)[k]) <==> !fetch.truncated)
  {
    SyncedOther(table, fetch, ok, k);
    DeletedIsDeleted(table[k]);
  }

  // ---------------------------------------------------------------- doing it twice

  /** Nothing to write. */
  predicate Quiet(table: Table, fetch: Fetch) {
    && (forall i | 0 <= i < |fetch.templates| :: ActionOn(table, fetch.templates[i]) == Skip)
    && (fetch.truncated || Prunable(table, Keys(fetch.templates, |fetch.templates|)) == {})
  }

  lemma {:induction false} CountedNone(table: Table, templates: seq<Template>, ok: seq<bool>, n: nat, action: Action)
    requires n <= |templates| == |ok| && action != Skip && AllOk(ok)
    ensures Counted(table, templates, ok, n, action) == 0
            <==> forall i | 0 <= i < n :: ActionOn(table, templates[i]) != action
  {
    if n > 0 {
      CountedNone(table, templates, ok, n - 1, action);
    }
  }

  /** A sync reports no write exactly when there is nothing to write. */
  lemma QuietIffNoWrites(table: Table, fetch: Fetch, ok: seq<bool>)
    requires |ok| == |fetch.templates| && AllOk(ok)
    ensures Quiet(table, fetch) <==>
              && Counted(table, fetch.templates, ok, |ok|, Insert) == 0
                  && Counted(table, fetch.templates, ok, |ok|, Update) == 0
              && (fetch.truncated || |Prunable(table, Keys(fetch.templates, |ok|))| == 0)
  {
    CountedNone(table, fetch.templates, ok, |ok|, Insert);
    CountedNone(table, fetch.templates, ok, |ok|, Update);
  }

  /** Once synced, a template is skipped exactly when its components come back from the column as Meta sends them. */
  lemma SecondActionIsSkipIff(table: Table, fetch: Fetch, ok: seq<bool>, i: nat)
    requires i < |ok| == |fetch.templates| && Columns(table) && Distinct(fetch.templates) && AllOk(ok)
    ensures ActionOn(Synced(table, fetch, ok), fetch.templates[i]) == Skip <==> Ordered(fetch.templates[i].components)
  {
    var t := fetch.templates[i];
    SyncedRow(table, fetch, ok, i);
    CanonIsSameIffOrdered(t.components);
  }

  /** Idempotence: repeating a sync with the same fetch writes nothing if and only if every template's objects have
      their keys in the column's order already; otherwise those templates are written again each time. */
  lemma SecondSyncIsQuietIff(table: Table, fetch: Fetch, ok: seq<bool>)
    requires |ok| == |fetch.templates| && Columns(table) && Distinct(fetch.templates) && AllOk(ok)
    ensures Quiet(Synced(table, fetch, ok), fetch)
            <==> forall i | 0 <= i < |ok| :: Ordered(fetch.templates[i].components)
  {
    var after := Synced(table, fetch, ok);
    forall i | 0 <= i < |ok| ensures ActionOn(after, fetch.templates[i]) == Skip
        <==> Ordered(fetch.templates[i].components) {
      SecondActionIsSkipIff(table, fetch, ok, i);
    }
    if !fetch.truncated {
      SyncConverges(table, fetch, ok);
      assert Prunable(after, Keys(fetch.templates, |ok|)) == {};
    }
  }

  /** The same rows, with the same status and components. */
  ghost predicate SameTemplates(a: Table, b: Table) {
    forall k :: match (Lookup(a, k), Lookup(b, k))
                case (Some(r), Some(s)) => r.status == s.status && r.components == s.components
                case (r, s) => r == s
  }

  /** A row fetched, after an attempt and a full sync, is as after the full sync alone. */
  lemma RepairedRow(table: Table, fetch: Fetch, part: seq<bool>, marked: set<Key>, ok: seq<bool>, i: nat)
    requires i < |ok| == |part| == |fetch.templates| && Columns(table) && Distinct(fetch.templates) && AllOk(ok)
    requires marked <= Prunable(table, Keys(fetch.templates, |part|))
    ensures var t := fetch.templates[i];
            var before := Marked(Upserted(table, fetch.templates, part, |part|), marked);
            var row, row' := Lookup(Synced(table, fetch, ok), t.key), Lookup(Synced(before, fetch, ok), t.key);
            row.Some? && row'.Some? && row.value.status == row'.value.status
            && row.value.components == row'.value.components
  {
    var t := fetch.templates[i];
    var before := Marked(Upserted(table, fetch.templates, part, |part|), marked);
    assert t.key in Keys(fetch.templates, |part|) && t.key !in marked;
    UpsertedRow(table, fetch.templates, part, |part|, t.key);
    SyncedRow(table, fetch, ok, i);
    SyncedRow(before, fetch, ok, i);
    CanonIsSameIffOrdered(t.components);
  }

  /** Whatever writes of a sync fail, and wherever its pruning is cut short, one full sync with the same fetch makes up
      for it. */
  lemma SyncMakesUp(table: Table, fetch: Fetch, part: seq<bool>, broken: set<Key>, before: Table, ok: seq<bool>)
    requires |part| == |ok| == |fetch.templates| && Columns(table) && Distinct(fetch.templates) && AllOk(ok)
    requires !fetch.truncated && CutShort(table, fetch, part, broken, before)
    ensures SameTemplates(Synced(before, fetch, ok), Synced(table, fetch, ok))
  {
    var marked :| && marked <= Prunable(table, Keys(fetch.templates, |part|)) - broken
                  && before == Marked(Upserted(table, fetch.templates, part, |part|), marked);
    forall k ensures match (Lookup(Synced(before, fetch, ok), k), Lookup(Synced(table, fetch, ok), k))
                     case (Some(r), Some(s)) => r.status == s.status && r.components == s.components
                     case (r, s) => r == s
    {
      if k in Keys(fetch.templates, |ok|) {
        var i :| 0 <= i < |ok| && fetch.templates[i].key == k;
        RepairedRow(table, fetch, part, marked, ok, i);
      } else {
        UpsertedElsewhere(table, fetch.templates, part, |part|, k);
        SyncedOther(table, fetch, ok, k);
        SyncedOther(before, fetch, ok, k);
        if k in table {
          DeletedIsDeleted(table[k]);
        }
      }
    }
  }

  /** Written again or not, the cache does not change any more. */
  lemma SecondSyncChangesNothing(table: Table, fetch: Fetch, ok: seq<bool>)
    requires |ok| == |fetch.templates| && Columns(table) && Distinct(fetch.templates) && AllOk(ok)
    ensures SameTemplates(Synced(Synced(table, fetch, ok), fetch, ok), Synced(table, fetch, ok))
  {
    var after := Synced(table, fetch, ok);
    SyncKeepsColumns(table, fetch, ok);
    forall k ensures match (Lookup(Synced(after, fetch, ok), k), Lookup(after, k))
                     case (Some(r), Some(s)) => r.status == s.status && r.components == s.components
                     case (r, s) => r == s
    {
      if k in Keys(fetch.templates, |ok|) {
        var i :| 0 <= i < |ok| && fetch.templates[i].key == k;
        SyncedRow(table, fetch, ok, i);
        SyncedRow(after, fetch, ok, i);
        CanonIsSameIffOrdered(fetch.templates[i].components);
      } else {
        SyncedOther(table, fetch, ok, k);
        SyncedOther(after, fetch, ok, k);
        if k in table {
          DeletedIsDeleted(table[k]);
        }
      }
    }
  }
}
