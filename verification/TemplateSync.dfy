/** The cache of Meta's message templates for one entity, and its sync (src/utils/whatsapp-template.js). */
module TemplateSync {
  import opened Jsonb
  import opened Text

  /** Names and languages hold no colon, so the code's "name::language" tells keys apart. */
  datatype Key = Key(name: string, language: string)

  /** A template as Meta reports it; `updated` is its parsed last_updated_time. */
  datatype Template = Template(key: Key, id: string, status: string, category: string, components: Json,
                               updated: Option<int>)

  /** A row of whatsapp_meta_templates. */
  datatype Row = Row(id: string, status: string, category: string, components: Json, updated: Option<int>)

  type Table = map<Key, Row>

  datatype Action = Insert | Update | Skip

  datatype Counts = Counts(created: nat, updated: nat, skipped: nat, pruned: nat)

  datatype SyncResult = Nothing | Done(counts: Counts) | Threw

  // ---------------------------------------------------------------- fetching

  /** One answer of the Graph API, after the retries of a 429. */
  datatype Response = Page(templates: seq<Template>, next: bool) | RateLimited | Broken

  datatype Fetch = Fetch(templates: seq<Template>, truncated: bool, failed: bool)

  predicate Last(r: Response) {
    !r.Page? || !r.next || r.templates == []
  }

  /** The pages up to the last response. */
  function Collected(responses: seq<Response>, n: nat): seq<Template>
    requires n <= |responses|
  {
    if n == 0 then [] else
      Collected(responses, n - 1) + if responses[n - 1].Page? then responses[n - 1].templates else []
  }

  /** fetchAllMessageTemplates: a 429 truncates what was fetched, any other error only marks it as failed. */
  method FetchAll(responses: seq<Response>) returns (r: Fetch)
    requires exists n :: 0 <= n < |responses| && Last(responses[n])
    ensures exists n :: 0 <= n < |responses| && Last(responses[n]) && (forall k | 0 <= k < n :: !Last(responses[k]))
                        && r == Fetch(Collected(responses, n + 1), responses[n].RateLimited?, !responses[n].Page?)
  {
    var collected: seq<Template>, n := [], 0;
    while !Last(responses[n])
      invariant n < |responses| && collected == Collected(responses, n)
      invariant forall k | 0 <= k < n :: !Last(responses[k])
      decreases |responses| - n
    {
      collected := collected + responses[n].templates;
      n := n + 1;
    }
    match responses[n]
    case RateLimited => r := Fetch(collected, true, true);
    case Broken => r := Fetch(collected, false, true);
    case Page(templates, _) => r := Fetch(collected + templates, false, false);
  }

  // ---------------------------------------------------------------- one template

  /** toCacheRow. */
  function Incoming(t: Template): Row {
    Row(t.id, if t.status == "" then "UNKNOWN" else t.status, t.category, t.components, t.updated)
  }

  /** What the column gives back of a row written. */
  function Stored(row: Row): Row {
    row.(components := Canon(row.components))
  }

  /** A missing time and the epoch are both falsy. */
  predicate HasTime(time: Option<int>) {
    time.Some? && time.value != 0
  }

  function ShouldUpdate(existing: Option<Row>, incoming: Row): Action {
    if existing.None? then Insert
    else
      var cached := existing.value;
      var same := cached.components == incoming.components && cached.status == incoming.status;
      if HasTime(incoming.updated) && HasTime(cached.updated) && incoming.updated.value <= cached.updated.value && same
          then Skip
      else if !HasTime(incoming.updated) && same && cached.category == incoming.category then Skip
      else Update
  }

  function Lookup(table: Table, key: Key): Option<Row> {
    if key in table then Some(table[key]) else None
  }

  predicate Deleted(row: Row) {
    Upper(row.status) == "DELETED"
  }

  // ---------------------------------------------------------------- the sync, as a function of the table

  function ActionOn(table: Table, t: Template): Action {
    ShouldUpdate(Lookup(table, t.key), Incoming(t))
  }

  /** The table after the first n templates; `ok` says which writes succeed. The rows compared with are those read
      at the start. */
  function Upserted(table: Table, templates: seq<Template>, ok: seq<bool>, n: nat): Table
    requires n <= |templates| == |ok|
  {
    if n == 0 then table
    else
      var before, t := Upserted(table, templates, ok, n - 1), templates[n - 1];
      if ActionOn(table, t) == Skip || !ok[n - 1] then before else before[t.key := Stored(Incoming(t))]
  }

  function Keys(templates: seq<Template>, n: nat): set<Key>
    requires n <= |templates|
  {
    set i | 0 <= i < n :: templates[i].key
  }

  function Prunable(table: Table, seen: set<Key>): set<Key> {
    set k | k in table && k !in seen && !Deleted(table[k])
  }

  function Marked(table: Table, keys: set<Key>): Table {
    map k | k in table :: if k in keys then table[k].(status := "DELETED") else table[k]
  }

  lemma MarkedNone(table: Table)
    ensures Marked(table, {}) == table
  {
  }

  lemma OneLess(all: set<Key>, left: set<Key>, key: Key)
    requires key in left
    ensures key !in all - left && all - (left - {key}) == if key in all then (all - left) + {key} else all - left
  {
  }

  lemma MarkedOne(table: Table, keys: set<Key>, key: Key)
    requires key in table && key !in keys
    ensures key in Marked(table, keys) && |keys + {key}| == |keys| + 1
    ensures Marked(table, keys + {key}) == Marked(table, keys)[key := Marked(table, keys)[key].(status := "DELETED")]
  {
  }

  /** Some of `keys` are marked. */
  ghost predicate MarkedSome(table: Table, keys: set<Key>, after: Table) {
    exists marked :: marked <= keys && after == Marked(table, marked)
  }

  function Synced(table: Table, fetch: Fetch, ok: seq<bool>): Table
    requires |ok| == |fetch.templates|
  {
    var upserted := Upserted(table, fetch.templates, ok, |ok|);
    if fetch.truncated then upserted else Marked(upserted, Prunable(table, Keys(fetch.templates, |ok|)))
  }

  /** What a sync leaves whose pruning was cut short: only rows are marked whose UPDATE does not fail. */
  ghost predicate CutShort(table: Table, fetch: Fetch, ok: seq<bool>, broken: set<Key>, after: Table)
    requires |ok| == |fetch.templates|
  {
    MarkedSome(Upserted(table, fetch.templates, ok, |ok|), Prunable(table, Keys(fetch.templates, |ok|)) - broken, after)
  }

  /** How many of the first n templates lead to an action that is carried out. */
  function Counted(table: Table, templates: seq<Template>, ok: seq<bool>, n: nat, action: Action): nat
    requires n <= |templates| == |ok|
  {
    if n == 0 then 0 else
      Counted(table, templates, ok, n - 1, action)
      + if ActionOn(table, templates[n - 1]) == action && (ok[n - 1] || action == Skip) then 1 else 0
  }

  class TemplateCache {
    var rows: Table

    constructor ()
      ensures rows == map[]
    {
      rows := map[];
    }

    /** syncMetaTemplates, for a session that resolves; nothing happens when an error left nothing fetched, and a row of
        `broken` is one whose pruning UPDATE fails, which throws. */
    method Sync(fetch: Fetch, ok: seq<bool>, broken: set<Key>) returns (r: SyncResult)
      requires |ok| == |fetch.templates|
      modifies this
      ensures r.Nothing? <==> fetch.failed && fetch.templates == []
      ensures r.Nothing? ==> rows == old(rows)
      ensures r.Threw? <==> !r.Nothing? && !fetch.truncated
                              && Prunable(old(rows), Keys(fetch.templates, |ok|)) * broken != {}
      ensures r.Threw? ==> CutShort(old(rows), fetch, ok, broken, rows)
      ensures r.Done? ==> rows == Synced(old(rows), fetch, ok)
      ensures r.Done? ==>
                && r.counts.created == Counted(old(rows), fetch.templates, ok, |ok|, Insert)
                && r.counts.updated == Counted(old(rows), fetch.templates, ok, |ok|, Update)
                && r.counts.skipped == Counted(old(rows), fetch.templates, ok, |ok|, Skip)
                && r.counts.pruned == if fetch.truncated then 0 else |Prunable(old(rows), Keys(fetch.templates, |ok|))|
    {
      if fetch.failed && fetch.templates == [] {
        return Nothing;
      }
      var existing, seen := rows, {};
      var created, updated, skipped := 0, 0, 0;
      for i := 0 to |ok|
        invariant existing == old(rows) && rows == Upserted(existing, fetch.templates, ok, i)
        invariant seen == Keys(fetch.templates, i) && existing.Keys <= rows.Keys
        invariant created == Counted(existing, fetch.templates, ok, i, Insert)
        invariant updated == Counted(existing, fetch.templates, ok, i, Update)
        invariant skipped == Counted(existing, fetch.templates, ok, i, Skip)
      {
        var t := fetch.templates[i];
        seen := seen + {t.key};
        var incoming := Incoming(t);
        var action := ShouldUpdate(Lookup(existing, t.key), incoming);
        if action == Skip {
          skipped := skipped + 1;
        } else if ok[i] {
          rows := rows[t.key := Stored(incoming)];
          if action == Insert {
            created := created + 1;
          } else {
            updated := updated + 1;
          }
        }
      }
      var pruned := 0;
      if !fetch.truncated {
        var threw;
        pruned, threw := Prune(existing, seen, broken);
        if threw {
          return Threw;
        }
      }
      r := Done(Counts(created, updated, skipped, pruned));
    }

    /** Rows read at the start and not fetched are marked DELETED, one after another in any order; the first UPDATE that
        fails throws, with the rows before it marked. */
    method Prune(existing: Table, seen: set<Key>, broken: set<Key>) returns (pruned: nat, threw: bool)
      requires existing.Keys <= rows.Keys
      modifies this
      ensures threw <==> Prunable(existing, seen) * broken != {}
      ensures !threw ==> rows == Marked(old(rows), Prunable(existing, seen)) && pruned == |Prunable(existing, seen)|
      ensures threw ==> MarkedSome(old(rows), Prunable(existing, seen) - broken, rows)
    {
      var left := existing.Keys;
      ghost var prunable, marked: set<Key> := Prunable(existing, seen), {};
      pruned := 0;
      MarkedNone(rows);
      while left != {}
        invariant left <= existing.Keys && marked == prunable - left && marked !! broken
        invariant rows == Marked(old(rows), marked) && pruned == |marked|
        decreases left
      {
        var key :| key in left;
        OneLess(prunable, left, key);
        left := left - {key};
        if key !in seen && !Deleted(existing[key]) {
          if key in broken {
            return pruned, true;
          }
          MarkedOne(old(rows), marked, key);
          marked := marked + {key};
          rows := rows[key := rows[key].(status := "DELETED")];
          pruned := pruned + 1;
        }
      }
      threw := false;
    }
  }
}
