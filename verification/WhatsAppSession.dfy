/** Which WhatsApp session an entity sends through (src/utils/whatsapp-session.js). */
module WhatsAppSession {
  import opened Text

  /** A row of whatsapp_sessions of one app; `parent` is "" when the column is null or empty. */
  datatype Session = Session(entity: string, parent: string, status: string)

  datatype Source = Direct | Parent | AppFallback

  datatype Resolution = Nothing | Resolved(session: Session, source: Source)
  {
    predicate IsInherited() { Resolved? && source != Direct }
    predicate FallbackUsed() { Resolved? && source == AppFallback }
  }

  /** The rows of one app, by entity id, which is unique in an app. */
  type Sessions = map<string, Session>

  /** findWhatsAppSessionByEntity: the id is trimmed before the lookup. */
  function Find(sessions: Sessions, id: string): Option<Session> {
    if Trim(id) != "" && Trim(id) in sessions then Some(sessions[Trim(id)]) else None
  }

  predicate Active(sessions: Sessions, id: string) {
    Find(sessions, id).Some? && Find(sessions, id).value.status == "active"
  }

  /** The parent an entity's row names, "" if none. */
  function ParentOf(sessions: Sessions, id: string): string {
    if Find(sessions, id).Some? then Find(sessions, id).value.parent else ""
  }

  /** The n-th ancestor of `id` ("" once the chain has ended). */
  function Ancestor(sessions: Sessions, id: string, n: nat): string {
    if n == 0 then id else
      var below := Ancestor(sessions, id, n - 1);
      if below == "" then "" else ParentOf(sessions, below)
  }

  // ---------------------------------------------------------------- the search

  /** Ids the search can ever meet. */
  ghost function Universe(sessions: Sessions, a: string, b: string): set<string> {
    {a, b} + set id | id in sessions :: sessions[id].parent
  }

  /** Ancestors at a depth are behind the search once visited, or once the chain has ended. */
  ghost predicate Behind(visited: set<string>, id: string) {
    id == "" || id in visited
  }

  /** The queue holds what is left of depth `d`, then what is known of depth `d + 1`, the requested chain
      before the explicit parent's. */
  ghost predicate Queued(here: seq<string>, next: seq<string>, a: string, b: string, a': string, b': string) {
    || (here in {[a, b], [a]} && next == [])
    || (here == [b] && next in {[], [a']})
    || (here == [] && next in {[], [a'], [b'], [a', b']})
  }

  /** Chain `r` is behind the search below depth d, and at depth d too unless its ancestor is still queued. */
  ghost predicate Covered(sessions: Sessions, r: string, visited: set<string>, here: seq<string>, d: nat) {
    && (forall j: nat | j < d :: Behind(visited, Ancestor(sessions, r, j)))
    && (Behind(visited, Ancestor(sessions, r, d)) || Ancestor(sessions, r, d) in here)
  }

  /** Whatever was visited is inactive, and its parent is visited or queued. */
  ghost predicate Closed(sessions: Sessions, visited: set<string>, queue: seq<string>) {
    forall v | v in visited ::
      v != "" && !Active(sessions, v) && (Behind(visited, ParentOf(sessions, v)) || ParentOf(sessions, v) in queue)
  }

  ghost predicate Levels(sessions: Sessions, a: string, b: string, visited: set<string>, here: seq<string>,
                         next: seq<string>, d: nat) {
    && Queued(here, next, Ancestor(sessions, a, d), Ancestor(sessions, b, d), Ancestor(sessions, a, d + 1),
              Ancestor(sessions, b, d + 1))
    && Covered(sessions, a, visited, here, d) && Covered(sessions, b, visited, here, d)
    && Closed(sessions, visited, here + next)
  }

  /** `id` is the active ancestor of least depth, the requested chain winning ties. */
  ghost predicate Nearest(sessions: Sessions, a: string, b: string, d: nat, id: string) {
    && (forall j: nat | j < d ::
        !Active(sessions, Ancestor(sessions, a, j)) && !Active(sessions, Ancestor(sessions, b, j)))
    && Active(sessions, id)
    && id == if Active(sessions, Ancestor(sessions, a, d)) then Ancestor(sessions, a, d) else Ancestor(sessions, b, d)
  }

  ghost predicate NoneActive(sessions: Sessions, a: string, b: string) {
    forall d: nat :: !Active(sessions, Ancestor(sessions, a, d)) && !Active(sessions, Ancestor(sessions, b, d))
  }

  lemma EmptyIsInactive(sessions: Sessions)
    ensures !Active(sessions, "")
  {
  }

  lemma CoveredAbove(sessions: Sessions, r: string, visited: set<string>, next: seq<string>, d: nat)
    requires Covered(sessions, r, visited, [], d) && Closed(sessions, visited, next)
    ensures Covered(sessions, r, visited, next, d + 1)
  {
  }

  /** With nothing of depth d left, the queue moves on to depth d + 1. */
  lemma NextLevel(sessions: Sessions, a: string, b: string, visited: set<string>, next: seq<string>, d: nat)
    requires Levels(sessions, a, b, visited, [], next, d)
    ensures Levels(sessions, a, b, visited, next, [], d + 1)
  {
    assert [] + next == next && next + [] == next;
    CoveredAbove(sessions, a, visited, next, d);
    CoveredAbove(sessions, b, visited, next, d);
    NextIsQueued(next, Ancestor(sessions, a, d), Ancestor(sessions, b, d), Ancestor(sessions, a, d + 1),
                 Ancestor(sessions, b, d + 1),
                 Ancestor(sessions, a, d + 2), Ancestor(sessions, b, d + 2));
  }

  lemma NextIsQueued(next: seq<string>, a: string, b: string, a': string, b': string, a'': string, b'': string)
    requires Queued([], next, a, b, a', b')
    ensures Queued(next, [], a', b', a'', b'')
  {
  }

  /** The head's parent goes where its chain belongs. */
  lemma VisitedIsQueued(here: seq<string>, next: seq<string>, a: string, b: string, a': string, b': string,
                        parent: string)
    requires Queued(here, next, a, b, a', b') && here != []
    requires (here[0] == a ==> parent == a') && (here[0] == b ==> parent == b')
    ensures Queued(here[1..], next, a, b, a', b') && Queued(here[1..], next + [parent], a, b, a', b')
  {
    assert [a, b][1..] == [b] && [a][1..] == [] && [b][1..] == [];
    assert [] + [a'] == [a'] && [] + [b'] == [b'] && [a'] + [b'] == [a', b'];
  }

  /** An empty id, or one visited before, is dropped. */
  lemma SkipHead(sessions: Sessions, a: string, b: string, visited: set<string>, here: seq<string>, next: seq<string>,
                 d: nat)
    requires Levels(sessions, a, b, visited, here, next, d) && here != [] && Behind(visited, here[0])
    ensures Levels(sessions, a, b, visited, here[1..], next, d)
  {
    assert Closed(sessions, visited, here[1..] + next) by {
      forall v | v in visited
          ensures Behind(visited, ParentOf(sessions, v)) || ParentOf(sessions, v) in here[1..] + next {
        assert here + next == [here[0]] + (here[1..] + next);
      }
    }
    assert forall x | x in here :: x == here[0] || x in here[1..];
    DroppedIsQueued(here, next, Ancestor(sessions, a, d), Ancestor(sessions, b, d), Ancestor(sessions, a, d + 1),
                    Ancestor(sessions, b, d + 1));
  }

  lemma DroppedIsQueued(here: seq<string>, next: seq<string>, a: string, b: string, a': string, b': string)
    requires Queued(here, next, a, b, a', b') && here != []
    ensures Queued(here[1..], next, a, b, a', b')
  {
    assert [a, b][1..] == [b] && [a][1..] == [] && [b][1..] == [];
  }

  /** An inactive one is visited, and its parent queued behind the others. */
  lemma VisitHead(sessions: Sessions, a: string, b: string, visited: set<string>, here: seq<string>, next: seq<string>,
                  d: nat)
    requires Levels(sessions, a, b, visited, here, next, d) && here != []
    requires !Behind(visited, here[0]) && !Active(sessions, here[0])
    ensures var parent := ParentOf(sessions, here[0]);
            Levels(sessions, a, b, visited + {here[0]}, here[1..], if parent == "" then next else next + [parent], d)
  {
    var x, visited' := here[0], visited + {here[0]};
    var parent := ParentOf(sessions, x);
    var next' := if parent == "" then next else next + [parent];
    assert Closed(sessions, visited', here[1..] + next') by {
      forall v | v in visited'
          ensures Behind(visited', ParentOf(sessions, v)) || ParentOf(sessions, v) in here[1..] + next' {
        assert here + next == [x] + (here[1..] + next);
        if v != x {
          assert v in visited;
        }
      }
    }
    assert forall y | y in here :: y == x || y in here[1..];
    StepUp(sessions, a, d);
    StepUp(sessions, b, d);
    VisitedIsQueued(here, next, Ancestor(sessions, a, d), Ancestor(sessions, b, d), Ancestor(sessions, a, d + 1),
                    Ancestor(sessions, b, d + 1), parent);
  }

  lemma StepUp(sessions: Sessions, r: string, d: nat)
    ensures Ancestor(sessions, r, d) != ""
            ==> Ancestor(sessions, r, d + 1) == ParentOf(sessions, Ancestor(sessions, r, d))
  {
  }

  /** The candidate at the head is the nearest if it is active. */
  lemma HeadIsNearest(sessions: Sessions, a: string, b: string, visited: set<string>, here: seq<string>,
                      next: seq<string>, d: nat)
    requires Levels(sessions, a, b, visited, here, next, d) && here != [] && Active(sessions, here[0])
    ensures Nearest(sessions, a, b, d, here[0])
  {
  }

  /** An exhausted queue means every ancestor was visited. */
  lemma {:induction false} ExhaustedCovers(sessions: Sessions, a: string, b: string, visited: set<string>, d: nat,
                                           j: nat)
    requires Levels(sessions, a, b, visited, [], [], d)
    ensures Behind(visited, Ancestor(sessions, a, j)) && Behind(visited, Ancestor(sessions, b, j))
  {
    if j > d {
      ExhaustedCovers(sessions, a, b, visited, d, j - 1);
    }
  }

  /** The search's state: some level is being read off the queue, and every id on it is a known one. */
  ghost predicate Searching(sessions: Sessions, a: string, b: string, visited: set<string>, queue: seq<string>) {
    && visited <= Universe(sessions, a, b) && (forall x | x in queue :: x in Universe(sessions, a, b))
    && exists here, next, d :: queue == here + next && Levels(sessions, a, b, visited, here, next, d)
  }

  lemma SearchStarts(sessions: Sessions, a: string, b: string)
    ensures Searching(sessions, a, b, {}, [a, b])
  {
    assert [a, b] + [] == [a, b];
    assert Levels(sessions, a, b, {}, [a, b], [], 0);
  }

  lemma PopHead(here: seq<string>, next: seq<string>)
    requires here != []
    ensures (here + next)[0] == here[0] && (here + next)[1..] == here[1..] + next
  {
  }

  lemma SomeLevel(sessions: Sessions, a: string, b: string, visited: set<string>, queue: seq<string>)
    returns (here: seq<string>, next: seq<string>, d: nat)
    requires Searching(sessions, a, b, visited, queue)
    ensures queue == here + next && Levels(sessions, a, b, visited, here, next, d)
  {
    here, next, d :| queue == here + next && Levels(sessions, a, b, visited, here, next, d);
  }

  lemma LevelRead(sessions: Sessions, a: string, b: string, visited: set<string>, queue: seq<string>, d: nat)
    requires Levels(sessions, a, b, visited, [], queue, d)
    ensures Levels(sessions, a, b, visited, queue, [], d + 1) && queue == queue + []
  {
    NextLevel(sessions, a, b, visited, queue, d);
  }

  /** A level with something left to read. */
  lemma Reading(sessions: Sessions, a: string, b: string, visited: set<string>, queue: seq<string>)
    returns (here: seq<string>, next: seq<string>, d: nat)
    requires Searching(sessions, a, b, visited, queue) && queue != []
    ensures queue == here + next && here != [] && Levels(sessions, a, b, visited, here, next, d)
    ensures queue[0] == here[0] && queue[1..] == here[1..] + next
  {
    here, next, d := SomeLevel(sessions, a, b, visited, queue);
    if here == [] {
      assert next == queue;
      LevelRead(sessions, a, b, visited, queue, d);
      here, next, d := queue, [], d + 1;
    }
    PopHead(here, next);
  }

  /** An empty id, or one visited before, is dropped. */
  lemma Dropped(sessions: Sessions, a: string, b: string, visited: set<string>, queue: seq<string>)
    requires Searching(sessions, a, b, visited, queue) && queue != [] && Behind(visited, queue[0])
    ensures Searching(sessions, a, b, visited, queue[1..])
  {
    var here, next, d := Reading(sessions, a, b, visited, queue);
    SkipHead(sessions, a, b, visited, here, next, d);
  }

  lemma Held(sessions: Sessions, a: string, b: string, visited: set<string>, here: seq<string>, next: seq<string>,
             d: nat, queue: seq<string>)
    requires Levels(sessions, a, b, visited, here, next, d) && queue == here + next
    requires visited <= Universe(sessions, a, b) && forall x | x in queue :: x in Universe(sessions, a, b)
    ensures Searching(sessions, a, b, visited, queue)
  {
  }

  /** An inactive one is visited, and its parent, if it has one, goes to the end of the queue. */
  lemma Visited(sessions: Sessions, a: string, b: string, visited: set<string>, queue: seq<string>)
    requires Searching(sessions, a, b, visited, queue) && queue != []
    requires !Behind(visited, queue[0]) && !Active(sessions, queue[0])
    ensures var parent := ParentOf(sessions, queue[0]);
            Searching(sessions, a, b, visited + {queue[0]}, if parent == "" then queue[1..] else queue[1..] + [parent])
  {
    var here, next, d := Reading(sessions, a, b, visited, queue);
    var parent := ParentOf(sessions, queue[0]);
    var next' := if parent == "" then next else next + [parent];
    VisitHead(sessions, a, b, visited, here, next, d);
    ParentIsKnown(sessions, a, b, queue[0]);
    Held(sessions, a, b, visited + {queue[0]}, here[1..], next', d, here[1..] + next');
    assert (here[1..] + next) + [parent] == here[1..] + (next + [parent]);
  }

  lemma ParentIsKnown(sessions: Sessions, a: string, b: string, id: string)
    ensures ParentOf(sessions, id) == "" || ParentOf(sessions, id) in Universe(sessions, a, b)
  {
  }

  /** Each visit leaves fewer ids unvisited. */
  lemma VisitedShrinks(all: set<string>, visited: set<string>, id: string)
    requires id in all && id !in visited
    ensures |all - (visited + {id})| < |all - visited|
  {
    assert all - visited == {id} + (all - (visited + {id}));
  }

  lemma ActiveIsNearest(sessions: Sessions, a: string, b: string, visited: set<string>, queue: seq<string>)
      returns (d: nat)
    requires Searching(sessions, a, b, visited, queue) && queue != [] && Active(sessions, queue[0])
    ensures Nearest(sessions, a, b, d, queue[0])
  {
    var here, next, d' := Reading(sessions, a, b, visited, queue);
    HeadIsNearest(sessions, a, b, visited, here, next, d');
    d := d';
  }

  lemma ExhaustedIsNone(sessions: Sessions, a: string, b: string, visited: set<string>)
    requires Searching(sessions, a, b, visited, [])
    ensures NoneActive(sessions, a, b)
  {
    var here, next, d :| [] == here + next && Levels(sessions, a, b, visited, here, next, d);
    assert here == [] && next == [];
    forall j: nat ensures !Active(sessions, Ancestor(sessions, a, j)) && !Active(sessions, Ancestor(sessions, b, j)) {
      ExhaustedCovers(sessions, a, b, visited, d, j);
      EmptyIsInactive(sessions);
    }
  }

  /** The breadth-first walk: the nearest active ancestor of the two roots, if there is one. */
  method Search(sessions: Sessions, a: string, b: string) returns (r: Option<string>)
    ensures r.None? ==> NoneActive(sessions, a, b)
    ensures r.Some? ==> exists d :: Nearest(sessions, a, b, d, r.value)
  {
    var candidates, visited := [a, b], {};
    SearchStarts(sessions, a, b);
    while candidates != []
      invariant Searching(sessions, a, b, visited, candidates)
      decreases |Universe(sessions, a, b) - visited|, |candidates|
    {
      var candidate, rest := candidates[0], candidates[1..];
      if candidate == "" || candidate in visited {
        Dropped(sessions, a, b, visited, candidates);
        candidates := rest;
        continue;
      }
      if Active(sessions, candidate) {
        ghost var d := ActiveIsNearest(sessions, a, b, visited, candidates);
        return Some(candidate);
      }
      Visited(sessions, a, b, visited, candidates);
      VisitedShrinks(Universe(sessions, a, b), visited, candidate);
      visited := visited + {candidate};
      var parent := ParentOf(sessions, candidate);
      candidates := if parent == "" then rest else rest + [parent];
    }
    ExhaustedIsNone(sessions, a, b, visited);
    r := None;
  }

  /** The answer is a function of the graph: no two ids can both be nearest. */
  lemma NearestIsUnique(sessions: Sessions, a: string, b: string, d: nat, id: string, e: nat, id': string)
    requires Nearest(sessions, a, b, d, id) && Nearest(sessions, a, b, e, id')
    ensures d == e && id == id'
  {
  }

  /** A session is inherited exactly when the requested entity itself has no active one. */
  lemma DirectIffActive(sessions: Sessions, a: string, b: string, d: nat, id: string)
    requires Nearest(sessions, a, b, d, id)
    ensures id == a <==> Active(sessions, a)
  {
    assert Ancestor(sessions, a, 0) == a;
  }

  /** The session an entity sends through: the nearest active ancestor, else the app's fallback, else none.
      Every parent graph ends the search, cycles included. */
  method ResolveWhatsAppSession(sessions: Sessions, entityId: string, parentEntityId: string, fallback: Option<Session>)
    returns (r: Resolution)
    ensures NoneActive(sessions, Trim(entityId), Trim(parentEntityId)) ==>
              r == if fallback.Some? then Resolved(fallback.value, AppFallback) else Nothing
    ensures !NoneActive(sessions, Trim(entityId), Trim(parentEntityId)) ==>
              exists d, id :: Nearest(sessions, Trim(entityId), Trim(parentEntityId), d, id)
                              && r == Resolved(Find(sessions, id).value,
                                               if id == Trim(entityId) then Direct else Parent)
    ensures r.Resolved? ==> (r.IsInherited() <==> !Active(sessions, Trim(entityId)))
    ensures r.FallbackUsed() ==> NoneActive(sessions, Trim(entityId), Trim(parentEntityId))
  {
    var requested := Trim(entityId);
    var found := Search(sessions, requested, Trim(parentEntityId));
    if found.Some? {
      ghost var d :| Nearest(sessions, requested, Trim(parentEntityId), d, found.value);
      DirectIffActive(sessions, requested, Trim(parentEntityId), d, found.value);
      r := Resolved(Find(sessions, found.value).value, if found.value == requested then Direct else Parent);
    } else if fallback.Some? {
      assert Ancestor(sessions, requested, 0) == requested;
      r := Resolved(fallback.value, AppFallback);
    } else {
      r := Nothing;
    }
  }
}
