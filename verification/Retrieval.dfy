/** Candidate selection over the indexes, and the category caps (src/assistant/memory/retrieval/service.py). */
module Retrieval {
  import opened MemoryIndex
  import opened IndexLaws
  import opened IndexRuns
  import opened Sequences

  datatype Query = Query(types: seq<string>, tags: seq<string>, entities: seq<string>)

  const FALLBACK_SIZE := 50

  // ---------------------------------------------------------------- the linear scan

  /** Does the query select this artifact? With no hints it selects all. */
  ghost predicate Selects(lower: string -> string, q: Query, a: Artifact) {
    || (q.types == [] && q.tags == [] && q.entities == [])
    || a.kind in q.types
    || (exists i :: 0 <= i < |q.tags| && Names(lower, a.tags, lower(q.tags[i])))
    || (exists i :: 0 <= i < |q.entities|
          && (Names(lower, a.entities, lower(q.entities[i])) || (a.kind == "projects" && a.id == lower(q.entities[i]))))
  }

  /** One of the words is the key in lower case. */
  predicate Names(lower: string -> string, words: seq<string>, key: string) {
    exists j :: 0 <= j < |words| && lower(words[j]) == key
  }

  /** The same by the keys of the indexes. */
  ghost predicate Matches(lower: string -> string, q: Query, a: Artifact) {
    || (q.types == [] && q.tags == [] && q.entities == [])
    || a.kind in q.types
    || (exists i :: 0 <= i < |q.tags| && lower(q.tags[i]) in Lowered(lower, a.tags))
    || (exists i :: 0 <= i < |q.entities| && lower(q.entities[i]) in ProjectKeys(lower, a))
  }

  lemma LoweredNames(lower: string -> string, words: seq<string>, key: string)
    ensures key in Lowered(lower, words) <==> Names(lower, words, key)
  {
    var keys := Lowered(lower, words);
    if key in keys {
      var j :| 0 <= j < |keys| && keys[j] == key;
      assert lower(words[j]) == key;
    }
    if j :| 0 <= j < |words| && lower(words[j]) == key {
      assert keys[j] == key;
    }
  }

  lemma ProjectNames(lower: string -> string, a: Artifact, key: string)
    ensures key in ProjectKeys(lower, a) <==> Names(lower, a.entities, key) || (a.kind == "projects" && a.id == key)
  {
    LoweredNames(lower, a.entities, key);
    assert key in ProjectKeys(lower, a) <==> (a.kind == PROJECTS && key == a.id) || key in Lowered(lower, a.entities);
  }

  lemma SelectsIff(lower: string -> string, q: Query, a: Artifact)
    ensures Selects(lower, q, a) <==> Matches(lower, q, a)
  {
    forall i | 0 <= i < |q.tags|
      ensures lower(q.tags[i]) in Lowered(lower, a.tags) <==> Names(lower, a.tags, lower(q.tags[i]))
    {
      LoweredNames(lower, a.tags, lower(q.tags[i]));
    }
    forall i | 0 <= i < |q.entities|
      ensures lower(q.entities[i]) in ProjectKeys(lower, a)
         <==> Names(lower, a.entities, lower(q.entities[i])) || (a.kind == "projects" && a.id == lower(q.entities[i]))
    {
      ProjectNames(lower, a, lower(q.entities[i]));
    }
  }

  ghost function Scan(lower: string -> string, q: Query, artifacts: seq<Artifact>): set<string> {
    set i | 0 <= i < |artifacts| && Selects(lower, q, artifacts[i]) :: artifacts[i].id
  }

  function Ids(entries: seq<Entry>): set<string> {
    set e | e in entries && e.id != "" :: e.id
  }

  function Recent(entries: seq<Entry>): seq<Entry> {
    if |entries| <= FALLBACK_SIZE then entries else entries[..FALLBACK_SIZE]
  }

  /** What the scan selects, or the most recent if that is nothing. */
  ghost function ScanOrRecent(lower: string -> string, q: Query, artifacts: seq<Artifact>): set<string> {
    if Scan(lower, q, artifacts) == {} then Ids(Recent(SortByRecency(Entries(artifacts))))
    else Scan(lower, q, artifacts)
  }

  // ---------------------------------------------------------------- the lookup

  /** The ids listed at any of the keys. */
  function Under(m: Index, keys: seq<string>): set<string> {
    set i, x | 0 <= i < |keys| && x in Lookup(m, keys[i]) :: x
  }

  function Everywhere(m: Index): set<string> {
    set k, x | k in m && x in m[k] :: x
  }

  function Hits(lower: string -> string, x: Indexes, q: Query): set<string> {
    (if q.types != [] then Under(x.byType, q.types)
     else if q.tags == [] && q.entities == [] then Everywhere(x.byType) else {})
    + Under(x.byTag, Lowered(lower, q.tags))
    + Under(x.byEntity, Lowered(lower, q.entities))
    + Under(x.byProject, Lowered(lower, q.entities))
  }

  function Candidates(lower: string -> string, x: Indexes, q: Query): set<string> {
    if Hits(lower, x, q) == {} then Ids(Recent(x.byRecency)) else Hits(lower, x, q)
  }

  lemma UnderNext(m: Index, keys: seq<string>, i: int)
    requires 0 <= i < |keys|
    ensures Under(m, keys[..i + 1]) == Under(m, keys[..i]) + SetOf(Lookup(m, keys[i]))
  {
    var head := keys[..i + 1];
    assert head[i] == keys[i] && forall j :: 0 <= j < i ==> head[j] == keys[..i][j];
  }

  method GatherUnder(m: Index, keys: seq<string>, before: set<string>) returns (candidates: set<string>)
    ensures candidates == before + Under(m, keys)
  {
    candidates := before;
    var i := 0;
    while i < |keys|
      invariant 0 <= i <= |keys|
      invariant candidates == before + Under(m, keys[..i])
    {
      UnderNext(m, keys, i);
      candidates := candidates + SetOf(Lookup(m, keys[i]));
      i := i + 1;
    }
    assert keys[..i] == keys;
  }

  method GatherEntities(lower: string -> string, byEntity: Index, byProject: Index, entities: seq<string>,
                        before: set<string>)
    returns (candidates: set<string>)
    ensures candidates == before + Under(byEntity, Lowered(lower, entities)) + Under(byProject, Lowered(lower, entities))
  {
    candidates := before;
    ghost var keys := Lowered(lower, entities);
    var i := 0;
    while i < |entities|
      invariant 0 <= i <= |entities|
      invariant candidates == before + Under(byEntity, keys[..i]) + Under(byProject, keys[..i])
    {
      UnderNext(byEntity, keys, i);
      UnderNext(byProject, keys, i);
      var el := lower(entities[i]);
      candidates := candidates + SetOf(Lookup(byEntity, el));
      candidates := candidates + SetOf(Lookup(byProject, el));
      i := i + 1;
    }
    assert keys[..i] == keys;
  }

  method GatherRecent(byRecency: seq<Entry>) returns (candidates: set<string>)
    ensures candidates == Ids(Recent(byRecency))
  {
    candidates := {};
    var i := 0;
    while i < |byRecency| && i < FALLBACK_SIZE
      invariant 0 <= i <= |Recent(byRecency)|
      invariant candidates == Ids(byRecency[..i])
    {
      assert byRecency[..i + 1] == byRecency[..i] + [byRecency[i]];
      if byRecency[i].id != "" {
        candidates := candidates + {byRecency[i].id};
      }
      i := i + 1;
    }
    assert byRecency[..i] == Recent(byRecency);
  }

  method GatherCandidates(lower: string -> string, x: Indexes, q: Query) returns (candidates: set<string>)
    ensures candidates == Candidates(lower, x, q)
  {
    candidates := {};
    if q.types != [] {
      candidates := GatherUnder(x.byType, q.types, candidates);
    } else if q.tags == [] && q.entities == [] {
      candidates := Everywhere(x.byType);
    }
    candidates := GatherUnder(x.byTag, Lowered(lower, q.tags), candidates);
    candidates := GatherEntities(lower, x.byEntity, x.byProject, q.entities, candidates);
    if candidates == {} && x.byRecency != [] {
      candidates := GatherRecent(x.byRecency);
    } else if candidates == {} {
      assert Ids(Recent(x.byRecency)) == {};
    }
  }

  // ---------------------------------------------------------------- lookup equals scan

  /** What lookup needs of the indexes: exact, but for a merely sound project index. */
  ghost predicate Describes(lower: string -> string, x: Indexes, artifacts: seq<Artifact>) {
    AgreeBesidesProjects(x, Built(lower, artifacts)) && ProjectsSound(lower, x.byProject, artifacts)
  }

  lemma {:induction false} PostingsMembers(
    lower: string -> string, f: Field, artifacts: seq<Artifact>, k: string, id: string)
    ensures id in Postings(lower, f, artifacts, k)
       <==> exists a :: a in artifacts && a.id == id && k in Keys(lower, f, a)
  {
    if artifacts != [] {
      var a := artifacts[0];
      PostingsMembers(lower, f, artifacts[1..], k, id);
      CopiesAre(a.id, Count(Keys(lower, f, a), k));
      CountPresent(Keys(lower, f, a), k);
      assert forall b :: b in artifacts <==> b == a || b in artifacts[1..];
    }
  }

  lemma ListedExactly(lower: string -> string, f: Field, x: Indexes, artifacts: seq<Artifact>, k: string, id: string)
    requires Get(x, f) == Get(Built(lower, artifacts), f)
    ensures id in Lookup(Get(x, f), k) <==> exists a :: a in artifacts && a.id == id && k in Keys(lower, f, a)
  {
    BuiltIs(lower, f, artifacts);
    PostingsMembers(lower, f, artifacts, k, id);
  }

  lemma ScanMembers(lower: string -> string, q: Query, artifacts: seq<Artifact>, id: string)
    ensures id in Scan(lower, q, artifacts) <==> exists a :: a in artifacts && a.id == id && Matches(lower, q, a)
  {
    if id in Scan(lower, q, artifacts) {
      var i :| 0 <= i < |artifacts| && Selects(lower, q, artifacts[i]) && artifacts[i].id == id;
      SelectsIff(lower, q, artifacts[i]);
      assert artifacts[i] in artifacts;
    }
    if a :| a in artifacts && a.id == id && Matches(lower, q, a) {
      SelectsIff(lower, q, a);
      var i :| 0 <= i < |artifacts| && artifacts[i] == a;
    }
  }

  lemma TypeHit(lower: string -> string, x: Indexes, q: Query, artifacts: seq<Artifact>, id: string)
    requires Describes(lower, x, artifacts)
    requires if q.types != [] then id in Under(x.byType, q.types)
             else q.tags == [] && q.entities == [] && id in Everywhere(x.byType)
    ensures id in Scan(lower, q, artifacts)
  {
    ScanMembers(lower, q, artifacts, id);
    if q.types != [] {
      var i :| 0 <= i < |q.types| && id in Lookup(x.byType, q.types[i]);
      ListedExactly(lower, ByType, x, artifacts, q.types[i], id);
    } else {
      var k :| k in x.byType && id in x.byType[k];
      ListedExactly(lower, ByType, x, artifacts, k, id);
    }
  }

  lemma TagHit(lower: string -> string, x: Indexes, q: Query, artifacts: seq<Artifact>, id: string)
    requires Describes(lower, x, artifacts) && id in Under(x.byTag, Lowered(lower, q.tags))
    ensures exists a :: a in artifacts && a.id == id && Matches(lower, q, a)
  {
    var i :| 0 <= i < |q.tags| && id in Lookup(x.byTag, Lowered(lower, q.tags)[i]);
    ListedExactly(lower, ByTag, x, artifacts, lower(q.tags[i]), id);
  }

  lemma NameHit(lower: string -> string, x: Indexes, q: Query, artifacts: seq<Artifact>, id: string)
    requires Describes(lower, x, artifacts) && id in Under(x.byEntity, Lowered(lower, q.entities))
    ensures exists a :: a in artifacts && a.id == id && Matches(lower, q, a)
  {
    var i :| 0 <= i < |q.entities| && id in Lookup(x.byEntity, Lowered(lower, q.entities)[i]);
    ListedExactly(lower, ByEntity, x, artifacts, lower(q.entities[i]), id);
    var a :| a in artifacts && a.id == id && lower(q.entities[i]) in Keys(lower, ByEntity, a);
    assert lower(q.entities[i]) in ProjectKeys(lower, a);
  }

  lemma ProjectHit(lower: string -> string, x: Indexes, q: Query, artifacts: seq<Artifact>, id: string)
    requires Describes(lower, x, artifacts) && id in Under(x.byProject, Lowered(lower, q.entities))
    ensures exists a :: a in artifacts && a.id == id && Matches(lower, q, a)
  {
    var i :| 0 <= i < |q.entities| && id in Lookup(x.byProject, Lowered(lower, q.entities)[i]);
    assert id in Lookup(x.byProject, lower(q.entities[i]));
  }

  /** A hit is selected by the scan. */
  lemma HitIsScanned(lower: string -> string, x: Indexes, q: Query, artifacts: seq<Artifact>, id: string)
    requires Describes(lower, x, artifacts) && id in Hits(lower, x, q)
    ensures id in Scan(lower, q, artifacts)
  {
    ScanMembers(lower, q, artifacts, id);
    if id in Under(x.byTag, Lowered(lower, q.tags)) {
      TagHit(lower, x, q, artifacts, id);
    } else if id in Under(x.byEntity, Lowered(lower, q.entities)) {
      NameHit(lower, x, q, artifacts, id);
    } else if id in Under(x.byProject, Lowered(lower, q.entities)) {
      ProjectHit(lower, x, q, artifacts, id);
    } else {
      TypeHit(lower, x, q, artifacts, id);
    }
  }

  /** What the scan selects is hit. */
  lemma ScannedIsHit(lower: string -> string, x: Indexes, q: Query, artifacts: seq<Artifact>, a: Artifact)
    requires Describes(lower, x, artifacts) && a in artifacts && Matches(lower, q, a)
    ensures a.id in Hits(lower, x, q)
  {
    ListedExactly(lower, ByType, x, artifacts, a.kind, a.id);
    if a.kind in q.types {
      var i :| 0 <= i < |q.types| && q.types[i] == a.kind;
      assert a.id in Under(x.byType, q.types);
    } else if i :| 0 <= i < |q.tags| && lower(q.tags[i]) in Lowered(lower, a.tags) {
      ListedExactly(lower, ByTag, x, artifacts, lower(q.tags[i]), a.id);
      assert a.id in Lookup(x.byTag, Lowered(lower, q.tags)[i]);
    } else if i :| 0 <= i < |q.entities| && lower(q.entities[i]) in ProjectKeys(lower, a) {
      EntityHit(lower, x, artifacts, a, lower(q.entities[i]));
      assert Lowered(lower, q.entities)[i] == lower(q.entities[i]);
    } else {
      assert a.id in Everywhere(x.byType);
    }
  }

  lemma EntityHit(lower: string -> string, x: Indexes, artifacts: seq<Artifact>, a: Artifact, k: string)
    requires Describes(lower, x, artifacts) && a in artifacts && k in ProjectKeys(lower, a)
    ensures a.id in Lookup(x.byEntity, k) || a.id in Lookup(x.byProject, k)
  {
    if k in Lowered(lower, a.entities) {
      ListedExactly(lower, ByEntity, x, artifacts, k, a.id);
    }
  }

  /**
   * Lookup equals scan after any run of updates, even where shared names made the project index
   * differ from a rebuild: the entity index still lists what the project index lost. When nothing
   * is selected the candidates are the 50 most recent.
   */
  lemma {:induction false} LookupIsScan(lower: string -> string, ops: seq<Op>, q: Query)
    requires Proper(ops)
    ensures Candidates(lower, Run(lower, ops), q) == ScanOrRecent(lower, q, Live(ops))
  {
    var (live, x) := (Live(ops), Run(lower, ops));
    RunAgreesBesidesProjects(lower, ops);
    RunKeepsProjects(lower, ops);
    forall id ensures id in Hits(lower, x, q) <==> id in Scan(lower, q, live) {
      if id in Hits(lower, x, q) {
        HitIsScanned(lower, x, q, live, id);
      }
      ScanMembers(lower, q, live, id);
      if a :| a in live && a.id == id && Matches(lower, q, a) {
        ScannedIsHit(lower, x, q, live, a);
      }
    }
    assert Hits(lower, x, q) == Scan(lower, q, live);
    BuiltIs(lower, ByType, live);
  }

  /** The same on freshly built indexes, whatever the ids. */
  lemma LookupIsScanOnBuilt(lower: string -> string, artifacts: seq<Artifact>, q: Query)
    ensures Candidates(lower, Built(lower, artifacts), q) == ScanOrRecent(lower, q, artifacts)
  {
    var x := Built(lower, artifacts);
    BuiltProjectsSound(lower, artifacts);
    forall id ensures id in Hits(lower, x, q) <==> id in Scan(lower, q, artifacts) {
      if id in Hits(lower, x, q) {
        HitIsScanned(lower, x, q, artifacts, id);
      }
      ScanMembers(lower, q, artifacts, id);
      if a :| a in artifacts && a.id == id && Matches(lower, q, a) {
        ScannedIsHit(lower, x, q, artifacts, a);
      }
    }
    assert Hits(lower, x, q) == Scan(lower, q, artifacts);
    BuiltIs(lower, ByType, artifacts);
  }

  lemma BuiltProjectsSound(lower: string -> string, artifacts: seq<Artifact>)
    ensures ProjectsSound(lower, Built(lower, artifacts).byProject, artifacts)
  {
    var x := Built(lower, artifacts);
    forall k, id | id in Lookup(x.byProject, k)
      ensures exists a :: a in artifacts && a.id == id && k in ProjectKeys(lower, a)
    {
      ListedExactly(lower, ByProject, x, artifacts, k, id);
      var a :| a in artifacts && a.id == id && k in Keys(lower, ByProject, a);
    }
    forall a | a in artifacts && a.kind == PROJECTS ensures a.id in Lookup(x.byProject, a.id) {
      ListedExactly(lower, ByProject, x, artifacts, a.id, a.id);
      assert Keys(lower, ByProject, a)[0] == a.id;
    }
  }

  // ---------------------------------------------------------------- recency ranks

  /** `_build_recency_rank`: with distinct ids, an entry's place in the list. */
  method BuildRecencyRank(byRecency: seq<Entry>) returns (rank: map<string, int>)
    ensures forall id :: id in rank <==> id != "" && exists e :: e in byRecency && e.id == id
    ensures forall id :: id in rank ==>
              && 0 <= rank[id] < |byRecency| && byRecency[rank[id]].id == id
              && forall j :: rank[id] < j < |byRecency| ==> byRecency[j].id != id
  {
    rank := map[];
    var i := 0;
    while i < |byRecency|
      invariant 0 <= i <= |byRecency|
      invariant forall id :: id in rank <==> id != "" && exists e :: e in byRecency[..i] && e.id == id
      invariant forall id :: id in rank ==>
                  && 0 <= rank[id] < i && byRecency[rank[id]].id == id
                  && forall j :: rank[id] < j < i ==> byRecency[j].id != id
    {
      assert byRecency[..i + 1] == byRecency[..i] + [byRecency[i]];
      if byRecency[i].id != "" {
        rank := rank[byRecency[i].id := i];
      }
      i := i + 1;
    }
    assert byRecency[..i] == byRecency;
  }
}
