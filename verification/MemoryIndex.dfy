/** The memory indexes and their incremental updates (src/assistant/memory/indexing/indexer.py). */
module MemoryIndex {
  const PROJECTS := "projects"

  /** `stamp` is the place of last_used_at, or else updated_at, in the order of ISO timestamps. */
  datatype Artifact = Artifact(id: string, kind: string, tags: seq<string>, entities: seq<string>, stamp: int)

  datatype Entry = Entry(id: string, stamp: int)

  /** A dict of lists. */
  type Index = map<string, seq<string>>

  datatype Indexes = Indexes(byType: Index, byTag: Index, byEntity: Index, byProject: Index, byRecency: seq<Entry>)

  const EMPTY := Indexes(map[], map[], map[], map[], [])

  function Lookup(m: Index, key: string): seq<string> {
    if key in m then m[key] else []
  }

  function Lowered(lower: string -> string, words: seq<string>): seq<string> {
    seq(|words|, i requires 0 <= i < |words| => lower(words[i]))
  }

  // ---------------------------------------------------------------- posting and dropping an id

  /** `setdefault(key, []).append(id)` */
  function Post(m: Index, key: string, id: string): Index {
    m[key := Lookup(m, key) + [id]]
  }

  function PostAll(m: Index, keys: seq<string>, id: string): Index
    decreases |keys|
  {
    if keys == [] then m else PostAll(Post(m, keys[0], id), keys[1..], id)
  }

  /** `[x for x in ids if x != id]` */
  function Without(ids: seq<string>, id: string): seq<string> {
    if ids == [] then [] else (if ids[0] != id then [ids[0]] else []) + Without(ids[1..], id)
  }

  /** Take `id` out of the list at `key`; an empty list goes with its key. */
  function Drop(m: Index, key: string, id: string): Index {
    if key !in m then m
    else if Without(m[key], id) == [] then m - {key}
    else m[key := Without(m[key], id)]
  }

  function DropAll(m: Index, keys: seq<string>, id: string): Index
    decreases |keys|
  {
    if keys == [] then m else DropAll(Drop(m, keys[0], id), keys[1..], id)
  }

  /** The keys an artifact is posted under, in the order of posting. */
  function ProjectKeys(lower: string -> string, a: Artifact): seq<string> {
    (if a.kind == PROJECTS then [a.id] else []) + Lowered(lower, a.entities)
  }

  // ---------------------------------------------------------------- recency

  /** Insert behind everything at least as recent. */
  function Insert(sorted: seq<Entry>, e: Entry): seq<Entry> {
    if sorted == [] then [e]
    else if sorted[0].stamp >= e.stamp then [sorted[0]] + Insert(sorted[1..], e)
    else [e] + sorted
  }

  /** `list.sort(key=stamp, reverse=True)`, which keeps equal stamps in their order. */
  function SortByRecency(entries: seq<Entry>): seq<Entry> {
    if entries == [] then []
    else Insert(SortByRecency(entries[..|entries| - 1]), entries[|entries| - 1])
  }

  function WithoutEntry(entries: seq<Entry>, id: string): seq<Entry> {
    if entries == [] then []
    else (if entries[0].id != id then [entries[0]] else []) + WithoutEntry(entries[1..], id)
  }

  // ---------------------------------------------------------------- the operations on values

  function Added(lower: string -> string, x: Indexes, a: Artifact): Indexes {
    Indexes(Post(x.byType, a.kind, a.id),
            PostAll(x.byTag, Lowered(lower, a.tags), a.id),
            PostAll(x.byEntity, Lowered(lower, a.entities), a.id),
            PostAll(x.byProject, ProjectKeys(lower, a), a.id),
            SortByRecency(x.byRecency + [Entry(a.id, a.stamp)]))
  }

  function Removed(lower: string -> string, x: Indexes, kind: string, id: string,
                   tags: seq<string>, entities: seq<string>): Indexes
  {
    Indexes(Drop(x.byType, kind, id),
            DropAll(x.byTag, Lowered(lower, tags), id),
            DropAll(x.byEntity, Lowered(lower, entities), id),
            DropAll(x.byProject - {id}, Lowered(lower, entities), id),
            WithoutEntry(x.byRecency, id))
  }

  /** Everything posted, recency still in scan order. */
  function Scanned(lower: string -> string, x: Indexes, artifacts: seq<Artifact>): Indexes
    decreases |artifacts|
  {
    if artifacts == [] then x
    else
      var a := artifacts[0];
      Scanned(lower,
              Indexes(Post(x.byType, a.kind, a.id),
                      PostAll(x.byTag, Lowered(lower, a.tags), a.id),
                      PostAll(x.byEntity, Lowered(lower, a.entities), a.id),
                      PostAll(x.byProject, ProjectKeys(lower, a), a.id),
                      x.byRecency + [Entry(a.id, a.stamp)]),
              artifacts[1..])
  }

  /** `_build_indexes` */
  function Built(lower: string -> string, artifacts: seq<Artifact>): Indexes {
    var x := Scanned(lower, EMPTY, artifacts);
    x.(byRecency := SortByRecency(x.byRecency))
  }

  // ---------------------------------------------------------------- loops

  method PostWords(lower: string -> string, m: Index, words: seq<string>, id: string) returns (posted: Index)
    ensures posted == PostAll(m, Lowered(lower, words), id)
  {
    posted := m;
    ghost var keys := Lowered(lower, words);
    var i := 0;
    while i < |words|
      invariant 0 <= i <= |words|
      invariant PostAll(posted, keys[i..], id) == PostAll(m, keys, id)
    {
      posted := Post(posted, lower(words[i]), id);
      i := i + 1;
    }
  }

  method DropWords(lower: string -> string, m: Index, words: seq<string>, id: string) returns (dropped: Index)
    ensures dropped == DropAll(m, Lowered(lower, words), id)
  {
    dropped := m;
    ghost var keys := Lowered(lower, words);
    var i := 0;
    while i < |words|
      invariant 0 <= i <= |words|
      invariant DropAll(dropped, keys[i..], id) == DropAll(m, keys, id)
    {
      var key := lower(words[i]);
      if key in dropped {
        var left := Without(dropped[key], id);
        dropped := if left == [] then dropped - {key} else dropped[key := left];
      }
      i := i + 1;
    }
  }

  method PostProject(lower: string -> string, m: Index, a: Artifact) returns (posted: Index)
    ensures posted == PostAll(m, ProjectKeys(lower, a), a.id)
  {
    posted := m;
    if a.kind == PROJECTS {
      posted := Post(posted, a.id, a.id);
      assert ProjectKeys(lower, a)[1..] == Lowered(lower, a.entities);
    } else {
      assert ProjectKeys(lower, a) == Lowered(lower, a.entities);
    }
    posted := PostWords(lower, posted, a.entities, a.id);
  }

  method BuildIndexes(lower: string -> string, artifacts: seq<Artifact>) returns (x: Indexes)
    ensures x == Built(lower, artifacts)
  {
    x := EMPTY;
    var i := 0;
    while i < |artifacts|
      invariant 0 <= i <= |artifacts|
      invariant Scanned(lower, x, artifacts[i..]) == Scanned(lower, EMPTY, artifacts)
    {
      var a := artifacts[i];
      assert artifacts[i..][1..] == artifacts[i + 1..];
      var byTag := PostWords(lower, x.byTag, a.tags, a.id);
      var byEntity := PostWords(lower, x.byEntity, a.entities, a.id);
      var byProject := PostProject(lower, x.byProject, a);
      x := Indexes(Post(x.byType, a.kind, a.id), byTag, byEntity, byProject, x.byRecency + [Entry(a.id, a.stamp)]);
      i := i + 1;
    }
    x := x.(byRecency := SortByRecency(x.byRecency));
  }

  /** The index files; `present` says whether they have been written. */
  class MemoryIndexer {
    const lower: string -> string
    var present: bool
    var byType: Index
    var byTag: Index
    var byEntity: Index
    var byProject: Index
    var byRecency: seq<Entry>

    /** Missing files read as empty indexes. */
    ghost predicate Valid()
      reads this
    {
      !present ==> Value() == EMPTY
    }

    function Value(): Indexes
      reads this
    {
      Indexes(byType, byTag, byEntity, byProject, byRecency)
    }

    constructor (lower: string -> string)
      ensures Valid() && this.lower == lower && !present && Value() == Built(lower, [])
    {
      this.lower := lower;
      present, byType, byTag, byEntity, byProject, byRecency := false, map[], map[], map[], map[], [];
    }

    method Write(x: Indexes)
      modifies this
      ensures Value() == x && present
    {
      present := true;
      byType, byTag, byEntity, byProject, byRecency := x.byType, x.byTag, x.byEntity, x.byProject, x.byRecency;
    }

    method Build(artifacts: seq<Artifact>)
      modifies this
      ensures Valid() && present && Value() == Built(lower, artifacts)
    {
      var x := BuildIndexes(lower, artifacts);
      Write(x);
    }

    method AddArtifact(a: Artifact)
      requires Valid()
      modifies this
      ensures Valid() && present && Value() == Added(lower, old(Value()), a)
    {
      var tags := PostWords(lower, byTag, a.tags, a.id);
      var ents := PostWords(lower, byEntity, a.entities, a.id);
      var projects := PostProject(lower, byProject, a);
      Write(Indexes(Post(byType, a.kind, a.id), tags, ents, projects,
                    SortByRecency(byRecency + [Entry(a.id, a.stamp)])));
    }

    method RemoveArtifact(kind: string, id: string, tags: seq<string>, entities: seq<string>)
      requires Valid()
      modifies this
      ensures Valid() && present == old(present)
      ensures Value() == if present then Removed(lower, old(Value()), kind, id, tags, entities) else EMPTY
    {
      if !present {
        return;
      }
      var types := byType;
      if kind in types {
        var left := Without(types[kind], id);
        types := if left == [] then types - {kind} else types[kind := left];
      }
      var tagged := DropWords(lower, byTag, tags, id);
      var named := DropWords(lower, byEntity, entities, id);
      var projects := if id in byProject then byProject - {id} else byProject;
      assert projects == byProject - {id};
      projects := DropWords(lower, projects, entities, id);
      Write(Indexes(types, tagged, named, projects, WithoutEntry(byRecency, id)));
    }
  }
}
