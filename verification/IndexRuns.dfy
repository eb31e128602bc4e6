/** Whole runs of index updates against a rebuild of the live artifacts. */
module IndexRuns {
  import opened MemoryIndex
  import opened IndexLaws
  import opened RecencyOrder
  import opened Sequences

  datatype Op = Add(artifact: Artifact) | Remove(artifact: Artifact)

  /** The artifacts alive after the operations, oldest first. */
  function Live(ops: seq<Op>): seq<Artifact> {
    if ops == [] then []
    else match ops[|ops| - 1]
         case Add(a) => Live(ops[..|ops| - 1]) + [a]
         case Remove(a) => Left(Live(ops[..|ops| - 1]), a.id)
  }

  /** The indexes after the operations. */
  function Run(lower: string -> string, ops: seq<Op>): Indexes {
    if ops == [] then EMPTY
    else match ops[|ops| - 1]
         case Add(a) => Added(lower, Run(lower, ops[..|ops| - 1]), a)
         case Remove(a) => Removed(lower, Run(lower, ops[..|ops| - 1]), a.kind, a.id, a.tags, a.entities)
  }

  /** An id is added only while it is free, and what is removed is alive. */
  ghost predicate Proper(ops: seq<Op>) {
    ops != [] ==>
    && Proper(ops[..|ops| - 1])
    && match ops[|ops| - 1]
       case Add(a) => forall b :: b in Live(ops[..|ops| - 1]) ==> b.id != a.id
       case Remove(a) => a in Live(ops[..|ops| - 1])
  }

  /** At each removal no other live artifact has an entity that lowers to the removed id. */
  ghost predicate Unshared(lower: string -> string, ops: seq<Op>) {
    ops != [] ==>
    && Unshared(lower, ops[..|ops| - 1])
    && match ops[|ops| - 1]
       case Add(_) => true
       case Remove(a) => Unnamed(lower, Live(ops[..|ops| - 1]), a.id)
  }

  lemma {:induction false} LeftDistinct(artifacts: seq<Artifact>, id: string)
    requires DistinctIds(artifacts)
    ensures DistinctIds(Left(artifacts, id))
  {
    if artifacts != [] {
      LeftDistinct(artifacts[1..], id);
      LeftMembers(artifacts[1..], id);
      FirstLeft(artifacts, id);
      var rest := Left(artifacts[1..], id);
      forall j | 0 <= j < |rest| ensures rest[j].id != artifacts[0].id {
        assert rest[j] in artifacts[1..];
      }
    }
  }

  lemma {:induction false} LiveDistinct(ops: seq<Op>)
    requires Proper(ops)
    ensures DistinctIds(Live(ops))
  {
    if ops != [] {
      LiveDistinct(ops[..|ops| - 1]);
      match ops[|ops| - 1]
      case Add(a) =>
      case Remove(a) => LeftDistinct(Live(ops[..|ops| - 1]), a.id);
    }
  }

  lemma {:induction false} EntriesLeft(artifacts: seq<Artifact>, id: string)
    ensures WithoutEntry(Entries(artifacts), id) == Entries(Left(artifacts, id))
  {
    if artifacts != [] {
      EntriesLeft(artifacts[1..], id);
      FirstLeft(artifacts, id);
      assert Entries(artifacts)[1..] == Entries(artifacts[1..]);
      if artifacts[0].id != id {
        assert Left(artifacts, id) == [artifacts[0]] + Left(artifacts[1..], id);
      }
    }
  }

  lemma AddRecency(lower: string -> string, x: Indexes, artifacts: seq<Artifact>, a: Artifact)
    requires x.byRecency == Built(lower, artifacts).byRecency
    ensures Added(lower, x, a).byRecency == Built(lower, artifacts + [a]).byRecency
  {
    BuiltIs(lower, ByType, artifacts);
    BuiltIs(lower, ByType, artifacts + [a]);
    SortIncrementally(Entries(artifacts), Entry(a.id, a.stamp));
    EntriesAppend(artifacts, a);
  }

  lemma EntriesAppend(artifacts: seq<Artifact>, a: Artifact)
    ensures Entries(artifacts + [a]) == Entries(artifacts) + [Entry(a.id, a.stamp)]
  {}

  lemma {:induction false} RemoveRecency(lower: string -> string, x: Indexes, artifacts: seq<Artifact>, a: Artifact)
    requires x.byRecency == Built(lower, artifacts).byRecency
    ensures Removed(lower, x, a.kind, a.id, a.tags, a.entities).byRecency
         == Built(lower, Left(artifacts, a.id)).byRecency
  {
    BuiltIs(lower, ByType, artifacts);
    BuiltIs(lower, ByType, Left(artifacts, a.id));
    FilterSorted(Entries(artifacts), a.id);
    EntriesLeft(artifacts, a.id);
  }

  /** All but the project index. */
  ghost predicate AgreeBesidesProjects(x: Indexes, y: Indexes) {
    x.byType == y.byType && x.byTag == y.byTag && x.byEntity == y.byEntity && x.byRecency == y.byRecency
  }

  lemma AddBesidesProjects(lower: string -> string, x: Indexes, artifacts: seq<Artifact>, a: Artifact)
    requires AgreeBesidesProjects(x, Built(lower, artifacts))
    ensures AgreeBesidesProjects(Added(lower, x, a), Built(lower, artifacts + [a]))
  {
    FieldsAgree(x, Built(lower, artifacts));
    AddingIsRebuilding(lower, ByType, x, artifacts, a);
    AddingIsRebuilding(lower, ByTag, x, artifacts, a);
    AddingIsRebuilding(lower, ByEntity, x, artifacts, a);
    AddRecency(lower, x, artifacts, a);
    AgreeByField(Added(lower, x, a), Built(lower, artifacts + [a]));
  }

  lemma FieldsAgree(x: Indexes, y: Indexes)
    requires AgreeBesidesProjects(x, y)
    ensures Get(x, ByType) == Get(y, ByType) && Get(x, ByTag) == Get(y, ByTag) && Get(x, ByEntity) == Get(y, ByEntity)
    ensures x.byRecency == y.byRecency
  {}

  lemma AgreeByField(x: Indexes, y: Indexes)
    requires Get(x, ByType) == Get(y, ByType) && Get(x, ByTag) == Get(y, ByTag) && Get(x, ByEntity) == Get(y, ByEntity)
    requires x.byRecency == y.byRecency
    ensures AgreeBesidesProjects(x, y)
  {}

  lemma OneAdd(lower: string -> string, x: Indexes, artifacts: seq<Artifact>, a: Artifact)
    requires AgreeBesidesProjects(x, Built(lower, artifacts))
    ensures AgreeBesidesProjects(Added(lower, x, a), Built(lower, artifacts + [a]))
    ensures x.byProject == Built(lower, artifacts).byProject ==>
              Added(lower, x, a).byProject == Built(lower, artifacts + [a]).byProject
  {
    AddBesidesProjects(lower, x, artifacts, a);
    if x.byProject == Built(lower, artifacts).byProject {
      AddingIsRebuilding(lower, ByProject, x, artifacts, a);
    }
  }

  lemma {:induction false} OneRemove(lower: string -> string, x: Indexes, artifacts: seq<Artifact>, a: Artifact)
    requires DistinctIds(artifacts) && a in artifacts
    requires AgreeBesidesProjects(x, Built(lower, artifacts))
    ensures AgreeBesidesProjects(Removed(lower, x, a.kind, a.id, a.tags, a.entities),
                                 Built(lower, Left(artifacts, a.id)))
  {
    RemovingIsRebuilding(lower, ByType, x, artifacts, a);
    RemovingIsRebuilding(lower, ByTag, x, artifacts, a);
    RemovingIsRebuilding(lower, ByEntity, x, artifacts, a);
    RemoveRecency(lower, x, artifacts, a);
  }

  /** One removal leaves exactly the indexes of a rebuild iff no other artifact names the removed id. */
  lemma {:induction false} RemovalIsRebuildIffUnnamed(lower: string -> string, artifacts: seq<Artifact>, a: Artifact)
    requires DistinctIds(artifacts) && a in artifacts
    ensures Removed(lower, Built(lower, artifacts), a.kind, a.id, a.tags, a.entities)
         == Built(lower, Left(artifacts, a.id))
        <==> Unnamed(lower, artifacts, a.id)
  {
    OneRemove(lower, Built(lower, artifacts), artifacts, a);
    ProjectRemoval(lower, Built(lower, artifacts), artifacts, a);
  }

  const ALPHA := Artifact("alpha", PROJECTS, [], [], 0)
  const NOTE := Artifact("note", "facts", [], ["alpha"], 1)

  /** A fact that names a project: removing the project loses the fact's project key. */
  lemma SharedNameExample(lower: string -> string)
    requires lower("alpha") == "alpha"
    ensures Removed(lower, Built(lower, [ALPHA, NOTE]), ALPHA.kind, ALPHA.id, ALPHA.tags, ALPHA.entities)
         != Built(lower, [NOTE])
  {
    var artifacts := [ALPHA, NOTE];
    assert artifacts[1].id != "alpha" && Lowered(lower, NOTE.entities)[0] == "alpha";
    assert artifacts[1] in artifacts && !Unnamed(lower, artifacts, "alpha");
    RemovalIsRebuildIffUnnamed(lower, artifacts, ALPHA);
    assert artifacts[1..] == [NOTE] && Left([NOTE], "alpha") == [NOTE] + Left([], "alpha");
    FirstLeft(artifacts, "alpha");
  }

  /** On every run, four of the five indexes are those of a rebuild, lists and order included. */
  lemma {:induction false} RunAgreesBesidesProjects(lower: string -> string, ops: seq<Op>)
    requires Proper(ops)
    ensures AgreeBesidesProjects(Run(lower, ops), Built(lower, Live(ops)))
  {
    if ops != [] {
      var before := ops[..|ops| - 1];
      RunAgreesBesidesProjects(lower, before);
      LiveDistinct(before);
      match ops[|ops| - 1]
      case Add(a) => OneAdd(lower, Run(lower, before), Live(before), a);
      case Remove(a) => OneRemove(lower, Run(lower, before), Live(before), a);
    }
  }

  /** On every run without shared names, the indexes are those of a rebuild. */
  lemma {:induction false} RunIsRebuild(lower: string -> string, ops: seq<Op>)
    requires Proper(ops) && Unshared(lower, ops)
    ensures Run(lower, ops) == Built(lower, Live(ops))
  {
    if ops != [] {
      var before := ops[..|ops| - 1];
      RunIsRebuild(lower, before);
      LiveDistinct(before);
      match ops[|ops| - 1]
      case Add(a) => OneAdd(lower, Run(lower, before), Live(before), a);
      case Remove(a) => RemovalIsRebuildIffUnnamed(lower, Live(before), a);
    }
  }

  // ---------------------------------------------------------------- the project index in general

  /**
   * What is left of the project index when names are shared: it lists nothing wrong, and every
   * project under its own id.
   */
  ghost predicate ProjectsSound(lower: string -> string, m: Index, artifacts: seq<Artifact>) {
    && (forall k, id :: id in Lookup(m, k) ==>
          exists a :: a in artifacts && a.id == id && k in ProjectKeys(lower, a))
    && (forall a :: a in artifacts && a.kind == PROJECTS ==> a.id in Lookup(m, a.id))
  }

  lemma {:induction false} CopiesAre(id: string, n: nat)
    ensures forall x :: x in Copies(id, n) <==> x == id && n > 0
  {
    if n > 0 {
      CopiesAre(id, n - 1);
    }
  }

  lemma {:induction false} AddKeepsProjects(lower: string -> string, m: Index, artifacts: seq<Artifact>, a: Artifact)
    requires ProjectsSound(lower, m, artifacts)
    ensures ProjectsSound(lower, PostAll(m, ProjectKeys(lower, a), a.id), artifacts + [a])
  {
    var keys := ProjectKeys(lower, a);
    var n := PostAll(m, keys, a.id);
    forall k, id | id in Lookup(n, k)
      ensures exists b :: b in artifacts + [a] && b.id == id && k in ProjectKeys(lower, b)
    {
      LookupPostAll(m, keys, a.id, k);
      CopiesAre(a.id, Count(keys, k));
      CountPresent(keys, k);
      if id in Lookup(m, k) {
        var b :| b in artifacts && b.id == id && k in ProjectKeys(lower, b);
        assert b in artifacts + [a];
      } else {
        assert a in artifacts + [a];
      }
    }
    forall b | b in artifacts + [a] && b.kind == PROJECTS ensures b.id in Lookup(n, b.id) {
      LookupPostAll(m, keys, a.id, b.id);
      CopiesAre(a.id, Count(keys, b.id));
      CountPresent(keys, b.id);
      if b !in artifacts {
        assert keys[0] == a.id;
      }
    }
  }

  lemma {:induction false} RemoveKeepsProjects(lower: string -> string, m: Index, artifacts: seq<Artifact>, a: Artifact)
    requires ProjectsSound(lower, m, artifacts) && DistinctIds(artifacts) && a in artifacts
    ensures ProjectsSound(lower, DropAll(m - {a.id}, Lowered(lower, a.entities), a.id), Left(artifacts, a.id))
  {
    var n := DropAll(m - {a.id}, Lowered(lower, a.entities), a.id);
    LeftMembers(artifacts, a.id);
    forall k, id | id in Lookup(n, k)
      ensures exists b :: b in Left(artifacts, a.id) && b.id == id && k in ProjectKeys(lower, b)
    {
      LookupRemovedProject(lower, m, a, k);
      WithoutTwice(Lookup(m, k), a.id);
      assert id in Lookup(m, k);
      var b :| b in artifacts && b.id == id && k in ProjectKeys(lower, b);
    }
    forall b | b in Left(artifacts, a.id) && b.kind == PROJECTS ensures b.id in Lookup(n, b.id) {
      LookupRemovedProject(lower, m, a, b.id);
      WithoutTwice(Lookup(m, b.id), a.id);
    }
  }

  lemma {:induction false} RunKeepsProjects(lower: string -> string, ops: seq<Op>)
    requires Proper(ops)
    ensures ProjectsSound(lower, Run(lower, ops).byProject, Live(ops))
  {
    if ops != [] {
      var before := ops[..|ops| - 1];
      RunKeepsProjects(lower, before);
      LiveDistinct(before);
      match ops[|ops| - 1]
      case Add(a) => AddKeepsProjects(lower, Run(lower, before).byProject, Live(before), a);
      case Remove(a) => RemoveKeepsProjects(lower, Run(lower, before).byProject, Live(before), a);
    }
  }
}
