/**
 * Incremental index updates against a full rebuild: equal, lists and order included, except where a
 * removed id is also the entity key of another artifact.
 */
module IndexLaws {
  import opened MemoryIndex
  import opened Sequences

  datatype Field = ByType | ByTag | ByEntity | ByProject

  function Keys(lower: string -> string, f: Field, a: Artifact): seq<string> {
    match f
    case ByType => [a.kind]
    case ByTag => Lowered(lower, a.tags)
    case ByEntity => Lowered(lower, a.entities)
    case ByProject => ProjectKeys(lower, a)
  }

  function Get(x: Indexes, f: Field): Index {
    match f
    case ByType => x.byType
    case ByTag => x.byTag
    case ByEntity => x.byEntity
    case ByProject => x.byProject
  }

  // ---------------------------------------------------------------- an index is its lookups

  ghost predicate NoEmptyList(m: Index) {
    forall k :: k in m ==> m[k] != []
  }

  lemma SameIndex(m: Index, n: Index)
    requires NoEmptyList(m) && NoEmptyList(n)
    requires forall k :: Lookup(m, k) == Lookup(n, k)
    ensures m == n
  {
    forall k ensures (k in m <==> k in n) && (k in m ==> m[k] == n[k]) {
      assert Lookup(m, k) == Lookup(n, k);
    }
  }

  function Copies(id: string, n: nat): seq<string> {
    if n == 0 then [] else [id] + Copies(id, n - 1)
  }

  lemma {:induction false} LookupPostAll(m: Index, keys: seq<string>, id: string, k: string)
    ensures Lookup(PostAll(m, keys, id), k) == Lookup(m, k) + Copies(id, Count(keys, k))
    decreases |keys|
  {
    if keys != [] {
      var next := Post(m, keys[0], id);
      LookupPostAll(next, keys[1..], id, k);
      Assoc(Lookup(m, k), [id], Copies(id, Count(keys[1..], k)));
    }
  }

  lemma {:induction false} PostAllNoEmpty(m: Index, keys: seq<string>, id: string)
    requires NoEmptyList(m)
    ensures NoEmptyList(PostAll(m, keys, id))
    decreases |keys|
  {
    if keys != [] {
      PostAllNoEmpty(Post(m, keys[0], id), keys[1..], id);
    }
  }

  lemma {:induction false} WithoutTwice(ids: seq<string>, id: string)
    ensures Without(Without(ids, id), id) == Without(ids, id)
    ensures forall x :: x in Without(ids, id) <==> x in ids && x != id
  {
    if ids != [] {
      var rest := Without(ids[1..], id);
      WithoutTwice(ids[1..], id);
      if ids[0] == id {
        assert Without(ids, id) == rest;
      } else {
        assert Without(ids, id)[1..] == rest;
      }
    }
  }

  lemma {:induction false} LookupDropAll(m: Index, keys: seq<string>, id: string, k: string)
    ensures Lookup(DropAll(m, keys, id), k) == if k in keys then Without(Lookup(m, k), id) else Lookup(m, k)
    decreases |keys|
  {
    if keys != [] {
      LookupDropAll(Drop(m, keys[0], id), keys[1..], id, k);
      WithoutTwice(Lookup(m, k), id);
      assert k in keys <==> k == keys[0] || k in keys[1..];
    }
  }

  lemma {:induction false} DropAllNoEmpty(m: Index, keys: seq<string>, id: string)
    requires NoEmptyList(m)
    ensures NoEmptyList(DropAll(m, keys, id))
    decreases |keys|
  {
    if keys != [] {
      DropAllNoEmpty(Drop(m, keys[0], id), keys[1..], id);
    }
  }

  // ---------------------------------------------------------------- what a rebuild contains

  /** The list a rebuild puts at key `k`: ids in scan order. */
  function Postings(lower: string -> string, f: Field, artifacts: seq<Artifact>, k: string): seq<string> {
    if artifacts == [] then []
    else Copies(artifacts[0].id, Count(Keys(lower, f, artifacts[0]), k)) + Postings(lower, f, artifacts[1..], k)
  }

  function Entries(artifacts: seq<Artifact>): seq<Entry> {
    seq(|artifacts|, i requires 0 <= i < |artifacts| => Entry(artifacts[i].id, artifacts[i].stamp))
  }

  lemma {:induction false} ScannedLookup(
    lower: string -> string, f: Field, x: Indexes, artifacts: seq<Artifact>, k: string)
    ensures Lookup(Get(Scanned(lower, x, artifacts), f), k)
         == Lookup(Get(x, f), k) + Postings(lower, f, artifacts, k)
    decreases |artifacts|
  {
    if artifacts != [] {
      var a := artifacts[0];
      var next := ScannedOne(lower, f, x, a);
      ScannedLookup(lower, f, next, artifacts[1..], k);
      LookupPostAll(Get(x, f), Keys(lower, f, a), a.id, k);
      Assoc(Lookup(Get(x, f), k), Copies(a.id, Count(Keys(lower, f, a), k)),
            Postings(lower, f, artifacts[1..], k));
    }
  }

  lemma ScannedOne(lower: string -> string, f: Field, x: Indexes, a: Artifact) returns (next: Indexes)
    ensures next == Indexes(Post(x.byType, a.kind, a.id),
                            PostAll(x.byTag, Lowered(lower, a.tags), a.id),
                            PostAll(x.byEntity, Lowered(lower, a.entities), a.id),
                            PostAll(x.byProject, ProjectKeys(lower, a), a.id),
                            x.byRecency + [Entry(a.id, a.stamp)])
    ensures Get(next, f) == PostAll(Get(x, f), Keys(lower, f, a), a.id)
  {
    next := Indexes(Post(x.byType, a.kind, a.id),
                    PostAll(x.byTag, Lowered(lower, a.tags), a.id),
                    PostAll(x.byEntity, Lowered(lower, a.entities), a.id),
                    PostAll(x.byProject, ProjectKeys(lower, a), a.id),
                    x.byRecency + [Entry(a.id, a.stamp)]);
    if f == ByType {
      assert PostAll(x.byType, [a.kind], a.id) == PostAll(Post(x.byType, a.kind, a.id), [], a.id);
    }
  }

  lemma {:induction false} ScannedNoEmpty(lower: string -> string, f: Field, x: Indexes, artifacts: seq<Artifact>)
    requires NoEmptyList(Get(x, f))
    ensures NoEmptyList(Get(Scanned(lower, x, artifacts), f))
    decreases |artifacts|
  {
    if artifacts != [] {
      var next := ScannedOne(lower, f, x, artifacts[0]);
      PostAllNoEmpty(Get(x, f), Keys(lower, f, artifacts[0]), artifacts[0].id);
      ScannedNoEmpty(lower, f, next, artifacts[1..]);
    }
  }

  lemma {:induction false} ScannedRecency(lower: string -> string, x: Indexes, artifacts: seq<Artifact>)
    ensures Scanned(lower, x, artifacts).byRecency == x.byRecency + Entries(artifacts)
    decreases |artifacts|
  {
    if artifacts != [] {
      var next := ScannedOne(lower, ByType, x, artifacts[0]);
      ScannedRecency(lower, next, artifacts[1..]);
      var first := [Entry(artifacts[0].id, artifacts[0].stamp)];
      EntriesFirst(artifacts);
      ScannedFirst(lower, x, artifacts, next);
      Assoc(x.byRecency, first, Entries(artifacts[1..]));
    }
  }

  lemma EntriesFirst(artifacts: seq<Artifact>)
    requires artifacts != []
    ensures Entries(artifacts) == [Entry(artifacts[0].id, artifacts[0].stamp)] + Entries(artifacts[1..])
  {}

  lemma {:induction false} ScannedFirst(lower: string -> string, x: Indexes, artifacts: seq<Artifact>, next: Indexes)
    requires artifacts != []
    requires next == Indexes(Post(x.byType, artifacts[0].kind, artifacts[0].id),
                             PostAll(x.byTag, Lowered(lower, artifacts[0].tags), artifacts[0].id),
                             PostAll(x.byEntity, Lowered(lower, artifacts[0].entities), artifacts[0].id),
                             PostAll(x.byProject, ProjectKeys(lower, artifacts[0]), artifacts[0].id),
                             x.byRecency + [Entry(artifacts[0].id, artifacts[0].stamp)])
    ensures Scanned(lower, x, artifacts) == Scanned(lower, next, artifacts[1..])
  {
  }

  /** A rebuild: at every key the ids in scan order, no empty list, entries sorted by recency. */
  lemma {:induction false} BuiltIs(lower: string -> string, f: Field, artifacts: seq<Artifact>)
    ensures forall k :: Lookup(Get(Built(lower, artifacts), f), k) == Postings(lower, f, artifacts, k)
    ensures NoEmptyList(Get(Built(lower, artifacts), f))
    ensures Built(lower, artifacts).byRecency == SortByRecency(Entries(artifacts))
  {
    forall k ensures Lookup(Get(Built(lower, artifacts), f), k) == Postings(lower, f, artifacts, k) {
      ScannedLookup(lower, f, EMPTY, artifacts, k);
      assert [] + Postings(lower, f, artifacts, k) == Postings(lower, f, artifacts, k);
    }
    ScannedNoEmpty(lower, f, EMPTY, artifacts);
    ScannedRecency(lower, EMPTY, artifacts);
    assert [] + Entries(artifacts) == Entries(artifacts);
  }

  // ---------------------------------------------------------------- adding

  lemma {:induction false} PostingsAppend(
    lower: string -> string, f: Field, artifacts: seq<Artifact>, a: Artifact, k: string)
    ensures Postings(lower, f, artifacts + [a], k)
         == Postings(lower, f, artifacts, k) + Copies(a.id, Count(Keys(lower, f, a), k))
  {
    var copies := Copies(a.id, Count(Keys(lower, f, a), k));
    if artifacts == [] {
      PostingsFirst(lower, f, a, [], k);
      assert artifacts + [a] == [a] + [] && copies + [] == [] + copies;
    } else {
      var (first, rest) := (artifacts[0], artifacts[1..]);
      PostingsAppend(lower, f, rest, a, k);
      assert artifacts == [first] + rest && artifacts + [a] == [first] + (rest + [a]);
      PostingsFirst(lower, f, first, rest, k);
      PostingsFirst(lower, f, first, rest + [a], k);
      Assoc(Copies(first.id, Count(Keys(lower, f, first), k)), Postings(lower, f, rest, k), copies);
    }
  }

  lemma {:induction false} PostingsFirst(lower: string -> string, f: Field, a: Artifact, rest: seq<Artifact>, k: string)
    ensures Postings(lower, f, [a] + rest, k) == Copies(a.id, Count(Keys(lower, f, a), k)) + Postings(lower, f, rest, k)
  {
    assert ([a] + rest)[1..] == rest;
  }

  /** Adding to an index that agrees with a rebuild gives the rebuild with the artifact at the end. */
  lemma AddingIsRebuilding(lower: string -> string, f: Field, x: Indexes, artifacts: seq<Artifact>, a: Artifact)
    requires Get(x, f) == Get(Built(lower, artifacts), f)
    ensures Get(Added(lower, x, a), f) == Get(Built(lower, artifacts + [a]), f)
  {
    var next := ScannedOne(lower, f, x, a);
    var m := Get(Added(lower, x, a), f);
    assert m == PostAll(Get(x, f), Keys(lower, f, a), a.id);
    BuiltIs(lower, f, artifacts);
    BuiltIs(lower, f, artifacts + [a]);
    PostAllNoEmpty(Get(x, f), Keys(lower, f, a), a.id);
    forall k ensures Lookup(m, k) == Lookup(Get(Built(lower, artifacts + [a]), f), k) {
      LookupPostAll(Get(x, f), Keys(lower, f, a), a.id, k);
      PostingsAppend(lower, f, artifacts, a, k);
    }
    SameIndex(m, Get(Built(lower, artifacts + [a]), f));
  }

  // ---------------------------------------------------------------- removing

  ghost predicate DistinctIds(artifacts: seq<Artifact>) {
    forall i, j :: 0 <= i < j < |artifacts| ==> artifacts[i].id != artifacts[j].id
  }

  /** The artifacts left when the one with this id is gone. */
  function Left(artifacts: seq<Artifact>, id: string): seq<Artifact> {
    if artifacts == [] then []
    else (if artifacts[0].id != id then [artifacts[0]] else []) + Left(artifacts[1..], id)
  }

  lemma {:induction false} WithoutSplit(a: seq<string>, b: seq<string>, id: string)
    ensures Without(a + b, id) == Without(a, id) + Without(b, id)
  {
    if a == [] {
      assert a + b == b;
    } else {
      assert (a + b)[1..] == a[1..] + b;
      WithoutSplit(a[1..], b, id);
    }
  }

  lemma {:induction false} WithoutCopies(x: string, n: nat, id: string)
    ensures Without(Copies(x, n), id) == if x == id then [] else Copies(x, n)
  {
    if n > 0 {
      WithoutCopies(x, n - 1, id);
    }
  }

  lemma {:induction false} FirstLeft(artifacts: seq<Artifact>, id: string)
    requires artifacts != []
    ensures artifacts[0].id == id ==> Left(artifacts, id) == Left(artifacts[1..], id)
    ensures artifacts[0].id != id ==>
              Left(artifacts, id) != [] && Left(artifacts, id)[0] == artifacts[0]
              && Left(artifacts, id)[1..] == Left(artifacts[1..], id)
  {}

  lemma {:induction false} PostingsLeft(
    lower: string -> string, f: Field, artifacts: seq<Artifact>, id: string, k: string)
    ensures Without(Postings(lower, f, artifacts, k), id) == Postings(lower, f, Left(artifacts, id), k)
  {
    if artifacts != [] {
      var a := artifacts[0];
      var n := Count(Keys(lower, f, a), k);
      WithoutSplit(Copies(a.id, n), Postings(lower, f, artifacts[1..], k), id);
      WithoutCopies(a.id, n, id);
      PostingsLeft(lower, f, artifacts[1..], id, k);
      FirstLeft(artifacts, id);
      assert [] + Postings(lower, f, Left(artifacts[1..], id), k) == Postings(lower, f, Left(artifacts[1..], id), k);
    }
  }

  lemma {:induction false} NothingToDrop(
    lower: string -> string, f: Field, artifacts: seq<Artifact>, id: string, k: string)
    requires forall a :: a in artifacts && a.id == id ==> k !in Keys(lower, f, a)
    ensures Postings(lower, f, Left(artifacts, id), k) == Postings(lower, f, artifacts, k)
  {
    if artifacts != [] {
      var a := artifacts[0];
      assert a in artifacts;
      NothingToDrop(lower, f, artifacts[1..], id, k);
      FirstLeft(artifacts, id);
      if a.id == id {
        CountPresent(Keys(lower, f, a), k);
        assert Postings(lower, f, artifacts, k) == [] + Postings(lower, f, artifacts[1..], k);
      } else {
        assert Left(artifacts, id) == [a] + Left(artifacts[1..], id);
      }
    }
  }

  /** At every key, what a rebuild without `a` lists. */
  lemma {:induction false} PostingsAfter(lower: string -> string, f: Field, artifacts: seq<Artifact>, a: Artifact, k: string)
    requires DistinctIds(artifacts) && a in artifacts
    ensures Postings(lower, f, Left(artifacts, a.id), k)
         == if k in Keys(lower, f, a) then Without(Postings(lower, f, artifacts, k), a.id)
            else Postings(lower, f, artifacts, k)
  {
    PostingsLeft(lower, f, artifacts, a.id, k);
    if k !in Keys(lower, f, a) {
      NothingToDrop(lower, f, artifacts, a.id, k);
    }
  }

  lemma {:induction false} RemovingIsRebuilding(lower: string -> string, f: Field, x: Indexes, artifacts: seq<Artifact>, a: Artifact)
    requires DistinctIds(artifacts) && a in artifacts && f != ByProject
    requires Get(x, f) == Get(Built(lower, artifacts), f)
    ensures Get(Removed(lower, x, a.kind, a.id, a.tags, a.entities), f)
         == Get(Built(lower, Left(artifacts, a.id)), f)
  {
    var keys := Keys(lower, f, a);
    var m := Get(Removed(lower, x, a.kind, a.id, a.tags, a.entities), f);
    if f == ByType {
      assert DropAll(x.byType, [a.kind], a.id) == DropAll(Drop(x.byType, a.kind, a.id), [], a.id);
    }
    assert m == DropAll(Get(x, f), keys, a.id);
    BuiltIs(lower, f, artifacts);
    BuiltIs(lower, f, Left(artifacts, a.id));
    DropAllNoEmpty(Get(x, f), keys, a.id);
    forall k ensures Lookup(m, k) == Lookup(Get(Built(lower, Left(artifacts, a.id)), f), k) {
      LookupDropAll(Get(x, f), keys, a.id, k);
      PostingsAfter(lower, f, artifacts, a, k);
    }
    SameIndex(m, Get(Built(lower, Left(artifacts, a.id)), f));
  }

  /** No other artifact has an entity that lowers to `id`. */
  ghost predicate Unnamed(lower: string -> string, artifacts: seq<Artifact>, id: string) {
    forall b :: b in artifacts && b.id != id ==> id !in Lowered(lower, b.entities)
  }

  lemma LookupRemovedProject(lower: string -> string, m: Index, a: Artifact, k: string)
    ensures Lookup(DropAll(m - {a.id}, Lowered(lower, a.entities), a.id), k)
         == if k == a.id then []
            else if k in ProjectKeys(lower, a) then Without(Lookup(m, k), a.id) else Lookup(m, k)
  {
    LookupDropAll(m - {a.id}, Lowered(lower, a.entities), a.id, k);
    assert Without([], a.id) == [];
    assert k != a.id ==> (k in ProjectKeys(lower, a) <==> k in Lowered(lower, a.entities));
  }

  lemma {:induction false} PostingsEmpty(lower: string -> string, f: Field, artifacts: seq<Artifact>, k: string)
    ensures Postings(lower, f, artifacts, k) == [] <==> forall b :: b in artifacts ==> k !in Keys(lower, f, b)
  {
    if artifacts != [] {
      PostingsEmpty(lower, f, artifacts[1..], k);
      CountPresent(Keys(lower, f, artifacts[0]), k);
      assert forall b :: b in artifacts <==> b == artifacts[0] || b in artifacts[1..];
    }
  }

  lemma {:induction false} LeftMembers(artifacts: seq<Artifact>, id: string)
    ensures forall b :: b in Left(artifacts, id) <==> b in artifacts && b.id != id
  {
    if artifacts != [] {
      LeftMembers(artifacts[1..], id);
      assert forall b :: b in artifacts <==> b == artifacts[0] || b in artifacts[1..];
    }
  }

  /** The project index survives a removal exactly when no other artifact names the removed id. */
  lemma {:induction false} ProjectRemoval(lower: string -> string, x: Indexes, artifacts: seq<Artifact>, a: Artifact)
    requires DistinctIds(artifacts) && a in artifacts
    requires x.byProject == Built(lower, artifacts).byProject
    ensures Removed(lower, x, a.kind, a.id, a.tags, a.entities).byProject
         == Built(lower, Left(artifacts, a.id)).byProject
        <==> Unnamed(lower, artifacts, a.id)
  {
    var m := DropAll(x.byProject - {a.id}, Lowered(lower, a.entities), a.id);
    var left := Left(artifacts, a.id);
    BuiltIs(lower, ByProject, artifacts);
    BuiltIs(lower, ByProject, left);
    assert NoEmptyList(Get(x, ByProject) - {a.id});
    DropAllNoEmpty(x.byProject - {a.id}, Lowered(lower, a.entities), a.id);
    NamedIffListed(lower, artifacts, a.id);
    LookupRemovedProject(lower, x.byProject, a, a.id);
    if Unnamed(lower, artifacts, a.id) {
      forall k ensures Lookup(m, k) == Lookup(Built(lower, left).byProject, k) {
        assert Lookup(Get(Built(lower, left), ByProject), k) == Postings(lower, ByProject, left, k);
        assert Lookup(Get(Built(lower, artifacts), ByProject), k) == Postings(lower, ByProject, artifacts, k);
        LookupRemovedProject(lower, x.byProject, a, k);
        PostingsAfter(lower, ByProject, artifacts, a, k);
      }
      SameIndex(m, Built(lower, left).byProject);
    } else {
      assert Lookup(Get(Built(lower, left), ByProject), a.id) != [];
    }
  }

  lemma {:induction false} NamedIffListed(lower: string -> string, artifacts: seq<Artifact>, id: string)
    ensures Postings(lower, ByProject, Left(artifacts, id), id) == [] <==> Unnamed(lower, artifacts, id)
  {
    PostingsEmpty(lower, ByProject, Left(artifacts, id), id);
    LeftMembers(artifacts, id);
    forall b | b in artifacts && b.id != id
      ensures id in Keys(lower, ByProject, b) <==> id in Lowered(lower, b.entities)
    {}
  }
}
