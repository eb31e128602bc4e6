/** The idempotency ledger (src/assistant/store/filesystem/idempotency.py): one file per hashed key. */
module Ledger {
  import opened Options

  const MICROSECONDS := 1000000

  /** Times are in microseconds, the time to live in seconds. */
  datatype Entry = Entry(key: string, source: string, createdAt: int, ttlSeconds: int)

  datatype File = Corrupt | Stored(entry: Entry)

  type Files = map<string, File>

  predicate IsExpired(e: Entry, now: int) {
    now >= e.createdAt + e.ttlSeconds * MICROSECONDS
  }

  /** `check` on the file of a key: missing, corrupt and expired files are all nothing. */
  function Check(files: Files, path: string, now: int): Option<Entry> {
    if path in files && files[path].Stored? && !IsExpired(files[path].entry, now) then Some(files[path].entry) else None
  }

  /** The files after `check_and_register`; the answer is that of `Check`. */
  function Registered(files: Files, path: string, e: Entry): Files {
    if Check(files, path, e.createdAt).Some? then files else files[path := Stored(e)]
  }

  predicate Survives(f: File, now: int) {
    f.Stored? && !IsExpired(f.entry, now)
  }

  function Cleaned(files: Files, now: int): Files {
    map p | p in files && Survives(files[p], now) :: files[p]
  }

  datatype Registration = New | KeyExistsError

  class FilesystemIdempotencyLedger {
    const hash: string -> string
    const defaultTtl: int
    var files: Files

    constructor (hash: string -> string, defaultTtl: int, files: Files)
      ensures this.hash == hash && this.defaultTtl == defaultTtl && this.files == files
    {
      this.hash, this.defaultTtl, this.files := hash, defaultTtl, files;
    }

    function Ttl(ttlSeconds: Option<int>): int {
      match ttlSeconds case Some(t) => t case None => defaultTtl
    }

    method CheckAndRegister(key: string, source: string, ttlSeconds: Option<int>, now: int)
      returns (duplicate: bool, existing: Option<Entry>)
      modifies this
      ensures existing == Check(old(files), hash(key), now) && duplicate == existing.Some?
      ensures duplicate <==>
                (hash(key) in old(files) && old(files)[hash(key)].Stored?
                 && now < old(files)[hash(key)].entry.createdAt + old(files)[hash(key)].entry.ttlSeconds * 1000000)
      ensures duplicate ==> existing == Some(old(files)[hash(key)].entry) && files == old(files)
      ensures !duplicate ==> existing == None
      ensures !duplicate ==> files == old(files)[hash(key) := Stored(Entry(key, source, now, Ttl(ttlSeconds)))]
      ensures files == Registered(old(files), hash(key), Entry(key, source, now, Ttl(ttlSeconds)))
    {
      existing := Check(files, hash(key), now);
      if existing.Some? {
        return true, existing;
      }
      files := files[hash(key) := Stored(Entry(key, source, now, Ttl(ttlSeconds)))];
      return false, None;
    }

    /** Registering an existing key raises instead of answering. */
    method Register(key: string, source: string, ttlSeconds: Option<int>, now: int) returns (answer: Registration)
      modifies this
      ensures answer == if Check(old(files), hash(key), now).Some? then KeyExistsError else New
      ensures files == Registered(old(files), hash(key), Entry(key, source, now, Ttl(ttlSeconds)))
    {
      var duplicate, _ := CheckAndRegister(key, source, ttlSeconds, now);
      answer := if duplicate then KeyExistsError else New;
    }

    /** All files in any order; corrupt ones go with the expired ones. */
    method CleanupExpired(now: int) returns (removed: nat)
      modifies this
      ensures files == Cleaned(old(files), now)
      ensures forall p :: p in files <==>
                (p in old(files) && old(files)[p].Stored?
                 && now < old(files)[p].entry.createdAt + old(files)[p].entry.ttlSeconds * 1000000)
      ensures forall p :: p in files ==> files[p] == old(files)[p]
      ensures removed == |old(files)| - |files|
    {
      removed := 0;
      var todo := files.Keys;
      ghost var before := files;
      while todo != {}
        invariant todo <= files.Keys <= before.Keys
        invariant forall p :: p in files ==> files[p] == before[p]
        invariant forall p :: p in files && p !in todo ==> Survives(files[p], now)
        invariant forall p :: p in before && Survives(before[p], now) ==> p in files
        invariant removed == |before| - |files|
        decreases |todo|
      {
        var path :| path in todo;
        todo := todo - {path};
        if !Survives(files[path], now) {
          RemoveOne(files, path);
          files := files - {path};
          removed := removed + 1;
        }
      }
      assert files == Cleaned(before, now);
    }
  }

  lemma RemoveOne(files: Files, path: string)
    requires path in files
    ensures |files - {path}| == |files| - 1
  {
    assert (files - {path}).Keys == files.Keys - {path};
    assert |files.Keys| == |files| && |(files - {path}).Keys| == |files - {path}|;
  }

  // ---------------------------------------------------------------- the simple ledger

  /** Key to its last accepted entry. */
  type Accepts = map<string, Entry>

  function Known(m: Accepts, key: string, now: int): Option<Entry> {
    if key in m && !IsExpired(m[key], now) then Some(m[key]) else None
  }

  datatype Event = Ask(entry: Entry) | Cleanup(now: int)

  function When(e: Event): int {
    match e case Ask(entry) => entry.createdAt case Cleanup(now) => now
  }

  /** The clock does not run backwards. */
  predicate Monotone(events: seq<Event>, clock: int) {
    events == [] || (When(events[0]) >= clock && Monotone(events[1..], When(events[0])))
  }

  /** The answers to the events, one for each request. */
  function LedgerAnswers(hash: string -> string, files: Files, events: seq<Event>): seq<Option<Entry>>
    decreases |events|
  {
    if events == [] then []
    else match events[0]
         case Ask(e) =>
           [Check(files, hash(e.key), e.createdAt)]
           + LedgerAnswers(hash, Registered(files, hash(e.key), e), events[1..])
         case Cleanup(now) => LedgerAnswers(hash, Cleaned(files, now), events[1..])
  }

  function SimpleAnswers(m: Accepts, events: seq<Event>): seq<Option<Entry>>
    decreases |events|
  {
    if events == [] then []
    else match events[0]
         case Ask(e) =>
           [Known(m, e.key, e.createdAt)]
           + SimpleAnswers(if Known(m, e.key, e.createdAt).Some? then m else m[e.key := e], events[1..])
         case Cleanup(_) => SimpleAnswers(m, events[1..])
  }

  // ---------------------------------------------------------------- refinement

  ghost predicate Injective(hash: string -> string) {
    forall k1, k2 :: hash(k1) == hash(k2) ==> k1 == k2
  }

  /** At this time both ledgers know the same about every key. */
  ghost predicate Agree(hash: string -> string, files: Files, m: Accepts, now: int) {
    forall key :: Check(files, hash(key), now) == Known(m, key, now)
  }

  lemma LaterAgree(hash: string -> string, files: Files, m: Accepts, now: int, later: int)
    requires Agree(hash, files, m, now) && now <= later
    ensures Agree(hash, files, m, later)
  {
    forall key ensures Check(files, hash(key), later) == Known(m, key, later) {
      assert Check(files, hash(key), now) == Known(m, key, now);
    }
  }

  lemma RegisterAgrees(hash: string -> string, files: Files, m: Accepts, e: Entry)
    requires Injective(hash) && Agree(hash, files, m, e.createdAt)
    ensures var known := Known(m, e.key, e.createdAt).Some?;
            Agree(hash, Registered(files, hash(e.key), e), if known then m else m[e.key := e], e.createdAt)
  {
    assert Check(files, hash(e.key), e.createdAt) == Known(m, e.key, e.createdAt);
    if Known(m, e.key, e.createdAt).None? {
      var (files', m') := (files[hash(e.key) := Stored(e)], m[e.key := e]);
      forall key ensures Check(files', hash(key), e.createdAt) == Known(m', key, e.createdAt) {
        assert Check(files, hash(key), e.createdAt) == Known(m, key, e.createdAt);
      }
    }
  }

  lemma CleanupAgrees(hash: string -> string, files: Files, m: Accepts, now: int)
    requires Agree(hash, files, m, now)
    ensures Agree(hash, Cleaned(files, now), m, now)
  {
    forall key ensures Check(Cleaned(files, now), hash(key), now) == Known(m, key, now) {
      assert Check(files, hash(key), now) == Known(m, key, now);
    }
  }

  /** Whatever the interleaving, the ledger answers like the simple map. */
  lemma {:induction false} LedgerIsSimple(
    hash: string -> string, files: Files, m: Accepts, events: seq<Event>, clock: int)
    requires Injective(hash) && Agree(hash, files, m, clock) && Monotone(events, clock)
    ensures LedgerAnswers(hash, files, events) == SimpleAnswers(m, events)
    decreases |events|
  {
    if events != [] {
      LaterAgree(hash, files, m, clock, When(events[0]));
      match events[0]
      case Ask(e) =>
        assert Check(files, hash(e.key), e.createdAt) == Known(m, e.key, e.createdAt);
        RegisterAgrees(hash, files, m, e);
        var m' := if Known(m, e.key, e.createdAt).Some? then m else m[e.key := e];
        LedgerIsSimple(hash, Registered(files, hash(e.key), e), m', events[1..], e.createdAt);
      case Cleanup(now) =>
        CleanupAgrees(hash, files, m, now);
        LedgerIsSimple(hash, Cleaned(files, now), m, events[1..], now);
    }
  }

  /** A new ledger, or one with nothing but corrupt files in it, answers like the empty map. */
  lemma {:induction false} FreshLedgerIsSimple(hash: string -> string, files: Files, events: seq<Event>, clock: int)
    requires Injective(hash) && Monotone(events, clock)
    requires forall p :: p in files ==> files[p].Corrupt?
    ensures LedgerAnswers(hash, files, events) == SimpleAnswers(map[], events)
  {
    LedgerIsSimple(hash, files, map[], events, clock);
  }

  function Asks(events: seq<Event>): seq<Event> {
    if events == [] then [] else (if events[0].Ask? then [events[0]] else []) + Asks(events[1..])
  }

  lemma {:induction false} SimpleIgnoresCleanup(m: Accepts, events: seq<Event>)
    ensures SimpleAnswers(m, Asks(events)) == SimpleAnswers(m, events)
    decreases |events|
  {
    if events != [] {
      match events[0]
      case Ask(e) =>
        assert Asks(events)[0] == events[0] && Asks(events)[1..] == Asks(events[1..]);
        SimpleIgnoresCleanup(if Known(m, e.key, e.createdAt).Some? then m else m[e.key := e], events[1..]);
      case Cleanup(_) =>
        assert Asks(events) == Asks(events[1..]);
        SimpleIgnoresCleanup(m, events[1..]);
    }
  }

  lemma {:induction false} AsksMonotone(events: seq<Event>, clock: int, earlier: int)
    requires Monotone(events, clock) && earlier <= clock
    ensures Monotone(Asks(events), earlier)
    decreases |events|
  {
    if events != [] {
      if events[0].Ask? {
        AsksMonotone(events[1..], When(events[0]), When(events[0]));
        assert Asks(events)[0] == events[0] && Asks(events)[1..] == Asks(events[1..]);
      } else {
        AsksMonotone(events[1..], When(events[0]), earlier);
        assert Asks(events) == Asks(events[1..]);
      }
    }
  }

  /** Cleanup is unobservable: leaving every cleanup out changes no answer. */
  lemma {:induction false} CleanupIsUnobservable(hash: string -> string, files: Files, m: Accepts, events: seq<Event>, clock: int)
    requires Injective(hash) && Agree(hash, files, m, clock) && Monotone(events, clock)
    ensures LedgerAnswers(hash, files, events) == LedgerAnswers(hash, files, Asks(events))
  {
    LedgerIsSimple(hash, files, m, events, clock);
    SimpleIgnoresCleanup(m, events);
    AsksMonotone(events, clock, clock);
    LedgerIsSimple(hash, files, m, Asks(events), clock);
  }

  // ---------------------------------------------------------------- accepts are apart

  lemma {:induction false} AnswerEach(m: Accepts, events: seq<Event>)
    requires forall i :: 0 <= i < |events| ==> events[i].Ask?
    ensures |SimpleAnswers(m, events)| == |events|
    decreases |events|
  {
    if events != [] {
      var e := events[0].entry;
      AnswerEach(if Known(m, e.key, e.createdAt).Some? then m else m[e.key := e], events[1..]);
    }
  }

  lemma {:induction false} NotBefore(events: seq<Event>, clock: int, j: int)
    requires Monotone(events, clock) && 0 <= j < |events|
    ensures When(events[j]) >= clock
    decreases j
  {
    if j > 0 {
      NotBefore(events[1..], When(events[0]), j - 1);
    }
  }

  /** While an entry lives, its key is not accepted again. */
  lemma {:induction false} LiveEntryBlocks(m: Accepts, e: Entry, events: seq<Event>, clock: int, j: int)
    requires forall i :: 0 <= i < |events| ==> events[i].Ask?
    requires Monotone(events, clock) && 0 <= j < |SimpleAnswers(m, events)| && j < |events|
    requires e.key in m && m[e.key] == e
    requires events[j].entry.key == e.key && SimpleAnswers(m, events)[j].None?
    ensures IsExpired(e, events[j].entry.createdAt)
    decreases |events|
  {
    var first := events[0].entry;
    if first.key == e.key && IsExpired(e, first.createdAt) {
      NotBefore(events, first.createdAt, j) by {
        assert Monotone(events, first.createdAt);
      }
    } else if j > 0 {
      var m' := if Known(m, first.key, first.createdAt).Some? then m else m[first.key := first];
      AnswerEach(m', events[1..]);
      LiveEntryBlocks(m', e, events[1..], When(events[0]), j - 1);
    }
  }

  /** Two accepts of a key are at least the first one's time to live apart. */
  lemma {:induction false} AcceptsAreApart(m: Accepts, events: seq<Event>, clock: int, i: int, j: int)
    requires forall k :: 0 <= k < |events| ==> events[k].Ask?
    requires Monotone(events, clock) && 0 <= i < j < |events| == |SimpleAnswers(m, events)|
    requires events[i].entry.key == events[j].entry.key
    requires SimpleAnswers(m, events)[i].None? && SimpleAnswers(m, events)[j].None?
    ensures IsExpired(events[i].entry, events[j].entry.createdAt)
    decreases |events|
  {
    var first := events[0].entry;
    var m' := if Known(m, first.key, first.createdAt).Some? then m else m[first.key := first];
    AnswerEach(m', events[1..]);
    if i == 0 {
      LiveEntryBlocks(m', first, events[1..], When(events[0]), j - 1);
    } else {
      AcceptsAreApart(m', events[1..], When(events[0]), i - 1, j - 1);
    }
  }

  /** The same of the ledger itself, whatever cleanups come between. */
  lemma {:induction false} LedgerAcceptsAreApart(
    hash: string -> string, files: Files, m: Accepts, events: seq<Event>, clock: int, i: int, j: int)
    requires Injective(hash) && Agree(hash, files, m, clock) && Monotone(events, clock)
    requires var (asks, answers) := (Asks(events), LedgerAnswers(hash, files, events));
             && 0 <= i < j < |answers| == |asks|
             && (forall k :: 0 <= k < |asks| ==> asks[k].Ask?)
             && asks[i].entry.key == asks[j].entry.key && answers[i].None? && answers[j].None?
    ensures Asks(events)[j].entry.createdAt - Asks(events)[i].entry.createdAt >= Asks(events)[i].entry.ttlSeconds * 1000000
  {
    CleanupIsUnobservable(hash, files, m, events, clock);
    AsksMonotone(events, clock, clock);
    LedgerIsSimple(hash, files, m, Asks(events), clock);
    AcceptsAreApart(m, Asks(events), clock, i, j);
  }

  /** The answers to the requests after the first `k` events only. */
  function After(hash: string -> string, files: Files, events: seq<Event>, k: nat): Files
    requires k <= |events|
  {
    if k == 0 then files
    else match events[k - 1]
         case Ask(e) => Registered(After(hash, files, events, k - 1), hash(e.key), e)
         case Cleanup(now) => Cleaned(After(hash, files, events, k - 1), now)
  }

  /** The last accept of a key before the `k`-th event, if there was one. */
  function LastAccept(events: seq<Event>, key: string, k: nat): Option<Entry>
    requires k <= |events|
  {
    if k == 0 then None
    else match events[k - 1]
         case Ask(e) =>
           var last := LastAccept(events, key, k - 1);
           if e.key == key && (last.None? || e.createdAt >= last.value.createdAt + last.value.ttlSeconds * 1000000)
           then Some(e) else last
         case Cleanup(_) => LastAccept(events, key, k - 1)
  }

  /**
   * A request is a duplicate exactly if its key was accepted before and the time to live of its last
   * accept is not over: no sooner and no later.
   */
  lemma {:induction false} DuplicateIff(hash: string -> string, events: seq<Event>, clock: int, k: nat)
    requires Injective(hash) && Monotone(events, clock) && k < |events| && events[k].Ask?
    ensures var (e, last) := (events[k].entry, LastAccept(events, events[k].entry.key, k));
            Check(After(hash, map[], events, k), hash(e.key), e.createdAt)
            == if last.Some? && e.createdAt - last.value.createdAt < last.value.ttlSeconds * 1000000 then last else None
  {
    KnownIsLast(hash, events, clock, events[k].entry.key, k);
    if k > 0 {
      NotBeforeLast(events, clock, k);
    }
  }

  lemma {:induction false} NotBeforeLast(events: seq<Event>, clock: int, k: nat)
    requires Monotone(events, clock) && 0 < k < |events|
    ensures When(events[k - 1]) <= When(events[k])
    decreases k
  {
    if k > 1 {
      NotBeforeLast(events[1..], When(events[0]), k - 1);
    }
  }

  /** At any later time the file of a key holds its last accept while that lives. */
  lemma {:induction false} KnownIsLast(hash: string -> string, events: seq<Event>, clock: int, key: string, k: nat)
    requires Injective(hash) && Monotone(events, clock) && k <= |events|
    ensures forall now :: (k > 0 ==> now >= When(events[k - 1])) ==>
              var last := LastAccept(events, key, k);
              Check(After(hash, map[], events, k), hash(key), now)
              == if last.Some? && now - last.value.createdAt < last.value.ttlSeconds * 1000000 then last else None
    decreases k
  {
    if k > 0 {
      KnownIsLast(hash, events, clock, key, k - 1);
      if k > 1 {
        NotBeforeLast(events, clock, k - 1);
      }
      OneMoreEvent(hash, After(hash, map[], events, k - 1), events[k - 1], key, LastAccept(events, key, k - 1));
    }
  }

  lemma OneMoreEvent(hash: string -> string, files: Files, event: Event, key: string, last: Option<Entry>)
    requires Injective(hash)
    requires forall now :: now >= When(event) ==>
               Check(files, hash(key), now)
               == if last.Some? && now - last.value.createdAt < last.value.ttlSeconds * 1000000 then last else None
    ensures var files' := match event case Ask(e) => Registered(files, hash(e.key), e) case Cleanup(t) => Cleaned(files, t);
            var last' := match event
                         case Ask(e) =>
                           if e.key == key && (last.None? || e.createdAt >= last.value.createdAt + last.value.ttlSeconds * 1000000)
                           then Some(e) else last
                         case Cleanup(_) => last;
            forall now :: now >= When(event) ==>
              Check(files', hash(key), now)
              == if last'.Some? && now - last'.value.createdAt < last'.value.ttlSeconds * 1000000 then last' else None
  {
    assert Check(files, hash(key), When(event))
        == if last.Some? && When(event) - last.value.createdAt < last.value.ttlSeconds * 1000000 then last else None;
  }

  /** The files hold no more than the hash: keys that collide answer for one another. */
  lemma CollisionIsDuplicate(hash: string -> string, e: Entry, other: string, now: int)
    requires hash(e.key) == hash(other) && !IsExpired(e, now) && e.createdAt <= now
    ensures Check(Registered(map[], hash(e.key), e), hash(other), now) == Some(e)
  {}
}
