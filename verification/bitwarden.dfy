/**
 * The Bitwarden client: a collection cache in front of the vault management API, with a
 * dry-run mode that sends nothing. Each operation is specified by a function from the joint
 * state (the client's cache, the server's store and the request trace) to the new state and
 * the operation's result; the methods of `Bitwarden` are proved to follow those functions.
 */
module Bitwarden {
  import opened Wrappers
  import opened Text
  import opened BitwardenModels
  import opened Remote

  /** The client's collection cache together with the server's store and the requests sent so far. */
  datatype State = State(cache: map<string, string>, store: Store, trace: seq<Call>)

  /** `_collectionMap.set(name, id)` for every listed collection, in listing order. */
  function Absorb(cache: map<string, string>, listed: seq<Collection>): map<string, string>
    decreases |listed|
  {
    if listed == [] then cache
    else Absorb(cache[listed[0].name := listed[0].id], listed[1..])
  }

  /** `_fetchCollections`: live, one listing request whose answer is merged into the cache. */
  function Fetch(s: State, org: string, dryrun: bool): State {
    if dryrun then s
    else State(Absorb(s.cache, OrgCollections(s.store.collections, org)), s.store, s.trace + [ListCollectionsCall(org)])
  }

  /** The `groups` of a new collection: every default group, read-write, passwords visible. */
  function DefaultGroups(groupIds: seq<string>): seq<GroupAccess> {
    seq(|groupIds|, i requires 0 <= i < |groupIds| => GroupAccess(groupIds[i], false, false))
  }

  /** The cache as `createCollection` sees it after its conditional fetch. */
  function Prepared(s: State, org: string, dryrun: bool): State {
    if s.cache == map[] then Fetch(s, org, dryrun) else s
  }

  /** `createCollection`: the new state and the id it returns. */
  function CollectionStep(s: State, org: string, path: string, groupIds: seq<string>, dryrun: bool): (State, string) {
    var f := Prepared(s, org, dryrun);
    if path in f.cache then (f, f.cache[path])
    else if dryrun then (f, "")
    else
      var id := IdFor(f.store.nextId);
      var store := f.store.(collections := f.store.collections + [Collection(org, path, id)], nextId := f.store.nextId + 1);
      (State(f.cache[path := id], store, f.trace + [CreateCollectionCall(org, path, DefaultGroups(groupIds))]), id)
  }

  /** `createCollections`: one `createCollection` per path, in order, collecting path to id. */
  function CollectionsRun(s: State, org: string, paths: seq<string>, groupIds: seq<string>, dryrun: bool): (State, map<string, string>)
    decreases |paths|
  {
    if paths == [] then (s, map[])
    else
      var path := paths[|paths| - 1];
      var (s1, ids) := CollectionsRun(s, org, paths[..|paths| - 1], groupIds, dryrun);
      var (s2, id) := CollectionStep(s1, org, path, groupIds, dryrun);
      (s2, ids[path := id])
  }

  /** A live item search. */
  function Searched(s: State, org: Option<string>, collectionId: string, search: Option<string>): (State, seq<RemoteItem>) {
    (s.(trace := s.trace + [SearchItemsCall(org, collectionId, search)]), Search(s.store.items, org, collectionId, search))
  }

  /** `findItem`: nothing under dry-run, else one search. */
  function FindStep(s: State, org: Option<string>, collectionId: string, search: Option<string>, dryrun: bool): (State, seq<RemoteItem>) {
    if dryrun then (s, []) else Searched(s, org, collectionId, search)
  }

  /** A live delete. */
  function Deleted(s: State, id: string): State {
    State(s.cache, s.store.(items := Without(s.store.items, id)), s.trace + [DeleteItemCall(id)])
  }

  /** `deleteItem`. */
  function DeleteStep(s: State, id: string, dryrun: bool): State {
    if dryrun then s else Deleted(s, id)
  }

  /** The inner loop of `createItem`: delete every listed item whose name is exactly `name`. */
  function DeleteDuplicates(s: State, found: seq<RemoteItem>, name: Option<string>): State
    decreases |found|
  {
    if found == [] then s
    else
      var s1 := DeleteDuplicates(s, found[..|found| - 1], name);
      var x := found[|found| - 1];
      if x.item.name == name then Deleted(s1, x.id) else s1
  }

  /** How many times `for (const collectionId in itemTemplate.collectionId)` runs. */
  function Slots(item: ItemTemplate): nat {
    if item.collectionId.Some? then |item.collectionId.value| else 0
  }

  /** One round of the outer loop of a live `createItem`: search collection `k`, then drop the exact-name matches. */
  function Round(s: State, item: ItemTemplate, k: nat): State {
    var searched := Searched(s, item.organizationId, NatToString(k), item.name);
    DeleteDuplicates(searched.0, searched.1, item.name)
  }

  /**
   * The outer loop of `createItem`, over its first `n` rounds. `for..in` walks the array's
   * keys, so round `k` searches the collection named by the decimal text of `k`.
   */
  function Sweep(s: State, item: ItemTemplate, n: nat): State
    decreases n
  {
    if n == 0 then s else Round(Sweep(s, item, n - 1), item, n - 1)
  }

  /** `createItem`: the new state and the id it returns. */
  function ItemStep(s: State, item: ItemTemplate, dryrun: bool): (State, string) {
    if dryrun then (s, "")
    else
      var s1 := Sweep(s, item, Slots(item));
      var id := IdFor(s1.store.nextId);
      (State(s1.cache, s1.store.(items := s1.store.items + [RemoteItem(id, item)], nextId := s1.store.nextId + 1),
             s1.trace + [CreateItemCall(item)]), id)
  }

  /** `addAttachment`. */
  function AttachStep(s: State, itemId: string, file: seq<bv8>, dryrun: bool): State {
    if dryrun then s
    else s.(store := s.store.(uploads := s.store.uploads + [Upload(itemId, file)]), trace := s.trace + [AddAttachmentCall(itemId, file)])
  }

  /** `unlock`. */
  function UnlockStep(s: State, password: string, dryrun: bool): State {
    if dryrun then s else s.(trace := s.trace + [UnlockCall(password)])
  }

  /**
   * The names a collection listing carries: the `name` of each listed collection, which is
   * what `fetchCollections` keys the cache by (not a plain `Text.Elements`, since the listing
   * holds collections rather than strings).
   */
  function Names(listed: seq<Collection>): set<string> {
    set c | c in listed :: c.name
  }

  /** After the fetch the cache knows its old names and every listed name. */
  lemma {:induction false} AbsorbKeys(cache: map<string, string>, listed: seq<Collection>)
    ensures Absorb(cache, listed).Keys == cache.Keys + Names(listed)
    decreases |listed|
  {
    if listed != [] {
      AbsorbKeys(cache[listed[0].name := listed[0].id], listed[1..]);
      assert listed == [listed[0]] + listed[1..];
      assert Names(listed) == {listed[0].name} + Names(listed[1..]);
    }
  }

  /** A cached name that nothing listed carries keeps its id. */
  lemma {:induction false} AbsorbKeeps(cache: map<string, string>, listed: seq<Collection>, k: string)
    requires k in cache
    requires forall i :: 0 <= i < |listed| ==> listed[i].name != k
    ensures k in Absorb(cache, listed) && Absorb(cache, listed)[k] == cache[k]
    decreases |listed|
  {
    if listed != [] {
      var rest := listed[1..];
      forall i | 0 <= i < |rest| ensures rest[i].name != k {
        assert rest[i] == listed[i + 1];
      }
      AbsorbKeeps(cache[listed[0].name := listed[0].id], rest, k);
    }
  }

  /** A listed name takes the id of its last listing (`Map.set` overwrites). */
  lemma {:induction false} AbsorbLastWins(cache: map<string, string>, listed: seq<Collection>, i: nat)
    requires i < |listed|
    requires forall j :: i < j < |listed| ==> listed[j].name != listed[i].name
    ensures listed[i].name in Absorb(cache, listed) && Absorb(cache, listed)[listed[i].name] == listed[i].id
    decreases |listed|
  {
    var rest := listed[1..];
    var next := cache[listed[0].name := listed[0].id];
    if i == 0 {
      forall j | 0 <= j < |rest| ensures rest[j].name != listed[0].name {
        assert rest[j] == listed[j + 1];
      }
      AbsorbKeeps(next, rest, listed[0].name);
    } else {
      assert rest[i - 1] == listed[i];
      forall j | i - 1 < j < |rest| ensures rest[j].name != rest[i - 1].name {
        assert rest[j] == listed[j + 1];
      }
      AbsorbLastWins(next, rest, i - 1);
    }
  }

  /**
   * One `createCollection`: it lists the organization's collections exactly when the cache is
   * empty and the client is live, and creates the path exactly when it is still missing
   * then; the creation carries the default groups, read-write with passwords visible. It
   * returns the cached id, or the new collection's id, or '' for a missing path under dry-run.
   * A live client caches the returned id, and no cached id ever changes.
   */
  lemma CollectionStepSpec(s: State, org: string, path: string, groupIds: seq<string>, dryrun: bool)
    ensures var (s', id) := CollectionStep(s, org, path, groupIds, dryrun);
      var f := Prepared(s, org, dryrun);
      var groups := DefaultGroups(groupIds);
      var created := !dryrun && path !in f.cache;
      && (!dryrun && s.cache == map[] ==> f.trace == s.trace + [ListCollectionsCall(org)])
      && (dryrun || s.cache != map[] ==> f.trace == s.trace && f.cache == s.cache)
      && (created ==> s'.trace == f.trace + [CreateCollectionCall(org, path, groups)])
      && (!created ==> s'.trace == f.trace && s'.store == s.store)
      && |groups| == |groupIds|
      && (forall i :: 0 <= i < |groups| ==> groups[i].id == groupIds[i] && !groups[i].readOnly && !groups[i].hidePasswords)
      && (path in f.cache ==> id == f.cache[path])
      && (dryrun && path !in f.cache ==> id == "")
      && (created ==> id == IdFor(s.store.nextId) && s'.store.collections == s.store.collections + [Collection(org, path, id)])
      && (!dryrun ==> s'.cache.Keys == f.cache.Keys + {path} && s'.cache[path] == id)
      && (forall k :: k in f.cache ==> k in s'.cache && s'.cache[k] == f.cache[k])
  {
    var f := Prepared(s, org, dryrun);
    if !dryrun && s.cache == map[] {
      assert f == Fetch(s, org, false);
    } else {
      assert f == s;
    }
  }

  /**
   * In a numbered store a collection that `createCollection` creates gets an id no stored
   * collection carries, and every step keeps the store numbered.
   */
  lemma CollectionStepFresh(s: State, org: string, path: string, groupIds: seq<string>, dryrun: bool)
    requires Numbered(s.store)
    ensures var (s', id) := CollectionStep(s, org, path, groupIds, dryrun);
      && Numbered(s'.store)
      && (!dryrun && path !in Prepared(s, org, dryrun).cache ==> forall c :: c in s.store.collections ==> c.id != id)
  {
    var f := Prepared(s, org, dryrun);
    assert f.store == s.store;
    if !dryrun && path !in f.cache {
      var s' := CollectionStep(s, org, path, groupIds, dryrun).0;
      NextIdFresh(s.store);
      NumberedAdvance(s.store, s'.store.collections, s.store.items);
    }
  }

  /** The other operations never store a new object, so a numbered store stays numbered. */
  lemma StepsKeepNumbered(s: State, org: string, searchOrg: Option<string>, collectionId: string, search: Option<string>,
                          id: string, file: seq<bv8>, password: string, dryrun: bool)
    requires Numbered(s.store)
    ensures Numbered(Fetch(s, org, dryrun).store)
    ensures Numbered(FindStep(s, searchOrg, collectionId, search, dryrun).0.store)
    ensures Numbered(DeleteStep(s, id, dryrun).store)
    ensures Numbered(AttachStep(s, id, file, dryrun).store)
    ensures Numbered(UnlockStep(s, password, dryrun).store)
  {
    NumberedShrink(s.store, Without(s.store.items, id), s.store.uploads);
    NumberedShrink(s.store, s.store.items, s.store.uploads + [Upload(id, file)]);
  }

  /** `createCollections` keeps a numbered store numbered. */
  lemma {:induction false} CollectionsRunNumbered(s: State, org: string, paths: seq<string>, groupIds: seq<string>, dryrun: bool)
    requires Numbered(s.store)
    ensures Numbered(CollectionsRun(s, org, paths, groupIds, dryrun).0.store)
    decreases |paths|
  {
    if paths != [] {
      var init := paths[..|paths| - 1];
      CollectionsRunNumbered(s, org, init, groupIds, dryrun);
      CollectionStepFresh(CollectionsRun(s, org, init, groupIds, dryrun).0, org, paths[|paths| - 1], groupIds, dryrun);
    }
  }

  /** One collection step sends at most a listing of the organization and a create of the path with the default groups. */
  lemma CollectionStepCalls(s: State, org: string, path: string, groupIds: seq<string>, dryrun: bool)
    ensures var s' := CollectionStep(s, org, path, groupIds, dryrun).0;
      && Extends(s.trace, s'.trace)
      && forall c :: c in s'.trace[|s.trace|..] ==> c == ListCollectionsCall(org) || c == CreateCollectionCall(org, path, DefaultGroups(groupIds))
  {
    var f := Prepared(s, org, dryrun);
    var s' := CollectionStep(s, org, path, groupIds, dryrun).0;
    var create := CreateCollectionCall(org, path, DefaultGroups(groupIds));
    if !dryrun && s.cache == map[] {
      assert f.trace == s.trace + [ListCollectionsCall(org)];
    } else {
      assert f.trace == s.trace;
    }
    if path in f.cache || dryrun {
      assert s'.trace == f.trace;
    } else {
      assert s'.trace == f.trace + [create];
    }
    ExtendsChain(s.trace, f.trace, s'.trace);
  }

  /**
   * `createCollections` sends only listings of the organization and creates, with the default
   * groups, of paths it was given.
   */
  lemma {:induction false} CollectionsRunCalls(s: State, org: string, paths: seq<string>, groupIds: seq<string>, dryrun: bool)
    ensures var s' := CollectionsRun(s, org, paths, groupIds, dryrun).0;
      && Extends(s.trace, s'.trace)
      && forall c :: c in s'.trace[|s.trace|..] ==>
        c == ListCollectionsCall(org) ||
        (c.CreateCollectionCall? && c.organizationId == org && c.name in Elements(paths) && c.groups == DefaultGroups(groupIds))
    decreases |paths|
  {
    if paths == [] {
      assert s.trace[|s.trace|..] == [];
    } else {
      var init := paths[..|paths| - 1];
      var p := paths[|paths| - 1];
      assert paths == init + [p];
      assert Elements(paths) == Elements(init) + {p};
      CollectionsRunCalls(s, org, init, groupIds, dryrun);
      var s1 := CollectionsRun(s, org, init, groupIds, dryrun).0;
      var s' := CollectionsRun(s, org, paths, groupIds, dryrun).0;
      assert s' == CollectionStep(s1, org, p, groupIds, dryrun).0;
      CollectionStepCalls(s1, org, p, groupIds, dryrun);
      ExtendsChain(s.trace, s1.trace, s'.trace);
    }
  }

  /** `createCollections` answers for every path it was given, and for nothing else. */
  lemma {:induction false} CollectionsRunKeys(s: State, org: string, paths: seq<string>, groupIds: seq<string>, dryrun: bool)
    ensures CollectionsRun(s, org, paths, groupIds, dryrun).1.Keys == Elements(paths)
    decreases |paths|
  {
    if paths != [] {
      var init := paths[..|paths| - 1];
      CollectionsRunKeys(s, org, init, groupIds, dryrun);
      assert paths == init + [paths[|paths| - 1]];
      assert Elements(paths) == Elements(init) + {paths[|paths| - 1]};
    }
  }

  /** Under dry-run the collection cache stays empty, so every collection step is inert and returns ''. */
  lemma {:induction false} CollectionsRunDry(s: State, org: string, paths: seq<string>, groupIds: seq<string>)
    requires s.cache == map[]
    ensures var (s', ids) := CollectionsRun(s, org, paths, groupIds, true);
      s' == s && ids.Keys == Elements(paths) && forall p :: p in ids ==> ids[p] == ""
    decreases |paths|
  {
    if paths != [] {
      var init := paths[..|paths| - 1];
      CollectionsRunDry(s, org, init, groupIds);
      assert paths == init + [paths[|paths| - 1]];
      assert Elements(paths) == Elements(init) + {paths[|paths| - 1]};
    }
  }

  /** One live step keeps every cached id and caches the returned id under the path. */
  lemma CollectionStepCache(s: State, org: string, path: string, groupIds: seq<string>)
    ensures var (s', id) := CollectionStep(s, org, path, groupIds, false);
      var f := Prepared(s, org, false);
      && s'.cache.Keys == f.cache.Keys + {path} && s'.cache[path] == id
      && (forall k :: k in f.cache ==> s'.cache[k] == f.cache[k])
  {
  }

  /** One live step lists iff the cache was empty and creates iff the path was missing after that. */
  lemma CollectionStepCounts(s: State, org: string, path: string, groupIds: seq<string>, verb: Verb)
    ensures var (s', id) := CollectionStep(s, org, path, groupIds, false);
      Count(s'.trace, verb) == Count(s.trace, verb)
        + (if s.cache == map[] && verb == Get then 1 else 0)
        + (if path !in Prepared(s, org, false).cache && verb == Post then 1 else 0)
  {
    var f := Prepared(s, org, false);
    if s.cache == map[] {
      CountSnoc(s.trace, ListCollectionsCall(org), verb);
    }
    if path !in f.cache {
      CountSnoc(f.trace, CreateCollectionCall(org, path, DefaultGroups(groupIds)), verb);
    }
  }

  /**
   * A live `createCollections` over a non-empty list returns a map with one entry per distinct
   * input path, each the id the cache holds at the end; the cache gains exactly those paths and
   * keeps every id it had after the first step's listing.
   */
  lemma {:induction false} CollectionsRunLive(s: State, org: string, paths: seq<string>, groupIds: seq<string>)
    requires paths != []
    ensures var (s', ids) := CollectionsRun(s, org, paths, groupIds, false);
      var f := Prepared(s, org, false);
      && ids.Keys == Elements(paths)
      && s'.cache.Keys == f.cache.Keys + Elements(paths)
      && (forall p :: p in ids ==> ids[p] == s'.cache[p])
      && (forall k :: k in f.cache ==> s'.cache[k] == f.cache[k])
    decreases |paths|
  {
    var init := paths[..|paths| - 1];
    var p := paths[|paths| - 1];
    assert paths == init + [p];
    if init == [] {
      CollectionsRunFirst(s, org, p, groupIds);
    } else {
      var (s1, ids1) := CollectionsRun(s, org, init, groupIds, false);
      var (s', id) := CollectionStep(s1, org, p, groupIds, false);
      CollectionsRunLive(s, org, init, groupIds);
      assert init[0] in Elements(init);
      assert Prepared(s1, org, false) == s1;
      CollectionStepCache(s1, org, p, groupIds);
      CachedPathsStep(Prepared(s, org, false).cache, s1.cache, s'.cache, ids1, init, p, id);
    }
  }

  /** The first live step of `createCollections`: the map and the cache agree on its path. */
  lemma CollectionsRunFirst(s: State, org: string, p: string, groupIds: seq<string>)
    ensures var (s', ids) := CollectionsRun(s, org, [p], groupIds, false);
      var f := Prepared(s, org, false);
      && ids.Keys == Elements([p])
      && s'.cache.Keys == f.cache.Keys + Elements([p])
      && (forall q :: q in ids ==> ids[q] == s'.cache[q])
      && (forall k :: k in f.cache ==> s'.cache[k] == f.cache[k])
  {
    assert [p][..0] == [];
    assert Elements([p]) == {p};
    CollectionStepCache(s, org, p, groupIds);
  }

  /**
   * The map bookkeeping of one more `createCollections` step: if the map and cache agree on
   * the first paths and the step caches `id` under `p`, they agree on one path more.
   */
  lemma CachedPathsStep(c0: map<string, string>, c1: map<string, string>, c2: map<string, string>,
                        ids: map<string, string>, init: seq<string>, p: string, id: string)
    requires ids.Keys == Elements(init) && c1.Keys == c0.Keys + Elements(init)
    requires (forall q :: q in ids ==> ids[q] == c1[q]) && (forall k :: k in c0 ==> c1[k] == c0[k])
    requires c2.Keys == c1.Keys + {p} && c2[p] == id && (forall k :: k in c1 ==> c2[k] == c1[k])
    ensures ids[p := id].Keys == Elements(init + [p]) && c2.Keys == c0.Keys + Elements(init + [p])
    ensures (forall q :: q in ids[p := id] ==> ids[p := id][q] == c2[q]) && (forall k :: k in c0 ==> c2[k] == c0[k])
  {
    assert Elements(init + [p]) == Elements(init) + {p};
  }

  /** Adding one path to the list adds one new path exactly when the cache did not know it. */
  lemma NewPathsStep(init: seq<string>, p: string, known: set<string>, cache: map<string, string>)
    requires cache.Keys == known + Elements(init)
    ensures |Elements(init + [p]) - known| == |Elements(init) - known| + (if p in cache then 0 else 1)
  {
    assert Elements(init + [p]) == Elements(init) + {p};
    if p in cache {
      assert Elements(init + [p]) - known == Elements(init) - known;
    } else {
      assert Elements(init + [p]) - known == (Elements(init) - known) + {p};
    }
  }

  /** With no paths, `createCollections` sends nothing, not even a listing, and maps nothing. */
  lemma CollectionsRunNone(s: State, org: string, groupIds: seq<string>, dryrun: bool)
    ensures var r := CollectionsRun(s, org, [], groupIds, dryrun);
      && r.0 == s && r.1.Keys == {}
      && forall verb :: Count(r.0.trace, verb) == Count(s.trace, verb)
  {
  }

  /**
   * The requests of a live `createCollections` over a non-empty list: one listing if the cache
   * was empty and none otherwise, one create per distinct path the cache did not know after
   * that listing, and no deletes.
   */
  lemma {:induction false} CollectionsRunCounts(s: State, org: string, paths: seq<string>, groupIds: seq<string>, verb: Verb)
    requires paths != []
    ensures Count(CollectionsRun(s, org, paths, groupIds, false).0.trace, verb) == Count(s.trace, verb)
      + (if verb == Get && s.cache == map[] then 1 else 0)
      + (if verb == Post then |Elements(paths) - Prepared(s, org, false).cache.Keys| else 0)
    decreases |paths|
  {
    var init := paths[..|paths| - 1];
    var p := paths[|paths| - 1];
    var known := Prepared(s, org, false).cache.Keys;
    assert paths == init + [p];
    if init == [] {
      assert CollectionsRun(s, org, paths, groupIds, false).0 == CollectionStep(s, org, p, groupIds, false).0;
      CollectionStepCounts(s, org, p, groupIds, verb);
      NewPathsStep(init, p, known, Prepared(s, org, false).cache);
    } else {
      var s1 := CollectionsRun(s, org, init, groupIds, false).0;
      CollectionsRunCounts(s, org, init, groupIds, verb);
      CollectionsRunStep(s, org, paths, groupIds);
      CollectionStepCounts(s1, org, p, groupIds, verb);
      NewPathsStep(init, p, known, s1.cache);
    }
  }

  /**
   * Past the first path, a live `createCollections` step finds the cache filled (no listing)
   * and holding the names known after the first listing plus the paths before it.
   */
  lemma CollectionsRunStep(s: State, org: string, paths: seq<string>, groupIds: seq<string>)
    requires |paths| >= 2
    ensures var init := paths[..|paths| - 1];
      var s1 := CollectionsRun(s, org, init, groupIds, false).0;
      && CollectionsRun(s, org, paths, groupIds, false).0 == CollectionStep(s1, org, paths[|paths| - 1], groupIds, false).0
      && s1.cache != map[] && Prepared(s1, org, false) == s1
      && s1.cache.Keys == Prepared(s, org, false).cache.Keys + Elements(init)
  {
    var init := paths[..|paths| - 1];
    var s1 := CollectionsRun(s, org, init, groupIds, false).0;
    CollectionsRunLive(s, org, init, groupIds);
    assert init[0] in s1.cache;
  }

  /** The ids of the listed items whose name is exactly `name`. */
  function DuplicateIds(found: seq<RemoteItem>, name: Option<string>): set<string> {
    set x | x in found && x.item.name == name :: x.id
  }

  /**
   * The inner loop of a live `createItem` removes from the store exactly the items whose id is
   * a duplicate's, and changes nothing else the server keeps.
   */
  lemma {:induction false} DeleteDuplicatesStore(s: State, found: seq<RemoteItem>, name: Option<string>)
    ensures var s' := DeleteDuplicates(s, found, name);
      && s'.cache == s.cache
      && s'.store == s.store.(items := s'.store.items)
      && (forall y :: y in s'.store.items <==> y in s.store.items && y.id !in DuplicateIds(found, name))
    decreases |found|
  {
    if found != [] {
      var init := found[..|found| - 1];
      var x := found[|found| - 1];
      assert found == init + [x];
      assert DuplicateIds(found, name) == DuplicateIds(init, name) + (if x.item.name == name then {x.id} else {});
      DeleteDuplicatesStore(s, init, name);
    }
  }

  /**
   * The requests of the inner loop of a live `createItem`: it appends one delete per
   * duplicate's id and nothing else.
   */
  lemma {:induction false} DeleteDuplicatesCalls(s: State, found: seq<RemoteItem>, name: Option<string>)
    ensures var s' := DeleteDuplicates(s, found, name);
      && |s.trace| <= |s'.trace| && s'.trace[..|s.trace|] == s.trace
      && (forall c :: c in s'.trace[|s.trace|..] <==> c.DeleteItemCall? && c.itemId in DuplicateIds(found, name))
    decreases |found|
  {
    if found == [] {
      assert s.trace[|s.trace|..] == [];
    } else {
      var init := found[..|found| - 1];
      var x := found[|found| - 1];
      assert found == init + [x];
      assert DuplicateIds(found, name) == DuplicateIds(init, name) + (if x.item.name == name then {x.id} else {});
      DeleteDuplicatesCalls(s, init, name);
      var s1 := DeleteDuplicates(s, init, name);
      if x.item.name == name {
        var s' := Deleted(s1, x.id);
        assert s'.trace[|s.trace|..] == s1.trace[|s.trace|..] + [DeleteItemCall(x.id)];
        assert s'.trace[..|s.trace|] == s1.trace[..|s.trace|];
      }
    }
  }

  /** The inner loop of a live `createItem` sends only deletes. */
  lemma {:induction false} DeleteDuplicatesCounts(s: State, found: seq<RemoteItem>, name: Option<string>, verb: Verb)
    requires verb != Delete
    ensures Count(DeleteDuplicates(s, found, name).trace, verb) == Count(s.trace, verb)
    decreases |found|
  {
    if found != [] {
      var init := found[..|found| - 1];
      var x := found[|found| - 1];
      var s1 := DeleteDuplicates(s, init, name);
      assert DeleteDuplicates(s, found, name) == if x.item.name == name then Deleted(s1, x.id) else s1;
      DeleteDuplicatesCounts(s, init, name, verb);
      DeletedCounts(s1, x.id, verb);
    }
  }

  /** A delete request adds nothing to the other verbs' counts. */
  lemma DeletedCounts(s: State, id: string, verb: Verb)
    requires verb != Delete
    ensures Count(Deleted(s, id).trace, verb) == Count(s.trace, verb)
  {
    CountSnoc(s.trace, DeleteItemCall(id), verb);
  }

  /** The trace `t'` continues the trace `t`. */
  predicate Extends(t: seq<Call>, t': seq<Call>) {
    |t| <= |t'| && t'[..|t|] == t
  }

  lemma ExtendsChain(a: seq<Call>, b: seq<Call>, c: seq<Call>)
    requires Extends(a, b) && Extends(b, c)
    ensures Extends(a, c) && c[|a|..] == b[|a|..] + c[|b|..]
  {
    assert c[..|a|] == c[..|b|][..|a|];
    assert c[|a|..] == c[|a|..|b|] + c[|b|..];
    assert c[|a|..|b|] == c[..|b|][|a|..];
  }

  /** `c` deletes an item that `items` held under exactly the name `name`. */
  predicate DeletesExisting(c: Call, items: seq<RemoteItem>, name: Option<string>) {
    c.DeleteItemCall? && exists y :: y in items && y.id == c.itemId && y.item.name == name
  }

  lemma DeletesExistingGrows(c: Call, items: seq<RemoteItem>, more: seq<RemoteItem>, name: Option<string>)
    requires DeletesExisting(c, items, name)
    requires forall y :: y in items ==> y in more
    ensures DeletesExisting(c, more, name)
  {
    var y :| y in items && y.id == c.itemId && y.item.name == name;
    assert y in more;
  }

  /** One round leaves the server as it was except for items it deletes, and keeps no listed exact-name match. */
  lemma RoundStore(s: State, item: ItemTemplate, k: nat)
    ensures var s' := Round(s, item, k);
      && s'.cache == s.cache
      && s'.store == s.store.(items := s'.store.items)
      && (forall y :: y in s'.store.items ==> y in s.store.items)
      && (forall y :: y in s'.store.items && Listed(y, item.organizationId, NatToString(k), item.name) ==> y.item.name != item.name)
  {
    var searched := Searched(s, item.organizationId, NatToString(k), item.name);
    DeleteDuplicatesStore(searched.0, searched.1, item.name);
  }

  /** One round sends its search, then only deletes of exact-name items the server held. */
  lemma RoundCalls(s: State, item: ItemTemplate, k: nat)
    ensures var s' := Round(s, item, k);
      && Extends(s.trace, s'.trace) && |s.trace| < |s'.trace|
      && s'.trace[|s.trace|] == SearchItemsCall(item.organizationId, NatToString(k), item.name)
      && (forall c :: c in s'.trace[|s.trace| + 1..] ==> DeletesExisting(c, s.store.items, item.name))
  {
    var searched := Searched(s, item.organizationId, NatToString(k), item.name);
    DeleteDuplicatesCalls(searched.0, searched.1, item.name);
    var s' := Round(s, item, k);
    assert s' == DeleteDuplicates(searched.0, searched.1, item.name);
    ExtendsChain(s.trace, searched.0.trace, s'.trace);
    forall c | c in s'.trace[|s.trace| + 1..] ensures DeletesExisting(c, s.store.items, item.name) {
      assert c in s'.trace[|searched.0.trace|..];
      var x :| x in searched.1 && x.item.name == item.name && x.id == c.itemId;
      assert x in s.store.items;
    }
  }

  /** The sweep changes nothing on the server but items, and only removes items. */
  lemma {:induction false} SweepShape(s: State, item: ItemTemplate, n: nat)
    ensures var s' := Sweep(s, item, n);
      && s'.cache == s.cache
      && s'.store == s.store.(items := s'.store.items)
      && (forall y :: y in s'.store.items ==> y in s.store.items)
    decreases n
  {
    if n > 0 {
      SweepShape(s, item, n - 1);
      RoundStore(Sweep(s, item, n - 1), item, n - 1);
    }
  }

  /** After the first `n` rounds no item listed by one of them under the exact item name is left. */
  lemma {:induction false} SweepClean(s: State, item: ItemTemplate, n: nat)
    ensures forall y, k ::
      (y in Sweep(s, item, n).store.items && 0 <= k < n && Listed(y, item.organizationId, NatToString(k), item.name)) ==>
      y.item.name != item.name
    decreases n
  {
    if n > 0 {
      var s0 := Sweep(s, item, n - 1);
      SweepClean(s, item, n - 1);
      RoundStore(s0, item, n - 1);
      forall y, k | y in Sweep(s, item, n).store.items && 0 <= k < n && Listed(y, item.organizationId, NatToString(k), item.name)
        ensures y.item.name != item.name
      {
        if k < n - 1 {
          assert y in s0.store.items;
        }
      }
    }
  }

  /** The sweep continues the trace, and round `k` searches collection `k` under the item's organization and name. */
  lemma {:induction false} SweepSearches(s: State, item: ItemTemplate, n: nat)
    ensures var s' := Sweep(s, item, n);
      && Extends(s.trace, s'.trace)
      && (forall k :: 0 <= k < n ==> SearchItemsCall(item.organizationId, NatToString(k), item.name) in s'.trace[|s.trace|..])
    decreases n
  {
    if n > 0 {
      var s0 := Sweep(s, item, n - 1);
      var s' := Sweep(s, item, n);
      SweepSearches(s, item, n - 1);
      RoundCalls(s0, item, n - 1);
      ExtendsChain(s.trace, s0.trace, s'.trace);
      forall k | 0 <= k < n ensures SearchItemsCall(item.organizationId, NatToString(k), item.name) in s'.trace[|s.trace|..] {
        if k == n - 1 {
          assert s'.trace[|s0.trace|..][0] == s'.trace[|s0.trace|];
        }
      }
    }
  }

  /** Appending a round's requests to a sweep's keeps every request a search or a delete of an item held at the start. */
  lemma SweepDeletesStep(s: State, s0: State, s': State, name: Option<string>)
    requires Extends(s.trace, s0.trace)
    requires forall c :: c in s0.trace[|s.trace|..] ==> c.SearchItemsCall? || DeletesExisting(c, s.store.items, name)
    requires forall y :: y in s0.store.items ==> y in s.store.items
    requires Extends(s0.trace, s'.trace) && |s0.trace| < |s'.trace| && s'.trace[|s0.trace|].SearchItemsCall?
    requires forall c :: c in s'.trace[|s0.trace| + 1..] ==> DeletesExisting(c, s0.store.items, name)
    ensures Extends(s.trace, s'.trace)
    ensures forall c :: c in s'.trace[|s.trace|..] ==> c.SearchItemsCall? || DeletesExisting(c, s.store.items, name)
  {
    ExtendsChain(s.trace, s0.trace, s'.trace);
    var tail := s'.trace[|s0.trace|..];
    assert tail == [tail[0]] + s'.trace[|s0.trace| + 1..];
    forall c | c in tail && !c.SearchItemsCall? ensures DeletesExisting(c, s.store.items, name) {
      assert c in s'.trace[|s0.trace| + 1..];
      DeletesExistingGrows(c, s0.store.items, s.store.items, name);
    }
  }

  /** Every request of the sweep that is not a search deletes an exact-name item the server held before it. */
  lemma {:induction false} SweepDeletes(s: State, item: ItemTemplate, n: nat)
    ensures var s' := Sweep(s, item, n);
      Extends(s.trace, s'.trace) &&
      forall c :: c in s'.trace[|s.trace|..] ==> c.SearchItemsCall? || DeletesExisting(c, s.store.items, item.name)
    decreases n
  {
    if n == 0 {
      assert s.trace[|s.trace|..] == [];
    } else {
      var s0 := Sweep(s, item, n - 1);
      SweepDeletes(s, item, n - 1);
      SweepShape(s, item, n - 1);
      RoundCalls(s0, item, n - 1);
      SweepDeletesStep(s, s0, Round(s0, item, n - 1), item.name);
    }
  }

  /** One round of a live `createItem` sends one GET and no POST. */
  lemma RoundCounts(s: State, item: ItemTemplate, k: nat)
    ensures Count(Round(s, item, k).trace, Get) == Count(s.trace, Get) + 1
  {
    var call := SearchItemsCall(item.organizationId, NatToString(k), item.name);
    var s' := Round(s, item, k);
    RoundCalls(s, item, k);
    var t := s.trace + [call];
    assert s'.trace[..|t|] == t by {
      assert s'.trace[..|t|] == s'.trace[..|s.trace|] + [s'.trace[|s.trace|]];
    }
    forall c | c in s'.trace[|t|..] ensures VerbOf(c) != Get {
      assert DeletesExisting(c, s.store.items, item.name);
    }
    CountSnoc(s.trace, call, Get);
    CountUnmoved(t, s'.trace, Get);
  }

  /** The first `n` rounds of a live `createItem` sweep send `n` searches. */
  lemma {:induction false} SweepCounts(s: State, item: ItemTemplate, n: nat)
    ensures Count(Sweep(s, item, n).trace, Get) == Count(s.trace, Get) + n
    decreases n
  {
    if n > 0 {
      SweepStepCounts(s, item, n);
      SweepCounts(s, item, n - 1);
    }
  }

  /** Round `n - 1` adds one GET to the sweep's first `n - 1` rounds. */
  lemma SweepStepCounts(s: State, item: ItemTemplate, n: nat)
    requires n > 0
    ensures Count(Sweep(s, item, n).trace, Get) == Count(Sweep(s, item, n - 1).trace, Get) + 1
  {
    RoundCounts(Sweep(s, item, n - 1), item, n - 1);
  }

  /** The sweep sends searches and deletes only, so no POST. */
  lemma SweepPosts(s: State, item: ItemTemplate, n: nat)
    ensures Count(Sweep(s, item, n).trace, Post) == Count(s.trace, Post)
  {
    var s' := Sweep(s, item, n);
    SweepDeletes(s, item, n);
    forall c | c in s'.trace[|s.trace|..] ensures VerbOf(c) != Post {
    }
    CountUnmoved(s.trace, s'.trace, Post);
  }

  /**
   * A live `createItem` stores the template under the id `IdFor(nextId)`, which it returns;
   * what the server kept besides it, it had before; and no item listed by a round of the sweep
   * under the exact item name survives, except the new one.
   */
  lemma ItemStepStore(s: State, item: ItemTemplate)
    ensures var (s', id) := ItemStep(s, item, false);
      && id == IdFor(s.store.nextId)
      && s'.cache == s.cache
      && s'.store.collections == s.store.collections && s'.store.uploads == s.store.uploads
      && s'.store.nextId == s.store.nextId + 1
      && RemoteItem(id, item) in s'.store.items
      && (forall y :: y in s'.store.items ==> y in s.store.items || y == RemoteItem(id, item))
      && (forall y, k :: y in s'.store.items && 0 <= k < Slots(item) && Listed(y, item.organizationId, NatToString(k), item.name)
            ==> y.item.name != item.name || y == RemoteItem(id, item))
  {
    SweepShape(s, item, Slots(item));
    SweepClean(s, item, Slots(item));
  }

  /**
   * In a numbered store the id a live `createItem` returns is fresh: no earlier item carries
   * it, the new item is the only one stored under it, and the store stays numbered.
   */
  lemma ItemStepFresh(s: State, item: ItemTemplate)
    requires Numbered(s.store)
    ensures var (s', id) := ItemStep(s, item, false);
      && Numbered(s'.store)
      && (forall y :: y in s.store.items ==> y.id != id)
      && (forall y :: y in s'.store.items && y.id == id ==> y == RemoteItem(id, item))
  {
    var s1 := Sweep(s, item, Slots(item));
    SweepShape(s, item, Slots(item));
    NumberedShrink(s.store, s1.store.items, s1.store.uploads);
    NextIdFresh(s.store);
    var (s', id) := ItemStep(s, item, false);
    NumberedAdvance(s1.store, s1.store.collections, s'.store.items);
  }

  /**
   * A template without `collectionId` skips the duplicate sweep altogether: a live `createItem`
   * sends only the create and deletes nothing, whatever same-named items are stored.
   */
  lemma ItemStepUntagged(s: State, item: ItemTemplate)
    requires item.collectionId.None?
    ensures var (s', id) := ItemStep(s, item, false);
      && s'.trace == s.trace + [CreateItemCall(item)]
      && s'.store.items == s.store.items + [RemoteItem(id, item)]
  {
  }

  /**
   * The requests of a live `createItem`: one search per element of `collectionId`, deletes of
   * earlier items with exactly its name only, and a single create, sent last.
   */
  lemma ItemStepCalls(s: State, item: ItemTemplate)
    ensures var (s', id) := ItemStep(s, item, false);
      && |s.trace| < |s'.trace| && s'.trace[..|s.trace|] == s.trace
      && s'.trace[|s'.trace| - 1] == CreateItemCall(item)
      && (forall k :: 0 <= k < Slots(item) ==> SearchItemsCall(item.organizationId, NatToString(k), item.name) in s'.trace[|s.trace|..])
      && (forall c :: c in s'.trace[|s.trace|..] ==> c.SearchItemsCall? || c.DeleteItemCall? || c == CreateItemCall(item))
      && (forall c :: c in s'.trace[|s.trace|..] && c.DeleteItemCall? ==> DeletesExisting(c, s.store.items, item.name))
  {
    var s1 := Sweep(s, item, Slots(item));
    SweepSearches(s, item, Slots(item));
    SweepDeletes(s, item, Slots(item));
    var s' := ItemStep(s, item, false).0;
    assert s'.trace[|s.trace|..] == s1.trace[|s.trace|..] + [CreateItemCall(item)];
    assert s'.trace[..|s.trace|] == s.trace;
  }

  /** A live `createItem` sends one GET per collection slot and one POST, the create itself. */
  lemma ItemStepCounts(s: State, item: ItemTemplate)
    ensures Count(ItemStep(s, item, false).0.trace, Get) == Count(s.trace, Get) + Slots(item)
    ensures Count(ItemStep(s, item, false).0.trace, Post) == Count(s.trace, Post) + 1
  {
    var t := Sweep(s, item, Slots(item)).trace;
    SweepCounts(s, item, Slots(item));
    SweepPosts(s, item, Slots(item));
    CountSnoc(t, CreateItemCall(item), Get);
    CountSnoc(t, CreateItemCall(item), Post);
  }

  /**
   * Under dry-run no operation sends a request or changes the server: `findItem` answers `[]`,
   * `createItem` and a `createCollection` of an uncached path answer '', and the cache is
   * never filled, neither by a fetch nor by a create.
   */
  lemma DryRunSilent(s: State, org: string, path: string, groupIds: seq<string>, item: ItemTemplate,
                     collectionId: string, search: Option<string>, id: string, file: seq<bv8>, password: string)
    ensures Fetch(s, org, true) == s
    ensures var (s', r) := CollectionStep(s, org, path, groupIds, true);
      s' == s && (path !in s.cache ==> r == "")
    ensures FindStep(s, item.organizationId, collectionId, search, true) == (s, [])
    ensures ItemStep(s, item, true) == (s, "")
    ensures DeleteStep(s, id, true) == s
    ensures AttachStep(s, id, file, true) == s
    ensures UnlockStep(s, password, true) == s
  {
  }

  /** The client of one `bw serve` instance. */
  class Bitwarden {
    const password: string
    const defaultGroupIds: seq<string>
    var collectionMap: map<string, string>
    const dryrun: bool
    /** The server every request goes to (stands for the API base URL). */
    const server: Server

    function Current(): State
      reads this, server
    {
      State(collectionMap, server.store, server.trace)
    }

    /** By default the client runs dry, with no default groups. */
    constructor (server: Server, password: string, defaultGroupIds: seq<string> := [], dryrun: bool := true)
      ensures this.server == server && this.password == password
      ensures this.defaultGroupIds == defaultGroupIds && this.dryrun == dryrun
      ensures collectionMap == map[]
    {
      this.server := server;
      this.password := password;
      this.defaultGroupIds := defaultGroupIds;
      this.dryrun := dryrun;
      collectionMap := map[];
    }

    method FetchCollections(org: string)
      modifies this, server
      ensures Current() == Fetch(old(Current()), org, dryrun)
    {
      if dryrun {
        return;
      }
      ghost var s0 := Current();
      var listed := server.ListCollections(org);
      var i := 0;
      while i < |listed|
        invariant 0 <= i <= |listed|
        invariant server.store == s0.store && server.trace == s0.trace + [ListCollectionsCall(org)]
        invariant Absorb(collectionMap, listed[i..]) == Absorb(s0.cache, listed)
      {
        var collection := listed[i];
        assert listed[i..][1..] == listed[i + 1..];
        collectionMap := collectionMap[collection.name := collection.id];
        i := i + 1;
      }
    }

    method Unlock()
      modifies server
      ensures Current() == UnlockStep(old(Current()), password, dryrun)
    {
      if !dryrun {
        server.Unlock(password);
      }
    }

    method CreateCollection(org: string, path: string) returns (id: string)
      modifies this, server
      ensures (Current(), id) == CollectionStep(old(Current()), org, path, defaultGroupIds, dryrun)
    {
      if collectionMap == map[] {
        FetchCollections(org);
      }
      if path !in collectionMap {
        var groups := DefaultGroups(defaultGroupIds);
        if dryrun {
          return "";
        }
        var created := server.CreateCollection(org, path, groups);
        collectionMap := collectionMap[created.name := created.id];
      }
      id := collectionMap[path];
    }

    method CreateCollections(org: string, paths: seq<string>) returns (ids: map<string, string>)
      modifies this, server
      ensures (Current(), ids) == CollectionsRun(old(Current()), org, paths, defaultGroupIds, dryrun)
    {
      ghost var s0 := Current();
      ids := map[];
      var i := 0;
      while i < |paths|
        invariant 0 <= i <= |paths|
        invariant (Current(), ids) == CollectionsRun(s0, org, paths[..i], defaultGroupIds, dryrun)
      {
        assert paths[..i + 1][..i] == paths[..i];
        var id := CreateCollection(org, paths[i]);
        ids := ids[paths[i] := id];
        i := i + 1;
      }
      assert paths[..i] == paths;
    }

    method FindItem(org: Option<string>, collectionId: string, search: Option<string>) returns (found: seq<RemoteItem>)
      modifies server
      ensures (Current(), found) == FindStep(old(Current()), org, collectionId, search, dryrun)
    {
      if dryrun {
        return [];
      }
      found := server.SearchItems(org, collectionId, search);
    }

    method DeleteItem(id: string)
      modifies server
      ensures Current() == DeleteStep(old(Current()), id, dryrun)
    {
      if !dryrun {
        server.DeleteItem(id);
      }
    }

    method CreateItem(item: ItemTemplate) returns (id: string)
      modifies server
      ensures (Current(), id) == ItemStep(old(Current()), item, dryrun)
    {
      if dryrun {
        return "";
      }
      ghost var s0 := Current();
      if item.collectionId.Some? {
        var i := 0;
        while i < |item.collectionId.value|
          invariant 0 <= i <= |item.collectionId.value|
          invariant Current() == Sweep(s0, item, i)
        {
          ghost var before := Current();
          var existing := FindItem(item.organizationId, NatToString(i), item.name);
          RemoveDuplicates(existing, item.name);
          assert Current() == Round(before, item, i);
          i := i + 1;
        }
      }
      id := server.CreateItem(item);
    }

    /** The inner loop of `createItem`, as a live client runs it. */
    method RemoveDuplicates(existing: seq<RemoteItem>, name: Option<string>)
      requires !dryrun
      modifies server
      ensures Current() == DeleteDuplicates(old(Current()), existing, name)
    {
      ghost var s0 := Current();
      var j := 0;
      while j < |existing|
        invariant 0 <= j <= |existing|
        invariant Current() == DeleteDuplicates(s0, existing[..j], name)
      {
        assert existing[..j + 1][..j] == existing[..j];
        if existing[j].item.name == name {
          DeleteItem(existing[j].id);
        }
        j := j + 1;
      }
      assert existing[..j] == existing;
    }

    method AddAttachment(itemId: string, file: seq<bv8>)
      modifies server
      ensures Current() == AttachStep(old(Current()), itemId, file, dryrun)
    {
      if !dryrun {
        server.AddAttachment(itemId, file);
      }
    }
  }
}
