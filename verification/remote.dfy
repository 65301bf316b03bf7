/**
 * The vault management API that the Bitwarden client talks to, as an in-memory server that
 * keeps its collections, items and uploads and records every request it receives, in order.
 * Only the request parameters and the response fields the client consumes are modelled.
 */
module Remote {
  import opened Wrappers
  import opened Text
  import opened BitwardenModels

  /** A collection of an organization, as listed under `data.data` or returned under `data`. */
  datatype Collection = Collection(organizationId: string, name: string, id: string)

  /** A stored item, as listed by an item search. */
  datatype RemoteItem = RemoteItem(id: string, item: ItemTemplate)

  /** An attachment upload: the bytes of the `file` part, attached to an item id. */
  datatype Upload = Upload(itemId: string, file: seq<bv8>)

  /** One entry of a new collection's `groups` list. */
  datatype GroupAccess = GroupAccess(id: string, readOnly: bool, hidePasswords: bool)

  /** Everything the server stores; `nextId` numbers the objects it creates. */
  datatype Store = Store(collections: seq<Collection>, items: seq<RemoteItem>, uploads: seq<Upload>, nextId: nat)

  const EmptyStore := Store([], [], [], 0)

  /** One request of the client, with the data it carries. */
  datatype Call =
    | UnlockCall(password: string)
    | ListCollectionsCall(organizationId: string)
    | CreateCollectionCall(organizationId: string, name: string, groups: seq<GroupAccess>)
    | SearchItemsCall(searchOrganizationId: Option<string>, collectionId: string, search: Option<string>)
    | CreateItemCall(item: ItemTemplate)
    | DeleteItemCall(itemId: string)
    | AddAttachmentCall(itemId: string, file: seq<bv8>)

  datatype Verb = Get | Post | Delete

  /** The HTTP verb each request is sent with. */
  function VerbOf(c: Call): Verb {
    match c
    case ListCollectionsCall(_) => Get
    case SearchItemsCall(_, _, _) => Get
    case DeleteItemCall(_) => Delete
    case _ => Post
  }

  /** How many requests of a trace use `verb`. */
  function Count(trace: seq<Call>, verb: Verb): (n: nat)
    ensures n <= |trace|
  {
    if trace == [] then 0
    else Count(trace[..|trace| - 1], verb) + (if VerbOf(trace[|trace| - 1]) == verb then 1 else 0)
  }

  lemma {:induction false} CountAppend(a: seq<Call>, b: seq<Call>, verb: Verb)
    ensures Count(a + b, verb) == Count(a, verb) + Count(b, verb)
    decreases |b|
  {
    if b == [] {
      assert a + b == a;
    } else {
      assert (a + b)[..|a + b| - 1] == a + b[..|b| - 1];
      CountAppend(a, b[..|b| - 1], verb);
    }
  }

  /** One more request adds one to the count of its own verb and nothing to the others. */
  lemma CountSnoc(trace: seq<Call>, c: Call, verb: Verb)
    ensures Count(trace + [c], verb) == Count(trace, verb) + (if VerbOf(c) == verb then 1 else 0)
  {
    assert (trace + [c])[..|trace|] == trace;
  }

  /** Requests appended after `a` that all use other verbs leave the count of `verb` as it was. */
  lemma {:induction false} CountUnmoved(a: seq<Call>, b: seq<Call>, verb: Verb)
    requires |a| <= |b| && b[..|a|] == a
    requires forall c :: c in b[|a|..] ==> VerbOf(c) != verb
    ensures Count(b, verb) == Count(a, verb)
    decreases |b|
  {
    if |a| < |b| {
      var init := b[..|b| - 1];
      assert init[..|a|] == a;
      assert b[|a|..] == init[|a|..] + [b[|b| - 1]];
      CountUnmoved(a, init, verb);
    } else {
      assert b == a;
    }
  }

  /** The id the server gives to the `n`-th object it creates: an opaque text, never a bare number. */
  function IdFor(n: nat): (id: string)
    ensures |id| > 0 && !('0' <= id[0] <= '9')
  {
    "id" + NatToString(n)
  }

  /** An id the server generates is never the decimal text of a number. */
  lemma IdIsNotDecimal(n: nat, k: nat)
    ensures IdFor(n) != NatToString(k)
  {
    assert NatToString(k)[0] != IdFor(n)[0];
  }

  /** The number a server id was generated from, or `None` for any text the server never generates. */
  function ParseId(id: string): (r: Option<nat>)
    ensures r.Some? ==> IdFor(r.value) == id
  {
    if |id| > 2 && id[..2] == "id" && (forall k :: 2 <= k < |id| ==> '0' <= id[k] <= '9')
       && IdFor(DigitsValue(id[2..])) == id
    then Some(DigitsValue(id[2..]))
    else None
  }

  /** Every generated id parses back to the number it was generated from. */
  lemma ParseIdFor(n: nat)
    ensures ParseId(IdFor(n)) == Some(n)
  {
    var id := IdFor(n);
    assert id[..2] == "id" && id[2..] == NatToString(n);
    NatToStringValue(n);
  }

  /** Different numbers give different server ids. */
  lemma IdForInjective(m: nat, n: nat)
    ensures IdFor(m) == IdFor(n) ==> m == n
  {
    ParseIdFor(m);
    ParseIdFor(n);
  }

  /** `id` was generated by the server before its counter reached `next`. */
  predicate IdBelow(id: string, next: nat) {
    ParseId(id).Some? && ParseId(id).value < next
  }

  /** Every stored collection and item carries an id the server generated earlier. */
  predicate Numbered(st: Store) {
    && (forall c :: c in st.collections ==> IdBelow(c.id, st.nextId))
    && (forall y :: y in st.items ==> IdBelow(y.id, st.nextId))
  }

  /** In a numbered store, the next id the server will generate is carried by nothing stored. */
  lemma NextIdFresh(st: Store)
    requires Numbered(st)
    ensures forall c :: c in st.collections ==> c.id != IdFor(st.nextId)
    ensures forall y :: y in st.items ==> y.id != IdFor(st.nextId)
  {
    ParseIdFor(st.nextId);
  }

  /** Storing an object under the next id and advancing the counter keeps the store numbered. */
  lemma NumberedAdvance(st: Store, cs: seq<Collection>, items: seq<RemoteItem>)
    requires Numbered(st)
    requires forall c :: c in cs ==> c in st.collections || c.id == IdFor(st.nextId)
    requires forall y :: y in items ==> y in st.items || y.id == IdFor(st.nextId)
    ensures Numbered(st.(collections := cs, items := items, nextId := st.nextId + 1))
  {
    ParseIdFor(st.nextId);
  }

  /** Dropping items, or recording uploads, keeps the store numbered. */
  lemma NumberedShrink(st: Store, items: seq<RemoteItem>, uploads: seq<Upload>)
    requires Numbered(st)
    requires forall y :: y in items ==> y in st.items
    ensures Numbered(st.(items := items, uploads := uploads))
  {
  }

  /** An item whose collection ids are all server ids is never listed by a search for an index key. */
  lemma TaggedNeverListed(y: RemoteItem, org: Option<string>, k: nat, search: Option<string>)
    requires y.item.collectionId.Some?
    requires forall c :: c in y.item.collectionId.value ==> ParseId(c).Some?
    ensures !Listed(y, org, NatToString(k), search)
  {
    if NatToString(k) in y.item.collectionId.value {
      IdIsNotDecimal(ParseId(NatToString(k)).value, k);
    }
  }

  /** `GET /list/object/org-collections`: the collections of one organization, in store order. */
  function OrgCollections(cs: seq<Collection>, org: string): (r: seq<Collection>)
    ensures forall c :: c in r <==> c in cs && c.organizationId == org
  {
    if cs == [] then []
    else
      var rest := OrgCollections(cs[..|cs| - 1], org);
      var last := cs[|cs| - 1];
      assert forall c :: c in cs <==> c in cs[..|cs| - 1] || c == last by {
        assert cs == cs[..|cs| - 1] + [last];
      }
      if last.organizationId == org then rest + [last] else rest
  }

  predicate OccursAt(s: string, q: string, i: nat) {
    i + |q| <= |s| && s[i..i + |q|] == q
  }

  /** The search text occurs somewhere in the name. */
  predicate Contains(s: string, q: string) {
    exists i: nat | i <= |s| :: OccursAt(s, q, i)
  }

  /** The filter of `GET /list/object/items`; a parameter the client leaves undefined does not filter. */
  predicate Listed(r: RemoteItem, org: Option<string>, collectionId: string, search: Option<string>) {
    && (org.None? || r.item.organizationId == org)
    && r.item.collectionId.Some? && collectionId in r.item.collectionId.value
    && (search.None? || (r.item.name.Some? && Contains(r.item.name.value, search.value)))
  }

  /** The items an item search lists, in store order. */
  function Search(items: seq<RemoteItem>, org: Option<string>, collectionId: string, search: Option<string>): (r: seq<RemoteItem>)
    ensures forall x :: x in r <==> x in items && Listed(x, org, collectionId, search)
  {
    if items == [] then []
    else
      var rest := Search(items[..|items| - 1], org, collectionId, search);
      var last := items[|items| - 1];
      assert forall x :: x in items <==> x in items[..|items| - 1] || x == last by {
        assert items == items[..|items| - 1] + [last];
      }
      if Listed(last, org, collectionId, search) then rest + [last] else rest
  }

  /** The items left after deleting one id. */
  function Without(items: seq<RemoteItem>, id: string): (r: seq<RemoteItem>)
    ensures forall x :: x in r <==> x in items && x.id != id
  {
    if items == [] then []
    else
      var rest := Without(items[..|items| - 1], id);
      var last := items[|items| - 1];
      assert forall x :: x in items <==> x in items[..|items| - 1] || x == last by {
        assert items == items[..|items| - 1] + [last];
      }
      if last.id == id then rest else rest + [last]
  }

  /**
   * A stand-in for `bw serve`: every method answers one request, updates the store as the
   * API does, and appends the request to `trace`.
   */
  class Server {
    var store: Store
    var trace: seq<Call>

    constructor (store: Store)
      ensures this.store == store && trace == []
    {
      this.store := store;
      trace := [];
    }

    method Unlock(password: string)
      modifies this
      ensures store == old(store) && trace == old(trace) + [UnlockCall(password)]
    {
      trace := trace + [UnlockCall(password)];
    }

    method ListCollections(org: string) returns (listed: seq<Collection>)
      modifies this
      ensures store == old(store) && trace == old(trace) + [ListCollectionsCall(org)]
      ensures listed == OrgCollections(store.collections, org)
    {
      trace := trace + [ListCollectionsCall(org)];
      listed := OrgCollections(store.collections, org);
    }

    method CreateCollection(org: string, name: string, groups: seq<GroupAccess>) returns (created: Collection)
      modifies this
      ensures created == Collection(org, name, IdFor(old(store.nextId)))
      ensures store == old(store).(collections := old(store.collections) + [created], nextId := old(store.nextId) + 1)
      ensures trace == old(trace) + [CreateCollectionCall(org, name, groups)]
      ensures Numbered(old(store)) ==> Numbered(store) && forall c :: c in old(store.collections) ==> c.id != created.id
    {
      trace := trace + [CreateCollectionCall(org, name, groups)];
      created := Collection(org, name, IdFor(store.nextId));
      if Numbered(store) {
        NextIdFresh(store);
        NumberedAdvance(store, store.collections + [created], store.items);
      }
      store := store.(collections := store.collections + [created], nextId := store.nextId + 1);
    }

    method SearchItems(org: Option<string>, collectionId: string, search: Option<string>) returns (listed: seq<RemoteItem>)
      modifies this
      ensures store == old(store) && trace == old(trace) + [SearchItemsCall(org, collectionId, search)]
      ensures listed == Search(store.items, org, collectionId, search)
    {
      trace := trace + [SearchItemsCall(org, collectionId, search)];
      listed := Search(store.items, org, collectionId, search);
    }

    method CreateItem(item: ItemTemplate) returns (id: string)
      modifies this
      ensures id == IdFor(old(store.nextId))
      ensures store == old(store).(items := old(store.items) + [RemoteItem(id, item)], nextId := old(store.nextId) + 1)
      ensures trace == old(trace) + [CreateItemCall(item)]
      ensures Numbered(old(store)) ==> Numbered(store) && forall y :: y in old(store.items) ==> y.id != id
    {
      trace := trace + [CreateItemCall(item)];
      id := IdFor(store.nextId);
      if Numbered(store) {
        NextIdFresh(store);
        NumberedAdvance(store, store.collections, store.items + [RemoteItem(id, item)]);
      }
      store := store.(items := store.items + [RemoteItem(id, item)], nextId := store.nextId + 1);
    }

    method DeleteItem(id: string)
      modifies this
      ensures store == old(store).(items := Without(old(store.items), id))
      ensures trace == old(trace) + [DeleteItemCall(id)]
      ensures Numbered(old(store)) ==> Numbered(store)
    {
      trace := trace + [DeleteItemCall(id)];
      store := store.(items := Without(store.items, id));
    }

    method AddAttachment(itemId: string, file: seq<bv8>)
      modifies this
      ensures store == old(store).(uploads := old(store.uploads) + [Upload(itemId, file)])
      ensures trace == old(trace) + [AddAttachmentCall(itemId, file)]
      ensures Numbered(old(store)) ==> Numbered(store)
    {
      trace := trace + [AddAttachmentCall(itemId, file)];
      store := store.(uploads := store.uploads + [Upload(itemId, file)]);
    }
  }
}
