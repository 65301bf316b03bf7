/**
 * The migration: mapping one KeePass entry to a Bitwarden item, unwrapping its attachments,
 * and running the whole transfer against the two clients.
 */
module Migration {
  import opened Wrappers
  import opened Text
  import opened Kdbx
  import opened BitwardenModels
  import OtpAuth
  import opened Keepass
  import opened Remote
  import opened Bitwarden

  /** The five field names the item schema has a place for; every other field becomes custom. */
  const Reserved: set<string> := {"Title", "UserName", "Password", "URL", "Notes"}

  predicate IsReserved(name: string) {
    name in Reserved
  }

  /** The `match` value given to the single login URI. */
  const UriMatch: string := "0"

  /**
   * `_getText`: the text of a field value, decrypted when protected. `decode` is kdbxweb's
   * UTF-8 decoding of the unmasked bytes.
   */
  function GetText(v: FieldValue, decode: seq<byte> -> string): (s: string)
    ensures v.Plain? ==> s == v.text
    ensures v.Protected? ==> s == decode(GetBinary(v.secret))
  {
    match v
    case Plain(text) => text
    case Protected(secret) => decode(GetBinary(secret))
  }

  /** A text protected with any salt reads back as itself, provided `decode` undoes `encode`. */
  lemma ProtectedTextRoundTrip(text: string, salt: seq<byte>, encode: string -> seq<byte>, decode: seq<byte> -> string)
    requires forall t :: decode(encode(t)) == t
    requires |salt| == |encode(text)|
    ensures GetText(Protected(FromBinary(encode(text), salt)), decode) == text
  {
    BinaryRoundTrip(encode(text), salt);
  }

  /** `Map.get`: the value stored under `key`, if any. */
  function Lookup(fields: seq<(string, FieldValue)>, key: string): (r: Option<FieldValue>)
    ensures r.None? <==> forall i :: 0 <= i < |fields| ==> fields[i].0 != key
    ensures r.Some? ==> (key, r.value) in fields
  {
    if fields == [] then None
    else if fields[0].0 == key then Some(fields[0].1)
    else Lookup(fields[1..], key)
  }

  /**
   * The keys of an entry's field map: the first component of each stored pair, the set
   * `Map.keys()` walks (not a plain `Text.Elements`, since the map holds key/value pairs).
   */
  function Keys(fields: seq<(string, FieldValue)>): set<string> {
    set i | 0 <= i < |fields| :: fields[i].0
  }

  /** In a `Map`, `get` finds exactly the pair stored under the key. */
  lemma {:induction false} LookupFinds(fields: seq<(string, FieldValue)>, key: string, v: FieldValue)
    requires DistinctKeys(fields)
    ensures Lookup(fields, key) == Some(v) <==> (key, v) in fields
  {
    if fields != [] && fields[0].0 != key {
      assert DistinctKeys(fields[1..]);
      LookupFinds(fields[1..], key, v);
      assert (key, v) in fields ==> (key, v) in fields[1..] by {
        if (key, v) in fields {
          var i :| 0 <= i < |fields| && fields[i] == (key, v);
          assert i > 0 && fields[1..][i - 1] == (key, v);
        }
      }
    } else if fields != [] {
      if (key, v) in fields {
        var i :| 0 <= i < |fields| && fields[i] == (key, v);
        assert i == 0;
      }
    }
  }

  /** One custom field: plain strings are copied as text ('0'), protected ones decrypted as hidden ('1'). */
  function ToField(pair: (string, FieldValue), decode: seq<byte> -> string): (f: Field)
    ensures f.name == pair.0
    ensures pair.1.Plain? ==> f.value == pair.1.text && f.fieldType == Text
    ensures pair.1.Protected? ==> f.value == decode(GetBinary(pair.1.secret)) && f.fieldType == Hidden
  {
    Field(pair.0, GetText(pair.1, decode), if pair.1.Plain? then Text else Hidden)
  }

  /** The custom fields, in key order: one per field whose name is not reserved. */
  function CustomFields(fields: seq<(string, FieldValue)>, decode: seq<byte> -> string): seq<Field>
    decreases |fields|
  {
    if fields == [] then []
    else
      var last := fields[|fields| - 1];
      CustomFields(fields[..|fields| - 1], decode) + (if IsReserved(last.0) then [] else [ToField(last, decode)])
  }

  lemma {:induction false} CustomFieldsAppend(a: seq<(string, FieldValue)>, b: seq<(string, FieldValue)>, decode: seq<byte> -> string)
    ensures CustomFields(a + b, decode) == CustomFields(a, decode) + CustomFields(b, decode)
    decreases |b|
  {
    if b != [] {
      var b' := b[..|b| - 1];
      assert (a + b)[..|a + b| - 1] == a + b';
      CustomFieldsAppend(a, b', decode);
    } else {
      assert a + b == a;
    }
  }

  /**
   * Where each field lands: the pair at index `i`, when its name is not reserved, gives the
   * custom field at position `|CustomFields(fields[..i])|`, the number of non-reserved pairs
   * before it, so custom fields keep the source key order.
   */
  lemma CustomFieldAt(fields: seq<(string, FieldValue)>, i: nat, decode: seq<byte> -> string)
    requires i < |fields| && !IsReserved(fields[i].0)
    ensures var k := |CustomFields(fields[..i], decode)|;
      k < |CustomFields(fields, decode)| && CustomFields(fields, decode)[k] == ToField(fields[i], decode)
  {
    assert fields == fields[..i] + [fields[i]] + fields[i + 1..];
    CustomFieldsAppend(fields[..i] + [fields[i]], fields[i + 1..], decode);
    CustomFieldsAppend(fields[..i], [fields[i]], decode);
    assert CustomFields([fields[i]], decode) == [ToField(fields[i], decode)] by {
      assert [fields[i]][..0] == [];
    }
  }

  /** Every custom field comes from a non-reserved pair of the entry. */
  lemma {:induction false} CustomFieldsFrom(fields: seq<(string, FieldValue)>, decode: seq<byte> -> string)
    ensures forall f :: f in CustomFields(fields, decode) ==>
      !IsReserved(f.name) && exists i :: 0 <= i < |fields| && f == ToField(fields[i], decode)
    decreases |fields|
  {
    if fields != [] {
      var init := fields[..|fields| - 1];
      CustomFieldsFrom(init, decode);
      forall f | f in CustomFields(fields, decode)
        ensures !IsReserved(f.name) && exists i :: 0 <= i < |fields| && f == ToField(fields[i], decode)
      {
        if f in CustomFields(init, decode) {
          var i :| 0 <= i < |init| && f == ToField(init[i], decode);
          assert fields[i] == init[i];
        } else {
          assert f == ToField(fields[|fields| - 1], decode);
        }
      }
    }
  }

  /** The names of the entry's fields that are not reserved. */
  function CustomKeys(fields: seq<(string, FieldValue)>): set<string> {
    set i | 0 <= i < |fields| && !IsReserved(fields[i].0) :: fields[i].0
  }

  /** With distinct keys there is exactly one custom field per non-reserved key. */
  lemma {:induction false} CustomFieldsCount(fields: seq<(string, FieldValue)>, decode: seq<byte> -> string)
    requires DistinctKeys(fields)
    ensures |CustomFields(fields, decode)| == |CustomKeys(fields)|
    decreases |fields|
  {
    if fields == [] {
      assert CustomKeys(fields) == {};
    } else {
      var init := fields[..|fields| - 1];
      assert DistinctKeys(init);
      CustomFieldsCount(init, decode);
      CustomKeysSnoc(fields);
      LastKeyIsNew(fields);
    }
  }

  lemma CustomKeysSnoc(fields: seq<(string, FieldValue)>)
    requires fields != []
    ensures var last := fields[|fields| - 1];
      CustomKeys(fields) == CustomKeys(fields[..|fields| - 1]) + (if IsReserved(last.0) then {} else {last.0})
  {
    var init := fields[..|fields| - 1];
    var last := fields[|fields| - 1];
    forall k | k in CustomKeys(fields) ensures k in CustomKeys(init) || (k == last.0 && !IsReserved(k)) {
      var i :| 0 <= i < |fields| && !IsReserved(fields[i].0) && fields[i].0 == k;
      if i < |init| { assert init[i] == fields[i]; }
    }
    forall k | k in CustomKeys(init) ensures k in CustomKeys(fields) {
      var i :| 0 <= i < |init| && !IsReserved(init[i].0) && init[i].0 == k;
      assert fields[i] == init[i];
    }
  }

  lemma LastKeyIsNew(fields: seq<(string, FieldValue)>)
    requires fields != [] && DistinctKeys(fields)
    ensures fields[|fields| - 1].0 !in CustomKeys(fields[..|fields| - 1])
  {
    var init := fields[..|fields| - 1];
    forall i | 0 <= i < |init| ensures init[i].0 != fields[|fields| - 1].0 {
      assert init[i] == fields[i];
    }
  }

  /** What the login's `totp` is set to from the text of an `otp` field. */
  function TotpText(text: string): (r: string)
    ensures OtpAuth.Secret(text).Some? ==> r == OtpAuth.Secret(text).value
    ensures OtpAuth.Secret(text).None? ==> r == text
  {
    match OtpAuth.Secret(text)
    case Some(secret) => secret
    case None => text
  }

  /** `_getText(undefined)` throws: reading a field the entry does not have fails. */
  datatype ConvertError = MissingField(key: string)

  /** The item `convertToBitwarden` builds, or the error it throws. */
  function ItemFor(organizationId: string, collectionId: string, entry: Entry, decode: seq<byte> -> string): Result<ItemTemplate, ConvertError> {
    var fs := entry.fields;
    if Lookup(fs, "Title").None? then Failure(MissingField("Title"))
    else if Lookup(fs, "UserName").None? then Failure(MissingField("UserName"))
    else if Lookup(fs, "Password").None? then Failure(MissingField("Password"))
    else
      var totp := match Lookup(fs, "otp")
        case Some(v) => Some(TotpText(GetText(v, decode)))
        case None => None;
      var uris := match Lookup(fs, "URL")
        case Some(v) => Some([Uri(GetText(v, decode), UriMatch)])
        case None => None;
      var login := ItemLogin(
        uris := uris,
        username := Some(GetText(Lookup(fs, "UserName").value, decode)),
        password := Some(GetText(Lookup(fs, "Password").value, decode)),
        totp := totp);
      var notes := match Lookup(fs, "Notes")
        case Some(v) => Some(GetText(v, decode))
        case None => NewItemTemplate.notes;
      Success(NewItemTemplate.(
        organizationId := Some(organizationId),
        collectionId := Some([collectionId]),
        login := Some(login),
        fields := Some(CustomFields(fs, decode)),
        name := Some(GetText(Lookup(fs, "Title").value, decode)),
        notes := notes))
  }

  /**
   * `convertToBitwarden`: fills a fresh template field by field and pushes the custom fields
   * one key at a time.
   */
  method ConvertToBitwarden(organizationId: string, collectionId: string, entry: Entry, decode: seq<byte> -> string)
    returns (r: Result<ItemTemplate, ConvertError>)
    ensures r == ItemFor(organizationId, collectionId, entry, decode)
  {
    var fs := entry.fields;
    var title := Lookup(fs, "Title");
    if title.None? { return Failure(MissingField("Title")); }
    var username := Lookup(fs, "UserName");
    if username.None? { return Failure(MissingField("UserName")); }
    var password := Lookup(fs, "Password");
    if password.None? { return Failure(MissingField("Password")); }
    var returnItem := NewItemTemplate.(organizationId := Some(organizationId), collectionId := Some([collectionId]));
    var login := NewItemLogin;
    var fields: seq<Field> := [];
    returnItem := returnItem.(name := Some(GetText(title.value, decode)));
    login := login.(username := Some(GetText(username.value, decode)));
    login := login.(password := Some(GetText(password.value, decode)));
    var otp := Lookup(fs, "otp");
    if otp.Some? {
      var totp := GetText(otp.value, decode);
      var matches := OtpAuth.Secret(totp);
      if matches.Some? {
        totp := matches.value;
      }
      login := login.(totp := Some(totp));
    }
    var url := Lookup(fs, "URL");
    if url.Some? {
      login := login.(uris := Some([Uri(GetText(url.value, decode), UriMatch)]));
    }
    var notes := Lookup(fs, "Notes");
    if notes.Some? {
      returnItem := returnItem.(notes := Some(GetText(notes.value, decode)));
    }
    fields := CollectCustomFields(fs, decode);
    r := Success(returnItem.(login := Some(login), fields := Some(fields)));
  }

  /** The loop of `convertToBitwarden` that pushes one custom field per non-reserved key. */
  method CollectCustomFields(fs: seq<(string, FieldValue)>, decode: seq<byte> -> string) returns (fields: seq<Field>)
    ensures fields == CustomFields(fs, decode)
  {
    fields := [];
    var i := 0;
    while i < |fs|
      invariant 0 <= i <= |fs|
      invariant fields == CustomFields(fs[..i], decode)
    {
      var pair := fs[i];
      assert fs[..i + 1][..i] == fs[..i] && fs[..i + 1][i] == pair;
      if !IsReserved(pair.0) {
        var field := Field(pair.0, "", Text);
        match pair.1 {
          case Plain(text) =>
            field := field.(value := text, fieldType := Text);
          case Protected(secret) =>
            field := field.(value := decode(GetBinary(secret)), fieldType := Hidden);
        }
        assert field == ToField(pair, decode);
        fields := fields + [field];
      }
      i := i + 1;
    }
    assert fs[..i] == fs;
  }

  /**
   * The field-mapping policy, stated against the entry's own pairs: the item exists exactly
   * when Title, UserName and Password are present; it carries the organization and the one
   * collection id; name, username and password are the resolved texts of those three fields;
   * `totp` is the `secret` of an otpauth URI or else the raw text, and unset without `otp`;
   * `URL` gives exactly one URI with match '0', and no URIs without it; notes default to ''.
   */
  lemma ItemForSpec(organizationId: string, collectionId: string, entry: Entry, decode: seq<byte> -> string)
    requires DistinctKeys(entry.fields)
    ensures var fs := entry.fields; var r := ItemFor(organizationId, collectionId, entry, decode);
      && (r.Success? <==> {"Title", "UserName", "Password"} <= Keys(fs))
      && (r.Success? ==>
        var item := r.value;
        && item.organizationId == Some(organizationId)
        && item.collectionId == Some([collectionId])
        && item.itemType.None? && item.folderId.None? && item.favorite.None? && item.reprompt.None?
        && item.fields == Some(CustomFields(fs, decode))
        && item.login.Some?
        && (forall v :: ("Title", v) in fs ==> item.name == Some(GetText(v, decode)))
        && (forall v :: ("UserName", v) in fs ==> item.login.value.username == Some(GetText(v, decode)))
        && (forall v :: ("Password", v) in fs ==> item.login.value.password == Some(GetText(v, decode)))
        && (forall v :: ("otp", v) in fs ==> item.login.value.totp == Some(TotpText(GetText(v, decode))))
        && ("otp" !in Keys(fs) ==> item.login.value.totp.None?)
        && (forall v :: ("URL", v) in fs ==> item.login.value.uris == Some([Uri(GetText(v, decode), UriMatch)]))
        && ("URL" !in Keys(fs) ==> item.login.value.uris.None?)
        && (forall v :: ("Notes", v) in fs ==> item.notes == Some(GetText(v, decode)))
        && ("Notes" !in Keys(fs) ==> item.notes == Some("")))
  {
    var fs := entry.fields;
    forall key | key in {"Title", "UserName", "Password", "otp", "URL", "Notes"}
      ensures Lookup(fs, key).None? <==> key !in Keys(fs)
      ensures forall v :: Lookup(fs, key) == Some(v) <==> (key, v) in fs
    {
      forall v ensures Lookup(fs, key) == Some(v) <==> (key, v) in fs {
        LookupFinds(fs, key, v);
      }
      if key in Keys(fs) {
        var i :| 0 <= i < |fs| && fs[i].0 == key;
      }
    }
  }

  /** An attachment as uploaded: the bytes of the `file` part. */
  type Attachment = seq<byte>

  /** The bytes of a stored binary: unwrap the hash wrapper if any, then the protection if any. */
  function Payload(b: EntryBinary): (bytes: seq<byte>)
    ensures b.binary.RawBinary? ==> bytes == b.binary.bytes
    ensures b.binary.ProtectedBinary? ==> bytes == GetBinary(b.binary.secret)
  {
    var inner := match b
      case WithHash(_, v) => v
      case Bare(v) => v;
    match inner
    case ProtectedBinary(secret) => GetBinary(secret)
    case RawBinary(bytes) => bytes
  }

  /** Whatever the wrapping, an attachment protected with any salt uploads its original bytes. */
  lemma PayloadRoundTrip(bytes: seq<byte>, salt: seq<byte>, hash: string)
    requires |salt| == |bytes|
    ensures Payload(WithHash(hash, ProtectedBinary(FromBinary(bytes, salt)))) == bytes
    ensures Payload(Bare(ProtectedBinary(FromBinary(bytes, salt)))) == bytes
    ensures Payload(WithHash(hash, RawBinary(bytes))) == bytes
  {
    BinaryRoundTrip(bytes, salt);
  }

  function AttachmentsOf(entry: Entry): seq<Attachment> {
    seq(|entry.binaries|, i requires 0 <= i < |entry.binaries| => Payload(entry.binaries[i].1))
  }

  /** `getAttachments`: one attachment per stored binary, in the order the entry keeps them. */
  method GetAttachments(entry: Entry) returns (attachments: seq<Attachment>)
    ensures |attachments| == |entry.binaries|
    ensures forall i :: 0 <= i < |attachments| ==> attachments[i] == Payload(entry.binaries[i].1)
  {
    attachments := [];
    var i := 0;
    while i < |entry.binaries|
      invariant 0 <= i <= |entry.binaries|
      invariant |attachments| == i
      invariant forall k :: 0 <= k < i ==> attachments[k] == Payload(entry.binaries[k].1)
    {
      var binary := entry.binaries[i].1;
      var inner := binary.binary;
      var bytes: seq<byte>;
      if inner.ProtectedBinary? {
        bytes := GetBinary(inner.secret);
      } else {
        bytes := inner.bytes;
      }
      attachments := attachments + [bytes];
      i := i + 1;
    }
  }

  /** Why a migration stops: the database does not load, or an entry lacks a required field. */
  datatype MigrateError = LoadFailed(loadError: LoadError) | ConvertFailed(convertError: ConvertError)

  /** What `getPasswords` yields for a database source. */
  function Loaded(source: Result<Database, LoadError>): Result<seq<PasswordEntry>, LoadError> {
    match source
    case Success(db) => Success(Passwords(db))
    case Failure(e) => Failure(e)
  }

  /** `passwords.map((entry) => entry.collectionName)`. */
  function CollectionNames(ps: seq<PasswordEntry>): seq<string> {
    seq(|ps|, i requires 0 <= i < |ps| => ps[i].collectionName)
  }

  /** `[...new Set(names.sort())]`: the collection paths, sorted and without repeats. */
  function CollectionPaths(ps: seq<PasswordEntry>): seq<string> {
    SortedDistinct(CollectionNames(ps))
  }

  /** The uploads of one item's attachments, in order. */
  function Uploads(s: State, itemId: string, files: seq<Attachment>, dryrun: bool): State
    decreases |files|
  {
    if files == [] then s
    else AttachStep(Uploads(s, itemId, files[..|files| - 1], dryrun), itemId, files[|files| - 1], dryrun)
  }

  /** What `convertToBitwarden` makes of an entry, given the collection map of `migrate`. */
  function Converted(org: string, ids: map<string, string>, p: PasswordEntry, decode: seq<byte> -> string): Result<ItemTemplate, ConvertError>
    requires p.collectionName in ids
  {
    ItemFor(org, ids[p.collectionName], p.entry, decode)
  }

  /** One turn of the entry loop of `migrate`: after the conversion, create the item and upload the attachments with the returned id. */
  function EntryStep(s: State, converted: Result<ItemTemplate, ConvertError>, files: seq<Attachment>, dryrun: bool): (State, Outcome<ConvertError>) {
    match converted
    case Failure(e) => (s, Fail(e))
    case Success(item) =>
      var created := ItemStep(s, item, dryrun);
      (Uploads(created.0, created.1, files, dryrun), Pass)
  }

  predicate Mapped(ps: seq<PasswordEntry>, ids: map<string, string>) {
    forall i :: 0 <= i < |ps| ==> ps[i].collectionName in ids
  }

  /** The entry loop of `migrate` over `ps`, stopping at the first entry that fails to convert. */
  function EntriesRun(s: State, org: string, ids: map<string, string>, ps: seq<PasswordEntry>, decode: seq<byte> -> string, dryrun: bool): (State, Outcome<ConvertError>)
    requires Mapped(ps, ids)
    decreases |ps|
  {
    if ps == [] then (s, Pass)
    else
      var before := EntriesRun(s, org, ids, ps[..|ps| - 1], decode, dryrun);
      if before.1.Fail? then before
      else EntryStep(before.0, Converted(org, ids, ps[|ps| - 1], decode), AttachmentsOf(ps[|ps| - 1].entry), dryrun)
  }

  /** Once an entry fails to convert, the entries after it change nothing: `migrate` has thrown. */
  lemma {:induction false} EntriesRunStops(s: State, org: string, ids: map<string, string>, ps: seq<PasswordEntry>, k: nat,
                                           decode: seq<byte> -> string, dryrun: bool)
    requires Mapped(ps, ids) && k <= |ps|
    requires EntriesRun(s, org, ids, ps[..k], decode, dryrun).1.Fail?
    ensures EntriesRun(s, org, ids, ps, decode, dryrun) == EntriesRun(s, org, ids, ps[..k], decode, dryrun)
    decreases |ps|
  {
    if k < |ps| {
      var init := ps[..|ps| - 1];
      assert init[..k] == ps[..k];
      EntriesRunStops(s, org, ids, init, k, decode, dryrun);
    } else {
      assert ps[..k] == ps;
    }
  }

  /** One more turn of the entry loop after a run of entries that all went through. */
  lemma EntriesRunNext(s: State, org: string, ids: map<string, string>, ps: seq<PasswordEntry>, i: nat,
                       decode: seq<byte> -> string, dryrun: bool)
    requires Mapped(ps, ids) && i < |ps|
    ensures Mapped(ps[..i], ids) && Mapped(ps[..i + 1], ids)
    ensures var before := EntriesRun(s, org, ids, ps[..i], decode, dryrun);
      before.1.Pass? ==>
        var after := EntryStep(before.0, Converted(org, ids, ps[i], decode), AttachmentsOf(ps[i].entry), dryrun);
        && EntriesRun(s, org, ids, ps[..i + 1], decode, dryrun) == after
        && (after.1.Fail? ==> EntriesRun(s, org, ids, ps, decode, dryrun) == after)
  {
    assert ps[..i + 1][..i] == ps[..i];
    var before := EntriesRun(s, org, ids, ps[..i], decode, dryrun);
    var after := EntryStep(before.0, Converted(org, ids, ps[i], decode), AttachmentsOf(ps[i].entry), dryrun);
    if before.1.Pass? && after.1.Fail? {
      EntriesRunStops(s, org, ids, ps, i + 1, decode, dryrun);
    }
  }

  /** Every collection name of the entries is a key of a map that covers the collection paths. */
  lemma NamesMapped(ps: seq<PasswordEntry>, ids: map<string, string>)
    requires ids.Keys == Elements(CollectionPaths(ps))
    ensures Mapped(ps, ids)
  {
    forall i | 0 <= i < |ps| ensures ps[i].collectionName in ids {
      assert CollectionNames(ps)[i] == ps[i].collectionName;
    }
  }

  /** `migrate`: the new state and how it ended. */
  function MigrateRun(s: State, org: string, loaded: Result<seq<PasswordEntry>, LoadError>, groupIds: seq<string>,
                      decode: seq<byte> -> string, dryrun: bool): (State, Outcome<MigrateError>)
  {
    match loaded
    case Failure(e) => (s, Fail(LoadFailed(e)))
    case Success(ps) =>
      var collections := CollectionsRun(s, org, CollectionPaths(ps), groupIds, dryrun);
      CollectionsRunKeys(s, org, CollectionPaths(ps), groupIds, dryrun);
      NamesMapped(ps, collections.1);
      var entries := EntriesRun(collections.0, org, collections.1, ps, decode, dryrun);
      (entries.0, if entries.1.Fail? then Fail(ConvertFailed(entries.1.error)) else Pass)
  }

  /** A live upload loop sends one upload per attachment, in order, all under the given item id, and stores them. */
  lemma {:induction false} UploadsLive(s: State, itemId: string, files: seq<Attachment>)
    ensures var s' := Uploads(s, itemId, files, false);
      && s'.cache == s.cache
      && s'.store == s.store.(uploads := s'.store.uploads)
      && Extends(s.trace, s'.trace) && |s'.trace| == |s.trace| + |files|
      && (forall j :: 0 <= j < |files| ==> s'.trace[|s.trace| + j] == AddAttachmentCall(itemId, files[j]))
      && |s'.store.uploads| == |s.store.uploads| + |files|
      && (forall j :: 0 <= j < |files| ==> s'.store.uploads[|s.store.uploads| + j] == Upload(itemId, files[j]))
      && s'.store.uploads[..|s.store.uploads|] == s.store.uploads
    decreases |files|
  {
    if files != [] {
      var init := files[..|files| - 1];
      UploadsLive(s, itemId, init);
    }
  }

  /** A live upload loop sends `|files|` posts and nothing else. */
  lemma {:induction false} UploadsCount(s: State, itemId: string, files: seq<Attachment>, verb: Verb)
    ensures Count(Uploads(s, itemId, files, false).trace, verb) == Count(s.trace, verb) + (if verb == Post then |files| else 0)
    decreases |files|
  {
    if files != [] {
      var init := files[..|files| - 1];
      UploadsCount(s, itemId, init, verb);
      CountSnoc(Uploads(s, itemId, init, false).trace, AddAttachmentCall(itemId, files[|files| - 1]), verb);
    }
  }

  /** Under dry-run the upload loop sends and stores nothing. */
  lemma {:induction false} UploadsDry(s: State, itemId: string, files: seq<Attachment>)
    ensures Uploads(s, itemId, files, true) == s
    decreases |files|
  {
    if files != [] {
      UploadsDry(s, itemId, files[..|files| - 1]);
    }
  }

  /** The entry has the three fields `convertToBitwarden` reads unconditionally. */
  predicate Complete(e: Entry) {
    {"Title", "UserName", "Password"} <= Keys(e.fields)
  }

  /** An entry converts exactly when it is complete, whatever the organization and collection. */
  lemma ItemForSucceeds(organizationId: string, collectionId: string, entry: Entry, decode: seq<byte> -> string)
    ensures ItemFor(organizationId, collectionId, entry, decode).Success? <==> Complete(entry)
  {
    var fs := entry.fields;
    forall key | key in {"Title", "UserName", "Password"}
      ensures Lookup(fs, key).None? <==> key !in Keys(fs)
    {
      if key in Keys(fs) {
        var i :| 0 <= i < |fs| && fs[i].0 == key;
      }
    }
  }

  lemma EntryStepOutcome(s: State, converted: Result<ItemTemplate, ConvertError>, files: seq<Attachment>, dryrun: bool)
    ensures EntryStep(s, converted, files, dryrun).1 == if converted.Success? then Pass else Fail(converted.error)
  {
  }

  /** Every entry of the list is complete, read from the last entry backwards like the loop functions. */
  predicate AllComplete(ps: seq<PasswordEntry>)
    decreases |ps|
  {
    ps == [] || (AllComplete(ps[..|ps| - 1]) && Complete(ps[|ps| - 1].entry))
  }

  lemma {:induction false} AllCompleteEach(ps: seq<PasswordEntry>)
    ensures AllComplete(ps) <==> forall i :: 0 <= i < |ps| ==> Complete(ps[i].entry)
    decreases |ps|
  {
    if ps != [] {
      var init := ps[..|ps| - 1];
      AllCompleteEach(init);
      assert forall i :: 0 <= i < |init| ==> ps[i] == init[i];
    }
  }

  /** The entry loop goes through exactly when every entry converts. */
  lemma {:induction false} EntriesRunPasses(s: State, org: string, ids: map<string, string>, ps: seq<PasswordEntry>,
                                            decode: seq<byte> -> string, dryrun: bool)
    requires Mapped(ps, ids)
    ensures EntriesRun(s, org, ids, ps, decode, dryrun).1.Pass? <==> AllComplete(ps)
    decreases |ps|
  {
    if ps != [] {
      var init := ps[..|ps| - 1];
      var last := ps[|ps| - 1];
      assert Mapped(init, ids);
      EntriesRunPasses(s, org, ids, init, decode, dryrun);
      var before := EntriesRun(s, org, ids, init, decode, dryrun);
      if before.1.Pass? {
        var converted := Converted(org, ids, last, decode);
        EntryStepOutcome(before.0, converted, AttachmentsOf(last.entry), dryrun);
        ItemForSucceeds(org, ids[last.collectionName], last.entry, decode);
      }
    }
  }

  /** A failed entry loop reports the error of the first entry that does not convert. */
  lemma {:induction false} EntriesRunFailure(s: State, org: string, ids: map<string, string>, ps: seq<PasswordEntry>,
                                             decode: seq<byte> -> string, dryrun: bool)
    requires Mapped(ps, ids)
    ensures var r := EntriesRun(s, org, ids, ps, decode, dryrun);
      r.1.Fail? ==>
        exists i :: 0 <= i < |ps| && Converted(org, ids, ps[i], decode) == Failure(r.1.error) &&
          forall j :: 0 <= j < i ==> Complete(ps[j].entry)
    decreases |ps|
  {
    if ps != [] {
      var init := ps[..|ps| - 1];
      assert Mapped(init, ids);
      assert forall i :: 0 <= i < |init| ==> ps[i] == init[i];
      var before := EntriesRun(s, org, ids, init, decode, dryrun);
      if before.1.Fail? {
        EntriesRunFailure(s, org, ids, init, decode, dryrun);
      } else {
        EntriesRunPasses(s, org, ids, init, decode, dryrun);
        AllCompleteEach(init);
      }
    }
  }

  /** Under dry-run the entry loop sends and stores nothing. */
  lemma {:induction false} EntriesRunDry(s: State, org: string, ids: map<string, string>, ps: seq<PasswordEntry>, decode: seq<byte> -> string)
    requires Mapped(ps, ids)
    ensures EntriesRun(s, org, ids, ps, decode, true).0 == s
    decreases |ps|
  {
    if ps != [] {
      var init := ps[..|ps| - 1];
      assert Mapped(init, ids);
      EntriesRunDry(s, org, ids, init, decode);
      UploadsDry(s, "", AttachmentsOf(ps[|ps| - 1].entry));
    }
  }

  /**
   * `migrate` under dry-run, with the client's empty cache, sends nothing and leaves the server
   * as it was; the outcome still reports a load or conversion failure.
   */
  lemma MigrateDryRun(s: State, org: string, loaded: Result<seq<PasswordEntry>, LoadError>, groupIds: seq<string>, decode: seq<byte> -> string)
    requires s.cache == map[]
    ensures MigrateRun(s, org, loaded, groupIds, decode, true).0 == s
  {
    if loaded.Success? {
      var ps := loaded.value;
      CollectionsRunDry(s, org, CollectionPaths(ps), groupIds);
      var collections := CollectionsRun(s, org, CollectionPaths(ps), groupIds, true);
      CollectionsRunKeys(s, org, CollectionPaths(ps), groupIds, true);
      NamesMapped(ps, collections.1);
      EntriesRunDry(s, org, collections.1, ps, decode);
    }
  }

  /** The upload loop keeps a numbered store numbered. */
  lemma {:induction false} UploadsNumbered(s: State, itemId: string, files: seq<Attachment>, dryrun: bool)
    requires Numbered(s.store)
    ensures Numbered(Uploads(s, itemId, files, dryrun).store)
    decreases |files|
  {
    if files != [] {
      var before := Uploads(s, itemId, files[..|files| - 1], dryrun);
      UploadsNumbered(s, itemId, files[..|files| - 1], dryrun);
      StepsKeepNumbered(before, "", None, "", None, itemId, files[|files| - 1], "", dryrun);
    }
  }

  /** One turn of the entry loop keeps a numbered store numbered; its item gets a fresh id. */
  lemma EntryStepNumbered(s: State, converted: Result<ItemTemplate, ConvertError>, files: seq<Attachment>, dryrun: bool)
    requires Numbered(s.store)
    ensures Numbered(EntryStep(s, converted, files, dryrun).0.store)
  {
    if converted.Success? {
      var created := ItemStep(s, converted.value, dryrun);
      if !dryrun {
        ItemStepFresh(s, converted.value);
      }
      UploadsNumbered(created.0, created.1, files, dryrun);
    }
  }

  /** The entry loop keeps a numbered store numbered. */
  lemma {:induction false} EntriesRunNumbered(s: State, org: string, ids: map<string, string>, ps: seq<PasswordEntry>,
                                              decode: seq<byte> -> string, dryrun: bool)
    requires Mapped(ps, ids) && Numbered(s.store)
    ensures Numbered(EntriesRun(s, org, ids, ps, decode, dryrun).0.store)
    decreases |ps|
  {
    if ps != [] {
      var init := ps[..|ps| - 1];
      assert Mapped(init, ids);
      EntriesRunNumbered(s, org, ids, init, decode, dryrun);
      var before := EntriesRun(s, org, ids, init, decode, dryrun);
      var last := ps[|ps| - 1];
      EntryStepNumbered(before.0, Converted(org, ids, last, decode), AttachmentsOf(last.entry), dryrun);
    }
  }

  /**
   * `migrate` keeps a numbered store numbered, so every collection and item it creates gets an
   * id that nothing stored before carries.
   */
  lemma MigrateNumbered(s: State, org: string, loaded: Result<seq<PasswordEntry>, LoadError>, groupIds: seq<string>,
                        decode: seq<byte> -> string, dryrun: bool)
    requires Numbered(s.store)
    ensures Numbered(MigrateRun(s, org, loaded, groupIds, decode, dryrun).0.store)
  {
    if loaded.Success? {
      var ps := loaded.value;
      var collections := CollectionsRun(s, org, CollectionPaths(ps), groupIds, dryrun);
      CollectionsRunNumbered(s, org, CollectionPaths(ps), groupIds, dryrun);
      CollectionsRunKeys(s, org, CollectionPaths(ps), groupIds, dryrun);
      NamesMapped(ps, collections.1);
      EntriesRunNumbered(collections.0, org, collections.1, ps, decode, dryrun);
    }
  }

  /** The item created for an entry has one collection id, so its duplicate sweep makes one search. */
  lemma ItemHasOneSlot(org: string, ids: map<string, string>, p: PasswordEntry, decode: seq<byte> -> string)
    requires p.collectionName in ids && Converted(org, ids, p, decode).Success?
    ensures Slots(Converted(org, ids, p, decode).value) == 1
  {
  }

  /**
   * One live turn of the entry loop on an entry that converts: the item is created (after
   * its duplicate sweep), then every attachment is uploaded, in order, under the id the
   * create returned, and nothing is sent after that.
   */
  lemma EntryStepLive(s: State, item: ItemTemplate, files: seq<Attachment>)
    ensures var created := ItemStep(s, item, false);
      var r := EntryStep(s, Success(item), files, false);
      && r.1 == Pass
      && created.1 == IdFor(s.store.nextId)
      && created.0.trace[|created.0.trace| - 1] == CreateItemCall(item)
      && Extends(created.0.trace, r.0.trace) && |r.0.trace| == |created.0.trace| + |files|
      && (forall j :: 0 <= j < |files| ==> r.0.trace[|created.0.trace| + j] == AddAttachmentCall(created.1, files[j]))
  {
    ItemStepStore(s, item);
    ItemStepCalls(s, item);
    UploadsLive(ItemStep(s, item, false).0, ItemStep(s, item, false).1, files);
  }

  /** The requests of the item phase: searches, deletes, item creates and uploads. */
  predicate ItemPhaseCall(c: Call) {
    c.SearchItemsCall? || c.DeleteItemCall? || c.CreateItemCall? || c.AddAttachmentCall?
  }

  /** A live upload loop sends only uploads. */
  lemma UploadsCalls(s: State, itemId: string, files: seq<Attachment>)
    ensures var s' := Uploads(s, itemId, files, false);
      Extends(s.trace, s'.trace) && forall c :: c in s'.trace[|s.trace|..] ==> c.AddAttachmentCall?
  {
    var s' := Uploads(s, itemId, files, false);
    UploadsLive(s, itemId, files);
    forall c | c in s'.trace[|s.trace|..] ensures c.AddAttachmentCall? {
      var j :| 0 <= j < |s'.trace[|s.trace|..]| && c == s'.trace[|s.trace|..][j];
      assert c == s'.trace[|s.trace| + j];
    }
  }

  /** One turn of the entry loop sends only item-phase requests. */
  lemma EntryStepCalls(s: State, converted: Result<ItemTemplate, ConvertError>, files: seq<Attachment>, dryrun: bool)
    ensures var s' := EntryStep(s, converted, files, dryrun).0;
      Extends(s.trace, s'.trace) && forall c :: c in s'.trace[|s.trace|..] ==> ItemPhaseCall(c)
  {
    var s' := EntryStep(s, converted, files, dryrun).0;
    if converted.Failure? {
      assert s' == s;
    } else if dryrun {
      var created := ItemStep(s, converted.value, true);
      assert s' == Uploads(created.0, created.1, files, true);
      UploadsDry(created.0, created.1, files);
    } else {
      var created := ItemStep(s, converted.value, false);
      assert s' == Uploads(created.0, created.1, files, false);
      ItemStepCalls(s, converted.value);
      UploadsCalls(created.0, created.1, files);
      ExtendsChain(s.trace, created.0.trace, s'.trace);
    }
  }

  /** The entry loop sends only item-phase requests. */
  lemma {:induction false} EntriesRunCalls(s: State, org: string, ids: map<string, string>, ps: seq<PasswordEntry>,
                                           decode: seq<byte> -> string, dryrun: bool)
    requires Mapped(ps, ids)
    ensures var s' := EntriesRun(s, org, ids, ps, decode, dryrun).0;
      Extends(s.trace, s'.trace) && forall c :: c in s'.trace[|s.trace|..] ==> ItemPhaseCall(c)
    decreases |ps|
  {
    if ps == [] {
      assert s.trace[|s.trace|..] == [];
    } else {
      var init := ps[..|ps| - 1];
      var last := ps[|ps| - 1];
      assert Mapped(init, ids);
      EntriesRunCalls(s, org, ids, init, decode, dryrun);
      var before := EntriesRun(s, org, ids, init, decode, dryrun);
      var s' := EntriesRun(s, org, ids, ps, decode, dryrun).0;
      if before.1.Pass? {
        EntryStepCalls(before.0, Converted(org, ids, last, decode), AttachmentsOf(last.entry), dryrun);
        ExtendsChain(s.trace, before.0.trace, s'.trace);
      }
    }
  }

  /** How many attachments the entries carry in all. */
  function AttachmentCount(ps: seq<PasswordEntry>): nat
    decreases |ps|
  {
    if ps == [] then 0 else AttachmentCount(ps[..|ps| - 1]) + |ps[|ps| - 1].entry.binaries|
  }

  /**
   * A live entry loop that goes through sends one search per entry (its item has one
   * collection id) and one create per entry plus one upload per attachment.
   */
  lemma {:induction false} EntriesRunCounts(s: State, org: string, ids: map<string, string>, ps: seq<PasswordEntry>,
                                            decode: seq<byte> -> string, verb: Verb)
    requires Mapped(ps, ids) && verb != Delete
    ensures var r := EntriesRun(s, org, ids, ps, decode, false);
      r.1.Pass? ==>
        Count(r.0.trace, verb) == Count(s.trace, verb) + (if verb == Get then |ps| else |ps| + AttachmentCount(ps))
    decreases |ps|
  {
    if ps != [] {
      var init := ps[..|ps| - 1];
      var last := ps[|ps| - 1];
      assert Mapped(init, ids);
      var before := EntriesRun(s, org, ids, init, decode, false);
      var r := EntriesRun(s, org, ids, ps, decode, false);
      if before.1.Pass? && r.1.Pass? {
        EntriesRunCounts(s, org, ids, init, decode, verb);
        var converted := Converted(org, ids, last, decode);
        EntryStepOutcome(before.0, converted, AttachmentsOf(last.entry), false);
        var item := converted.value;
        ItemHasOneSlot(org, ids, last, decode);
        ItemStepCounts(before.0, item);
        var created := ItemStep(before.0, item, false);
        UploadsCount(created.0, created.1, AttachmentsOf(last.entry), verb);
      }
    }
  }

  /**
   * The two phases of `migrate` on a loaded database: first the collection batch, which sends
   * only listings of the organization and creates of the entries' collection names with the
   * default groups; then the entry loop, which sends only item-phase requests. No unlock is
   * ever sent.
   */
  lemma MigratePhases(s: State, org: string, ps: seq<PasswordEntry>, groupIds: seq<string>, decode: seq<byte> -> string, dryrun: bool)
    ensures var mid := CollectionsRun(s, org, CollectionPaths(ps), groupIds, dryrun).0;
      var s' := MigrateRun(s, org, Success(ps), groupIds, decode, dryrun).0;
      && Extends(s.trace, mid.trace) && Extends(mid.trace, s'.trace)
      && (forall c :: c in mid.trace[|s.trace|..] ==>
            c == ListCollectionsCall(org) ||
            (c.CreateCollectionCall? && c.organizationId == org && c.name in Elements(CollectionNames(ps)) && c.groups == DefaultGroups(groupIds)))
      && (forall c :: c in s'.trace[|mid.trace|..] ==> ItemPhaseCall(c))
  {
    var paths := CollectionPaths(ps);
    var collections := CollectionsRun(s, org, paths, groupIds, dryrun);
    CollectionsRunCalls(s, org, paths, groupIds, dryrun);
    CollectionsRunKeys(s, org, paths, groupIds, dryrun);
    NamesMapped(ps, collections.1);
    EntriesRunCalls(collections.0, org, collections.1, ps, decode, dryrun);
  }

  /**
   * The request counts of a live `migrate` that goes through, from an empty cache: one
   * collection listing plus one item search per entry, and one create per collection name
   * the organization did not have, one create per entry and one upload per attachment.
   */
  lemma MigrateCounts(s: State, org: string, ps: seq<PasswordEntry>, groupIds: seq<string>, decode: seq<byte> -> string)
    requires s.cache == map[] && ps != []
    ensures var r := MigrateRun(s, org, Success(ps), groupIds, decode, false);
      var known := Names(OrgCollections(s.store.collections, org));
      r.1.Pass? ==>
        && Count(r.0.trace, Get) == Count(s.trace, Get) + 1 + |ps|
        && Count(r.0.trace, Post) == Count(s.trace, Post) + |Elements(CollectionNames(ps)) - known| + |ps| + AttachmentCount(ps)
  {
    var paths := CollectionPaths(ps);
    var collections := CollectionsRun(s, org, paths, groupIds, false);
    CollectionPhaseCounts(s, org, ps, groupIds);
    CollectionsRunKeys(s, org, paths, groupIds, false);
    NamesMapped(ps, collections.1);
    var r := MigrateRun(s, org, Success(ps), groupIds, decode, false);
    assert r.0 == EntriesRun(collections.0, org, collections.1, ps, decode, false).0;
    EntriesRunCounts(collections.0, org, collections.1, ps, decode, Get);
    EntriesRunCounts(collections.0, org, collections.1, ps, decode, Post);
  }

  /** The collection phase of a live `migrate` from an empty cache: one listing, one create per new name. */
  lemma CollectionPhaseCounts(s: State, org: string, ps: seq<PasswordEntry>, groupIds: seq<string>)
    requires s.cache == map[] && ps != []
    ensures var mid := CollectionsRun(s, org, CollectionPaths(ps), groupIds, false).0;
      var known := Names(OrgCollections(s.store.collections, org));
      && Count(mid.trace, Get) == Count(s.trace, Get) + 1
      && Count(mid.trace, Post) == Count(s.trace, Post) + |Elements(CollectionNames(ps)) - known|
  {
    var names := CollectionNames(ps);
    var paths := CollectionPaths(ps);
    assert Elements(paths) == Elements(names);
    assert names[0] in Elements(names);
    assert paths != [];
    var listed := OrgCollections(s.store.collections, org);
    AbsorbKeys(s.cache, listed);
    assert Prepared(s, org, false).cache.Keys == Names(listed) by {
      assert Prepared(s, org, false) == Fetch(s, org, false);
      assert s.cache.Keys + Names(listed) == Names(listed);
    }
    CollectionsRunCounts(s, org, paths, groupIds, Get);
    CollectionsRunCounts(s, org, paths, groupIds, Post);
  }

  /**
   * A loaded database without entries: `createCollections` gets no paths, so `migrate` sends
   * nothing at all, not even the collection listing, and goes through.
   */
  lemma MigrateNoEntries(s: State, org: string, groupIds: seq<string>, decode: seq<byte> -> string, dryrun: bool)
    ensures var r := MigrateRun(s, org, Success([]), groupIds, decode, dryrun);
      && r.0 == s && r.1 == Pass
      && forall verb :: Count(r.0.trace, verb) == Count(s.trace, verb)
  {
    assert CollectionNames([]) == [];
    assert CollectionPaths([]) == [];
  }

  /**
   * `migrate` on a loaded database goes through exactly when every entry is complete; it
   * fails on a load error without touching anything.
   */
  lemma MigrateOutcome(s: State, org: string, loaded: Result<seq<PasswordEntry>, LoadError>, groupIds: seq<string>,
                       decode: seq<byte> -> string, dryrun: bool)
    ensures var r := MigrateRun(s, org, loaded, groupIds, decode, dryrun);
      && (loaded.Failure? ==> r == (s, Fail(LoadFailed(loaded.error))))
      && (loaded.Success? ==> (r.1 == Pass <==> forall i :: 0 <= i < |loaded.value| ==> Complete(loaded.value[i].entry)))
  {
    if loaded.Success? {
      var ps := loaded.value;
      var collections := CollectionsRun(s, org, CollectionPaths(ps), groupIds, dryrun);
      CollectionsRunKeys(s, org, CollectionPaths(ps), groupIds, dryrun);
      NamesMapped(ps, collections.1);
      EntriesRunPasses(collections.0, org, collections.1, ps, decode, dryrun);
      AllCompleteEach(ps);
    }
  }

  /** `migrate` never unlocks the vault: whatever it sends continues the trace and is no unlock. */
  lemma MigrateSendsNoUnlock(s: State, org: string, loaded: Result<seq<PasswordEntry>, LoadError>, groupIds: seq<string>,
                             decode: seq<byte> -> string, dryrun: bool)
    ensures var s' := MigrateRun(s, org, loaded, groupIds, decode, dryrun).0;
      Extends(s.trace, s'.trace) && forall c :: c in s'.trace[|s.trace|..] ==> !c.UnlockCall?
  {
    if loaded.Success? {
      var ps := loaded.value;
      MigratePhases(s, org, ps, groupIds, decode, dryrun);
      var mid := CollectionsRun(s, org, CollectionPaths(ps), groupIds, dryrun).0;
      var s' := MigrateRun(s, org, loaded, groupIds, decode, dryrun).0;
      ExtendsChain(s.trace, mid.trace, s'.trace);
      forall c | c in s'.trace[|s.trace|..] ensures !c.UnlockCall? {
        assert c in mid.trace[|s.trace|..] || c in s'.trace[|mid.trace|..];
      }
    } else {
      assert s.trace[|s.trace|..] == [];
    }
  }

  /** The collection names and attachment count of the migration test's three entries. */
  lemma FixtureShape(ps: seq<PasswordEntry>, known: seq<Collection>)
    requires |ps| == 3
    requires ps[0].collectionName == "Testdatabase" && ps[1].collectionName == "Testdatabase"
    requires ps[2].collectionName == "Testdatabase/Testgroup"
    requires |ps[0].entry.binaries| == 1 && ps[1].entry.binaries == [] && ps[2].entry.binaries == []
    requires |known| == 1 && known[0].name == "testcollection"
    ensures |Elements(CollectionNames(ps)) - Names(known)| == 2
    ensures AttachmentCount(ps) == 1
  {
    var names := CollectionNames(ps);
    assert names[0] == "Testdatabase" && names[1] == "Testdatabase" && names[2] == "Testdatabase/Testgroup";
    TwoNewNames(names, known, "Testdatabase", "Testdatabase/Testgroup");
    assert ps[..|ps| - 1] == ps[..2] && ps[..2][..1] == ps[..1] && ps[..1][..0] == [];
    assert AttachmentCount(ps[..1]) == 1;
    assert AttachmentCount(ps[..2]) == 1;
  }

  /** Three names drawn from two distinct ones, neither the one known collection's, make two new names. */
  lemma TwoNewNames(names: seq<string>, known: seq<Collection>, a: string, b: string)
    requires |names| == 3 && names[0] == a && names[1] == a && names[2] == b && a != b
    requires |known| == 1 && known[0].name != a && known[0].name != b
    ensures |Elements(names) - Names(known)| == 2
  {
    ElementsOfThree(names, a, b);
    assert Names(known) == {known[0].name} by {
      assert known[0] in known;
    }
    assert {a, b} - {known[0].name} == {a, b};
  }

  lemma ElementsOfThree(names: seq<string>, a: string, b: string)
    requires |names| == 3 && names[0] == a && names[1] == a && names[2] == b
    ensures Elements(names) == {a, b}
  {
    assert names == [a, a, b];
  }

  /**
   * The end-to-end scenario of the repository's migration test: the organization already
   * has the collection `testcollection`; the database yields three complete entries, two in
   * `Testdatabase` (the first with one attachment) and one in `Testdatabase/Testgroup`. A live
   * `migrate` then sends 4 GETs (one collection listing, three item searches) and 6 POSTs (two
   * collections, three items, one attachment).
   */
  lemma MigrateFixture(s: State, org: string, groupIds: seq<string>, ps: seq<PasswordEntry>, decode: seq<byte> -> string)
    requires s.cache == map[] && |s.store.collections| == 1
    requires s.store.collections[0].organizationId == org && s.store.collections[0].name == "testcollection"
    requires |ps| == 3
    requires ps[0].collectionName == "Testdatabase" && ps[1].collectionName == "Testdatabase"
    requires ps[2].collectionName == "Testdatabase/Testgroup"
    requires |ps[0].entry.binaries| == 1 && ps[1].entry.binaries == [] && ps[2].entry.binaries == []
    requires forall i :: 0 <= i < |ps| ==> Complete(ps[i].entry)
    ensures var r := MigrateRun(s, org, Success(ps), groupIds, decode, false);
      && r.1 == Pass
      && Count(r.0.trace, Get) == Count(s.trace, Get) + 4
      && Count(r.0.trace, Post) == Count(s.trace, Post) + 6
  {
    var known := OrgCollections(s.store.collections, org);
    assert known == s.store.collections by {
      assert s.store.collections[..0] == [];
    }
    FixtureShape(ps, known);
    var r := MigrateRun(s, org, Success(ps), groupIds, decode, false);
    MigrateOutcome(s, org, Success(ps), groupIds, decode, false);
    assert r.1 == Pass;
    MigrateCounts(s, org, ps, groupIds, decode);
  }

  /** The migration of one KeePass database into one Bitwarden organization. */
  class Migration {
    const organizationId: string
    const keepass: Keepass
    const bitwarden: Bitwarden
    /** The UTF-8 decoding of protected values. */
    const decode: seq<byte> -> string

    constructor (organizationId: string, keepass: Keepass, bitwarden: Bitwarden, decode: seq<byte> -> string)
      ensures this.organizationId == organizationId && this.keepass == keepass
      ensures this.bitwarden == bitwarden && this.decode == decode
    {
      this.organizationId := organizationId;
      this.keepass := keepass;
      this.bitwarden := bitwarden;
      this.decode := decode;
    }

    method Migrate() returns (outcome: Outcome<MigrateError>)
      requires keepass.Valid()
      modifies keepass, bitwarden, bitwarden.server
      ensures keepass.Valid()
      ensures keepass.source.Success? ==> keepass.db == Some(keepass.source.value)
      ensures keepass.source.Failure? ==> keepass.db == None
      ensures old(keepass.db).Some? ==> keepass.loads == old(keepass.loads)
      ensures (bitwarden.Current(), outcome) ==
        MigrateRun(old(bitwarden.Current()), organizationId, Loaded(keepass.source), bitwarden.defaultGroupIds, decode, bitwarden.dryrun)
    {
      ghost var s0 := bitwarden.Current();
      var passwords := keepass.GetPasswords();
      assert bitwarden.Current() == s0;
      if passwords.Failure? {
        return Fail(LoadFailed(passwords.error));
      }
      var ps := passwords.value;
      var paths := SortedDistinct(seq(|ps|, i requires 0 <= i < |ps| => ps[i].collectionName));
      assert paths == CollectionPaths(ps);
      var collectionMap := bitwarden.CreateCollections(organizationId, paths);
      CollectionsRunKeys(s0, organizationId, paths, bitwarden.defaultGroupIds, bitwarden.dryrun);
      NamesMapped(ps, collectionMap);
      var entries := MigrateEntries(ps, collectionMap);
      outcome := if entries.Fail? then Fail(ConvertFailed(entries.error)) else Pass;
    }

    /** The entry loop of `migrate`. */
    method MigrateEntries(ps: seq<PasswordEntry>, collectionMap: map<string, string>) returns (outcome: Outcome<ConvertError>)
      requires Mapped(ps, collectionMap)
      modifies bitwarden.server
      ensures (bitwarden.Current(), outcome) == EntriesRun(old(bitwarden.Current()), organizationId, collectionMap, ps, decode, bitwarden.dryrun)
    {
      ghost var s0 := bitwarden.Current();
      var i := 0;
      assert ps[..0] == [];
      while i < |ps|
        invariant 0 <= i <= |ps| && Mapped(ps[..i], collectionMap)
        invariant (bitwarden.Current(), Pass) == EntriesRun(s0, organizationId, collectionMap, ps[..i], decode, bitwarden.dryrun)
      {
        EntriesRunNext(s0, organizationId, collectionMap, ps, i, decode, bitwarden.dryrun);
        var step := MigrateEntry(ps[i], collectionMap);
        if step.Fail? {
          return step;
        }
        i := i + 1;
      }
      assert ps[..i] == ps;
      outcome := Pass;
    }

    /** One turn of the entry loop: convert, create the item, upload its attachments. */
    method MigrateEntry(password: PasswordEntry, collectionMap: map<string, string>) returns (outcome: Outcome<ConvertError>)
      requires password.collectionName in collectionMap
      modifies bitwarden.server
      ensures (bitwarden.Current(), outcome) ==
        EntryStep(old(bitwarden.Current()), Converted(organizationId, collectionMap, password, decode), AttachmentsOf(password.entry), bitwarden.dryrun)
    {
      var item := ConvertToBitwarden(organizationId, collectionMap[password.collectionName], password.entry, decode);
      if item.Failure? {
        return Fail(item.error);
      }
      var itemId := bitwarden.CreateItem(item.value);
      var attachments := GetAttachments(password.entry);
      assert attachments == AttachmentsOf(password.entry);
      UploadAll(itemId, attachments);
      outcome := Pass;
    }

    /** The attachment loop of `migrate`. */
    method UploadAll(itemId: string, attachments: seq<Attachment>)
      modifies bitwarden.server
      ensures bitwarden.Current() == Uploads(old(bitwarden.Current()), itemId, attachments, bitwarden.dryrun)
    {
      ghost var s0 := bitwarden.Current();
      var j := 0;
      while j < |attachments|
        invariant 0 <= j <= |attachments|
        invariant bitwarden.Current() == Uploads(s0, itemId, attachments[..j], bitwarden.dryrun)
      {
        assert attachments[..j + 1][..j] == attachments[..j];
        bitwarden.AddAttachment(itemId, attachments[j]);
        j := j + 1;
      }
      assert attachments[..j] == attachments;
    }
  }
}
