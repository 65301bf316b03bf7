/**
 * The KeePass side: flattening the database's group tree into (collection path, entry) pairs,
 * and the client object that loads the database lazily and at most once.
 */
module Keepass {
  import opened Wrappers
  import opened Kdbx

  /** One entry of the database together with the collection path it belongs to. */
  datatype PasswordEntry = PasswordEntry(collectionName: string, entry: Entry)

  /** Why a database could not be loaded: wrong passphrase, corrupt container or unreadable file. */
  datatype LoadError = DatabaseError(reason: string)

  /**
   * The pairs that `_loadPasswords(group, prefix)` produces: first everything below the
   * subgroups, subgroup by subgroup, each under `prefix/<subgroup name>`, then the group's own
   * entries under `prefix`.
   */
  function Flatten(g: Group, prefix: string): seq<PasswordEntry>
    decreases g, 1
  {
    Subgroups(g, prefix, |g.groups|) + DirectEntries(g.entries, prefix)
  }

  /** What the first `n` subgroups of `g` contribute. */
  function Subgroups(g: Group, prefix: string, n: nat): seq<PasswordEntry>
    requires n <= |g.groups|
    decreases g, 0, n
  {
    if n == 0 then []
    else
      var sub := g.groups[n - 1];
      Subgroups(g, prefix, n - 1) + Flatten(sub, prefix + "/" + sub.name)
  }

  function DirectEntries(es: seq<Entry>, prefix: string): seq<PasswordEntry> {
    seq(|es|, i requires 0 <= i < |es| => PasswordEntry(prefix, es[i]))
  }

  /** The number of entries anywhere in the tree. */
  function EntryCount(g: Group): nat
    decreases g, 1
  {
    SubgroupCount(g, |g.groups|) + |g.entries|
  }

  function SubgroupCount(g: Group, n: nat): nat
    requires n <= |g.groups|
    decreases g, 0, n
  {
    if n == 0 then 0 else SubgroupCount(g, n - 1) + EntryCount(g.groups[n - 1])
  }

  /** A path of subgroup indices that leads from `g` to some group below it. */
  predicate ValidPath(g: Group, path: seq<nat>)
    decreases path
  {
    path == [] || (path[0] < |g.groups| && ValidPath(g.groups[path[0]], path[1..]))
  }

  function GroupAt(g: Group, path: seq<nat>): Group
    requires ValidPath(g, path)
    decreases path
  {
    if path == [] then g else GroupAt(g.groups[path[0]], path[1..])
  }

  /** `/<name>` for every subgroup passed on the way down the path. */
  function PathName(g: Group, path: seq<nat>): string
    requires ValidPath(g, path)
    decreases path
  {
    if path == [] then "" else "/" + g.groups[path[0]].name + PathName(g.groups[path[0]], path[1..])
  }

  predicate IsPrefix(p: string, s: string) {
    |p| <= |s| && s[..|p|] == p
  }

  /** The sequence read backwards, as `Array.prototype.reverse` leaves it. */
  function Reverse<T>(s: seq<T>): (r: seq<T>)
    ensures |r| == |s|
    ensures forall i :: 0 <= i < |s| ==> r[i] == s[|s| - 1 - i]
  {
    if s == [] then [] else Reverse(s[1..]) + [s[0]]
  }

  /** The list `getPasswords` returns for a loaded database. */
  function Passwords(db: Database): seq<PasswordEntry> {
    Reverse(Flatten(db.defaultGroup, db.name))
  }

  /** One pair per entry of the tree, and no more. */
  lemma {:induction false} FlattenCount(g: Group, prefix: string)
    ensures |Flatten(g, prefix)| == EntryCount(g)
    decreases g, 1
  {
    SubgroupsCount(g, prefix, |g.groups|);
  }

  lemma {:induction false} SubgroupsCount(g: Group, prefix: string, n: nat)
    requires n <= |g.groups|
    ensures |Subgroups(g, prefix, n)| == SubgroupCount(g, n)
    decreases g, 0, n
  {
    if n > 0 {
      SubgroupsCount(g, prefix, n - 1);
      FlattenCount(g.groups[n - 1], prefix + "/" + g.groups[n - 1].name);
    }
  }

  /** Every entry of every group in the tree is emitted, under that group's path. */
  lemma {:induction false} FlattenComplete(g: Group, prefix: string, path: seq<nat>, e: Entry)
    requires ValidPath(g, path) && e in GroupAt(g, path).entries
    ensures PasswordEntry(prefix + PathName(g, path), e) in Flatten(g, prefix)
    decreases path
  {
    if path == [] {
      var i :| 0 <= i < |g.entries| && g.entries[i] == e;
      assert prefix + PathName(g, path) == prefix;
      assert DirectEntries(g.entries, prefix)[i] == PasswordEntry(prefix, e);
      assert Flatten(g, prefix)[|Subgroups(g, prefix, |g.groups|)| + i] == PasswordEntry(prefix, e);
    } else {
      var k := path[0];
      var sub := g.groups[k];
      FlattenComplete(sub, prefix + "/" + sub.name, path[1..], e);
      assert prefix + PathName(g, path) == (prefix + "/" + sub.name) + PathName(sub, path[1..]);
      SubgroupsInclude(g, prefix, |g.groups|, k);
    }
  }

  lemma {:induction false} SubgroupsInclude(g: Group, prefix: string, n: nat, k: nat)
    requires k < n <= |g.groups|
    ensures forall x :: x in Flatten(g.groups[k], prefix + "/" + g.groups[k].name) ==> x in Subgroups(g, prefix, n)
    decreases n
  {
    if k < n - 1 {
      SubgroupsInclude(g, prefix, n - 1, k);
    }
  }

  /** Everything emitted is an entry of some group of the tree, under that group's path. */
  lemma {:induction false} FlattenSound(g: Group, prefix: string, x: PasswordEntry) returns (path: seq<nat>)
    requires x in Flatten(g, prefix)
    ensures ValidPath(g, path) && x.entry in GroupAt(g, path).entries
    ensures x.collectionName == prefix + PathName(g, path)
    decreases g, 1
  {
    if x in DirectEntries(g.entries, prefix) {
      var i :| 0 <= i < |g.entries| && DirectEntries(g.entries, prefix)[i] == x;
      path := [];
    } else {
      var k := SubgroupsSound(g, prefix, |g.groups|, x);
      var sub := g.groups[k];
      var rest := FlattenSound(sub, prefix + "/" + sub.name, x);
      path := [k] + rest;
      assert path[1..] == rest;
    }
  }

  lemma {:induction false} SubgroupsSound(g: Group, prefix: string, n: nat, x: PasswordEntry) returns (k: nat)
    requires n <= |g.groups| && x in Subgroups(g, prefix, n)
    ensures k < n && x in Flatten(g.groups[k], prefix + "/" + g.groups[k].name)
    decreases n
  {
    var sub := g.groups[n - 1];
    if x in Flatten(sub, prefix + "/" + sub.name) {
      k := n - 1;
    } else {
      k := SubgroupsSound(g, prefix, n - 1, x);
    }
  }

  /**
   * Order within one group: the pairs from the subgroups come first and all lie strictly below
   * `prefix/`; the group's own entries close the list, in their order, under `prefix` itself.
   */
  lemma FlattenOrder(g: Group, prefix: string)
    ensures var f := Flatten(g, prefix);
      var own := |f| - |g.entries|;
      && own >= 0
      && (forall i :: own <= i < |f| ==> f[i] == PasswordEntry(prefix, g.entries[i - own]))
      && (forall i :: 0 <= i < own ==> IsPrefix(prefix + "/", f[i].collectionName))
  {
    var f := Flatten(g, prefix);
    var own := |f| - |g.entries|;
    forall i | 0 <= i < own ensures IsPrefix(prefix + "/", f[i].collectionName) {
      var x := f[i];
      assert x in Subgroups(g, prefix, |g.groups|);
      var k := SubgroupsSound(g, prefix, |g.groups|, x);
      var sub := g.groups[k];
      var rest := FlattenSound(sub, prefix + "/" + sub.name, x);
      assert x.collectionName == (prefix + "/") + (sub.name + PathName(sub, rest));
    }
  }

  /** The first `k` subgroups' pairs open the pairs of the first `n`. */
  lemma {:induction false} SubgroupsPrefix(g: Group, prefix: string, k: nat, n: nat)
    requires k <= n <= |g.groups|
    ensures |Subgroups(g, prefix, k)| <= |Subgroups(g, prefix, n)|
    ensures Subgroups(g, prefix, n)[..|Subgroups(g, prefix, k)|] == Subgroups(g, prefix, k)
    decreases n
  {
    if k < n {
      SubgroupsPrefix(g, prefix, k, n - 1);
    }
  }

  /** Entries in the first `k` subgroups never outnumber those in the first `n`, for `k <= n`. */
  lemma {:induction false} SubgroupCountGrows(g: Group, k: nat, n: nat)
    requires k <= n <= |g.groups|
    ensures SubgroupCount(g, k) <= SubgroupCount(g, n)
    decreases n
  {
    if k < n {
      SubgroupCountGrows(g, k, n - 1);
    }
  }

  /**
   * Subgroup `k` contributes one contiguous block: its own flattening, under
   * `prefix/<subgroup name>`, right after the entries of the subgroups before it.
   */
  lemma FlattenBlock(g: Group, prefix: string, k: nat)
    requires k < |g.groups|
    ensures var f := Flatten(g, prefix);
      var sub := g.groups[k];
      && SubgroupCount(g, k) <= SubgroupCount(g, k + 1) <= |f| - |g.entries|
      && f[SubgroupCount(g, k)..SubgroupCount(g, k + 1)] == Flatten(sub, prefix + "/" + sub.name)
  {
    var f := Flatten(g, prefix);
    var all := Subgroups(g, prefix, |g.groups|);
    SubgroupsCount(g, prefix, k);
    SubgroupsCount(g, prefix, k + 1);
    SubgroupsCount(g, prefix, |g.groups|);
    SubgroupsPrefix(g, prefix, k + 1, |g.groups|);
    var sub := g.groups[k];
    var upto := Subgroups(g, prefix, k + 1);
    assert upto == Subgroups(g, prefix, k) + Flatten(sub, prefix + "/" + sub.name);
    assert f[..|upto|] == upto by {
      assert f[..|all|] == all;
      assert all[..|upto|] == upto;
    }
    assert f[SubgroupCount(g, k)..SubgroupCount(g, k + 1)] == upto[SubgroupCount(g, k)..];
  }

  /**
   * Subgroups are flattened in their array order: for `i < j` the whole block of subgroup `i`
   * ends before the block of subgroup `j` starts.
   */
  lemma FlattenSubgroupOrder(g: Group, prefix: string, i: nat, j: nat)
    requires i < j < |g.groups|
    ensures var f := Flatten(g, prefix);
      var gi := g.groups[i];
      var gj := g.groups[j];
      && SubgroupCount(g, i) <= SubgroupCount(g, i + 1) <= SubgroupCount(g, j) <= SubgroupCount(g, j + 1) <= |f|
      && f[SubgroupCount(g, i)..SubgroupCount(g, i + 1)] == Flatten(gi, prefix + "/" + gi.name)
      && f[SubgroupCount(g, j)..SubgroupCount(g, j + 1)] == Flatten(gj, prefix + "/" + gj.name)
  {
    FlattenBlock(g, prefix, i);
    FlattenBlock(g, prefix, j);
    SubgroupCountGrows(g, i + 1, j);
  }

  /**
   * The KeePass client. The file and passphrase it would read and decrypt are replaced by
   * `source`, the outcome of doing so; `loads` counts how often that happened.
   */
  class Keepass {
    const source: Result<Database, LoadError>
    var db: Option<Database>
    ghost var loads: nat

    ghost predicate Valid()
      reads this
    {
      db.Some? ==> source == Success(db.value)
    }

    constructor (source: Result<Database, LoadError>)
      ensures Valid() && this.source == source && db == None && loads == 0
    {
      this.source := source;
      db := None;
      loads := 0;
    }

    /** `_loadDatabase`: reads and decrypts the file; on failure `db` stays unset. */
    method LoadDatabase() returns (err: Option<LoadError>)
      requires Valid()
      modifies this
      ensures Valid() && loads == old(loads) + 1
      ensures source.Success? ==> db == Some(source.value) && err == None
      ensures source.Failure? ==> db == old(db) && err == Some(source.error)
    {
      loads := loads + 1;
      match source
      case Success(d) =>
        db := Some(d);
        err := None;
      case Failure(e) =>
        err := Some(e);
    }

    /** `_loadPasswords`: the recursive walk, accumulating into a list. */
    static method LoadPasswords(group: Group, prefix: string) returns (list: seq<PasswordEntry>)
      ensures list == Flatten(group, prefix)
      decreases group
    {
      list := [];
      var i := 0;
      while i < |group.groups|
        invariant 0 <= i <= |group.groups|
        invariant list == Subgroups(group, prefix, i)
      {
        var sub := group.groups[i];
        var more := LoadPasswords(sub, prefix + "/" + sub.name);
        list := list + more;
        i := i + 1;
      }
      var j := 0;
      while j < |group.entries|
        invariant 0 <= j <= |group.entries|
        invariant list == Subgroups(group, prefix, |group.groups|) + DirectEntries(group.entries[..j], prefix)
      {
        list := list + [PasswordEntry(prefix, group.entries[j])];
        j := j + 1;
      }
      assert group.entries[..j] == group.entries;
    }

    /** `getPasswords`: loads the database unless it is already loaded, then flattens and reverses. */
    method GetPasswords() returns (r: Result<seq<PasswordEntry>, LoadError>)
      requires Valid()
      modifies this
      ensures Valid()
      ensures old(db).Some? ==> db == old(db) && loads == old(loads)
      ensures old(db).None? ==> loads == old(loads) + 1
      ensures source.Success? ==> db == Some(source.value) && r == Success(Passwords(source.value))
      ensures source.Failure? ==> db == None && r == Failure(source.error)
    {
      if db.None? {
        var err := LoadDatabase();
        if err.Some? {
          return Failure(err.value);
        }
      }
      var d := db.value;
      var flat := LoadPasswords(d.defaultGroup, d.name);
      r := Success(Reverse(flat));
    }
  }
}
