/**
 * The decrypted KeePass database as the kdbxweb library hands it over: a tree of groups whose
 * entries map field names to plain or protected strings and attachment names to binaries.
 * Reading and decrypting the file is outside the model; only the shape of its result is here.
 */
module Kdbx {

  type byte = bv8

  /**
   * kdbxweb's in-memory protection of a secret: the bytes are kept XOR-ed with a random salt
   * of the same length and are only recovered when read.
   */
  datatype ProtectedValue = ProtectedValue(value: seq<byte>, salt: seq<byte>)

  /** `ProtectedValue.getBinary`: undoes the mask; a position without salt is XOR-ed with 0. */
  function GetBinary(p: ProtectedValue): (r: seq<byte>)
    ensures |r| == |p.value|
    ensures forall i :: 0 <= i < |p.salt| && i < |r| ==> r[i] == p.value[i] ^ p.salt[i]
    ensures forall i :: |p.salt| <= i < |r| ==> r[i] == p.value[i]
  {
    seq(|p.value|, i requires 0 <= i < |p.value| => if i < |p.salt| then p.value[i] ^ p.salt[i] else p.value[i])
  }

  /** `ProtectedValue.fromBinary` with the given salt: how a secret gets protected. */
  function FromBinary(plain: seq<byte>, salt: seq<byte>): (p: ProtectedValue)
    requires |salt| == |plain|
    ensures |p.value| == |plain| && p.salt == salt
  {
    ProtectedValue(seq(|plain|, i requires 0 <= i < |plain| => plain[i] ^ salt[i]), salt)
  }

  /** Reading a protected value back yields exactly the bytes it was made from, whatever the salt. */
  lemma BinaryRoundTrip(plain: seq<byte>, salt: seq<byte>)
    requires |salt| == |plain|
    ensures GetBinary(FromBinary(plain, salt)) == plain
  {
    var r := GetBinary(FromBinary(plain, salt));
    forall i | 0 <= i < |plain| ensures r[i] == plain[i] {
      assert r[i] == (plain[i] ^ salt[i]) ^ salt[i];
    }
  }

  /** A field value: a plain string, or a protected one whose text is decrypted on read. */
  datatype FieldValue = Plain(text: string) | Protected(secret: ProtectedValue)

  /** An attachment's content: raw bytes or a protected value. */
  datatype KdbxBinary = RawBinary(bytes: seq<byte>) | ProtectedBinary(secret: ProtectedValue)

  /** What an entry stores per attachment: the content, possibly wrapped with its integrity hash. */
  datatype EntryBinary = Bare(binary: KdbxBinary) | WithHash(hash: string, binary: KdbxBinary)

  /**
   * An entry: its fields and binaries are JavaScript `Map`s, so each is an insertion-ordered
   * list of (key, value) pairs.
   */
  datatype Entry = Entry(fields: seq<(string, FieldValue)>, binaries: seq<(string, EntryBinary)>)

  /** No key occurs twice, as in a `Map`. */
  predicate DistinctKeys<V>(m: seq<(string, V)>) {
    forall i, j :: 0 <= i < j < |m| ==> m[i].0 != m[j].0
  }

  datatype Group = Group(name: string, groups: seq<Group>, entries: seq<Entry>)

  /** A loaded database: its display name (`meta.name`) and its default (root) group. */
  datatype Database = Database(name: string, defaultGroup: Group)
}
