/**
 serializeSession and deserializeSession of ratchet.ts, over bytes.

 IndexedDB may give a byte field back in three shapes: the array of numbers that was put, a plain
 object keyed by index, or a typed array. A JavaScript Map is the list of its entries in insertion
 order, each key once.
 */
module Storage {
  import opened Wrappers

  type Byte = x: int | 0 <= x < 256

  datatype Raw = Numbers(numbers: seq<int>) | Indexed(fields: map<nat, int>) | Typed(bytes: seq<Byte>)

  datatype Entry<+T> = Entry(key: string, value: T)

  datatype Session = Session(
    RK: seq<Byte>,
    CKs: Option<seq<Byte>>,
    CKr: Option<seq<Byte>>,
    DHsPub: seq<Byte>,
    DHsPriv: seq<Byte>,
    DHr: Option<seq<Byte>>,
    Ns: nat,
    Nr: nat,
    PN: nat,
    skippedKeys: seq<Entry<seq<Byte>>>,
    typingKey: seq<Byte>
  )

  /** A stored record; a record from before a field existed lacks it. */
  datatype Record = Record(
    id: string,
    RK: Raw,
    CKs: Option<Raw>,
    CKr: Option<Raw>,
    DHsPub: Raw,
    DHsPriv: Raw,
    DHr: Option<Raw>,
    Ns: nat,
    Nr: nat,
    PN: nat,
    skippedKeys: Option<seq<Entry<Raw>>>,
    typingKey: Option<Raw>
  )

  function ArrayFrom(bytes: seq<Byte>): Raw {
    Numbers(seq(|bytes|, i requires 0 <= i < |bytes| => bytes[i]))
  }

  function ArrayOrNull(bytes: Option<seq<Byte>>): Option<Raw> {
    if bytes.None? then None else Some(ArrayFrom(bytes.value))
  }

  function Serialize(key: string, s: Session): Record {
    Record(key, ArrayFrom(s.RK), ArrayOrNull(s.CKs), ArrayOrNull(s.CKr), ArrayFrom(s.DHsPub), ArrayFrom(s.DHsPriv),
           ArrayOrNull(s.DHr), s.Ns, s.Nr, s.PN,
           Some(seq(|s.skippedKeys|, i requires 0 <= i < |s.skippedKeys| =>
                      Entry(s.skippedKeys[i].key, ArrayFrom(s.skippedKeys[i].value)))),
           Some(ArrayFrom(s.typingKey)))
  }

  /** What a typed array keeps of a number. */
  function ToByte(x: int): Byte {
    x % 256
  }

  function ToBytes(numbers: seq<int>): seq<Byte> {
    seq(|numbers|, i requires 0 <= i < |numbers| => ToByte(numbers[i]))
  }

  /** One more than the highest index. */
  ghost function Bound(fields: map<nat, int>): (n: nat)
    ensures forall k :: k in fields ==> k < n
  {
    if fields == map[] then 0
    else
      var k :| k in fields;
      var rest := Bound(fields - {k});
      assert forall j :: j in fields && j != k ==> j in fields - {k};
      if rest > k then rest else k + 1
  }

  /** Values of the fields below n, in ascending order of index. */
  function InOrder(fields: map<nat, int>, n: nat): seq<int> {
    if n == 0 then [] else InOrder(fields, n - 1) + if n - 1 in fields then [fields[n - 1]] else []
  }

  ghost function ObjectValues(raw: Raw): seq<int> {
    match raw
    case Numbers(numbers) => numbers
    case Indexed(fields) => InOrder(fields, Bound(fields))
    case Typed(bytes) => seq(|bytes|, i requires 0 <= i < |bytes| => bytes[i])
  }

  /** The helper `b`. */
  ghost function BytesOf(raw: Raw): seq<Byte> {
    ToBytes(ObjectValues(raw))
  }

  /** The typed-array constructor itself: a plain object without a length gives no bytes. */
  function NewUint8Array(raw: Raw): seq<Byte> {
    match raw
    case Numbers(numbers) => ToBytes(numbers)
    case Indexed(_) => []
    case Typed(bytes) => bytes
  }

  ghost function BytesOrNull(raw: Option<Raw>): Option<seq<Byte>> {
    if raw.None? then None else Some(BytesOf(raw.value))
  }

  /** `set` on a Map: an old key keeps its place. */
  function MapSet(entries: seq<Entry<seq<Byte>>>, e: Entry<seq<Byte>>): seq<Entry<seq<Byte>>> {
    if entries == [] then [e]
    else if entries[0].key == e.key then [e] + entries[1..]
    else [entries[0]] + MapSet(entries[1..], e)
  }

  function NewMap(pairs: seq<Entry<Raw>>): seq<Entry<seq<Byte>>> {
    if pairs == [] then []
    else
      var last := pairs[|pairs| - 1];
      MapSet(NewMap(pairs[..|pairs| - 1]), Entry(last.key, NewUint8Array(last.value)))
  }

  ghost function Deserialize(r: Record): Session {
    Session(BytesOf(r.RK), BytesOrNull(r.CKs), BytesOrNull(r.CKr), BytesOf(r.DHsPub), BytesOf(r.DHsPriv),
            BytesOrNull(r.DHr), r.Ns, r.Nr, r.PN,
            NewMap(if r.skippedKeys.None? then [] else r.skippedKeys.value),
            if r.typingKey.None? then seq(32, i => 0) else BytesOf(r.typingKey.value))
  }

  // ---------------------------------------------------------------- what the database may give back

  ghost predicate SameBytes(put: Raw, got: Raw) {
    match put
    case Numbers(numbers) =>
      || got == put
      || got == Indexed(map i: nat | i < |numbers| :: numbers[i])
      || got == Typed(ToBytes(numbers))
    case _ => got == put
  }

  ghost predicate SameOrNull(put: Option<Raw>, got: Option<Raw>) {
    if put.None? then got.None? else got.Some? && SameBytes(put.value, got.value)
  }

  /** `got` is the record `put` with its id, every byte field in any of the three shapes. */
  ghost predicate ComesBackAs(put: Record, got: Record) {
    && got.id == put.id && SameBytes(put.RK, got.RK) && SameOrNull(put.CKs, got.CKs) && SameOrNull(put.CKr, got.CKr)
    && SameBytes(put.DHsPub, got.DHsPub) && SameBytes(put.DHsPriv, got.DHsPriv) && SameOrNull(put.DHr, got.DHr)
    && got.Ns == put.Ns && got.Nr == put.Nr && got.PN == put.PN && SameOrNull(put.typingKey, got.typingKey)
    && (if put.skippedKeys.None? then got.skippedKeys.None? else
          && got.skippedKeys.Some? && |got.skippedKeys.value| == |put.skippedKeys.value|
          && forall i :: 0 <= i < |put.skippedKeys.value| ==>
               got.skippedKeys.value[i].key == put.skippedKeys.value[i].key
               && SameBytes(put.skippedKeys.value[i].value, got.skippedKeys.value[i].value))
  }

  predicate DistinctNames<T>(entries: seq<Entry<T>>) {
    forall i, j :: 0 <= i < j < |entries| ==> entries[i].key != entries[j].key
  }

  /** No value of a skipped key came back as a plain object; an empty value would survive that. */
  predicate ValuesIntact(s: Session, got: Record) {
    got.skippedKeys.Some? && |got.skippedKeys.value| == |s.skippedKeys|
    && forall i :: 0 <= i < |s.skippedKeys| ==> got.skippedKeys.value[i].value.Indexed? ==> s.skippedKeys[i].value == []
  }

  lemma {:induction false} InOrderAll(numbers: seq<int>, n: nat)
    ensures InOrder(map i: nat | i < |numbers| :: numbers[i], n) == if n <= |numbers| then numbers[..n] else numbers
  {
    if n > 0 {
      InOrderAll(numbers, n - 1);
    }
  }

  lemma BytesComeBack(bytes: seq<Byte>, got: Raw)
    requires SameBytes(ArrayFrom(bytes), got)
    ensures BytesOf(got) == bytes
    ensures NewUint8Array(got) == if got.Indexed? then [] else bytes
  {
    if got.Indexed? {
      var numbers := ArrayFrom(bytes).numbers;
      InOrderAll(numbers, Bound(got.fields));
      assert |numbers| > 0 ==> |numbers| - 1 in got.fields;
    }
  }

  lemma BytesOrNullComeBack(bytes: Option<seq<Byte>>, got: Option<Raw>)
    requires SameOrNull(ArrayOrNull(bytes), got)
    ensures BytesOrNull(got) == bytes
  {
    if bytes.Some? {
      BytesComeBack(bytes.value, got.value);
    }
  }

  lemma {:induction false} MapSetNew(entries: seq<Entry<seq<Byte>>>, e: Entry<seq<Byte>>)
    requires forall i :: 0 <= i < |entries| ==> entries[i].key != e.key
    ensures MapSet(entries, e) == entries + [e]
  {
    if entries != [] {
      MapSetNew(entries[1..], e);
      assert [entries[0]] + (entries[1..] + [e]) == entries + [e];
    }
  }

  /** The value that a Map has under a key. */
  function Get<T>(entries: seq<Entry<T>>, key: string): Option<T> {
    if entries == [] then None
    else if entries[0].key == key then Some(entries[0].value) else Get(entries[1..], key)
  }

  /** `set` changes what is under its own key only, and adds a key at the end if it is new. */
  lemma {:induction false} MapSetIsSet(entries: seq<Entry<seq<Byte>>>, e: Entry<seq<Byte>>, key: string)
    ensures Get(MapSet(entries, e), key) == if key == e.key then Some(e.value) else Get(entries, key)
    ensures |MapSet(entries, e)| == |entries| + if Get(entries, e.key).Some? then 0 else 1
    ensures forall i :: 0 <= i < |entries| ==> MapSet(entries, e)[i].key == entries[i].key
  {
    if entries != [] {
      MapSetIsSet(entries[1..], e, key);
      MapSetIsSet(entries[1..], e, e.key);
      assert ([entries[0]] + MapSet(entries[1..], e))[1..] == MapSet(entries[1..], e);
      assert ([e] + entries[1..])[1..] == entries[1..];
    }
  }

  /** Restoring a Map from entries with distinct keys gives the same entries in the same order. */
  lemma {:induction false} NewMapIsPointwise(pairs: seq<Entry<Raw>>)
    requires DistinctNames(pairs)
    ensures |NewMap(pairs)| == |pairs|
    ensures forall i :: 0 <= i < |pairs| ==> NewMap(pairs)[i] == Entry(pairs[i].key, NewUint8Array(pairs[i].value))
  {
    if pairs != [] {
      var front, last := pairs[..|pairs| - 1], pairs[|pairs| - 1];
      NewMapIsPointwise(front);
      MapSetNew(NewMap(front), Entry(last.key, NewUint8Array(last.value)));
    }
  }

  /**
   A stored session is restored exactly, in whatever shapes its fields come back, if and only if no
   skipped key's bytes come back as a plain object.
   */
  lemma RestoreIsExact(key: string, s: Session, got: Record)
    requires DistinctNames(s.skippedKeys) && ComesBackAs(Serialize(key, s), got)
    ensures Deserialize(got) == s <==> ValuesIntact(s, got)
  {
    FieldsComeBack(key, s, got);
    SkippedComeBack(key, s, got);
    hide Serialize, BytesOf, BytesOrNull, NewMap;
  }

  lemma FieldsComeBack(key: string, s: Session, got: Record)
    requires ComesBackAs(Serialize(key, s), got)
    ensures Deserialize(got).(skippedKeys := s.skippedKeys) == s
  {
    BytesComeBack(s.RK, got.RK);
    BytesComeBack(s.DHsPub, got.DHsPub);
    BytesComeBack(s.DHsPriv, got.DHsPriv);
    BytesComeBack(s.typingKey, got.typingKey.value);
    BytesOrNullComeBack(s.CKs, got.CKs);
    BytesOrNullComeBack(s.CKr, got.CKr);
    BytesOrNullComeBack(s.DHr, got.DHr);
  }

  lemma SkippedComeBack(key: string, s: Session, got: Record)
    requires DistinctNames(s.skippedKeys) && ComesBackAs(Serialize(key, s), got)
    ensures Deserialize(got).skippedKeys == s.skippedKeys <==> ValuesIntact(s, got)
  {
    var put, pairs := Serialize(key, s).skippedKeys.value, got.skippedKeys.value;
    assert forall i :: 0 <= i < |pairs| ==> pairs[i].key == s.skippedKeys[i].key;
    NewMapIsPointwise(pairs);
    forall i | 0 <= i < |pairs|
      ensures NewMap(pairs)[i] == s.skippedKeys[i] <==> (pairs[i].value.Indexed? ==> s.skippedKeys[i].value == [])
    {
      assert put[i].value == ArrayFrom(s.skippedKeys[i].value);
      BytesComeBack(s.skippedKeys[i].value, pairs[i].value);
    }
    if NewMap(pairs) == s.skippedKeys {
      assert forall i :: 0 <= i < |pairs| ==> NewMap(pairs)[i] == s.skippedKeys[i];
    }
  }

  /** A record from before caches and typing keys were stored is restored with no cached keys and 32 zero bytes. */
  lemma OldRecordRestores(key: string, s: Session, got: Record)
    requires ComesBackAs(Serialize(key, s).(skippedKeys := None, typingKey := None), got)
    ensures Deserialize(got) == s.(skippedKeys := [], typingKey := Deserialize(got).typingKey)
    ensures |Deserialize(got).typingKey| == 32 && forall i :: 0 <= i < 32 ==> Deserialize(got).typingKey[i] == 0
  {
    var full := got.(skippedKeys := Serialize(key, s).skippedKeys, typingKey := Serialize(key, s).typingKey);
    FieldsComeBack(key, s, full);
  }

  /** What is put comes back unchanged when it is given back as it was put. */
  lemma RoundTrip(key: string, s: Session)
    requires DistinctNames(s.skippedKeys)
    ensures Deserialize(Serialize(key, s)) == s
  {
    RestoreIsExact(key, s, Serialize(key, s));
  }

  /** A single skipped key whose bytes come back keyed by index is restored empty. */
  lemma ObjectValueIsLost(key: string, s: Session, name: string, bytes: seq<Byte>)
    requires s.skippedKeys == [Entry(name, bytes)] && bytes != []
    ensures var put := Serialize(key, s);
            var fields := map i: nat | i < |bytes| :: bytes[i] as int;
            var got := put.(skippedKeys := Some([Entry(name, Indexed(fields))]));
            ComesBackAs(put, got) && Deserialize(got).skippedKeys == [Entry(name, [])] && Deserialize(got) != s
  {
    var put := Serialize(key, s);
    var fields := map i: nat | i < |bytes| :: bytes[i] as int;
    var numbers := put.skippedKeys.value[0].value.numbers;
    assert fields == map i: nat | i < |numbers| :: numbers[i];
    NewMapIsPointwise([Entry(name, Indexed(fields))]);
  }
}
