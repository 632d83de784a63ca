/**
 The sessions table of the browser's database, whose key path is the record's `id`, against the sessions
 map in memory: a page that loads finds under every name the session last saved under it.
 */
module SessionTable {
  import opened Storage
  import opened Encoding

  /** What a page does to the table: it saves a session under a name, or deletes what is under a name. */
  datatype Write = Save(name: SessionName, session: Session) | Delete(name: SessionName)

  /** `put` stores a record under its own id. */
  function Put(table: map<string, Record>, record: Record): map<string, Record> {
    table[record.id := record]
  }

  function Written(table: map<string, Record>, w: Write): map<string, Record> {
    match w
    case Save(name, session) => Put(table, Serialize(SessionText(name), session))
    case Delete(name) => table - {SessionText(name)}
  }

  function WrittenAll(table: map<string, Record>, writes: seq<Write>): map<string, Record> {
    if writes == [] then table else Written(WrittenAll(table, writes[..|writes| - 1]), writes[|writes| - 1])
  }

  /** The same writes on a map from names, which is how module ChatClient keeps the table. */
  function Kept(writes: seq<Write>): map<SessionName, Session> {
    if writes == [] then map[] else
    var before := Kept(writes[..|writes| - 1]);
    match writes[|writes| - 1]
    case Save(name, session) => before[name := session]
    case Delete(name) => before - {name}
  }

  /** The loop of the page load: every record's session goes into the map under the record's id. */
  ghost function LoadAll(records: seq<Record>): map<string, Session> {
    if records == [] then map[]
    else LoadAll(records[..|records| - 1])[records[|records| - 1].id := Deserialize(records[|records| - 1])]
  }

  /** The records come back once each, in any order, each in any of the shapes that lose nothing. */
  ghost predicate Returned(table: map<string, Record>, records: seq<Record>) {
    && (forall id :: id in table ==> exists i :: 0 <= i < |records| && ComesBackAs(table[id], records[i]))
    && (forall i :: 0 <= i < |records| ==> exists id :: id in table && ComesBackAs(table[id], records[i]))
  }

  ghost predicate WritesOk(writes: seq<Write>) {
    forall k :: 0 <= k < |writes| ==>
      WellNamed(writes[k].name) && (writes[k].Save? ==> DistinctNames(writes[k].session.skippedKeys))
  }

  /** The table holds each session under its own name and nothing else. */
  ghost predicate Holds(table: map<string, Record>, writes: seq<Write>) {
    && (forall id :: id in table ==> table[id].id == id)
    && (forall name :: WellNamed(name) ==>
          (SessionText(name) in table <==> name in Kept(writes))
          && (name in Kept(writes) ==>
                table[SessionText(name)] == Serialize(SessionText(name), Kept(writes)[name])))
    && (forall id :: id in table ==> exists k :: 0 <= k < |writes| && SessionText(writes[k].name) == id)
  }

  /** Saving or deleting under one name leaves what is under every other name. */
  lemma OtherNamesStay(table: map<string, Record>, w: Write, name: SessionName)
    requires WellNamed(name) && WellNamed(w.name) && name != w.name
    ensures SessionText(name) in Written(table, w) <==> SessionText(name) in table
    ensures SessionText(name) in table ==> Written(table, w)[SessionText(name)] == table[SessionText(name)]
  {
    if SessionText(name) == SessionText(w.name) {
      SessionNamesDistinct(name, w.name);
    }
  }

  lemma {:induction false} TableHolds(writes: seq<Write>)
    requires WritesOk(writes)
    ensures Holds(WrittenAll(map[], writes), writes)
  {
    hide Serialize;
    if writes != [] {
      var front, w := writes[..|writes| - 1], writes[|writes| - 1];
      TableHolds(front);
      WrittenHolds(WrittenAll(map[], front), front, w);
      assert writes == front + [w];
    }
  }

  lemma WrittenHolds(table: map<string, Record>, front: seq<Write>, w: Write)
    requires Holds(table, front) && WellNamed(w.name)
    ensures Holds(Written(table, w), front + [w])
  {
    var writes, after := front + [w], Written(table, w);
    assert writes[..|front|] == front;
    forall name | WellNamed(name)
      ensures SessionText(name) in after <==> name in Kept(writes)
      ensures name in Kept(writes) ==>
                after[SessionText(name)] == Serialize(SessionText(name), Kept(writes)[name])
    {
      if name != w.name {
        OtherNamesStay(table, w, name);
      }
    }
    forall id | id in after ensures exists k :: 0 <= k < |writes| && SessionText(writes[k].name) == id {
      if id in table {
        var k :| 0 <= k < |front| && SessionText(front[k].name) == id;
        assert writes[k] == front[k];
      } else {
        assert SessionText(writes[|front|].name) == id;
      }
    }
  }
  // ---------------------------------------------------------------- loading

  lemma {:induction false} KeptIsWrite(writes: seq<Write>, name: SessionName)
    requires name in Kept(writes)
    ensures Save(name, Kept(writes)[name]) in writes
  {
    if writes[|writes| - 1].name != name {
      KeptIsWrite(writes[..|writes| - 1], name);
    }
  }

  lemma {:induction false} LoadedFrom(records: seq<Record>, id: string)
    ensures id in LoadAll(records) <==> exists i :: 0 <= i < |records| && records[i].id == id
    ensures id in LoadAll(records) ==>
              exists i :: 0 <= i < |records| && records[i].id == id && LoadAll(records)[id] == Deserialize(records[i])
  {
    hide Deserialize;
    if records != [] {
      var front, last := records[..|records| - 1], records[|records| - 1];
      LoadedFrom(front, id);
      if last.id != id && id in LoadAll(front) {
        var i :| 0 <= i < |front| && front[i].id == id && LoadAll(front)[id] == Deserialize(front[i]);
        assert records[i] == front[i];
      }
      if i :| 0 <= i < |front| && records[i].id == id {
        assert front[i].id == id;
      }
    }
  }

  /** What was loaded for a name is the session, exactly if none of its cached keys came back as an object. */
  ghost predicate LoadedAs(loaded: map<string, Session>, records: seq<Record>, name: SessionName, s: Session) {
    && SessionText(name) in loaded
    && exists i :: 0 <= i < |records| && ComesBackAs(Serialize(SessionText(name), s), records[i])
         && loaded[SessionText(name)] == Deserialize(records[i])
         && (loaded[SessionText(name)] == s <==> ValuesIntact(s, records[i]))
  }

  /**
   After any saves and deletions a page that loads has, under the text of each name, the session that the
   map holds under that name, if there is one, exactly unless a cached key of it came back as an object;
   and it has nothing under any other text.
   */
  lemma LoadFindsKept(writes: seq<Write>, records: seq<Record>)
    requires WritesOk(writes) && Returned(WrittenAll(map[], writes), records)
    ensures var loaded := LoadAll(records);
            && (forall name :: WellNamed(name) && name !in Kept(writes) ==> SessionText(name) !in loaded)
            && (forall name :: WellNamed(name) && name in Kept(writes) ==>
                  LoadedAs(loaded, records, name, Kept(writes)[name]))
            && (forall id :: id in loaded ==> exists k :: 0 <= k < |writes| && SessionText(writes[k].name) == id)
  {
    hide *;
    TableHolds(writes);
    var table, loaded := WrittenAll(map[], writes), LoadAll(records);
    forall name | WellNamed(name)
      ensures name !in Kept(writes) ==> SessionText(name) !in loaded
      ensures name in Kept(writes) ==> LoadedAs(loaded, records, name, Kept(writes)[name])
    {
      HoldsName(table, writes, name);
      LoadedIds(table, writes, records, SessionText(name));
      if name in Kept(writes) {
        LoadedName(table, writes, records, name);
      }
    }
    forall id | id in loaded ensures exists k :: 0 <= k < |writes| && SessionText(writes[k].name) == id {
      LoadedIds(table, writes, records, id);
      HoldsId(table, writes, id);
    }
  }

  lemma HoldsName(table: map<string, Record>, writes: seq<Write>, name: SessionName)
    requires Holds(table, writes) && WellNamed(name)
    ensures SessionText(name) in table <==> name in Kept(writes)
    ensures name in Kept(writes) ==>
              table[SessionText(name)] == Serialize(SessionText(name), Kept(writes)[name])
  {
    hide SessionText, Kept, Serialize;
  }

  lemma HoldsId(table: map<string, Record>, writes: seq<Write>, id: string)
    requires Holds(table, writes) && id in table
    ensures exists k :: 0 <= k < |writes| && SessionText(writes[k].name) == id
  {
    hide SessionText, Kept, Serialize;
  }

  lemma LoadedIds(table: map<string, Record>, writes: seq<Write>, records: seq<Record>, id: string)
    requires Holds(table, writes) && Returned(table, records)
    ensures id in LoadAll(records) <==> id in table
    ensures forall i :: 0 <= i < |records| && records[i].id == id && id in table ==> ComesBackAs(table[id], records[i])
  {
    hide SessionText, Kept, Serialize, LoadAll, ComesBackAs;
    LoadedFrom(records, id);
    ReturnedIds(table, records, id);
  }

  lemma ReturnedIds(table: map<string, Record>, records: seq<Record>, id: string)
    requires Returned(table, records) && forall k :: k in table ==> table[k].id == k
    ensures id in table <==> exists i :: 0 <= i < |records| && records[i].id == id
    ensures forall i :: 0 <= i < |records| && records[i].id == id ==> ComesBackAs(table[id], records[i])
  {
    SameId();
    hide ComesBackAs;
  }

  lemma SameId()
    ensures forall put, got :: ComesBackAs(put, got) ==> got.id == put.id
  {
  }

  lemma LoadedName(table: map<string, Record>, writes: seq<Write>, records: seq<Record>, name: SessionName)
    requires WritesOk(writes) && Holds(table, writes) && Returned(table, records)
    requires WellNamed(name) && name in Kept(writes)
    ensures LoadedAs(LoadAll(records), records, name, Kept(writes)[name])
  {
    hide *;
    var id, s := SessionText(name), Kept(writes)[name];
    HoldsName(table, writes, name);
    KeptOk(writes, name);
    LoadedFrom(records, id);
    LoadedIds(table, writes, records, id);
    var i :| 0 <= i < |records| && records[i].id == id && LoadAll(records)[id] == Deserialize(records[i]);
    RestoreIsExact(id, s, records[i]);
    IsLoadedAs(LoadAll(records), records, name, s, i);
  }

  lemma KeptOk(writes: seq<Write>, name: SessionName)
    requires WritesOk(writes) && name in Kept(writes)
    ensures DistinctNames(Kept(writes)[name].skippedKeys)
  {
    hide Kept, DistinctNames;
    KeptIsWrite(writes, name);
  }

  lemma IsLoadedAs(loaded: map<string, Session>, records: seq<Record>, name: SessionName, s: Session, i: nat)
    requires SessionText(name) in loaded && i < |records| && ComesBackAs(Serialize(SessionText(name), s), records[i])
    requires loaded[SessionText(name)] == Deserialize(records[i])
    requires loaded[SessionText(name)] == s <==> ValuesIntact(s, records[i])
    ensures LoadedAs(loaded, records, name, s)
  {
    hide SessionText, Serialize, Deserialize, ComesBackAs, ValuesIntact;
  }
}
