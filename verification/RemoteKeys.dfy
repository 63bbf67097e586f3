/** The rows and changes a node serves for its sources, and the keys that name them. */
module RemoteKeys {
  import opened Options
  import opened RemoteData
  import opened Query

  function KeyOf(storeId: string, table: string, id: string): string {
    storeId + ":" + table + ":" + id
  }

  /** A key split at its first two colons. */
  function SplitKey(key: string): Option<(string, string, string)> {
    var a := IndexOf(key, ':');
    if a == |key| then None
    else
      var b := IndexOf(key[a + 1..], ':');
      if b == |key| - a - 1 then None else Some((key[..a], key[a + 1..][..b], key[a + 1..][b + 1..]))
  }

  /** Splitting undoes joining where neither the store nor the table holds a colon. */
  lemma SplitKeyInverts(storeId: string, table: string, id: string)
    requires ':' !in storeId && ':' !in table
    ensures SplitKey(KeyOf(storeId, table, id)) == Some((storeId, table, id))
  {
    var key := KeyOf(storeId, table, id);
    assert key[..|storeId|] == storeId;
    FirstAt(key, ':', |storeId|);
    var rest := key[|storeId| + 1..];
    assert rest == table + ":" + id && rest[..|table|] == table && rest[|table| + 1..] == id;
    FirstAt(rest, ':', |table|);
  }

  /** What splits joins back, and its first two parts hold no colon: a key is read in one way only. */
  lemma JoinKeyInverts(key: string)
    requires SplitKey(key).Some?
    ensures var (s, t, id) := SplitKey(key).value; KeyOf(s, t, id) == key && ':' !in s && ':' !in t
  {
    var a := IndexOf(key, ':');
    var rest := key[a + 1..];
    var b := IndexOf(rest, ':');
    CutAt(key, a);
    CutAt(rest, b);
    Regroup(key[..a], rest[..b], rest[b + 1..]);
  }

  /** Exactly the triples with no colon in their first two parts come back from their keys. */
  lemma SplitKeyIff(storeId: string, table: string, id: string)
    ensures SplitKey(KeyOf(storeId, table, id)) == Some((storeId, table, id)) <==> ':' !in storeId && ':' !in table
  {
    if ':' !in storeId && ':' !in table {
      SplitKeyInverts(storeId, table, id);
    } else if SplitKey(KeyOf(storeId, table, id)).Some? {
      JoinKeyInverts(KeyOf(storeId, table, id));
    }
  }

  lemma CutAt(s: string, n: nat)
    requires n < |s| && s[n] == ':'
    ensures s == s[..n] + ":" + s[n + 1..]
  {
  }

  lemma Regroup(s: string, t: string, id: string)
    ensures s + ":" + (t + ":" + id) == KeyOf(s, t, id)
  {
  }

  /** With a colon in the store's name the key names another store's row. */
  lemma ColonInStoreExample()
    ensures KeyOf("a:b", "t", "1") == KeyOf("a", "b", "t:1")
  {
    assert KeyOf("a:b", "t", "1") == "a:b:t:1" == KeyOf("a", "b", "t:1");
  }

  // ---- rows ----

  function ValueJson(v: Value): Json {
    match v
    case Null => Leaf(Scalar.Null)
    case Number(n) => Leaf(Num(n))
    case Text(s) => Leaf(Scalar.Text(s))
    case Blob(base64) => Obj(map["blob" := Leaf(Scalar.Text(base64))])
  }

  function DataJson(data: Data): Json {
    Obj(map name | name in data :: ValueJson(data[name]))
  }

  function TextJson(s: string): Json {
    Leaf(Scalar.Text(s))
  }

  function RowOf(storeId: string, key: Key, data: Data): Json {
    Obj(map[
      "key" := TextJson(KeyOf(storeId, key.table, key.id)),
      "storeId" := TextJson(storeId),
      "table" := TextJson(key.table),
      "id" := TextJson(key.id),
      "data" := DataJson(data)])
  }

  const STORE_ID := "storeId"
  const TABLE := "table"

  /** Both are part of the key. */
  const FIXED := [STORE_ID, TABLE]

  lemma OwnFixed(storeId: string, key: Key, data: Data)
    ensures Own(RowOf(storeId, key, data), STORE_ID) == Some(TextJson(storeId))
    ensures Own(RowOf(storeId, key, data), TABLE) == Some(TextJson(key.table))
  {
  }

  lemma ReadsFixed(storeId: string, key: Key, data: Data)
    ensures FieldOf(RowOf(storeId, key, data), STORE_ID) == Some(TextJson(storeId))
    ensures FieldOf(RowOf(storeId, key, data), TABLE) == Some(TextJson(key.table))
  {
    var row := RowOf(storeId, key, data);
    OwnFixed(storeId, key, data);
    UndottedIsWhole(STORE_ID);
    UndottedIsWhole(TABLE);
    ReadUndotted(row, STORE_ID);
    ReadUndotted(row, TABLE);
  }

  /** What is read of a row at a column: the value, with a blob as an object, and nothing where there is none. */
  ghost predicate ShowsColumn(row: Json, data: Data, name: string) {
    FieldOf(row, "data." + name) ==
      if name !in data then None
      else match data[name]
        case Null => Some(Leaf(Scalar.Null))
        case Number(n) => Some(Leaf(Num(n)))
        case Text(s) => Some(Leaf(Scalar.Text(s)))
        case Blob(base64) => Some(Obj(map["blob" := Leaf(Scalar.Text(base64))]))
  }

  /** A shown row, as filters and readers see it: field by field, and column by column under `data`. */
  ghost predicate ShowsRow(row: Json, storeId: string, key: Key, data: Data) {
    && FieldOf(row, "key") == Some(Leaf(Scalar.Text(storeId + ":" + key.table + ":" + key.id)))
    && FieldOf(row, "storeId") == Some(Leaf(Scalar.Text(storeId)))
    && FieldOf(row, "table") == Some(Leaf(Scalar.Text(key.table)))
    && FieldOf(row, "id") == Some(Leaf(Scalar.Text(key.id)))
    && (forall name :: '.' !in name ==> ShowsColumn(row, data, name))
  }

  lemma ReadUnder(row: Json, field: string, name: string)
    requires row.Obj? && '.' !in field && field in row.fields && '.' !in name
    ensures FieldOf(row, field + "." + name) == Property(row.fields[field], name)
  {
    var path := field + "." + name;
    assert path[..|field|] == field && path[|field| + 1..] == name;
    FirstAt(path, '.', |field|);
    UndottedIsWhole(name);
    assert Split(path) == [field] + SplitOn(name, '.') && SplitOn(name, '.') == [name];
    assert [field, name][1..] == [name] && [name][1..] == [];
    assert Walk(Some(row), [field, name]) == Walk(Property(row, field), [name]);
    assert Walk(Some(row.fields[field]), [name]) == Walk(Property(row.fields[field], name), []);
  }

  lemma ReadsOwn(row: Json, field: string)
    requires row.Obj? && '.' !in field && field in row.fields
    ensures FieldOf(row, field) == Some(row.fields[field])
  {
    UndottedIsWhole(field);
    ReadUndotted(row, field);
  }

  lemma ShowsNames(storeId: string, key: Key, data: Data, row: Json)
    requires row == RowOf(storeId, key, data)
    ensures FieldOf(row, "key") == Some(Leaf(Scalar.Text(storeId + ":" + key.table + ":" + key.id)))
    ensures FieldOf(row, "id") == Some(Leaf(Scalar.Text(key.id)))
  {
    ReadsOwn(row, "key");
    ReadsOwn(row, "id");
  }

  lemma ShowsColumns(storeId: string, key: Key, data: Data, row: Json, name: string)
    requires row == RowOf(storeId, key, data) && '.' !in name
    ensures ShowsColumn(row, data, name)
  {
    ReadUnder(row, "data", name);
    assert "data" + "." + name == "data." + name;
  }

  /** Every row shows what its source holds. */
  lemma RowShows(storeId: string, key: Key, data: Data)
    ensures ShowsRow(RowOf(storeId, key, data), storeId, key, data)
  {
    var row := RowOf(storeId, key, data);
    ReadsFixed(storeId, key, data);
    ShowsNames(storeId, key, data, row);
    forall name | '.' !in name ensures ShowsColumn(row, data, name) {
      ShowsColumns(storeId, key, data, row, name);
    }
  }

  lemma ValueShows(v: Value, w: Value)
    requires ValueJson(v) == ValueJson(w)
    ensures v == w
  {
    if v.Blob? && w.Blob? {
      assert ValueJson(v).fields["blob"] == ValueJson(w).fields["blob"];
    }
  }

  /** Nothing is lost in showing a row: two are shown alike only where store, key and data are the same. */
  lemma RowInjective(storeId: string, key: Key, data: Data, otherStore: string, other: Key, otherData: Data)
    requires RowOf(storeId, key, data) == RowOf(otherStore, other, otherData)
    ensures storeId == otherStore && key == other && data == otherData
  {
    var a, b := RowOf(storeId, key, data).fields, RowOf(otherStore, other, otherData).fields;
    assert a["storeId"] == b["storeId"] && a["table"] == b["table"] && a["id"] == b["id"] && a["data"] == b["data"];
    var m, n := DataJson(data).fields, DataJson(otherData).fields;
    forall name ensures name in data <==> name in otherData {
      assert name in m <==> name in n;
    }
    forall name | name in data ensures data[name] == otherData[name] {
      assert m[name] == n[name];
      ValueShows(data[name], otherData[name]);
    }
  }

  /** A row's fixed fields are functions of its key. */
  lemma KeyFixes(storeId: string, key: Key, data: Data, otherStore: string, other: Key, otherData: Data)
    requires ':' !in storeId && ':' !in key.table && ':' !in otherStore && ':' !in other.table
    requires KeyOf(storeId, key.table, key.id) == KeyOf(otherStore, other.table, other.id)
    ensures storeId == otherStore && key == other
    ensures AgreeOn(RowOf(storeId, key, data), RowOf(otherStore, other, otherData), FIXED)
  {
    SplitKeyInverts(storeId, key.table, key.id);
    SplitKeyInverts(otherStore, other.table, other.id);
    ReadsFixed(storeId, key, data);
    ReadsFixed(otherStore, other, otherData);
  }

  // ---- changes ----

  /** A put has no prior row the node could know, so it is an update without one. */
  datatype RowChange = Updated(id: string, next: Json, origin: string) | Deleted(id: string, origin: string)

  function ChangeOf(storeId: string, c: RemoteChange): RowChange {
    var id := KeyOf(storeId, c.key.table, c.key.id);
    if c.Delete? then Deleted(id, storeId) else Updated(id, RowOf(storeId, c.key, c.data), storeId)
  }

  /** What a listener hears of a change: the row's id and source, and the row as it now is, or that it is gone. */
  lemma ChangeShows(storeId: string, c: RemoteChange, heard: RowChange)
    requires heard == ChangeOf(storeId, c)
    ensures heard.id == storeId + ":" + c.key.table + ":" + c.key.id && heard.origin == storeId
    ensures heard.Deleted? <==> c.Delete?
    ensures c.Put? ==> ShowsRow(heard.next, storeId, c.key, c.data)
  {
    if c.Put? {
      RowShows(storeId, c.key, c.data);
    }
  }

  function Changing(storeId: string): RemoteChange -> RowChange {
    c => ChangeOf(storeId, c)
  }
}
