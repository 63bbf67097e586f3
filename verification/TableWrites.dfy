/** What a table takes and what it then holds: keys told apart by their collation, said of the ids themselves. */
module TableWrites {
  import opened Options
  import opened RemoteData
  import opened ChangeLog

  predicate SameButCase(a: char, b: char) {
    || a == b
    || ('A' <= a <= 'Z' && b as int == a as int + 32)
    || ('A' <= b <= 'Z' && a as int == b as int + 32)
  }

  predicate Spaces(s: string) {
    forall i :: 0 <= i < |s| ==> s[i] == ' '
  }

  /** A text is another with spaces after it. */
  ghost predicate Padded(s: string, core: string) {
    core <= s && Spaces(s[|core|..])
  }

  /** Two ids are one key: as they are, but for the case of ASCII letters, or but for spaces at their ends. */
  ghost predicate SameKey(c: Collation, a: string, b: string) {
    match c
    case Binary => a == b
    case NoCase => |a| == |b| && forall i :: 0 <= i < |a| ==> SameButCase(a[i], b[i])
    case RTrim => exists core :: Padded(a, core) && Padded(b, core)
  }

  lemma {:induction false} TrimmedIs(s: string, core: string)
    requires Padded(s, core) && (core != [] ==> core[|core| - 1] != ' ')
    ensures WithoutTrailing(s) == core
  {
    if |s| > |core| {
      assert s[|s| - 1] == s[|core|..][|s| - 1 - |core|];
      assert s[..|s| - 1][|core|..] == s[|core|..][..|s| - 1 - |core|];
      TrimmedIs(s[..|s| - 1], core);
    } else {
      assert s == core;
    }
  }

  lemma {:induction false} TrimmedPads(s: string)
    ensures Padded(s, WithoutTrailing(s))
    ensures WithoutTrailing(s) != [] ==> WithoutTrailing(s)[|WithoutTrailing(s)| - 1] != ' '
  {
    if s != [] && s[|s| - 1] == ' ' {
      var init := s[..|s| - 1];
      TrimmedPads(init);
      var core := WithoutTrailing(init);
      assert s[|core|..] == init[|core|..] + [' '];
    } else {
      assert s[|s|..] == [];
    }
  }

  lemma TrimmedAlike(a: string, b: string, core: string)
    requires Padded(a, core) && Padded(b, core)
    ensures WithoutTrailing(a) == WithoutTrailing(b)
  {
    var short := WithoutTrailing(core);
    TrimmedPads(core);
    PadsOn(a, core, short);
    PadsOn(b, core, short);
    TrimmedIs(a, short);
    TrimmedIs(b, short);
  }

  lemma PadsOn(s: string, core: string, short: string)
    requires Padded(s, core) && Padded(core, short)
    ensures Padded(s, short)
  {
    assert s[|short|..] == core[|short|..] + s[|core|..];
  }

  /** What a collation compares is the same exactly where the ids are one key. */
  lemma CanonIff(c: Collation, a: string, b: string)
    ensures Canon(c, a) == Canon(c, b) <==> SameKey(c, a, b)
  {
    match c
    case Binary =>
    case NoCase =>
      if |a| == |b| {
        forall i | 0 <= i < |a| ensures Canon(c, a)[i] == Canon(c, b)[i] <==> SameButCase(a[i], b[i]) {
        }
      }
    case RTrim =>
      TrimmedPads(a);
      TrimmedPads(b);
      if WithoutTrailing(a) == WithoutTrailing(b) {
        assert Padded(a, WithoutTrailing(a)) && Padded(b, WithoutTrailing(a));
      }
      if core :| Padded(a, core) && Padded(b, core) {
        TrimmedAlike(a, b, core);
      }
  }

  /** A row of a table, other than one, already has an id's key. */
  ghost predicate Taken(t: Table, id: string, other: Option<string>) {
    exists r :: r in t.rows && Some(r) != other && SameKey(t.collation, r, id)
  }

  lemma ClashesIff(t: Table, id: string, but: set<string>, other: Option<string>)
    requires but == if other.Some? then {other.value} else {}
    ensures Clashes(t, id, but) <==> Taken(t, id, other)
  {
    forall r ensures Canon(t.collation, r) == Canon(t.collation, id) <==> SameKey(t.collation, r, id) {
      CanonIff(t.collation, r, id);
    }
  }

  function Held(rows: map<string, Data>, id: string): Option<Data> {
    if id in rows then Some(rows[id]) else None
  }

  /**
   * A write is refused exactly where its row is not there or its key is another row's; what it leaves is the rows that
   * were there, but for the one it takes away and the one it puts.
   */
  lemma WriteIff(t: Table, op: RowOp)
    ensures Written(t, op).Some? <==>
            match op
            case Insert(_, id, _) => !Taken(t, id, None)
            case Update(_, id, newId, _) => id in t.rows && !Taken(t, newId, Some(id))
            case Remove(_, id) => id in t.rows
    ensures Written(t, op).Some? ==>
              forall r :: Held(Written(t, op).value, r) ==
                if !op.Remove? && r == (if op.Update? then op.newId else op.id) then Some(op.data)
                else if r == op.id then None
                else Held(t.rows, r)
  {
    match op
    case Insert(_, id, _) => ClashesIff(t, id, {}, None);
    case Update(_, id, newId, _) => ClashesIff(t, newId, {id}, Some(id));
    case Remove(_, _) =>
  }
}
