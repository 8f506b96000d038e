/** The snapshot list of the configurator widget: a table of
    `(name, timestamp, description)` rows and a map from each name to its
    row. "Last saved" always sits in row 0; rows are inserted, removed,
    renamed and copied with the map kept in step. */
module Configurator {
  import opened Common

  const Default: string := "default"
  const LastSaved: string := "Last saved"

  /** One row of the table. */
  datatype Row = Row(name: string, timestamp: string, description: string)

  /** The map and the table describe each other: every name maps to the
      row that carries it, and every row's name maps back to that row. */
  ghost predicate Consistent(m: map<string, int>, t: seq<Row>) {
    (forall k :: k in m ==> 0 <= m[k] < |t| && t[m[k]].name == k) &&
    (forall i :: 0 <= i < |t| ==> t[i].name in m && m[t[i].name] == i)
  }

  /** A consistent map has one entry per row. */
  lemma {:induction false} ConsistentSize(m: map<string, int>, t: seq<Row>)
    requires Consistent(m, t)
    ensures |m| == |t|
    decreases |t|
  {
    if t == [] {
      assert m.Keys == {};
    } else {
      var k := t[|t| - 1].name;
      var m' := m - {k};
      var t' := t[..|t| - 1];
      forall k' | k' in m' ensures 0 <= m'[k'] < |t'| && t'[m'[k']].name == k' {
        assert m[k'] != |t| - 1;
      }
      forall i | 0 <= i < |t'| ensures t'[i].name in m' && m'[t'[i].name] == i {
        assert t[i].name != k;
      }
      ConsistentSize(m', t');
      assert m'.Keys == m.Keys - {k};
    }
  }

  /** The row values are exactly `0 .. n-1`, one name each. */
  lemma RowValues(m: map<string, int>, t: seq<Row>)
    requires Consistent(m, t)
    ensures |m| == |t|
    ensures forall v :: v in m.Values <==> 0 <= v < |t|
  {
    ConsistentSize(m, t);
    forall i | 0 <= i < |t| ensures i in m.Values {
      assert m[t[i].name] == i;
    }
  }

  /** `row` shifted by an insertion at `r`. */
  function ShiftedUp(v: int, r: int): int {
    if v >= r then v + 1 else v
  }

  /** `row` shifted by a removal at `r`. */
  function ShiftedDown(v: int, r: int): int {
    if v > r then v - 1 else v
  }

  function ShiftUp(m: map<string, int>, r: int): (s: map<string, int>)
    ensures s.Keys == m.Keys
    ensures forall k :: k in m ==> s[k] == ShiftedUp(m[k], r)
  {
    map k | k in m :: ShiftedUp(m[k], r)
  }

  function ShiftDown(m: map<string, int>, r: int): (s: map<string, int>)
    ensures s.Keys == m.Keys
    ensures forall k :: k in m ==> s[k] == ShiftedDown(m[k], r)
  {
    map k | k in m :: ShiftedDown(m[k], r)
  }

  function InsertAt(t: seq<Row>, r: nat, x: Row): (u: seq<Row>)
    requires r <= |t|
    ensures |u| == |t| + 1 && u[r] == x
    ensures forall i {:trigger u[i]} :: 0 <= i < r ==> u[i] == t[i]
    ensures forall i {:trigger u[i]} :: r < i <= |t| ==> u[i] == t[i - 1]
  {
    t[..r] + [x] + t[r..]
  }

  function RemoveAt(t: seq<Row>, r: nat): (u: seq<Row>)
    requires r < |t|
    ensures |u| == |t| - 1
    ensures forall i {:trigger u[i]} :: 0 <= i < r ==> u[i] == t[i]
    ensures forall i {:trigger u[i]} :: r <= i < |u| ==> u[i] == t[i + 1]
  {
    t[..r] + t[r + 1..]
  }

  /** The row a new entry goes to: "Last saved" to 0, no row to the end. */
  function TargetRow(name: string, row: Option<nat>, n: nat): (r: nat)
    ensures name == LastSaved ==> r == 0
    ensures name != LastSaved && row.None? ==> r == n
    ensures name != LastSaved && row.Some? ==> r == row.value
  {
    if name == LastSaved then 0 else if row.None? then n else row.value
  }

  /** Inserting a new name at `r` and shifting the rows at and after `r`
      keeps map and table consistent. */
  lemma InsertConsistent(m: map<string, int>, t: seq<Row>, r: nat, x: Row)
    requires Consistent(m, t) && x.name !in m && r <= |t|
    ensures Consistent(ShiftUp(m, r)[x.name := r], InsertAt(t, r, x))
  {
    var m' := ShiftUp(m, r)[x.name := r];
    var t' := InsertAt(t, r, x);
    forall i | 0 <= i < |t'| ensures t'[i].name in m' && m'[t'[i].name] == i {
      if i < r {
        assert t'[i] == t[i] && m[t[i].name] == i;
      } else if i > r {
        assert t'[i] == t[i - 1] && m[t[i - 1].name] == i - 1;
      }
    }
  }

  /** Removing a name and shifting the rows after it back keeps map and
      table consistent. */
  lemma RemoveConsistent(m: map<string, int>, t: seq<Row>, k: string)
    requires Consistent(m, t) && k in m
    ensures Consistent(ShiftDown(m - {k}, m[k]), RemoveAt(t, m[k]))
  {
    var r := m[k];
    var m' := ShiftDown(m - {k}, r);
    var t' := RemoveAt(t, r);
    forall k' | k' in m' ensures 0 <= m'[k'] < |t'| && t'[m'[k']].name == k' {
      assert m[k'] != r;
    }
    forall i | 0 <= i < |t'| ensures t'[i].name in m' && m'[t'[i].name] == i {
      if i < r {
        assert t'[i] == t[i] && m[t[i].name] == i;
      } else {
        assert t'[i] == t[i + 1] && m[t[i + 1].name] == i + 1;
      }
    }
  }

  /** Giving row `row` a fresh name keeps map and table consistent. */
  lemma RenameConsistent(m: map<string, int>, t: seq<Row>, row: nat, newName: string)
    requires Consistent(m, t) && row < |t| && newName !in m
    ensures Consistent((m - {t[row].name})[newName := row], t[row := t[row].(name := newName)])
  {
    var t' := t[row := t[row].(name := newName)];
    forall i | 0 <= i < |t'| && i != row ensures t'[i].name != t[row].name {
      assert m[t[i].name] == i;
    }
  }

  /** Every row of a consistent map lies below the number of entries. */
  lemma RowsBelowSize(m: map<string, int>, t: seq<Row>)
    requires Consistent(m, t)
    ensures RowsBelow(m, |m|)
  {
    ConsistentSize(m, t);
  }

  /** Every row lies below `n`. */
  ghost predicate RowsBelow(m: map<string, int>, n: int) {
    forall k :: k in m ==> m[k] < n
  }

  /** When every row lies below `n`, the shift at `n` changes nothing. */
  lemma ShiftUpAtEnd(m: map<string, int>, n: nat)
    requires RowsBelow(m, n)
    ensures ShiftUp(m, n) == m
  {
  }

  /** Every name of `names` keeps its row's content from `m`, `t` to
      `m'`, `t'` (its position may move). */
  ghost predicate KeepsRows(m: map<string, int>, t: seq<Row>, m': map<string, int>, t': seq<Row>, names: set<string>) {
    forall k {:trigger k in names} :: k in names ==>
      k in m && k in m' && 0 <= m[k] < |t| && 0 <= m'[k] < |t'| && t'[m'[k]] == t[m[k]]
  }

  lemma KeepsFewer(m: map<string, int>, t: seq<Row>, m': map<string, int>, t': seq<Row>, names: set<string>, fewer: set<string>)
    requires KeepsRows(m, t, m', t', names) && fewer <= names
    ensures KeepsRows(m, t, m', t', fewer)
  {
  }

  /** Kept across two steps is kept across both. */
  lemma KeepsTrans(m0: map<string, int>, t0: seq<Row>, m1: map<string, int>, t1: seq<Row>,
                   m2: map<string, int>, t2: seq<Row>, n1: set<string>, n2: set<string>, names: set<string>)
    requires KeepsRows(m0, t0, m1, t1, n1) && KeepsRows(m1, t1, m2, t2, n2) && names <= n1 && names <= n2
    ensures KeepsRows(m0, t0, m2, t2, names)
  {
  }

  /** The first `n` rows of `rows` are listed under their names. */
  ghost predicate Listed(m: map<string, int>, t: seq<Row>, rows: seq<Row>, n: nat) {
    forall j :: 0 <= j < n && j < |rows| ==>
      rows[j].name in m && 0 <= m[rows[j].name] < |t| && t[m[rows[j].name]] == rows[j]
  }

  /** Rows listed under kept names stay listed. */
  lemma ListedKept(rows: seq<Row>, n: nat, m1: map<string, int>, t1: seq<Row>,
                   m2: map<string, int>, t2: seq<Row>, names: set<string>)
    requires Listed(m1, t1, rows, n) && KeepsRows(m1, t1, m2, t2, names)
    requires forall j :: 0 <= j < n && j < |rows| ==> rows[j].name in names
    ensures Listed(m2, t2, rows, n)
  {
  }

  /** With distinct names, row `i` carries a name the earlier rows do not. */
  lemma NewName(rows: seq<Row>, i: nat)
    requires i < |rows|
    requires forall a, b :: 0 <= a < b < |rows| ==> rows[a].name != rows[b].name
    ensures rows[i].name !in Names(rows[..i]) && rows[i].name in Names(rows)
  {
  }

  /** The table after a snapshot: a new top row, or the old "Last saved"
      top row replaced. */
  function SnapshotRows(t: seq<Row>, snap: Row): seq<Row> {
    if |t| == 0 || t[0].name != LastSaved then [snap] + t else [snap] + t[1..]
  }

  /** The map after a snapshot. */
  function SnapshotMap(m: map<string, int>, t: seq<Row>): map<string, int> {
    if |t| == 0 || t[0].name != LastSaved then ShiftUp(m, 0)[LastSaved := 0] else m
  }

  /** A snapshot keeps the map and table consistent, puts "Last saved"
      at the top and keeps every other row. */
  lemma SnapshotFacts(m: map<string, int>, t: seq<Row>, snap: Row)
    requires Consistent(m, t) && PinnedMap(m) && snap.name == LastSaved
    ensures |t| == 0 || t[0].name != LastSaved ==> LastSaved !in m && SnapshotRows(t, snap) == InsertAt(t, 0, snap)
    ensures |t| > 0 && t[0].name == LastSaved ==> SnapshotRows(t, snap) == t[0 := snap]
    ensures var m', t' := SnapshotMap(m, t), SnapshotRows(t, snap);
      Consistent(m', t') && PinnedMap(m') && LastSaved in m' && t'[0] == snap &&
      KeepsRows(m, t, m', t', m.Keys - {LastSaved}) && m'.Keys == m.Keys + {LastSaved}
  {
    if |t| == 0 || t[0].name != LastSaved {
      InsertFacts(m, t, 0, snap);
      assert [snap] + t == InsertAt(t, 0, snap);
    } else {
      assert t[0 := snap] == [snap] + t[1..];
    }
  }

  /** Adding "a" to an empty list and then "Last saved" moves "a" from
      row 0 to row 1; removing "Last saved" moves it back. */
  lemma ShiftScenario()
    ensures var ra, snap := Row("a", "t0", ""), Row(LastSaved, "t1", "");
      var m1, t1 := ShiftUp(map[], 0)["a" := 0], InsertAt([], 0, ra);
      var m2, t2 := ShiftUp(m1, 0)[LastSaved := 0], InsertAt(t1, 0, snap);
      m2 == map["a" := 1, LastSaved := 0] && t2 == [snap, ra] &&
      ShiftDown(m2 - {LastSaved}, 0) == map["a" := 0] && RemoveAt(t2, 0) == [ra]
  {
    var ra, snap := Row("a", "t0", ""), Row(LastSaved, "t1", "");
    var m1 := ShiftUp(map[], 0)["a" := 0];
    assert m1 == map["a" := 0];
    var m2 := ShiftUp(m1, 0)[LastSaved := 0];
    assert "a" != LastSaved;
    assert m2 == map["a" := 1, LastSaved := 0];
    assert InsertAt([], 0, ra) == [ra];
    assert InsertAt([ra], 0, snap) == [snap, ra];
    assert m2 - {LastSaved} == map["a" := 1];
  }

  /** "Last saved", when present, maps to row 0. */
  predicate PinnedMap(m: map<string, int>) {
    LastSaved in m ==> m[LastSaved] == 0
  }

  /** What an insertion at `r` keeps: consistency, the rows of the
      other names, and "Last saved" at the top unless a new name is put
      above it. */
  lemma InsertFacts(m: map<string, int>, t: seq<Row>, r: nat, x: Row)
    requires Consistent(m, t) && x.name !in m && r <= |t|
    ensures var m' := ShiftUp(m, r)[x.name := r];
      var t' := InsertAt(t, r, x);
      Consistent(m', t') && x.name in m' && t'[m'[x.name]] == x &&
      KeepsRows(m, t, m', t', m.Keys) &&
      (PinnedMap(m) && (x.name == LastSaved ==> r == 0) && (x.name == LastSaved || LastSaved !in m || r > 0) ==>
        PinnedMap(m')) &&
      (PinnedMap(m) && x.name != LastSaved && r == |t| ==> PinnedMap(m'))
    ensures ShiftUp(m, r)[x.name := r].Keys == m.Keys + {x.name}
  {
    InsertConsistent(m, t, r, x);
  }

  /** What a removal keeps: consistency, the rows of the other names, and
      "Last saved" at the top. */
  lemma RemoveFacts(m: map<string, int>, t: seq<Row>, k: string)
    requires Consistent(m, t) && k in m
    ensures var m' := ShiftDown(m - {k}, m[k]);
      var t' := RemoveAt(t, m[k]);
      Consistent(m', t') &&
      KeepsRows(m, t, m', t', m.Keys - {k}) &&
      (PinnedMap(m) ==> PinnedMap(m'))
    ensures ShiftDown(m - {k}, m[k]).Keys == m.Keys - {k}
  {
    RemoveConsistent(m, t, k);
    if PinnedMap(m) && LastSaved in m && LastSaved != k {
      assert t[m[k]].name == k;
    }
  }

  /** After a removal the other rows lie at most at the new size and
      never at the removed row. */
  lemma RowsAroundRemoved(m: map<string, int>, t: seq<Row>, k: string)
    requires Consistent(m, t) && k in m
    ensures var m1 := m - {k}; forall k' :: k' in m1 ==> m1[k'] <= |m1| && m1[k'] != m[k]
  {
    ConsistentSize(m, t);
    assert (m - {k}).Keys == m.Keys - {k};
    forall k' | k' in m - {k} ensures m[k'] != m[k] {
      assert t[m[k']].name == k';
    }
  }

  /** `for k, v in config.items(): if v >= r: config[k] += 1`. */
  method ShiftRowsUp(m: map<string, int>, r: int) returns (s: map<string, int>)
    requires RowsBelow(m, |m|)
    ensures s == ShiftUp(m, r)
  {
    s := m;
    if r == |m| {
      ShiftUpAtEnd(m, r);
      return;
    }
    var keys := m.Keys;
    while keys != {}
      invariant keys <= m.Keys && s.Keys == m.Keys
      invariant forall k :: k in s ==> s[k] == if k in keys then m[k] else ShiftedUp(m[k], r)
      decreases |keys|
    {
      var k :| k in keys;
      if s[k] >= r {
        s := s[k := s[k] + 1];
      }
      keys := keys - {k};
    }
  }

  /** `for k, v in config.items(): if v > r: config[k] -= 1`. */
  method ShiftRowsDown(m: map<string, int>, r: int) returns (s: map<string, int>)
    requires forall k :: k in m ==> m[k] <= |m| && m[k] != r
    ensures s == ShiftDown(m, r)
  {
    s := m;
    if r == |m| {
      return;
    }
    var keys := m.Keys;
    while keys != {}
      invariant keys <= m.Keys && s.Keys == m.Keys
      invariant forall k :: k in s ==> s[k] == if k in keys then m[k] else ShiftedDown(m[k], r)
      decreases |keys|
    {
      var k :| k in keys;
      if s[k] > r {
        s := s[k := s[k] - 1];
      }
      keys := keys - {k};
    }
  }

  class Configurator {
    /** Name to row. */
    var config: map<string, int>
    /** The rows of the table, top to bottom. */
    var table: seq<Row>

    ghost predicate Valid()
      reads this
    {
      Consistent(config, table)
    }

    /** "Last saved", when present, is in row 0. */
    predicate Pinned()
      reads this
    {
      PinnedMap(config)
    }

    constructor()
      ensures Valid() && Pinned()
      ensures config == map[] && table == []
    {
      config := map[];
      table := [];
    }

    /** A name the user may give to a new or renamed snapshot: not taken,
        not one of the two reserved names, not empty. */
    function CheckConfigName(name: string): (ok: bool)
      reads this
      ensures ok ==> name !in config && name != Default && name != LastSaved && name != ""
      ensures !ok ==> name in config || name == Default || name == LastSaved || name == ""
    {
      if name in config then false
      else if name == Default || name == LastSaved then false
      else name != ""
    }

    /** `_insertConfigurationToList`: see `InsertEntry`. */
    method Insert(cfg: Row, row: Option<nat>)
      requires Valid() && cfg.name !in config
      requires row.Some? ==> row.value <= |table|
      modifies this
      ensures var r := TargetRow(cfg.name, row, |old(table)|);
        table == InsertAt(old(table), r, cfg) && config == ShiftUp(old(config), r)[cfg.name := r]
      ensures Valid()
      ensures old(Pinned()) && (cfg.name == LastSaved || row.None?) ==> Pinned()
    {
      config, table := InsertEntry(config, table, cfg, row);
    }

    /** `_removeConfigurationFromList`: see `RemoveEntry`. */
    method Remove(name: string)
      requires Valid() && name in config
      modifies this
      ensures table == RemoveAt(old(table), old(config)[name])
      ensures config == ShiftDown(old(config) - {name}, old(config)[name])
      ensures Valid()
      ensures old(Pinned()) ==> Pinned()
    {
      config, table := RemoveEntry(config, table, name);
    }

    /** Copy row `row` under a new name to the end of the table. */
    method Copy(row: nat, newName: string)
      requires Valid() && row < |table| && newName !in config
      modifies this
      ensures var cfg := old(table)[row].(name := newName);
        var r := TargetRow(newName, None, |old(table)|);
        table == InsertAt(old(table), r, cfg) && config == ShiftUp(old(config), r)[newName := r]
      ensures Valid()
      ensures old(Pinned()) ==> Pinned()
    {
      var cfg := table[row].(name := newName);
      Insert(cfg, None);
    }

    /** Give row `row` a new name; its position does not change. */
    method Rename(row: nat, newName: string)
      requires Valid() && row < |table| && newName !in config
      modifies this
      ensures table == old(table)[row := old(table)[row].(name := newName)]
      ensures config == (old(config) - {old(table)[row].name})[newName := row]
      ensures Valid()
      ensures old(Pinned()) && (newName != LastSaved || row == 0) ==> Pinned()
    {
      var name := table[row].name;
      RenameConsistent(config, table, row, newName);
      config := config - {name};
      config := config[newName := row];
      table := table[row := table[row].(name := newName)];
    }

    /** `_takeSnapshot`: see `SnapshotEntry`. */
    method TakeSnapshot(timestamp: string, description: string)
      requires Valid() && Pinned()
      modifies this
      ensures table == SnapshotRows(old(table), Row(LastSaved, timestamp, description))
      ensures config == SnapshotMap(old(config), old(table))
      ensures Valid() && Pinned()
      ensures LastSaved in config && table[0] == Row(LastSaved, timestamp, description)
    {
      config, table := SnapshotEntry(config, table, timestamp, description);
    }

    /** `_loadConfigurations`: see `LoadEntries`. */
    method Load(cfgList: seq<Row>, timestamp: string, description: string)
      requires Valid() && Pinned()
      requires forall a, b :: 0 <= a < b < |cfgList| ==> cfgList[a].name != cfgList[b].name
      modifies this
      ensures Valid() && Pinned()
      ensures LastSaved in config && table[0].name == LastSaved
      ensures config.Keys == old(config).Keys + Names(cfgList) + {LastSaved}
      ensures Listed(config, table, cfgList, |cfgList|)
      ensures KeepsRows(old(config), old(table), config, table, old(config).Keys - Names(cfgList) - {LastSaved})
      ensures LastSaved !in old(config) && LastSaved !in Names(cfgList) ==>
        table[0] == Row(LastSaved, timestamp, description)
      ensures LastSaved in old(config) || LastSaved in Names(cfgList) ==>
        table == LoadRows(old(table), cfgList)
      ensures LastSaved !in old(config) && LastSaved !in Names(cfgList) ==>
        table == [Row(LastSaved, timestamp, description)] + LoadRows(old(table), cfgList)
    {
      config, table := LoadEntries(config, table, cfgList, timestamp, description);
      InsertedRowsClosed(RowsNotNamed(old(table), Names(cfgList)), cfgList);
    }
  }

  /** Without "Last saved" listed, a snapshot row goes on top of the
      table. */
  lemma SnapshotOnTop(m: map<string, int>, t: seq<Row>, snap: Row)
    requires Consistent(m, t) && LastSaved !in m
    ensures SnapshotRows(t, snap) == [snap] + t
  {
    if |t| > 0 {
      assert t[0].name in m;
    }
  }

  /** `_takeSnapshot` on the map and the rows: a new "Last saved" row is
      inserted at the top unless the top row is already "Last saved",
      which is then overwritten. */
  method SnapshotEntry(m: map<string, int>, t: seq<Row>, timestamp: string, description: string)
    returns (m': map<string, int>, t': seq<Row>)
    requires Consistent(m, t) && PinnedMap(m)
    ensures t' == SnapshotRows(t, Row(LastSaved, timestamp, description))
    ensures m' == SnapshotMap(m, t)
    ensures Consistent(m', t') && PinnedMap(m')
    ensures LastSaved in m' && t'[0] == Row(LastSaved, timestamp, description)
    ensures KeepsRows(m, t, m', t', m.Keys - {LastSaved})
    ensures m'.Keys == m.Keys + {LastSaved}
  {
    var snap := Row(LastSaved, timestamp, description);
    SnapshotFacts(m, t, snap);
    if |t| == 0 || t[0].name != LastSaved {
      m', t' := InsertEntry(m, t, snap, Some(0));
    } else {
      m', t' := m, t[0 := snap];
    }
  }

  /** `_loadConfigurations` on the map and the rows: every loaded name
      that is already listed loses its row first, then every loaded row
      is inserted, and a "Last saved" snapshot is taken when none is
      listed. */
  method LoadEntries(m: map<string, int>, t: seq<Row>, cfgList: seq<Row>, timestamp: string, description: string)
    returns (m': map<string, int>, t': seq<Row>)
    requires Consistent(m, t) && PinnedMap(m)
    requires forall a, b :: 0 <= a < b < |cfgList| ==> cfgList[a].name != cfgList[b].name
    ensures Consistent(m', t') && PinnedMap(m')
    ensures LastSaved in m' && t'[0].name == LastSaved
    ensures m'.Keys == m.Keys + Names(cfgList) + {LastSaved}
    ensures Listed(m', t', cfgList, |cfgList|)
    ensures KeepsRows(m, t, m', t', m.Keys - Names(cfgList) - {LastSaved})
    ensures LastSaved !in m && LastSaved !in Names(cfgList) ==>
      t'[0] == Row(LastSaved, timestamp, description)
    ensures LastSaved in m || LastSaved in Names(cfgList) ==>
      t' == InsertedRows(RowsNotNamed(t, Names(cfgList)), cfgList)
    ensures LastSaved !in m && LastSaved !in Names(cfgList) ==>
      t' == [Row(LastSaved, timestamp, description)] + InsertedRows(RowsNotNamed(t, Names(cfgList)), cfgList)
  {
    var m2, t2 := ReplaceListed(m, t, cfgList);
    m', t' := SnapshotUnlessListed(m2, t2, cfgList, timestamp, description);
    KeepsTrans(m, t, m2, t2, m', t', m.Keys - Names(cfgList), m2.Keys - {LastSaved}, m.Keys - Names(cfgList) - {LastSaved});
  }

  /** The last step of loading: a snapshot is taken when no "Last saved"
      row is listed; it goes on top of the table. */
  method SnapshotUnlessListed(m: map<string, int>, t: seq<Row>, cfgList: seq<Row>, timestamp: string, description: string)
    returns (m': map<string, int>, t': seq<Row>)
    requires Consistent(m, t) && PinnedMap(m)
    requires Listed(m, t, cfgList, |cfgList|)
    ensures Consistent(m', t') && PinnedMap(m')
    ensures LastSaved in m' && t'[0].name == LastSaved
    ensures m'.Keys == m.Keys + {LastSaved}
    ensures Listed(m', t', cfgList, |cfgList|)
    ensures KeepsRows(m, t, m', t', m.Keys - {LastSaved})
    ensures LastSaved in m ==> t' == t
    ensures LastSaved !in m ==> t' == [Row(LastSaved, timestamp, description)] + t
  {
    if LastSaved !in m {
      SnapshotOnTop(m, t, Row(LastSaved, timestamp, description));
      m', t' := SnapshotEntry(m, t, timestamp, description);
      assert forall j :: 0 <= j < |cfgList| ==> cfgList[j].name in m;
      ListedKept(cfgList, |cfgList|, m, t, m', t', m.Keys - {LastSaved});
    } else {
      m', t' := m, t;
      assert t[m[LastSaved]].name == LastSaved;
    }
  }

  /** The two loops of loading: the rows of the loaded names go, then the
      loaded rows are inserted one by one. */
  method ReplaceListed(m: map<string, int>, t: seq<Row>, cfgList: seq<Row>) returns (m': map<string, int>, t': seq<Row>)
    requires Consistent(m, t) && PinnedMap(m)
    requires forall a, b :: 0 <= a < b < |cfgList| ==> cfgList[a].name != cfgList[b].name
    ensures Consistent(m', t') && PinnedMap(m')
    ensures m'.Keys == m.Keys + Names(cfgList)
    ensures Listed(m', t', cfgList, |cfgList|)
    ensures KeepsRows(m, t, m', t', m.Keys - Names(cfgList))
    ensures t' == InsertedRows(RowsNotNamed(t, Names(cfgList)), cfgList)
  {
    var m1, t1 := RemoveListed(m, t, cfgList);
    m', t' := InsertListed(m1, t1, cfgList);
    KeepsTrans(m, t, m1, t1, m', t', m1.Keys, m1.Keys, m1.Keys);
  }

  /** `_insertConfigurationToList` on the map and the rows: the new row
      goes to `row` ("Last saved" to 0, no row meaning the end), and the
      rows at and after it move down by one. */
  method InsertEntry(m: map<string, int>, t: seq<Row>, cfg: Row, row: Option<nat>) returns (m': map<string, int>, t': seq<Row>)
    requires Consistent(m, t) && cfg.name !in m && (row.Some? ==> row.value <= |t|)
    ensures var r := TargetRow(cfg.name, row, |t|);
      m' == ShiftUp(m, r)[cfg.name := r] && t' == InsertAt(t, r, cfg)
    ensures Consistent(m', t')
    ensures cfg.name in m' && t'[m'[cfg.name]] == cfg
    ensures KeepsRows(m, t, m', t', m.Keys)
    ensures PinnedMap(m) && (cfg.name == LastSaved || row.None?) ==> PinnedMap(m')
    ensures m'.Keys == m.Keys + {cfg.name}
  {
    var r := TargetRow(cfg.name, row, |t|);
    InsertFacts(m, t, r, cfg);
    RowsBelowSize(m, t);
    var s := ShiftRowsUp(m, r);
    m', t' := s[cfg.name := r], InsertAt(t, r, cfg);
  }

  /** `_removeConfigurationFromList` on the map and the rows: the row of
      `name` goes and the rows after it move up by one. */
  method RemoveEntry(m: map<string, int>, t: seq<Row>, name: string) returns (m': map<string, int>, t': seq<Row>)
    requires Consistent(m, t) && name in m
    ensures m' == ShiftDown(m - {name}, m[name]) && t' == RemoveAt(t, m[name])
    ensures Consistent(m', t')
    ensures KeepsRows(m, t, m', t', m.Keys - {name})
    ensures PinnedMap(m) ==> PinnedMap(m')
    ensures m'.Keys == m.Keys - {name}
  {
    RemoveFacts(m, t, name);
    var row := m[name];
    RowsAroundRemoved(m, t, name);
    var s := ShiftRowsDown(m - {name}, row);
    m', t' := s, RemoveAt(t, row);
  }

  /** The first loop of loading: the rows of the loaded names go. */
  method RemoveListed(m: map<string, int>, t: seq<Row>, cfgList: seq<Row>) returns (m': map<string, int>, t': seq<Row>)
    requires Consistent(m, t) && PinnedMap(m)
    ensures Consistent(m', t') && PinnedMap(m')
    ensures m'.Keys == m.Keys - Names(cfgList)
    ensures KeepsRows(m, t, m', t', m'.Keys)
    ensures t' == RowsNotNamed(t, Names(cfgList))
  {
    m', t' := m, t;
    assert Names(cfgList[..0]) == {};
    NotNamedAbsent(t, {});
    for i := 0 to |cfgList|
      invariant Consistent(m', t') && PinnedMap(m')
      invariant m'.Keys == m.Keys - Names(cfgList[..i])
      invariant KeepsRows(m, t, m', t', m'.Keys)
      invariant t' == RowsNotNamed(t, Names(cfgList[..i]))
    {
      NamesSnoc(cfgList, i);
      NotNamedTwice(t, Names(cfgList[..i]), cfgList[i].name);
      ghost var m1, t1 := m', t';
      m', t' := RemoveIfListed(m', t', cfgList[i].name);
      KeepsTrans(m, t, m1, t1, m', t', m1.Keys, m'.Keys, m'.Keys);
    }
    assert cfgList[..|cfgList|] == cfgList;
  }

  /** One step of the first loop of loading: a listed name loses its row
      and the rows after it close the gap. */
  method RemoveIfListed(m: map<string, int>, t: seq<Row>, x: string) returns (m': map<string, int>, t': seq<Row>)
    requires Consistent(m, t) && PinnedMap(m)
    ensures Consistent(m', t') && PinnedMap(m')
    ensures m'.Keys == m.Keys - {x}
    ensures KeepsRows(m, t, m', t', m'.Keys)
    ensures t' == RowsNotNamed(t, {x})
  {
    if x in m {
      forall j | 0 <= j < |t| && j != m[x] ensures t[j].name != x {
        assert m[t[j].name] == j;
      }
      NotNamedRemove(t, m[x], x);
      m', t' := RemoveEntry(m, t, x);
    } else {
      m', t' := m, t;
      NotNamedAbsent(t, {x});
    }
  }

  /** The second loop of loading: every loaded row is inserted at the
      end ("Last saved" at the top). */
  method InsertListed(m: map<string, int>, t: seq<Row>, cfgList: seq<Row>) returns (m': map<string, int>, t': seq<Row>)
    requires Consistent(m, t) && PinnedMap(m)
    requires forall a, b :: 0 <= a < b < |cfgList| ==> cfgList[a].name != cfgList[b].name
    requires forall j :: 0 <= j < |cfgList| ==> cfgList[j].name !in m
    ensures Consistent(m', t') && PinnedMap(m')
    ensures m'.Keys == m.Keys + Names(cfgList)
    ensures KeepsRows(m, t, m', t', m.Keys)
    ensures Listed(m', t', cfgList, |cfgList|)
    ensures t' == InsertedRows(t, cfgList)
  {
    m', t' := m, t;
    for i := 0 to |cfgList|
      invariant Consistent(m', t') && PinnedMap(m')
      invariant m'.Keys == m.Keys + Names(cfgList[..i])
      invariant KeepsRows(m, t, m', t', m.Keys)
      invariant Listed(m', t', cfgList, i)
      invariant t' == InsertedRows(t, cfgList[..i])
    {
      m', t' := InsertNext(m, t, cfgList, i, m', t');
    }
    assert cfgList[..|cfgList|] == cfgList;
  }

  /** One step of the second loop of loading: loaded row `i` is inserted
      with no row given, after rows `0 .. i-1` have been. */
  method InsertNext(ghost m: map<string, int>, ghost t: seq<Row>, cfgList: seq<Row>, i: nat,
                    m1: map<string, int>, t1: seq<Row>) returns (m': map<string, int>, t': seq<Row>)
    requires i < |cfgList|
    requires forall a, b :: 0 <= a < b < |cfgList| ==> cfgList[a].name != cfgList[b].name
    requires forall j :: 0 <= j < |cfgList| ==> cfgList[j].name !in m
    requires Consistent(m1, t1) && PinnedMap(m1)
    requires m1.Keys == m.Keys + Names(cfgList[..i])
    requires KeepsRows(m, t, m1, t1, m.Keys)
    requires Listed(m1, t1, cfgList, i)
    requires t1 == InsertedRows(t, cfgList[..i])
    ensures Consistent(m', t') && PinnedMap(m')
    ensures m'.Keys == m.Keys + Names(cfgList[..i + 1])
    ensures KeepsRows(m, t, m', t', m.Keys)
    ensures Listed(m', t', cfgList, i + 1)
    ensures t' == InsertedRows(t, cfgList[..i + 1])
  {
    NamesSnoc(cfgList, i);
    NewName(cfgList, i);
    m', t' := InsertEntry(m1, t1, cfgList[i], None);
    InsertedRowsStep(t, cfgList, i);
    UnionStep(m'.Keys, m1.Keys, m.Keys, Names(cfgList[..i]), Names(cfgList[..i + 1]), cfgList[i].name);
    KeepsTrans(m, t, m1, t1, m', t', m.Keys, m1.Keys, m.Keys);
    ListedKept(cfgList, i, m1, t1, m', t', m1.Keys);
  }

  lemma UnionStep(a: set<string>, b: set<string>, c: set<string>, n: set<string>, n': set<string>, x: string)
    requires a == b + {x} && b == c + n && n' == n + {x}
    ensures a == c + n'
  {
  }

  /** The names of a list of rows. */
  function Names(rows: seq<Row>): set<string> {
    set j | 0 <= j < |rows| :: rows[j].name
  }

  /** One row more adds its name. */
  lemma NamesSnoc(rows: seq<Row>, i: nat)
    requires i < |rows|
    ensures Names(rows[..i + 1]) == Names(rows[..i]) + {rows[i].name}
  {
    var a, b := rows[..i + 1], rows[..i];
    forall k | k in Names(a) ensures k in Names(b) + {rows[i].name} {
      var j :| 0 <= j < |a| && a[j].name == k;
      if j < i {
        assert b[j] == a[j];
      }
    }
    forall k | k in Names(b) + {rows[i].name} ensures k in Names(a) {
      if k == rows[i].name {
        assert a[i].name == k;
      } else {
        var j :| 0 <= j < |b| && b[j].name == k;
        assert a[j] == b[j];
      }
    }
  }


  /** The rows of `rows` whose names are in `names`, in their order. */
  function RowsNamed(rows: seq<Row>, names: set<string>): seq<Row>
    decreases |rows|
  {
    if rows == [] then []
    else
      var last := rows[|rows| - 1];
      RowsNamed(rows[..|rows| - 1], names) + (if last.name in names then [last] else [])
  }

  /** The rows of `rows` whose names are not in `names`, in their order. */
  function RowsNotNamed(rows: seq<Row>, names: set<string>): seq<Row>
    decreases |rows|
  {
    if rows == [] then []
    else
      var last := rows[|rows| - 1];
      RowsNotNamed(rows[..|rows| - 1], names) + (if last.name in names then [] else [last])
  }

  /** The table after the two loops of loading: a loaded "Last saved" row
      at the top, then the rows whose names were not loaded, in their old
      order, then the other loaded rows, in list order. */
  function LoadRows(t: seq<Row>, cfgList: seq<Row>): seq<Row> {
    RowsNamed(cfgList, {LastSaved}) + RowsNotNamed(t, Names(cfgList)) + RowsNotNamed(cfgList, {LastSaved})
  }

  /** The rows after inserting `rows` one by one with no row given:
      "Last saved" at the top, any other row at the end. */
  function InsertedRows(t: seq<Row>, rows: seq<Row>): seq<Row>
    decreases |rows|
  {
    if rows == [] then t
    else
      var u := InsertedRows(t, rows[..|rows| - 1]);
      var x := rows[|rows| - 1];
      InsertAt(u, TargetRow(x.name, None, |u|), x)
  }

  /** One row more is one insertion more. */
  lemma InsertedRowsStep(t: seq<Row>, rows: seq<Row>, i: nat)
    requires i < |rows|
    ensures var u := InsertedRows(t, rows[..i]);
      InsertedRows(t, rows[..i + 1]) == InsertAt(u, TargetRow(rows[i].name, None, |u|), rows[i])
  {
    assert rows[..i + 1][..i] == rows[..i];
  }

  /** With distinct names, the loaded "Last saved" row (if any) ends up on
      top, the old rows follow in their order, then the other loaded rows
      in list order. */
  lemma {:induction false} InsertedRowsClosed(t: seq<Row>, rows: seq<Row>)
    requires forall a, b :: 0 <= a < b < |rows| ==> rows[a].name != rows[b].name
    ensures InsertedRows(t, rows) == RowsNamed(rows, {LastSaved}) + t + RowsNotNamed(rows, {LastSaved})
    decreases |rows|
  {
    if rows != [] {
      var i := |rows| - 1;
      InsertedRowsClosed(t, rows[..i]);
      InsertListedRows(rows, i, t, InsertedRows(t, rows[..i]));
      assert rows[..i + 1] == rows;
    }
  }

  /** One step of the second loading loop on the rows: a loaded "Last
      saved" row goes on top (there is no earlier one), any other row at
      the end. */
  lemma InsertListedRows(cfgList: seq<Row>, i: nat, t: seq<Row>, t1: seq<Row>)
    requires i < |cfgList|
    requires forall a, b :: 0 <= a < b < |cfgList| ==> cfgList[a].name != cfgList[b].name
    requires t1 == RowsNamed(cfgList[..i], {LastSaved}) + t + RowsNotNamed(cfgList[..i], {LastSaved})
    ensures InsertAt(t1, TargetRow(cfgList[i].name, None, |t1|), cfgList[i]) ==
      RowsNamed(cfgList[..i + 1], {LastSaved}) + t + RowsNotNamed(cfgList[..i + 1], {LastSaved})
  {
    assert cfgList[..i + 1][..i] == cfgList[..i];
    if cfgList[i].name == LastSaved {
      forall j | 0 <= j < i ensures cfgList[..i][j].name !in {LastSaved} {
        assert cfgList[j].name != cfgList[i].name;
      }
      NamedAbsent(cfgList[..i], {LastSaved});
      assert InsertAt(t1, 0, cfgList[i]) == [cfgList[i]] + t1;
    } else {
      assert InsertAt(t1, |t1|, cfgList[i]) == t1 + [cfgList[i]];
    }
  }

  /** Rows none of whose names is in `names` are all kept. */
  lemma {:induction false} NotNamedAbsent(rows: seq<Row>, names: set<string>)
    requires forall j :: 0 <= j < |rows| ==> rows[j].name !in names
    ensures RowsNotNamed(rows, names) == rows
    decreases |rows|
  {
    if rows != [] {
      NotNamedAbsent(rows[..|rows| - 1], names);
      assert rows[..|rows| - 1] + [rows[|rows| - 1]] == rows;
    }
  }

  /** Rows none of whose names is in `names` are none of them selected. */
  lemma {:induction false} NamedAbsent(rows: seq<Row>, names: set<string>)
    requires forall j :: 0 <= j < |rows| ==> rows[j].name !in names
    ensures RowsNamed(rows, names) == []
    decreases |rows|
  {
    if rows != [] {
      NamedAbsent(rows[..|rows| - 1], names);
    }
  }

  /** Dropping the names `names` and then `x` drops `names + {x}`. */
  lemma {:induction false} NotNamedTwice(rows: seq<Row>, names: set<string>, x: string)
    ensures RowsNotNamed(RowsNotNamed(rows, names), {x}) == RowsNotNamed(rows, names + {x})
    decreases |rows|
  {
    if rows != [] {
      var init, last := rows[..|rows| - 1], rows[|rows| - 1];
      NotNamedTwice(init, names, x);
      var r := RowsNotNamed(init, names);
      assert rows[..|rows| - 1] == init;
      if last.name !in names {
        assert RowsNotNamed(rows, names) == r + [last];
        assert (r + [last])[..|r + [last]| - 1] == r;
        assert RowsNotNamed(r + [last], {x}) == RowsNotNamed(r, {x}) + (if last.name in {x} then [] else [last]);
      } else {
        assert RowsNotNamed(rows, names) == r;
      }
    }
  }

  /** Dropping the one row named `x` is the removal of its position. */
  lemma {:induction false} NotNamedRemove(rows: seq<Row>, r: nat, x: string)
    requires r < |rows| && rows[r].name == x
    requires forall j :: 0 <= j < |rows| && j != r ==> rows[j].name != x
    ensures RowsNotNamed(rows, {x}) == RemoveAt(rows, r)
    decreases |rows|
  {
    var init, last := rows[..|rows| - 1], rows[|rows| - 1];
    if r == |rows| - 1 {
      NotNamedAbsent(init, {x});
      assert RemoveAt(rows, r) == init;
    } else {
      NotNamedRemove(init, r, x);
      assert RemoveAt(rows, r) == RemoveAt(init, r) + [last];
    }
  }

  /** Loading rows none of which is "Last saved" keeps the other rows in
      their order and appends the loaded rows in list order. */
  lemma LoadAppends(t: seq<Row>, cfgList: seq<Row>)
    requires forall j :: 0 <= j < |cfgList| ==> cfgList[j].name != LastSaved
    ensures LoadRows(t, cfgList) == RowsNotNamed(t, Names(cfgList)) + cfgList
  {
    NamedAbsent(cfgList, {LastSaved});
    NotNamedAbsent(cfgList, {LastSaved});
  }

}
