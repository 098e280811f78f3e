/** Nesting the flat rows of the account report into a tree of accounts, orders,
    authorizations and challenges. */
module ReportNesting {

  type Row = map<string, string>

  /** The fields that hold the key of each level, and the level a field goes to; a field
      whose level is no level goes nowhere. */
  datatype Layout = Layout(names: seq<string>, level: string -> nat)

  function ReportLevel(field: string): nat {
    if "account." <= field then 0
    else if "order." <= field then 1
    else if "authorization." <= field then 2
    else if "challenge" <= field then 3
    else 4
  }

  function ReportLayout(): Layout {
    Layout(["account.name", "order.name", "authorization.name", "challenge.name"], ReportLevel)
  }

  predicate Complete(y: Layout, row: Row) {
    forall k | 0 <= k < |y.names| :: y.names[k] in row
  }

  function Path(y: Layout, row: Row): (path: seq<string>)
    requires Complete(y, row)
  {
    seq(|y.names|, k requires 0 <= k < |y.names| => row[y.names[k]])
  }

  function LevelFields(y: Layout, row: Row, n: nat): Row {
    map f | f in row && y.level(f) == n :: row[f]
  }

  /** The fields of a row that go somewhere. */
  function Prefixed(y: Layout, row: Row): Row {
    map f | f in row && y.level(f) < |y.names| :: row[f]
  }

  function Incomplete(y: Layout, rows: seq<Row>): seq<Row> {
    if rows == [] then []
    else
      var before, row := Incomplete(y, rows[..|rows| - 1]), rows[|rows| - 1];
      if Complete(y, row) then before else before + [row]
  }

  // ---------- what the nested report holds ----------

  predicate Passes(y: Layout, row: Row, p: seq<string>) {
    Complete(y, row) && p <= Path(y, row)
  }

  /** The fields of the node at a key path. */
  function FieldsAt(y: Layout, rows: seq<Row>, p: seq<string>): Row {
    if rows == [] || p == [] then map[]
    else
      var row := rows[|rows| - 1];
      FieldsAt(y, rows[..|rows| - 1], p) + (if Passes(y, row, p) then LevelFields(y, row, |p| - 1) else map[])
  }

  /** The keys below a key path, in the order in which they first appear. */
  function KidsAt(y: Layout, rows: seq<Row>, p: seq<string>): seq<string> {
    if rows == [] then []
    else
      var before, row := KidsAt(y, rows[..|rows| - 1], p), rows[|rows| - 1];
      if |p| < |y.names| && Passes(y, row, p) && Path(y, row)[|p|] !in before then before + [Path(y, row)[|p|]]
      else before
  }

  /** A nested dictionary; `keys` is the insertion order of `kids`. */
  datatype Node = Node(fields: Row, keys: seq<string>, kids: map<string, Node>)

  const EMPTY := Node(map[], [], map[])

  function NodeOf(y: Layout, rows: seq<Row>, p: seq<string>): Node
    requires |p| <= |y.names|
    decreases |y.names| - |p|
  {
    if |p| == |y.names| then Node(FieldsAt(y, rows, p), [], map[])
    else Node(FieldsAt(y, rows, p), KidsAt(y, rows, p), map k | k in KidsAt(y, rows, p) :: NodeOf(y, rows, p + [k]))
  }

  /** The report itself: dictionaries turned into lists. */
  datatype Tree = Tree(fields: Row, kids: seq<Tree>)

  function TreeOf(y: Layout, rows: seq<Row>, p: seq<string>): Tree
    requires |p| <= |y.names|
    decreases |y.names| - |p|, 0
  {
    Tree(FieldsAt(y, rows, p), if |p| == |y.names| then [] else TreesOf(y, rows, p, KidsAt(y, rows, p)))
  }

  function TreesOf(y: Layout, rows: seq<Row>, p: seq<string>, keys: seq<string>): (ts: seq<Tree>)
    requires |p| < |y.names|
    decreases |y.names| - |p| - 1, |keys| + 1
  {
    if keys == [] then []
    else TreesOf(y, rows, p, keys[..|keys| - 1]) + [TreeOf(y, rows, p + [keys[|keys| - 1]])]
  }

  lemma TreesNext(y: Layout, rows: seq<Row>, p: seq<string>, keys: seq<string>, i: nat)
    requires |p| < |y.names| && i < |keys|
    ensures TreesOf(y, rows, p, keys[..i + 1]) == TreesOf(y, rows, p, keys[..i]) + [TreeOf(y, rows, p + [keys[i]])]
  {
    assert keys[..i + 1][..i] == keys[..i];
  }

  // ---------- the dictionaries as the code fills them ----------

  function KidOf(node: Node, k: string): Node {
    if k in node.kids then node.kids[k] else EMPTY
  }

  function Put(node: Node, k: string, kid: Node): Node {
    Node(node.fields, if k in node.kids then node.keys else node.keys + [k], node.kids[k := kid])
  }

  /** The node with the fields of `part` that belong to its level; the root is on none. */
  function Fill(y: Layout, node: Node, n: nat, part: Row): Node {
    if n == 0 then node else node.(fields := node.fields + LevelFields(y, part, n - 1))
  }

  /** Walks down a path, creating what is missing, and leaves at each node of it the
      fields of `part` that belong to that level. */
  function Insert(y: Layout, node: Node, path: seq<string>, n: nat, part: Row): Node
    decreases |path|
  {
    if path == [] then Fill(y, node, n, part)
    else Put(Fill(y, node, n, part), path[0], Insert(y, KidOf(node, path[0]), path[1..], n + 1, part))
  }

  predicate Has(node: Node, path: seq<string>) {
    path == [] || (path[0] in node.kids && Has(node.kids[path[0]], path[1..]))
  }

  /** `root[path[0]]...[path[n]][field] = value` */
  function SetField(node: Node, path: seq<string>, field: string, value: string): Node
    requires Has(node, path)
  {
    if path == [] then node.(fields := node.fields[field := value])
    else node.(kids := node.kids[path[0] := SetField(node.kids[path[0]], path[1..], field, value)])
  }

  /** `root[path[0]]...[path[n]] = {}` where that is missing. */
  function Create(node: Node, path: seq<string>): Node
    requires path != [] && Has(node, path[..|path| - 1])
  {
    if |path| == 1 then
      if path[0] in node.kids then node else Put(node, path[0], EMPTY)
    else
      assert path[..|path| - 1][1..] == path[1..][..|path| - 2];
      node.(kids := node.kids[path[0] := Create(node.kids[path[0]], path[1..])])
  }

  lemma NoFields(y: Layout, n: nat)
    ensures LevelFields(y, map[], n) == map[]
  {
  }

  lemma InsertNothing(y: Layout, node: Node, n: nat)
    ensures Insert(y, node, [], n, map[]) == node && Fill(y, node, n, map[]) == node
  {
    if n > 0 {
      NoFields(y, n - 1);
    }
  }

  lemma CreateBelow(node: Node, kid: Node, path: seq<string>)
    requires |path| > 1 && Has(kid, path[1..][..|path| - 2])
    ensures Has(Put(node, path[0], kid), path[..|path| - 1])
    ensures Create(Put(node, path[0], kid), path) == Put(node, path[0], Create(kid, path[1..]))
  {
    assert path[..|path| - 1][1..] == path[1..][..|path| - 2];
  }

  /** One more level of structure. */
  lemma {:induction false} CreateExtends(y: Layout, node: Node, path: seq<string>, n: nat)
    requires path != []
    ensures var short := path[..|path| - 1];
            Has(Insert(y, node, short, n, map[]), short)
            && Create(Insert(y, node, short, n, map[]), path) == Insert(y, node, path, n, map[])
    decreases |path|
  {
    var kid := KidOf(node, path[0]);
    InsertNothing(y, node, n);
    if |path| == 1 {
      InsertNothing(y, kid, n + 1);
      assert path[..0] == [] && path[1..] == [];
      assert path[0] in node.kids ==> node.kids[path[0] := kid] == node.kids;
    } else {
      var below := path[1..][..|path| - 2];
      assert path[..|path| - 1][1..] == below;
      CreateExtends(y, kid, path[1..], n + 1);
      CreateBelow(node, Insert(y, kid, below, n + 1, map[]), path);
    }
  }

  lemma CreateNext(y: Layout, start: Node, node: Node, path: seq<string>, k: nat)
    requires k < |path| && node == Insert(y, start, path[..k], 0, map[])
    ensures Has(node, path[..k + 1][..k])
    ensures Create(node, path[..k + 1]) == Insert(y, start, path[..k + 1], 0, map[])
  {
    assert path[..k + 1][..k] == path[..k];
    CreateExtends(y, start, path[..k + 1], 0);
  }

  /** One more field of the row. */
  lemma {:induction false} SetFieldExtends(y: Layout, node: Node, path: seq<string>, at: seq<string>, n: nat, part: Row,
                                           f: string, v: string)
    requires at <= path && n + |at| == y.level(f) + 1
    ensures Has(Insert(y, node, path, n, part), at)
    ensures SetField(Insert(y, node, path, n, part), at, f, v) == Insert(y, node, path, n, part[f := v])
    decreases |path|
  {
    if at == [] {
      DeeperFields(y, node, path, part, f, v);
    } else {
      SetFieldExtends(y, KidOf(node, path[0]), path[1..], at[1..], n + 1, part, f, v);
      SetFieldStep(y, node, path, n, part, f, v, at);
    }
  }

  lemma SetFieldStep(y: Layout, node: Node, path: seq<string>, n: nat, part: Row, f: string, v: string, at: seq<string>)
    requires path != [] && at != [] && at[0] == path[0] && n <= y.level(f)
    requires var kid := KidOf(node, path[0]);
             Has(Insert(y, kid, path[1..], n + 1, part), at[1..])
             && SetField(Insert(y, kid, path[1..], n + 1, part), at[1..], f, v)
                  == Insert(y, kid, path[1..], n + 1, part[f := v])
    ensures Has(Insert(y, node, path, n, part), at)
    ensures SetField(Insert(y, node, path, n, part), at, f, v) == Insert(y, node, path, n, part[f := v])
  {
    FillOther(y, node, n, part, f, v);
    SetFieldBelow(Fill(y, node, n, part), Insert(y, KidOf(node, path[0]), path[1..], n + 1, part), at, f, v);
  }

  lemma FillOther(y: Layout, node: Node, n: nat, part: Row, f: string, v: string)
    requires y.level(f) + 1 != n
    ensures Fill(y, node, n, part[f := v]) == Fill(y, node, n, part)
  {
    if n > 0 {
      LevelOfField(y, part, f, v, n - 1);
    }
  }

  lemma SetFieldBelow(node: Node, kid: Node, at: seq<string>, f: string, v: string)
    requires at != [] && Has(kid, at[1..])
    ensures Has(Put(node, at[0], kid), at)
    ensures SetField(Put(node, at[0], kid), at, f, v) == Put(node, at[0], SetField(kid, at[1..], f, v))
  {
  }

  lemma LevelOfField(y: Layout, part: Row, f: string, v: string, n: nat)
    ensures LevelFields(y, part[f := v], n)
              == if y.level(f) == n then LevelFields(y, part, n)[f := v] else LevelFields(y, part, n)
  {
  }

  lemma {:induction false} OtherLevels(y: Layout, node: Node, path: seq<string>, n: nat, part: Row,
                                       f: string, v: string)
    requires y.level(f) + 1 < n || n + |path| < y.level(f) + 1
    ensures Insert(y, node, path, n, part[f := v]) == Insert(y, node, path, n, part)
    decreases |path|
  {
    FillOther(y, node, n, part, f, v);
    if path != [] {
      OtherLevels(y, KidOf(node, path[0]), path[1..], n + 1, part, f, v);
    }
  }

  lemma FillOwn(y: Layout, node: Node, part: Row, f: string, v: string)
    ensures var a, b := Fill(y, node, y.level(f) + 1, part), Fill(y, node, y.level(f) + 1, part[f := v]);
            b == a.(fields := a.fields[f := v])
  {
    var own := LevelFields(y, part, y.level(f));
    LevelOfField(y, part, f, v, y.level(f));
    assert node.fields + own[f := v] == (node.fields + own)[f := v];
  }

  lemma DeeperFields(y: Layout, node: Node, path: seq<string>, part: Row, f: string, v: string)
    ensures var n := y.level(f) + 1;
            var a, b := Insert(y, node, path, n, part), Insert(y, node, path, n, part[f := v]);
            b == a.(fields := a.fields[f := v])
  {
    FillOwn(y, node, part, f, v);
    if path != [] {
      OtherLevels(y, KidOf(node, path[0]), path[1..], y.level(f) + 2, part, f, v);
    }
  }

  // ---------- one more row ----------

  lemma PassesKid(y: Layout, row: Row, p: seq<string>, k: string)
    requires |p| < |y.names|
    ensures Passes(y, row, p + [k]) <==> Passes(y, row, p) && Path(y, row)[|p|] == k
  {
    if Complete(y, row) {
      assert (p + [k])[..|p|] == p && (p + [k])[|p|] == k;
      if p <= Path(y, row) && Path(y, row)[|p|] == k {
        assert Path(y, row)[..|p| + 1] == p + [k];
      }
    }
  }

  lemma {:induction false} Unseen(y: Layout, rows: seq<Row>, p: seq<string>, k: string)
    requires |p| < |y.names| && k !in KidsAt(y, rows, p)
    ensures FieldsAt(y, rows, p + [k]) == map[] && KidsAt(y, rows, p + [k]) == []
  {
    if rows != [] {
      Unseen(y, rows[..|rows| - 1], p, k);
      PassesKid(y, rows[|rows| - 1], p, k);
    }
  }

  lemma UnseenNode(y: Layout, rows: seq<Row>, p: seq<string>, k: string)
    requires |p| < |y.names| && k !in KidsAt(y, rows, p)
    ensures NodeOf(y, rows, p + [k]) == EMPTY
  {
    Unseen(y, rows, p, k);
  }

  lemma {:induction false} RowPassesBy(y: Layout, rows: seq<Row>, row: Row, p: seq<string>)
    requires |p| <= |y.names| && !Passes(y, row, p)
    ensures NodeOf(y, rows + [row], p) == NodeOf(y, rows, p)
    decreases |y.names| - |p|
  {
    assert (rows + [row])[..|rows|] == rows;
    assert FieldsAt(y, rows + [row], p) == FieldsAt(y, rows, p);
    if |p| < |y.names| {
      forall k ensures NodeOf(y, rows + [row], p + [k]) == NodeOf(y, rows, p + [k]) {
        PassesKid(y, row, p, k);
        RowPassesBy(y, rows, row, p + [k]);
      }
    }
  }

  lemma NextFields(y: Layout, rows: seq<Row>, row: Row, p: seq<string>)
    requires Passes(y, row, p)
    ensures p == [] ==> FieldsAt(y, rows + [row], p) == FieldsAt(y, rows, p)
    ensures p != [] ==> FieldsAt(y, rows + [row], p) == FieldsAt(y, rows, p) + LevelFields(y, row, |p| - 1)
  {
    assert (rows + [row])[..|rows|] == rows;
    if p == [] {
      assert FieldsAt(y, rows, p) == map[];
    }
  }

  lemma NextKids(y: Layout, rows: seq<Row>, row: Row, p: seq<string>)
    requires |p| <= |y.names| && Passes(y, row, p)
    ensures KidsAt(y, rows + [row], p) ==
              if |p| < |y.names| && Path(y, row)[|p|] !in KidsAt(y, rows, p) then
                KidsAt(y, rows, p) + [Path(y, row)[|p|]]
              else KidsAt(y, rows, p)
  {
    assert (rows + [row])[..|rows|] == rows;
  }

  lemma NextKidNodes(y: Layout, rows: seq<Row>, row: Row, p: seq<string>, k: string)
    requires |p| < |y.names| && Passes(y, row, p) && k == Path(y, row)[|p|]
    ensures NodeOf(y, rows + [row], p).kids == NodeOf(y, rows, p).kids[k := NodeOf(y, rows + [row], p + [k])]
  {
    NextKids(y, rows, row, p);
    forall j | j != k ensures NodeOf(y, rows + [row], p + [j]) == NodeOf(y, rows, p + [j]) {
      PassesKid(y, row, p, j);
      RowPassesBy(y, rows, row, p + [j]);
    }
  }

  /** What one level of an insertion does, when the levels below are right. */
  lemma InsertLevel(y: Layout, rows: seq<Row>, row: Row, p: seq<string>, path: seq<string>)
    requires |p| < |y.names| && Passes(y, row, p)
    requires path != [] && path[0] == Path(y, row)[|p|]
    requires NodeOf(y, rows + [row], p + [path[0]])
               == Insert(y, NodeOf(y, rows, p + [path[0]]), path[1..], |p| + 1, row)
    ensures NodeOf(y, rows + [row], p) == Insert(y, NodeOf(y, rows, p), path, |p|, row)
  {
    var k, before, after := path[0], NodeOf(y, rows, p), NodeOf(y, rows + [row], p);
    NextFields(y, rows, row, p);
    NextKids(y, rows, row, p);
    NextKidNodes(y, rows, row, p, k);
    if k !in KidsAt(y, rows, p) {
      UnseenNode(y, rows, p, k);
    }
    assert KidOf(before, k) == NodeOf(y, rows, p + [k]);
    assert after == Put(Fill(y, before, |p|, row), k, NodeOf(y, rows + [row], p + [k]));
  }

  /** Inserting one more complete row turns the report of the rows before into the report
      of all of them. */
  lemma {:induction false} InsertIsNext(y: Layout, rows: seq<Row>, row: Row, p: seq<string>)
    requires |p| <= |y.names| && Passes(y, row, p)
    ensures NodeOf(y, rows + [row], p) == Insert(y, NodeOf(y, rows, p), Path(y, row)[|p|..], |p|, row)
    decreases |y.names| - |p|
  {
    var path := Path(y, row)[|p|..];
    if |p| == |y.names| {
      NextFields(y, rows, row, p);
    } else {
      PassesKid(y, row, p, path[0]);
      assert path[1..] == Path(y, row)[|p| + 1..];
      InsertIsNext(y, rows, row, p + [path[0]]);
      InsertLevel(y, rows, row, p, path);
    }
  }

  // ---------- the report as the code builds it ----------

  datatype Entry = AccountEntry(tree: Tree) | ErrorList(rows: seq<Row>)

  function Entries(trees: seq<Tree>): (entries: seq<Entry>)
    ensures |entries| == |trees|
    ensures forall i | 0 <= i < |trees| :: entries[i] == AccountEntry(trees[i])
  {
    seq(|trees|, i requires 0 <= i < |trees| => AccountEntry(trees[i]))
  }

  class Housekeeping {
    const y: Layout
    var root: Node
    var errors: seq<Row>

    constructor ()
      ensures root == EMPTY && errors == [] && y == ReportLayout() && Valid()
    {
      y := ReportLayout();
      root, errors := EMPTY, [];
    }

    predicate Valid() {
      |y.names| == 4
    }

    method DicstructureCreate(path: seq<string>)
      requires |path| == 4
      modifies this
      ensures root == Insert(y, old(root), path, 0, map[]) && errors == old(errors)
    {
      ghost var start := root;
      InsertNothing(y, start, 0);
      assert path[..0] == [] && path[..4] == path;
      CreateNext(y, start, root, path, 0);
      root := Create(root, path[..1]);
      CreateNext(y, start, root, path, 1);
      root := Create(root, path[..2]);
      CreateNext(y, start, root, path, 2);
      root := Create(root, path[..3]);
      CreateNext(y, start, root, path, 3);
      root := Create(root, path[..4]);
    }

    /** Copies one field of a row to the node of its level. */
    method DumpField(path: seq<string>, field: string, value: string, ghost was: Node, ghost part: Row)
      requires |path| == |y.names| && root == Insert(y, was, path, 0, part)
      modifies this`root
      ensures root == Insert(y, was, path, 0, part[field := value])
    {
      var n := y.level(field);
      if n < |y.names| {
        SetFieldExtends(y, was, path, path[..n + 1], 0, part, field, value);
        root := SetField(root, path[..n + 1], field, value);
      } else {
        OtherLevels(y, was, path, 0, part, field, value);
      }
    }

    method DumpRow(row: Row, path: seq<string>, ghost was: Node)
      requires |path| == |y.names| && root == Insert(y, was, path, 0, map[])
      modifies this`root
      ensures root == Insert(y, was, path, 0, row)
    {
      var todo := row.Keys;
      ghost var part: Row := map[];
      while todo != {}
        invariant todo <= row.Keys
        invariant part == map f | f in row && f !in todo :: row[f]
        invariant root == Insert(y, was, path, 0, part)
        decreases |todo|
      {
        var f :| f in todo;
        DumpField(path, f, row[f], was, part);
        part := part[f := row[f]];
        todo := todo - {f};
      }
      assert part == row;
    }

    method AddRow(row: Row, ghost before: seq<Row>)
      requires Valid() && root == NodeOf(y, before, []) && errors == Incomplete(y, before)
      modifies this
      ensures root == NodeOf(y, before + [row], []) && errors == Incomplete(y, before + [row])
    {
      assert (before + [row])[..|before|] == before;
      if Complete(y, row) {
        ghost var was := root;
        InsertIsNext(y, before, row, []);
        assert Path(y, row)[0..] == Path(y, row);
        DicstructureCreate(Path(y, row));
        DumpRow(row, Path(y, row), was);
      } else {
        RowPassesBy(y, before, row, []);
        errors := errors + [row];
      }
    }

    method AccountDicCreate(rows: seq<Row>)
      requires Valid()
      modifies this
      ensures root == NodeOf(y, rows, []) && errors == Incomplete(y, rows)
    {
      root, errors := EMPTY, [];
      var i := 0;
      while i < |rows|
        invariant i <= |rows|
        invariant root == NodeOf(y, rows[..i], []) && errors == Incomplete(y, rows[..i])
      {
        AddRow(rows[i], rows[..i]);
        assert rows[..i + 1] == rows[..i] + [rows[i]];
        i := i + 1;
      }
      assert rows[..|rows|] == rows;
    }

    /** Turns the dictionaries below one node into lists. The code has this loop once
        for each level. */
    method ListConvert(node: Node, depth: nat, ghost rows: seq<Row>, ghost p: seq<string>) returns (kids: seq<Tree>)
      requires depth == |p| < |y.names| && node == NodeOf(y, rows, p)
      ensures kids == TreeOf(y, rows, p).kids
      decreases |y.names| - depth
    {
      kids := [];
      var i := 0;
      while i < |node.keys|
        invariant i <= |node.keys|
        invariant kids == TreesOf(y, rows, p, node.keys[..i])
      {
        var k := node.keys[i];
        var below: seq<Tree> := [];
        assert node.kids[k] == NodeOf(y, rows, p + [k]);
        if depth + 1 < |y.names| {
          below := ListConvert(node.kids[k], depth + 1, rows, p + [k]);
        }
        assert Tree(node.kids[k].fields, below) == TreeOf(y, rows, p + [k]);
        TreesNext(y, rows, p, node.keys, i);
        kids := kids + [Tree(node.kids[k].fields, below)];
        i := i + 1;
      }
      assert node.keys[..|node.keys|] == node.keys;
    }

    method ToAccJson(rows: seq<Row>) returns (report: seq<Entry>)
      requires Valid()
      modifies this
      ensures report == Entries(TreeOf(y, rows, []).kids)
                + (if Incomplete(y, rows) != [] then [ErrorList(Incomplete(y, rows))] else [])
    {
      AccountDicCreate(rows);
      var accounts := ListConvert(root, 0, rows, []);
      report := Entries(accounts);
      if errors != [] {
        report := report + [ErrorList(errors)];
      }
    }
  }

  // ---------- reading the report back ----------

  /** The flat rows of a report: one for each path from an account to a challenge. */
  function Flatten(t: Tree, above: Row, n: nat): seq<Row>
    decreases n, 0
  {
    if n == 0 then [above + t.fields] else FlattenAll(t.kids, above + t.fields, n - 1)
  }

  function FlattenAll(ts: seq<Tree>, above: Row, n: nat): seq<Row>
    decreases n, |ts| + 1
  {
    if ts == [] then [] else FlattenAll(ts[..|ts| - 1], above, n) + Flatten(ts[|ts| - 1], above, n)
  }

  /** The key paths of the report, in its order. */
  function Leaves(y: Layout, rows: seq<Row>, p: seq<string>): seq<seq<string>>
    requires |p| <= |y.names|
    decreases |y.names| - |p|, 0
  {
    if |p| == |y.names| then [p] else LeavesAll(y, rows, p, KidsAt(y, rows, p))
  }

  function LeavesAll(y: Layout, rows: seq<Row>, p: seq<string>, keys: seq<string>): seq<seq<string>>
    requires |p| < |y.names|
    decreases |y.names| - |p| - 1, |keys| + 1
  {
    if keys == [] then []
    else LeavesAll(y, rows, p, keys[..|keys| - 1]) + Leaves(y, rows, p + [keys[|keys| - 1]])
  }

  /** All fields along a key path. */
  function Line(y: Layout, rows: seq<Row>, p: seq<string>): Row {
    if p == [] then map[] else Line(y, rows, p[..|p| - 1]) + FieldsAt(y, rows, p)
  }

  function Lines(y: Layout, rows: seq<Row>, ps: seq<seq<string>>): (lines: seq<Row>)
    ensures |lines| == |ps|
  {
    seq(|ps|, i requires 0 <= i < |ps| => Line(y, rows, ps[i]))
  }

  lemma LinesAppend(y: Layout, rows: seq<Row>, ps: seq<seq<string>>, qs: seq<seq<string>>)
    ensures Lines(y, rows, ps + qs) == Lines(y, rows, ps) + Lines(y, rows, qs)
  {
  }

  /** The flat rows are the lines along the key paths of the report. */
  lemma {:induction false} FlattenReads(y: Layout, rows: seq<Row>, p: seq<string>, above: Row)
    requires |p| <= |y.names| && above + FieldsAt(y, rows, p) == Line(y, rows, p)
    ensures Flatten(TreeOf(y, rows, p), above, |y.names| - |p|) == Lines(y, rows, Leaves(y, rows, p))
    decreases |y.names| - |p|, 0
  {
    if |p| < |y.names| {
      FlattenReadsAll(y, rows, p, KidsAt(y, rows, p));
    }
  }

  lemma {:induction false} FlattenReadsAll(y: Layout, rows: seq<Row>, p: seq<string>, keys: seq<string>)
    requires |p| < |y.names|
    ensures FlattenAll(TreesOf(y, rows, p, keys), Line(y, rows, p), |y.names| - |p| - 1)
              == Lines(y, rows, LeavesAll(y, rows, p, keys))
    decreases |y.names| - |p| - 1, |keys| + 1
  {
    if keys != [] {
      var init, k := keys[..|keys| - 1], keys[|keys| - 1];
      FlattenReadsAll(y, rows, p, init);
      assert (p + [k])[..|p|] == p;
      FlattenReads(y, rows, p + [k], Line(y, rows, p));
      LinesAppend(y, rows, LeavesAll(y, rows, p, init), Leaves(y, rows, p + [k]));
      var ts := TreesOf(y, rows, p, keys);
      assert ts[..|ts| - 1] == TreesOf(y, rows, p, init) && ts[|ts| - 1] == TreeOf(y, rows, p + [k]);
    }
  }

  // ---------- every path of a complete row once, and no other ----------

  predicate Present(y: Layout, rows: seq<Row>, p: seq<string>) {
    exists i :: 0 <= i < |rows| && Passes(y, rows[i], p)
  }

  lemma PresentStep(y: Layout, rows: seq<Row>, p: seq<string>)
    requires rows != []
    ensures Present(y, rows, p) <==> Present(y, rows[..|rows| - 1], p) || Passes(y, rows[|rows| - 1], p)
  {
    if Present(y, rows[..|rows| - 1], p) {
      var i :| 0 <= i < |rows| - 1 && Passes(y, rows[..|rows| - 1][i], p);
      assert Passes(y, rows[i], p);
    }
    if Present(y, rows, p) && !Passes(y, rows[|rows| - 1], p) {
      var i :| 0 <= i < |rows| && Passes(y, rows[i], p);
      assert Passes(y, rows[..|rows| - 1][i], p);
    }
  }

  lemma {:induction false} KidsArePresent(y: Layout, rows: seq<Row>, p: seq<string>)
    requires |p| < |y.names|
    ensures forall k :: k in KidsAt(y, rows, p) <==> Present(y, rows, p + [k])
    ensures forall i, j | 0 <= i < j < |KidsAt(y, rows, p)| :: KidsAt(y, rows, p)[i] != KidsAt(y, rows, p)[j]
  {
    if rows != [] {
      KidsArePresent(y, rows[..|rows| - 1], p);
      forall k ensures k in KidsAt(y, rows, p) <==> Present(y, rows, p + [k]) {
        PassesKid(y, rows[|rows| - 1], p, k);
        PresentStep(y, rows, p + [k]);
      }
    }
  }

  lemma PresentAbove(y: Layout, rows: seq<Row>, p: seq<string>, q: seq<string>)
    requires p <= q && Present(y, rows, q)
    ensures Present(y, rows, p)
  {
    var i :| 0 <= i < |rows| && Passes(y, rows[i], q);
    assert Passes(y, rows[i], p);
  }

  predicate Distinct(ps: seq<seq<string>>) {
    forall i, j | 0 <= i < j < |ps| :: ps[i] != ps[j]
  }

  /** A complete row has key path q, which lies below p. */
  predicate LeafOf(y: Layout, rows: seq<Row>, p: seq<string>, q: seq<string>) {
    |q| == |y.names| && p <= q && Present(y, rows, q)
  }

  predicate KeyIn(q: seq<string>, n: nat, keys: seq<string>) {
    n < |q| && q[n] in keys
  }

  lemma LeafBelow(y: Layout, rows: seq<Row>, p: seq<string>, k: string, q: seq<string>)
    requires |p| < |y.names|
    ensures LeafOf(y, rows, p + [k], q) <==> LeafOf(y, rows, p, q) && q[|p|] == k
  {
    if LeafOf(y, rows, p, q) && q[|p|] == k {
      assert q[..|p| + 1] == p + [k];
    }
    if LeafOf(y, rows, p + [k], q) {
      assert q[|p|] == (p + [k])[|p|] && p == q[..|p|];
    }
  }

  lemma LeafKey(y: Layout, rows: seq<Row>, p: seq<string>, q: seq<string>)
    requires |p| < |y.names| && LeafOf(y, rows, p, q)
    ensures KeyIn(q, |p|, KidsAt(y, rows, p))
  {
    assert q[..|p| + 1] == p + [q[|p|]];
    PresentAbove(y, rows, p + [q[|p|]], q);
    KidsArePresent(y, rows, p);
  }

  lemma {:induction false} LeavesArePresent(y: Layout, rows: seq<Row>, p: seq<string>)
    requires |p| <= |y.names| && (|p| == |y.names| ==> Present(y, rows, p))
    ensures Distinct(Leaves(y, rows, p))
    ensures forall q :: q in Leaves(y, rows, p) <==> LeafOf(y, rows, p, q)
    decreases |y.names| - |p|, 0
  {
    if |p| < |y.names| {
      KidsArePresent(y, rows, p);
      LeavesOfKeys(y, rows, p, KidsAt(y, rows, p));
      forall q | LeafOf(y, rows, p, q) ensures KeyIn(q, |p|, KidsAt(y, rows, p)) {
        LeafKey(y, rows, p, q);
      }
    } else {
      forall q | |q| == |p| && p <= q ensures q == p {
      }
      assert p <= p;
    }
  }

  lemma DistinctAppend(ps: seq<seq<string>>, qs: seq<seq<string>>)
    requires Distinct(ps) && Distinct(qs) && forall p | p in ps :: p !in qs
    ensures Distinct(ps + qs)
  {
    forall i, j | 0 <= i < j < |ps + qs| ensures (ps + qs)[i] != (ps + qs)[j] {
      if i < |ps| <= j {
        assert ps[i] in ps && qs[j - |ps|] in qs;
      }
    }
  }

  lemma {:induction false} LeavesOfKeys(y: Layout, rows: seq<Row>, p: seq<string>, keys: seq<string>)
    requires |p| < |y.names|
    requires forall k | k in keys :: Present(y, rows, p + [k])
    requires forall i, j | 0 <= i < j < |keys| :: keys[i] != keys[j]
    ensures Distinct(LeavesAll(y, rows, p, keys))
    ensures forall q :: q in LeavesAll(y, rows, p, keys) <==> LeafOf(y, rows, p, q) && KeyIn(q, |p|, keys)
    decreases |y.names| - |p| - 1, |keys| + 1
  {
    if keys != [] {
      var init, k := keys[..|keys| - 1], keys[|keys| - 1];
      LeavesOfKeys(y, rows, p, init);
      LeavesArePresent(y, rows, p + [k]);
      forall q ensures LeafOf(y, rows, p + [k], q) <==> LeafOf(y, rows, p, q) && KeyIn(q, |p|, [k]) {
        LeafBelow(y, rows, p, k, q);
      }
      forall q ensures KeyIn(q, |p|, keys) <==> KeyIn(q, |p|, init) || KeyIn(q, |p|, [k]) {
        assert keys == init + [k];
      }
      assert forall q | KeyIn(q, |p|, init) :: !KeyIn(q, |p|, [k]);
      DistinctAppend(LeavesAll(y, rows, p, init), Leaves(y, rows, p + [k]));
    }
  }

  // ---------- each node carries its own name ----------

  /** Every key field sits on the level whose key it holds. */
  predicate Sound(y: Layout) {
    y.names != [] && forall k | 0 <= k < |y.names| :: y.level(y.names[k]) == k
  }

  lemma ReportLayoutIsSound()
    ensures Sound(ReportLayout()) && |ReportLayout().names| == 4
  {
    assert "account." <= "account.name" && "order." <= "order.name"
           && "authorization." <= "authorization.name" && "challenge" <= "challenge.name";
    assert "account.name"[0] == 'a' && "account.name"[1] == 'c';
    assert "order.name"[0] == 'o' && "account."[0] == 'a' && "order."[0] == 'o';
    assert "authorization.name"[0] == 'a' && "authorization.name"[1] == 'u' && "account."[1] == 'c';
    assert "challenge.name"[0] == 'c' && "authorization."[0] == 'a';
  }

  /** A field goes to the account, its order, authorization or challenge by its prefix, and one
      with none of the four prefixes goes nowhere. */
  lemma FieldsGoByPrefix(field: string)
    ensures var n := ReportLevel(field);
            && (n == 0 <==> "account." <= field) && (n == 1 <==> "order." <= field)
            && (n == 2 <==> "authorization." <= field) && (n == 3 <==> "challenge" <= field) && n <= 4
  {
    assert "account."[0] == 'a' && "account."[1] == 'c' && "order."[0] == 'o';
    assert "authorization."[0] == 'a' && "authorization."[1] == 'u' && "challenge"[0] == 'c';
  }

  /** The error list holds each row that lacks one of the four names, as often as it was there. */
  lemma {:induction false} ErrorsAreIncomplete(rows: seq<Row>, row: Row)
    ensures multiset(Incomplete(ReportLayout(), rows))[row] ==
              if "account.name" in row && "order.name" in row && "authorization.name" in row && "challenge.name" in row
              then 0 else multiset(rows)[row]
  {
    var y := ReportLayout();
    assert Complete(y, row) <==> y.names[0] in row && y.names[1] in row && y.names[2] in row && y.names[3] in row;
    if rows != [] {
      assert rows == rows[..|rows| - 1] + [rows[|rows| - 1]];
      ErrorsAreIncomplete(rows[..|rows| - 1], row);
    }
  }

  /** And it holds them in the order in which they were found. */
  lemma {:induction false} ErrorsInOrder(y: Layout, xs: seq<Row>, ys: seq<Row>)
    ensures Incomplete(y, xs + ys) == Incomplete(y, xs) + Incomplete(y, ys)
  {
    if ys == [] {
      assert xs + ys == xs;
    } else {
      assert (xs + ys)[..|xs + ys| - 1] == xs + ys[..|ys| - 1];
      ErrorsInOrder(y, xs, ys[..|ys| - 1]);
    }
  }

  lemma {:induction false} FieldsOnLevel(y: Layout, rows: seq<Row>, p: seq<string>, f: string)
    requires f in FieldsAt(y, rows, p)
    ensures p != [] && y.level(f) == |p| - 1
  {
    if rows != [] && p != [] && f in FieldsAt(y, rows[..|rows| - 1], p) {
      FieldsOnLevel(y, rows[..|rows| - 1], p, f);
    }
  }

  /** A line holds, for each level of its path, what the node of that level holds. */
  lemma {:induction false} LineAt(y: Layout, rows: seq<Row>, q: seq<string>, f: string)
    ensures f in Line(y, rows, q) <==> y.level(f) < |q| && f in FieldsAt(y, rows, q[..y.level(f) + 1])
    ensures f in Line(y, rows, q) ==> Line(y, rows, q)[f] == FieldsAt(y, rows, q[..y.level(f) + 1])[f]
  {
    if q != [] {
      var n := |q| - 1;
      LineAt(y, rows, q[..n], f);
      assert q[..|q|] == q;
      if f in FieldsAt(y, rows, q) {
        FieldsOnLevel(y, rows, q, f);
      }
      if y.level(f) < n {
        assert q[..n][..y.level(f) + 1] == q[..y.level(f) + 1];
      }
    }
  }

  lemma {:induction false} NameAt(y: Layout, rows: seq<Row>, p: seq<string>)
    requires Sound(y) && 0 < |p| <= |y.names| && Present(y, rows, p)
    ensures y.names[|p| - 1] in FieldsAt(y, rows, p) && FieldsAt(y, rows, p)[y.names[|p| - 1]] == p[|p| - 1]
  {
    var init, row := rows[..|rows| - 1], rows[|rows| - 1];
    PresentStep(y, rows, p);
    if Present(y, init, p) {
      NameAt(y, init, p);
    }
    if Passes(y, row, p) {
      assert Path(y, row)[|p| - 1] == p[|p| - 1];
    }
  }

  lemma NameOnLine(y: Layout, rows: seq<Row>, q: seq<string>, k: nat)
    requires Sound(y) && k < |q| == |y.names| && Present(y, rows, q)
    ensures y.names[k] in Line(y, rows, q) && Line(y, rows, q)[y.names[k]] == q[k]
  {
    PresentAbove(y, rows, q[..k + 1], q);
    NameAt(y, rows, q[..k + 1]);
    assert q[..k + 1][k] == q[k] && y.level(y.names[k]) == k;
    LineAt(y, rows, q, y.names[k]);
  }

  lemma LineIsComplete(y: Layout, rows: seq<Row>, q: seq<string>)
    requires Sound(y) && |q| == |y.names| && Present(y, rows, q)
    ensures Complete(y, Line(y, rows, q)) && Path(y, Line(y, rows, q)) == q
  {
    forall k | 0 <= k < |q| ensures y.names[k] in Line(y, rows, q) && Line(y, rows, q)[y.names[k]] == q[k] {
      NameOnLine(y, rows, q, k);
    }
  }

  /** The flat rows that can be read back from the report of some rows. */
  function ReadBack(y: Layout, rows: seq<Row>): seq<Row> {
    Flatten(TreeOf(y, rows, []), map[], |y.names|)
  }

  lemma ReadBackIsLines(y: Layout, rows: seq<Row>)
    requires Sound(y)
    ensures ReadBack(y, rows) == Lines(y, rows, Leaves(y, rows, []))
    ensures Distinct(Leaves(y, rows, []))
    ensures forall q :: q in Leaves(y, rows, []) <==> |q| == |y.names| && Present(y, rows, q)
  {
    assert FieldsAt(y, rows, []) == map[];
    FlattenReads(y, rows, [], map[]);
    LeavesArePresent(y, rows, []);
    forall q ensures LeafOf(y, rows, [], q) <==> |q| == |y.names| && Present(y, rows, q) {
      assert [] <= q;
    }
  }

  lemma BackAt(y: Layout, rows: seq<Row>, i: nat)
    requires Sound(y) && i < |ReadBack(y, rows)|
    ensures i < |Leaves(y, rows, [])| && Present(y, rows, Leaves(y, rows, [])[i])
    ensures Complete(y, ReadBack(y, rows)[i]) && Path(y, ReadBack(y, rows)[i]) == Leaves(y, rows, [])[i]
  {
    var leaves := Leaves(y, rows, []);
    ReadBackIsLines(y, rows);
    assert leaves[i] in leaves;
    LineIsComplete(y, rows, leaves[i]);
  }

  lemma BackFrom(y: Layout, rows: seq<Row>, r: Row) returns (i: nat)
    requires Sound(y) && r in rows && Complete(y, r)
    ensures i < |ReadBack(y, rows)| && Complete(y, ReadBack(y, rows)[i]) && Path(y, ReadBack(y, rows)[i]) == Path(y, r)
  {
    var leaves := Leaves(y, rows, []);
    ReadBackIsLines(y, rows);
    var n :| 0 <= n < |rows| && rows[n] == r;
    assert Passes(y, rows[n], Path(y, r));
    assert Path(y, r) in leaves;
    i :| 0 <= i < |leaves| && leaves[i] == Path(y, r);
    BackAt(y, rows, i);
  }

  /** Every row read back is complete, no two have the same key path, and their paths are
      exactly the paths of the complete rows that went in. */
  lemma NestingLosesAndInventsNothing(y: Layout, rows: seq<Row>)
    requires Sound(y)
    ensures var back := ReadBack(y, rows);
            && (forall i | 0 <= i < |back| :: Complete(y, back[i]))
            && (forall i, j | 0 <= i < j < |back| :: Path(y, back[i]) != Path(y, back[j]))
            && (forall i | 0 <= i < |back| :: Present(y, rows, Path(y, back[i])))
            && (forall r | r in rows && Complete(y, r) ::
                  exists i :: 0 <= i < |back| && Path(y, back[i]) == Path(y, r))
  {
    var back, leaves := ReadBack(y, rows), Leaves(y, rows, []);
    ReadBackIsLines(y, rows);
    forall i | 0 <= i < |back|
      ensures Complete(y, back[i]) && Path(y, back[i]) == leaves[i] && Present(y, rows, leaves[i])
    {
      BackAt(y, rows, i);
    }
    forall r | r in rows && Complete(y, r)
      ensures exists i :: 0 <= i < |back| && Path(y, back[i]) == Path(y, r)
    {
      var i := BackFrom(y, rows, r);
    }
  }

  // ---------- the fields come back when they are determined ----------

  /** Rows that agree on the key path down to a level agree on the fields of that level. */
  predicate Determined(y: Layout, rows: seq<Row>) {
    forall i, j, n | 0 <= i < |rows| && 0 <= j < |rows| && 0 <= n < |y.names|
        && Complete(y, rows[i]) && Passes(y, rows[j], Path(y, rows[i])[..n + 1]) ::
      LevelFields(y, rows[i], n) == LevelFields(y, rows[j], n)
  }

  /** When all rows below a key path agree, its node holds just what they say. */
  lemma {:induction false} AgreedFields(y: Layout, rows: seq<Row>, p: seq<string>, fields: Row)
    requires p != []
    requires forall i | 0 <= i < |rows| && Passes(y, rows[i], p) :: LevelFields(y, rows[i], |p| - 1) == fields
    ensures FieldsAt(y, rows, p) == if Present(y, rows, p) then fields else map[]
  {
    if rows != [] {
      AgreedFields(y, rows[..|rows| - 1], p, fields);
      PresentStep(y, rows, p);
    }
  }

  lemma DeterminedAt(y: Layout, rows: seq<Row>, i: nat, n: nat)
    requires Determined(y, rows) && i < |rows| && Complete(y, rows[i]) && n < |y.names|
    ensures FieldsAt(y, rows, Path(y, rows[i])[..n + 1]) == LevelFields(y, rows[i], n)
  {
    var p := Path(y, rows[i])[..n + 1];
    assert Passes(y, rows[i], p);
    AgreedFields(y, rows, p, LevelFields(y, rows[i], n));
  }

  lemma FieldOfDetermined(y: Layout, rows: seq<Row>, i: nat, f: string)
    requires Determined(y, rows) && i < |rows| && Complete(y, rows[i])
    ensures var line, kept := Line(y, rows, Path(y, rows[i])), Prefixed(y, rows[i]);
            (f in line <==> f in kept) && (f in line ==> line[f] == kept[f])
  {
    var n := y.level(f);
    LineAt(y, rows, Path(y, rows[i]), f);
    if n < |y.names| {
      DeterminedAt(y, rows, i, n);
      assert f in FieldsAt(y, rows, Path(y, rows[i])[..n + 1]) <==> f in LevelFields(y, rows[i], n);
    }
  }

  lemma LineOfDetermined(y: Layout, rows: seq<Row>, i: nat)
    requires Determined(y, rows) && i < |rows| && Complete(y, rows[i])
    ensures Line(y, rows, Path(y, rows[i])) == Prefixed(y, rows[i])
  {
    var line, kept := Line(y, rows, Path(y, rows[i])), Prefixed(y, rows[i]);
    forall f ensures (f in line <==> f in kept) && (f in line ==> line[f] == kept[f]) {
      FieldOfDetermined(y, rows, i, f);
    }
  }

  lemma LineHasField(y: Layout, rows: seq<Row>, q: seq<string>, n: nat, f: string)
    requires n < |q|
    ensures var line, fields := Line(y, rows, q), FieldsAt(y, rows, q[..n + 1]);
            (f in line && y.level(f) == n <==> f in fields) && (f in fields ==> line[f] == fields[f])
  {
    LineAt(y, rows, q, f);
    if f in FieldsAt(y, rows, q[..n + 1]) {
      FieldsOnLevel(y, rows, q[..n + 1], f);
    }
  }

  lemma LineHasFields(y: Layout, rows: seq<Row>, q: seq<string>, n: nat)
    requires n < |q|
    ensures LevelFields(y, Line(y, rows, q), n) == FieldsAt(y, rows, q[..n + 1])
  {
    var line, fields := Line(y, rows, q), FieldsAt(y, rows, q[..n + 1]);
    forall f ensures (f in line && y.level(f) == n <==> f in fields) && (f in fields ==> line[f] == fields[f]) {
      LineHasField(y, rows, q, n, f);
    }
  }

  predicate ComesBack(y: Layout, rows: seq<Row>, row: Row) {
    Prefixed(y, row) in ReadBack(y, rows)
  }

  /** The prefixed fields of a complete row are among the rows read back exactly when they
      are the line along its own key path. */
  lemma ComesBackAsLine(y: Layout, rows: seq<Row>, i: nat)
    requires Sound(y) && i < |rows| && Complete(y, rows[i])
    ensures ComesBack(y, rows, rows[i]) <==> Line(y, rows, Path(y, rows[i])) == Prefixed(y, rows[i])
  {
    var row, leaves, back := rows[i], Leaves(y, rows, []), ReadBack(y, rows);
    ReadBackIsLines(y, rows);
    assert Passes(y, rows[i], Path(y, row));
    assert Path(y, row) in leaves;
    var at :| 0 <= at < |leaves| && leaves[at] == Path(y, row);
    assert back[at] == Line(y, rows, Path(y, row));
    if ComesBack(y, rows, row) {
      var n :| 0 <= n < |back| && back[n] == Prefixed(y, row);
      assert leaves[n] in leaves;
      LineIsComplete(y, rows, leaves[n]);
      PathOfPrefixed(y, row);
    }
  }

  lemma PathOfPrefixed(y: Layout, row: Row)
    requires Sound(y) && Complete(y, row)
    ensures Complete(y, Prefixed(y, row)) && Path(y, Prefixed(y, row)) == Path(y, row)
  {
  }

  /** Flattening gives back the prefixed fields of every complete row exactly when the
      fields of each level are determined by the key path down to that level; and then it
      gives back nothing else. */
  lemma FlattenGivesBack(y: Layout, rows: seq<Row>)
    requires Sound(y)
    ensures Determined(y, rows) <==> forall i | 0 <= i < |rows| && Complete(y, rows[i]) :: ComesBack(y, rows, rows[i])
    ensures Determined(y, rows) ==> forall b | b in ReadBack(y, rows) ::
              exists i :: 0 <= i < |rows| && Complete(y, rows[i]) && b == Prefixed(y, rows[i])
  {
    if Determined(y, rows) {
      forall i | 0 <= i < |rows| && Complete(y, rows[i]) ensures ComesBack(y, rows, rows[i]) {
        LineOfDetermined(y, rows, i);
        ComesBackAsLine(y, rows, i);
      }
      NothingElseComesBack(y, rows);
    }
    if forall i | 0 <= i < |rows| && Complete(y, rows[i]) :: ComesBack(y, rows, rows[i]) {
      AllBackIsDetermined(y, rows);
    }
  }

  lemma NothingElseComesBack(y: Layout, rows: seq<Row>)
    requires Sound(y) && Determined(y, rows)
    ensures forall b | b in ReadBack(y, rows) ::
              exists i :: 0 <= i < |rows| && Complete(y, rows[i]) && b == Prefixed(y, rows[i])
  {
    ReadBackIsLines(y, rows);
    var leaves := Leaves(y, rows, []);
    forall b | b in ReadBack(y, rows)
      ensures exists i :: 0 <= i < |rows| && Complete(y, rows[i]) && b == Prefixed(y, rows[i])
    {
      var n :| 0 <= n < |leaves| && b == Line(y, rows, leaves[n]);
      assert leaves[n] in leaves;
      var i :| 0 <= i < |rows| && Passes(y, rows[i], leaves[n]);
      assert Path(y, rows[i]) == leaves[n];
      LineOfDetermined(y, rows, i);
    }
  }

  lemma AllBackIsDetermined(y: Layout, rows: seq<Row>)
    requires Sound(y)
    requires forall i | 0 <= i < |rows| && Complete(y, rows[i]) :: ComesBack(y, rows, rows[i])
    ensures Determined(y, rows)
  {
    forall i, n | 0 <= i < |rows| && 0 <= n < |y.names| && Complete(y, rows[i])
      ensures LevelFields(y, rows[i], n) == FieldsAt(y, rows, Path(y, rows[i])[..n + 1])
    {
      ComesBackAsLine(y, rows, i);
      LineHasFields(y, rows, Path(y, rows[i]), n);
      assert LevelFields(y, Prefixed(y, rows[i]), n) == LevelFields(y, rows[i], n);
    }
    forall i, j, n | 0 <= i < |rows| && 0 <= j < |rows| && 0 <= n < |y.names|
        && Complete(y, rows[i]) && Passes(y, rows[j], Path(y, rows[i])[..n + 1])
      ensures LevelFields(y, rows[i], n) == LevelFields(y, rows[j], n)
    {
      assert Path(y, rows[j])[..n + 1] == Path(y, rows[i])[..n + 1];
    }
  }
}
