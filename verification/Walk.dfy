/**
 The guarded recursive query behind both hierarchies.  The organisation graph and the work
 tree run the same CTE: rows carry the path walked so far, a row already on the path is not
 joined again, and the walk stops at a depth cap.  A query result is a bag of rows (UNION ALL),
 so it is modelled as a sequence, over any scan order of the table.
 */
module Walk {
  import opened Common

  datatype Direction = Down | Up
  datatype Node = Node(id: Id, up: Option<Id>)
  datatype Row = Row(id: Id, up: Option<Id>, depth: nat, path: seq<Id>)

  /** The primary key of the scanned table. */
  ghost predicate Keyed(table: seq<Node>) {
    forall i, j | 0 <= i < j < |table| :: table[i].id != table[j].id
  }

  function RowOf(table: seq<Node>, id: Id): (r: Option<Node>)
    ensures r.Some? ==> r.value in table && r.value.id == id
    ensures r.None? <==> forall n | n in table :: n.id != id
  {
    if table == [] then None
    else if table[0].id == id then Some(table[0])
    else RowOf(table[1..], id)
  }

  lemma RowOfMember(table: seq<Node>, n: Node)
    requires Keyed(table) && n in table
    ensures RowOf(table, n.id) == Some(n)
  {
    var r := RowOf(table, n.id);
    var i :| 0 <= i < |table| && table[i] == n;
    var j :| 0 <= j < |table| && table[j] == r.value;
  }

  // --- the query ---------------------------------------------------------------------------

  predicate Joins(dir: Direction, node: Node, row: Row) {
    && (if dir.Down? then node.up == Some(row.id) else row.up == Some(node.id))
    && node.id !in row.path
  }

  function Extend(row: Row, node: Node): Row {
    Row(node.id, node.up, row.depth + 1, row.path + [node.id])
  }

  function JoinRow(dir: Direction, table: seq<Node>, row: Row): seq<Row> {
    if table == [] then []
    else (if Joins(dir, table[0], row) then [Extend(row, table[0])] else []) + JoinRow(dir, table[1..], row)
  }

  function Join(dir: Direction, table: seq<Node>, working: seq<Row>): seq<Row> {
    if working == [] then []
    else JoinRow(dir, table, working[0]) + Join(dir, table, working[1..])
  }

  function Seed(table: seq<Node>, root: Id): seq<Row> {
    match RowOf(table, root)
    case None => []
    case Some(n) => [Row(n.id, n.up, 0, [n.id])]
  }

  /** Rounds of the recursive term; `left` is the depth cap minus the depth of `working`. */
  function Rounds(dir: Direction, table: seq<Node>, working: seq<Row>, left: nat): seq<Row>
    decreases left
  {
    if working == [] || left == 0 then working
    else working + Rounds(dir, table, Join(dir, table, working), left - 1)
  }

  function Query(dir: Direction, table: seq<Node>, root: Id, cap: nat): seq<Row> {
    Rounds(dir, table, Seed(table, root), cap)
  }

  lemma {:induction false} JoinedFrom(dir: Direction, table: seq<Node>, working: seq<Row>, x: Row)
    returns (w: Row, n: Node)
    requires x in Join(dir, table, working)
    ensures w in working && n in table && Joins(dir, n, w) && x == Extend(w, n)
  {
    if x in JoinRow(dir, table, working[0]) {
      w := working[0];
      n := RowJoinedFrom(dir, table, w, x);
    } else {
      w, n := JoinedFrom(dir, table, working[1..], x);
    }
  }

  lemma {:induction false} RowJoinedFrom(dir: Direction, table: seq<Node>, row: Row, x: Row) returns (n: Node)
    requires x in JoinRow(dir, table, row)
    ensures n in table && Joins(dir, n, row) && x == Extend(row, n)
  {
    if x in JoinRow(dir, table[1..], row) {
      n := RowJoinedFrom(dir, table[1..], row, x);
    } else {
      n := table[0];
    }
  }

  lemma {:induction false} Joined(dir: Direction, table: seq<Node>, working: seq<Row>, w: Row, n: Node)
    requires w in working && n in table && Joins(dir, n, w)
    ensures Extend(w, n) in Join(dir, table, working)
  {
    if w == working[0] {
      RowJoined(dir, table, w, n);
    } else {
      Joined(dir, table, working[1..], w, n);
    }
  }

  lemma {:induction false} RowJoined(dir: Direction, table: seq<Node>, row: Row, n: Node)
    requires n in table && Joins(dir, n, row)
    ensures Extend(row, n) in JoinRow(dir, table, row)
  {
    if n != table[0] {
      RowJoined(dir, table[1..], row, n);
    }
  }

  // --- the meaning: iterating the pointer --------------------------------------------------

  /** The row `id` points at, if both exist. */
  function ParentOf(table: seq<Node>, id: Id): Option<Id> {
    match RowOf(table, id)
    case None => None
    case Some(n) => if n.up.Some? && RowOf(table, n.up.value).Some? then n.up else None
  }

  /** The `k`-fold parent of `id`. */
  function Climb(table: seq<Node>, id: Id, k: nat): Option<Id>
    decreases k
  {
    if k == 0 then if RowOf(table, id).Some? then Some(id) else None
    else match ParentOf(table, id)
         case None => None
         case Some(p) => Climb(table, p, k - 1)
  }

  /** The first `k` steps up from `id` visit nobody twice. */
  ghost predicate Simple(table: seq<Node>, id: Id, k: nat) {
    forall i: nat, j: nat | i < j <= k :: Climb(table, id, i) != Climb(table, id, j)
  }

  /** `low` reaches `high` in exactly `k` steps, none of them a revisit. */
  ghost predicate Linked(table: seq<Node>, low: Id, high: Id, k: nat) {
    Climb(table, low, k) == Some(high) && Simple(table, low, k)
  }

  ghost predicate Reaches(table: seq<Node>, low: Id, high: Id) {
    exists k: nat :: Climb(table, low, k) == Some(high)
  }

  lemma {:induction false} ClimbSplit(table: seq<Node>, id: Id, i: nat, j: nat)
    ensures Climb(table, id, i).None? ==> Climb(table, id, i + j).None?
    ensures Climb(table, id, i).Some? ==> Climb(table, id, i + j) == Climb(table, Climb(table, id, i).value, j)
    decreases i
  {
    if i == 0 {
      if RowOf(table, id).None? {
        assert ParentOf(table, id).None?;
      }
    } else {
      var p := ParentOf(table, id);
      if p.Some? {
        ClimbSplit(table, p.value, i - 1, j);
      }
    }
  }

  lemma ClimbPrefix(table: seq<Node>, id: Id, i: nat, k: nat)
    requires i <= k && Climb(table, id, k).Some?
    ensures Climb(table, id, i).Some?
  {
    ClimbSplit(table, id, i, k - i);
  }

  /** Who is found `k` levels from `root`, as a statement about steps between the two. */
  ghost predicate At(dir: Direction, table: seq<Node>, root: Id, id: Id, k: nat) {
    if dir.Down? then Linked(table, id, root, k) else Linked(table, root, id, k)
  }

  ghost function Level(dir: Direction, table: seq<Node>, root: Id, k: nat): seq<Row> {
    if k == 0 then Seed(table, root) else Join(dir, table, Level(dir, table, root, k - 1))
  }

  ghost predicate RowOk(dir: Direction, table: seq<Node>, root: Id, k: nat, r: Row) {
    && r.depth == k
    && |r.path| == k + 1
    && RowOf(table, r.id) == Some(Node(r.id, r.up))
    && At(dir, table, root, r.id, k)
    && forall i | 0 <= i <= k ::
         Some(r.path[i]) == if dir.Down? then Climb(table, r.id, k - i) else Climb(table, root, i)
  }

  lemma JoinSoundDown(table: seq<Node>, root: Id, k: nat, t: Row, n: Node)
    requires Keyed(table) && n in table
    requires RowOk(Down, table, root, k, t) && Joins(Down, n, t)
    ensures RowOk(Down, table, root, k + 1, Extend(t, n))
  {
    RowOfMember(table, n);
    assert ParentOf(table, n.id) == Some(t.id);
    assert forall i: nat :: Climb(table, n.id, i + 1) == Climb(table, t.id, i);
    forall i: nat, j: nat | i < j <= k + 1
      ensures Climb(table, n.id, i) != Climb(table, n.id, j)
    {
      assert Climb(table, n.id, j) == Climb(table, t.id, j - 1);
      if i == 0 {
        assert t.path[k - (j - 1)] != n.id;
      } else {
        assert Climb(table, n.id, i) == Climb(table, t.id, i - 1);
      }
    }
    var r := Extend(t, n);
    forall i | 0 <= i <= k + 1
      ensures Some(r.path[i]) == Climb(table, n.id, k + 1 - i)
    {
      if i <= k {
        assert r.path[i] == t.path[i];
        assert Climb(table, n.id, k + 1 - i) == Climb(table, t.id, k - i);
      }
    }
  }

  lemma JoinSoundUp(table: seq<Node>, root: Id, k: nat, t: Row, n: Node)
    requires Keyed(table) && n in table
    requires RowOk(Up, table, root, k, t) && Joins(Up, n, t)
    ensures RowOk(Up, table, root, k + 1, Extend(t, n))
  {
    hide Keyed;
    RowOfMember(table, n);
    assert ParentOf(table, t.id) == Some(n.id);
    ClimbSplit(table, root, k, 1);
    assert Climb(table, t.id, 1) == Climb(table, n.id, 0);
    assert Climb(table, root, k + 1) == Some(n.id);
    forall i: nat, j: nat | i < j <= k + 1
      ensures Climb(table, root, i) != Climb(table, root, j)
    {
      if j == k + 1 {
        assert t.path[i] != n.id;
      }
    }
    var r := Extend(t, n);
    forall i | 0 <= i <= k + 1
      ensures Some(r.path[i]) == Climb(table, root, i)
    {
      if i <= k {
        assert r.path[i] == t.path[i];
      }
    }
  }

  lemma SeedSound(dir: Direction, table: seq<Node>, root: Id, r: Row)
    requires r in Seed(table, root)
    ensures RowOk(dir, table, root, 0, r)
  {}

  lemma {:induction false} LevelSound(dir: Direction, table: seq<Node>, root: Id, k: nat, r: Row)
    requires Keyed(table) && r in Level(dir, table, root, k)
    ensures RowOk(dir, table, root, k, r)
  {
    hide RowOk, Joins, Keyed, Join, Seed, Extend;
    if k == 0 {
      SeedSound(dir, table, root, r);
    } else {
      var t, n := JoinedFrom(dir, table, Level(dir, table, root, k - 1), r);
      LevelSound(dir, table, root, k - 1, t);
      if dir.Down? {
        JoinSoundDown(table, root, k - 1, t, n);
      } else {
        JoinSoundUp(table, root, k - 1, t, n);
      }
    }
  }

  /** Dropping the first step of a simple climb leaves a simple climb. */
  lemma LinkedTail(table: seq<Node>, low: Id, high: Id, k: nat)
    requires k > 0 && Linked(table, low, high, k)
    ensures ParentOf(table, low).Some? && Linked(table, ParentOf(table, low).value, high, k - 1)
  {
    var p := ParentOf(table, low).value;
    forall i: nat, j: nat | i < j <= k - 1
      ensures Climb(table, p, i) != Climb(table, p, j)
    {
      assert Climb(table, p, i) == Climb(table, low, i + 1);
      assert Climb(table, p, j) == Climb(table, low, j + 1);
    }
  }

  /** The node one step nearer the root, and the table row that joins to it. */
  lemma Nearer(dir: Direction, table: seq<Node>, root: Id, k: nat, id: Id) returns (before: Id, n: Node)
    requires Keyed(table) && k > 0 && At(dir, table, root, id, k)
    ensures At(dir, table, root, before, k - 1)
    ensures n in table && n.id == id
    ensures if dir.Down? then n.up == Some(before) else ParentOf(table, before) == Some(id)
  {
    if dir.Down? {
      LinkedTail(table, id, root, k);
      before, n := ParentOf(table, id).value, RowOf(table, id).value;
    } else {
      ClimbPrefix(table, root, k - 1, k);
      before := Climb(table, root, k - 1).value;
      ClimbSplit(table, root, k - 1, 1);
      var p := ParentOf(table, before).value;
      assert Climb(table, before, 1) == Climb(table, p, 0) == Some(id);
      n := RowOf(table, id).value;
    }
  }

  lemma NearerJoins(dir: Direction, table: seq<Node>, root: Id, k: nat, id: Id, t: Row, n: Node)
    requires k > 0 && At(dir, table, root, id, k) && RowOk(dir, table, root, k - 1, t)
    requires n.id == id
    requires if dir.Down? then n.up == Some(t.id) && ParentOf(table, id) == Some(t.id)
             else ParentOf(table, t.id) == Some(id)
    ensures Joins(dir, n, t)
  {
    forall i | 0 <= i < k
      ensures t.path[i] != id
    {
      if dir.Down? {
        assert Climb(table, id, k - i) == Climb(table, t.id, k - 1 - i);
        assert Climb(table, id, 0) != Climb(table, id, k - i);
      } else {
        assert Climb(table, root, i) != Climb(table, root, k);
      }
    }
  }

  lemma {:induction false} LevelComplete(dir: Direction, table: seq<Node>, root: Id, k: nat, id: Id)
    returns (r: Row)
    requires Keyed(table) && At(dir, table, root, id, k)
    ensures r in Level(dir, table, root, k) && r.id == id
  {
    hide Simple, Keyed, Join;
    if k == 0 {
      r := Seed(table, root)[0];
    } else {
      var before, n := Nearer(dir, table, root, k, id);
      var t := LevelComplete(dir, table, root, k - 1, before);
      LevelSound(dir, table, root, k - 1, t);
      r := Extend(t, n);
      assert r in Level(dir, table, root, k) by {
        assert Joins(dir, n, t) by {
          RowOfMember(table, n);
          NearerJoins(dir, table, root, k, id, t, n);
        }
        Joined(dir, table, Level(dir, table, root, k - 1), t, n);
      }
    }
  }

  // --- each row once -----------------------------------------------------------------------

  ghost predicate Once(rows: seq<Row>) {
    forall i, j | 0 <= i < j < |rows| :: rows[i].id != rows[j].id
  }

  lemma {:induction false} JoinRowOnce(dir: Direction, table: seq<Node>, row: Row)
    requires Keyed(table)
    ensures Once(JoinRow(dir, table, row))
  {
    if table != [] {
      JoinRowOnce(dir, table[1..], row);
      var rest := JoinRow(dir, table[1..], row);
      forall x | x in rest
        ensures x.id != table[0].id
      {
        var n := RowJoinedFrom(dir, table[1..], row, x);
      }
    }
  }

  /** Rows joined to different working rows are different: a node has one pointer. */
  lemma {:induction false} JoinOnce(dir: Direction, table: seq<Node>, working: seq<Row>)
    requires Keyed(table) && Once(working)
    requires dir.Up? ==> |working| <= 1
    ensures Once(Join(dir, table, working))
  {
    if working != [] {
      JoinRowOnce(dir, table, working[0]);
      JoinOnce(dir, table, working[1..]);
      var first, rest := JoinRow(dir, table, working[0]), Join(dir, table, working[1..]);
      forall x, y | x in first && y in rest
        ensures x.id != y.id
      {
        var n := RowJoinedFrom(dir, table, working[0], x);
        var w, m := JoinedFrom(dir, table, working[1..], y);
        if x.id == y.id {
          RowOfMember(table, n);
          RowOfMember(table, m);
        }
      }
    }
  }

  lemma {:induction false} LevelOnce(dir: Direction, table: seq<Node>, root: Id, k: nat)
    requires Keyed(table)
    ensures Once(Level(dir, table, root, k))
    ensures dir.Up? ==> |Level(dir, table, root, k)| <= 1
  {
    if k > 0 {
      LevelOnce(dir, table, root, k - 1);
      JoinOnce(dir, table, Level(dir, table, root, k - 1));
      var level := Level(dir, table, root, k);
      if dir.Up? && |level| > 1 {
        LevelSound(dir, table, root, k, level[0]);
        LevelSound(dir, table, root, k, level[1]);
        assert false;
      }
    }
  }

  // --- the query is its levels -------------------------------------------------------------

  lemma {:induction false} EmptyLevels(dir: Direction, table: seq<Node>, root: Id, k: nat, j: nat)
    requires Level(dir, table, root, k) == [] && k <= j
    ensures Level(dir, table, root, j) == []
  {
    if k < j {
      EmptyLevels(dir, table, root, k, j - 1);
    }
  }

  lemma {:induction false} RoundsAreLevels(dir: Direction, table: seq<Node>, root: Id, k: nat, left: nat, r: Row)
    ensures r in Rounds(dir, table, Level(dir, table, root, k), left) <==>
            (exists j: nat :: k <= j <= k + left && r in Level(dir, table, root, j))
    decreases left
  {
    hide Join;
    var working := Level(dir, table, root, k);
    if working == [] {
      forall j: nat | k <= j <= k + left
        ensures r !in Level(dir, table, root, j)
      {
        EmptyLevels(dir, table, root, k, j);
      }
    } else if left == 0 {
      assert r in working ==> k <= k <= k + left && r in Level(dir, table, root, k);
    } else {
      assert Level(dir, table, root, k + 1) == Join(dir, table, working);
      RoundsAreLevels(dir, table, root, k + 1, left - 1, r);
      if r in working {
        assert k <= k <= k + left && r in Level(dir, table, root, k);
      }
    }
  }

  /** The query answers exactly: `id` at depth `k` just when `k` simple steps separate it from the root. */
  lemma QueryExact(dir: Direction, table: seq<Node>, root: Id, cap: nat, id: Id, k: nat)
    requires Keyed(table)
    ensures (exists r :: r in Query(dir, table, root, cap) && r.id == id && r.depth == k) <==>
            k <= cap && At(dir, table, root, id, k)
  {
    if r :| r in Query(dir, table, root, cap) && r.id == id && r.depth == k {
      RoundsAreLevels(dir, table, root, 0, cap, r);
      var j: nat :| 0 <= j <= cap && r in Level(dir, table, root, j);
      LevelSound(dir, table, root, j, r);
    }
    if k <= cap && At(dir, table, root, id, k) {
      var r := LevelComplete(dir, table, root, k, id);
      LevelSound(dir, table, root, k, r);
      RoundsAreLevels(dir, table, root, 0, cap, r);
      assert r in Query(dir, table, root, cap);
    }
  }

  lemma AtOneDepth(dir: Direction, table: seq<Node>, root: Id, id: Id, j: nat, k: nat)
    requires At(dir, table, root, id, j) && At(dir, table, root, id, k)
    ensures j == k
  {
  }

  lemma OnceConcat(a: seq<Row>, b: seq<Row>)
    requires Once(a) && Once(b)
    requires forall x, y | x in a && y in b :: x.id != y.id
    ensures Once(a + b)
  {
    forall i, j | 0 <= i < j < |a + b|
      ensures (a + b)[i].id != (a + b)[j].id
    {
      if i < |a| <= j {
        assert a[i] in a && b[j - |a|] in b;
      }
    }
  }

  lemma LevelsDisjoint(dir: Direction, table: seq<Node>, root: Id, k: nat, left: nat, x: Row, y: Row)
    requires Keyed(table)
    requires x in Level(dir, table, root, k)
    requires y in Rounds(dir, table, Level(dir, table, root, k + 1), left)
    ensures x.id != y.id
  {
    RoundsAreLevels(dir, table, root, k + 1, left, y);
    var j: nat :| k + 1 <= j <= k + 1 + left && y in Level(dir, table, root, j);
    LevelSound(dir, table, root, k, x);
    LevelSound(dir, table, root, j, y);
    if x.id == y.id {
      AtOneDepth(dir, table, root, x.id, k, j);
    }
  }

  lemma {:induction false} RoundsOnce(dir: Direction, table: seq<Node>, root: Id, k: nat, left: nat)
    requires Keyed(table)
    ensures Once(Rounds(dir, table, Level(dir, table, root, k), left))
    decreases left
  {
    hide Join, Keyed, Once;
    var working := Level(dir, table, root, k);
    LevelOnce(dir, table, root, k);
    if working != [] && left != 0 {
      assert Level(dir, table, root, k + 1) == Join(dir, table, working);
      RoundsOnce(dir, table, root, k + 1, left - 1);
      var rest := Rounds(dir, table, Level(dir, table, root, k + 1), left - 1);
      forall x, y | x in working && y in rest
        ensures x.id != y.id
      {
        LevelsDisjoint(dir, table, root, k, left - 1, x, y);
      }
      OnceConcat(working, rest);
    }
  }

  /** UNION ALL never repeats a node, cycles or not. */
  lemma QueryOnce(dir: Direction, table: seq<Node>, root: Id, cap: nat)
    requires Keyed(table)
    ensures Once(Query(dir, table, root, cap))
  {
    RoundsOnce(dir, table, root, 0, cap);
  }

  ghost predicate Nearest(rows: seq<Row>) {
    forall i, j | 0 <= i < j < |rows| :: rows[i].depth <= rows[j].depth
  }

  lemma NearestConcat(a: seq<Row>, b: seq<Row>, k: nat)
    requires (forall x | x in a :: x.depth == k) && (forall y | y in b :: y.depth >= k) && Nearest(b)
    ensures Nearest(a + b)
  {
    forall i, j | 0 <= i < j < |a + b|
      ensures (a + b)[i].depth <= (a + b)[j].depth
    {
      if i < |a| {
        assert a[i] in a && (a + b)[j] in a + b;
      }
    }
  }

  lemma {:induction false} RoundsNearestFirst(dir: Direction, table: seq<Node>, root: Id, k: nat, left: nat)
    requires Keyed(table)
    ensures Nearest(Rounds(dir, table, Level(dir, table, root, k), left))
    ensures forall r | r in Rounds(dir, table, Level(dir, table, root, k), left) :: r.depth >= k
    decreases left
  {
    hide Join, Keyed;
    var working := Level(dir, table, root, k);
    forall r | r in working
      ensures r.depth == k
    {
      LevelSound(dir, table, root, k, r);
    }
    if working != [] && left != 0 {
      assert Level(dir, table, root, k + 1) == Join(dir, table, working);
      RoundsNearestFirst(dir, table, root, k + 1, left - 1);
      NearestConcat(working, Rounds(dir, table, Level(dir, table, root, k + 1), left - 1), k);
    } else {
      assert Rounds(dir, table, working, left) == working;
      forall i | 0 <= i < |working|
        ensures working[i].depth == k
      {
        assert working[i] in working;
      }
    }
  }

  /** Rows come out level by level. */
  lemma QueryNearestFirst(dir: Direction, table: seq<Node>, root: Id, cap: nat)
    requires Keyed(table)
    ensures Nearest(Query(dir, table, root, cap))
  {
    RoundsNearestFirst(dir, table, root, 0, cap);
  }

  /** Upward there is one row a level, so position, depth and number of steps coincide. */
  lemma {:induction false} UpRoundsInOrder(table: seq<Node>, root: Id, k: nat, left: nat, i: nat)
    requires Keyed(table)
    requires i < |Rounds(Up, table, Level(Up, table, root, k), left)|
    ensures var r := Rounds(Up, table, Level(Up, table, root, k), left)[i];
            r.depth == k + i && Climb(table, root, k + i) == Some(r.id)
    decreases left
  {
    hide Simple, Once, Join, Keyed;
    var working := Level(Up, table, root, k);
    LevelOnce(Up, table, root, k);
    assert working != [];
    LevelSound(Up, table, root, k, working[0]);
    if left != 0 && i > 0 {
      assert Level(Up, table, root, k + 1) == Join(Up, table, working);
      UpRoundsInOrder(table, root, k + 1, left - 1, i - 1);
    }
  }

  // --- consequences ------------------------------------------------------------------------

  /** If some climb gets there, a shortest one does, and it is simple. */
  lemma {:induction false} ReachesLinked(table: seq<Node>, low: Id, high: Id, n: nat) returns (k: nat)
    requires Climb(table, low, n) == Some(high)
    ensures k <= n && Linked(table, low, high, k)
  {
    if i: nat, j: nat :| i < j <= n && Climb(table, low, i) == Climb(table, low, j) {
      ClimbPrefix(table, low, j, n);
      ClimbSplit(table, low, i, n - j);
      ClimbSplit(table, low, j, n - j);
      k := ReachesLinked(table, low, high, n - (j - i));
    } else {
      k := n;
    }
  }

  lemma {:induction false} DistinctBound(ids: seq<Id>, pool: set<Id>)
    requires forall i, j | 0 <= i < j < |ids| :: ids[i] != ids[j]
    requires forall x | x in ids :: x in pool
    ensures |ids| <= |pool|
  {
    if ids != [] {
      var last := ids[|ids| - 1];
      DistinctBound(ids[..|ids| - 1], pool - {last});
    }
  }

  lemma {:induction false} TableIds(table: seq<Node>) returns (ids: set<Id>)
    ensures forall n | n in table :: n.id in ids
    ensures |ids| <= |table|
  {
    if table == [] {
      ids := {};
    } else {
      var rest := TableIds(table[1..]);
      ids := rest + {table[0].id};
    }
  }

  /** The path guard alone stops the walk: no row is deeper than the table is long. */
  lemma PathGuardBoundsDepth(table: seq<Node>, low: Id, high: Id, k: nat)
    requires Linked(table, low, high, k)
    ensures k < |table|
  {
    forall i | 0 <= i <= k
      ensures Climb(table, low, i).Some? && RowOf(table, Climb(table, low, i).value).Some?
    {
      ClimbPrefix(table, low, i, k);
      ClimbSplit(table, low, i, 0);
    }
    var ids := seq(k + 1, i requires 0 <= i <= k => Climb(table, low, i).value);
    var pool := TableIds(table);
    forall i, j | 0 <= i < j < |ids|
      ensures ids[i] != ids[j]
    {
      assert Climb(table, low, i) != Climb(table, low, j);
    }
    DistinctBound(ids, pool);
  }

  /** Two nodes above the same one lie on one chain, the nearer below the farther. */
  lemma Chain(table: seq<Node>, low: Id, a: Id, i: nat, b: Id, j: nat)
    requires Linked(table, low, a, i) && Linked(table, low, b, j) && i <= j
    ensures Linked(table, a, b, j - i)
  {
    ClimbSplit(table, low, i, j - i);
    forall x: nat, y: nat | x < y <= j - i
      ensures Climb(table, a, x) != Climb(table, a, y)
    {
      ClimbSplit(table, low, i, x);
      ClimbSplit(table, low, i, y);
    }
  }
}
