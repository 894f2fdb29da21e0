// The bot registry's row identity and its merge of two frames: normalised ids,
// the freshness of a row, and last-writer-wins per id.
module BotRegistry {
  import opened Wrappers
  import opened TextOrder
  import opened Sorting

  // ------------------------------------------------------------------- bot ids

  // How the host language classifies characters.
  datatype CharClass = CharClass(alnum: char -> bool, space: char -> bool)

  ghost predicate Sane(u: CharClass) {
    && u.alnum('b') && u.alnum('o') && u.alnum('t') && !u.alnum('_') && !u.space('_')
    && forall ch :: u.alnum(ch) ==> !u.space(ch)
  }

  function StripLeft(s: string, drop: char -> bool): string {
    if s != "" && drop(s[0]) then StripLeft(s[1..], drop) else s
  }

  function StripRight(s: string, drop: char -> bool): string {
    if s != "" && drop(s[|s| - 1]) then StripRight(s[..|s| - 1], drop) else s
  }

  function Strip(s: string, drop: char -> bool): string {
    StripRight(StripLeft(s, drop), drop)
  }

  function Underscored(s: string, u: CharClass): (r: string)
    ensures |r| == |s| && forall i :: 0 <= i < |s| ==> r[i] == if u.alnum(s[i]) then s[i] else '_'
  {
    if s == "" then "" else Underscored(s[..|s| - 1], u) + [if u.alnum(s[|s| - 1]) then s[|s| - 1] else '_']
  }

  function NormalizeBotId(s: string, u: CharClass): string {
    var id := Strip(Underscored(Strip(s, u.space), u), ch => ch == '_');
    if id == "" then "bot" else id
  }

  lemma {:induction false} StripLeftPart(s: string, drop: char -> bool)
    ensures forall ch :: ch in StripLeft(s, drop) ==> ch in s
    ensures StripLeft(s, drop) != "" ==> !drop(StripLeft(s, drop)[0])
  {
    if s != "" && drop(s[0]) { StripLeftPart(s[1..], drop); }
  }

  lemma {:induction false} StripRightPart(s: string, drop: char -> bool)
    ensures StripRight(s, drop) <= s
    ensures StripRight(s, drop) != "" ==> !drop(StripRight(s, drop)[|StripRight(s, drop)| - 1])
    decreases |s|
  {
    if s != "" && drop(s[|s| - 1]) { StripRightPart(s[..|s| - 1], drop); }
  }

  // A non-empty id of letters, digits and underscores with no underscore at either end.
  ghost predicate IsBotId(id: string, u: CharClass) {
    && id != "" && id[0] != '_' && id[|id| - 1] != '_'
    && forall i :: 0 <= i < |id| ==> id[i] == '_' || u.alnum(id[i])
  }

  lemma NormalizedIsBotId(s: string, u: CharClass)
    requires Sane(u)
    ensures IsBotId(NormalizeBotId(s, u), u)
  {
    var drop := ch => ch == '_';
    var marked := Underscored(Strip(s, u.space), u);
    var left := StripLeft(marked, drop);
    StripLeftPart(marked, drop);
    StripRightPart(left, drop);
    var id := StripRight(left, drop);
    forall i | 0 <= i < |id| ensures id[i] == '_' || u.alnum(id[i]) {
      assert id[i] == left[i] && left[i] in left && left[i] in marked;
    }
  }

  lemma BotIdIsFixed(id: string, u: CharClass)
    requires Sane(u) && IsBotId(id, u)
    ensures NormalizeBotId(id, u) == id
  {
    assert !u.space(id[0]) && !u.space(id[|id| - 1]);
    assert Strip(id, u.space) == id;
    assert Underscored(id, u) == id;
  }

  // Normalising twice changes nothing; the normal ids are exactly the fixed points.
  lemma NormalizeIsIdempotent(s: string, u: CharClass)
    requires Sane(u)
    ensures NormalizeBotId(NormalizeBotId(s, u), u) == NormalizeBotId(s, u)
    ensures NormalizeBotId(s, u) == s <==> IsBotId(s, u)
  {
    NormalizedIsBotId(s, u);
    BotIdIsFixed(NormalizeBotId(s, u), u);
    if IsBotId(s, u) { BotIdIsFixed(s, u); }
  }

  // ------------------------------------------------------------------ freshness

  datatype Row = Row(
    id: string, content: string,
    updatedAt: Option<int>, heartbeatAt: Option<int>, deployedAt: Option<int>, createdAt: Option<int>)

  // One pairwise choice: keep the first when it is known and not older.
  function Newer(a: Option<int>, b: Option<int>): Option<int> {
    if a.Some? && (b.None? || a.value >= b.value) then a else b
  }

  function Freshness(r: Row): int {
    var t := Newer(Newer(Newer(r.updatedAt, r.heartbeatAt), r.deployedAt), r.createdAt);
    if t.Some? then t.value else 0
  }

  // The pairwise choices amount to the latest known timestamp, or the epoch.
  lemma FreshnessIsLatest(r: Row)
    ensures var stamps := {r.updatedAt, r.heartbeatAt, r.deployedAt, r.createdAt};
            if stamps == {None} then Freshness(r) == 0
            else Some(Freshness(r)) in stamps && forall t :: Some(t) in stamps ==> t <= Freshness(r)
  {
    if r.updatedAt == None && r.heartbeatAt == None && r.deployedAt == None && r.createdAt == None {
    } else {
      assert exists t :: Some(t) in {r.updatedAt, r.heartbeatAt, r.deployedAt, r.createdAt} by {
        var t := Newer(Newer(Newer(r.updatedAt, r.heartbeatAt), r.deployedAt), r.createdAt);
        assert t.Some? && Some(t.value) in {r.updatedAt, r.heartbeatAt, r.deployedAt, r.createdAt};
      }
    }
  }

  // ---------------------------------------------------------------------- merge

  function NormalizeAll(rows: seq<Row>, u: CharClass): (r: seq<Row>)
    ensures |r| == |rows| && forall i :: 0 <= i < |r| ==> r[i] == rows[i].(id := NormalizeBotId(rows[i].id, u))
  {
    if rows == [] then [] else [rows[0].(id := NormalizeBotId(rows[0].id, u))] + NormalizeAll(rows[1..], u)
  }

  // Sort order: ids ascending, freshness descending.
  predicate Before(a: Row, b: Row) {
    if a.id == b.id then Freshness(a) >= Freshness(b) else TextLeq(a.id, b.id)
  }

  // The first row with the given id.
  function First(s: seq<Row>, id: string): Option<Row> {
    if s == [] then None else if s[0].id == id then Some(s[0]) else First(s[1..], id)
  }

  // Keeps the first row of every id.
  function DropDuplicates(s: seq<Row>): seq<Row> {
    if s == [] then []
    else
      var p, x := s[..|s| - 1], s[|s| - 1];
      if First(p, x.id).Some? then DropDuplicates(p) else DropDuplicates(p) + [x]
  }

  // By id, the freshest first, ties in order of arrival.
  function InIdOrder(rows: seq<Row>): seq<Row> {
    Sort(rows, Before)
  }

  function Merge(primary: seq<Row>, secondary: seq<Row>, u: CharClass): seq<Row> {
    DropDuplicates(InIdOrder(NormalizeAll(primary + secondary, u)))
  }

  // The specification: of two candidates the fresher one, the earlier one on a tie.
  function Winner(a: Option<Row>, b: Option<Row>): Option<Row> {
    if a.None? then b
    else if b.None? || Freshness(a.value) >= Freshness(b.value) then a
    else b
  }

  // Last writer wins: the freshest row of an id, the earliest of these.
  function Freshest(rows: seq<Row>, id: string): Option<Row> {
    if rows == [] then None
    else Winner(if rows[0].id == id then Some(rows[0]) else None, Freshest(rows[1..], id))
  }

  predicate OnePerId(s: seq<Row>) {
    forall i, j :: 0 <= i < j < |s| ==> s[i].id != s[j].id && TextLeq(s[i].id, s[j].id)
  }

  lemma BeforeTransitive(a: Row, b: Row, c: Row)
    requires Before(a, b) && Before(b, c)
    ensures Before(a, c)
  {
    if a.id != b.id && b.id != c.id {
      TextTransitive(a.id, b.id, c.id);
      if a.id == c.id { TextTotal(a.id, b.id); }
    }
  }

  lemma BeforeTotal(a: Row, b: Row)
    ensures Before(a, b) || Before(b, a)
  {
    TextTotal(a.id, b.id);
  }

  lemma {:induction false} FirstIsMember(s: seq<Row>, id: string)
    ensures First(s, id).Some? ==> First(s, id).value in s && First(s, id).value.id == id
    ensures First(s, id).None? ==> forall r :: r in s ==> r.id != id
  {
    if s != [] && s[0].id != id {
      FirstIsMember(s[1..], id);
      assert s == [s[0]] + s[1..];
    }
  }

  lemma BeforeIsOrder()
    ensures IsOrder(Before)
  {
    forall a, b ensures Before(a, b) || Before(b, a) { BeforeTotal(a, b); }
    forall a, b, c | Before(a, b) && Before(b, c) ensures Before(a, c) { BeforeTransitive(a, b, c); }
  }

  lemma InIdOrderSorts(rows: seq<Row>)
    ensures Sorted(InIdOrder(rows), Before) && forall r :: r in InIdOrder(rows) <==> r in rows
  {
    BeforeIsOrder();
    SortSorts(rows, Before);
    forall r ensures r in InIdOrder(rows) <==> r in rows {
      assert r in multiset(InIdOrder(rows)) <==> r in multiset(rows);
    }
  }

  // Inserting into a sorted list lets the new row win exactly when it is at least as fresh.
  lemma {:induction false} InsertCompetes(e: Row, s: seq<Row>, id: string)
    requires Sorted(s, Before)
    ensures First(Insert(e, s, Before), id) == Winner(if e.id == id then Some(e) else None, First(s, id))
  {
    if s != [] {
      if Before(e, s[0]) {
        FirstIsMember(s, id);
        if e.id == id && First(s, id).Some? {
          var k :| 0 <= k < |s| && s[k] == First(s, id).value;
          if k > 0 { BeforeTransitive(e, s[0], s[k]); }
        }
        assert ([e] + s)[1..] == s;
      } else {
        InsertCompetes(e, s[1..], id);
        assert ([s[0]] + Insert(e, s[1..], Before))[1..] == Insert(e, s[1..], Before);
      }
    }
  }

  // The first row of an id in the sorted list is its last writer.
  lemma {:induction false} SortPutsFreshestFirst(rows: seq<Row>, id: string)
    ensures First(InIdOrder(rows), id) == Freshest(rows, id)
  {
    hide Before, Winner;
    if rows != [] {
      SortPutsFreshestFirst(rows[1..], id);
      InIdOrderSorts(rows[1..]);
      InsertCompetes(rows[0], InIdOrder(rows[1..]), id);
    }
  }

  lemma {:induction false} FirstAppend(s: seq<Row>, x: Row, id: string)
    ensures First(s + [x], id) == if First(s, id).Some? then First(s, id) else if x.id == id then Some(x) else None
  {
    if s == [] {
      assert ([] + [x])[1..] == [];
    } else {
      assert (s + [x])[1..] == s[1..] + [x];
      FirstAppend(s[1..], x, id);
    }
  }

  // Dropping duplicates keeps every id's first row and nothing else.
  lemma {:induction false} DropKeepsFirst(s: seq<Row>, id: string)
    ensures First(DropDuplicates(s), id) == First(s, id)
    decreases |s|
  {
    if s != [] {
      var p, x := s[..|s| - 1], s[|s| - 1];
      assert s == p + [x];
      DropKeepsFirst(p, id);
      FirstAppend(p, x, id);
      FirstAppend(DropDuplicates(p), x, id);
    }
  }

  lemma {:induction false} DropIsStrict(s: seq<Row>)
    requires Sorted(s, Before)
    ensures OnePerId(DropDuplicates(s)) && forall r :: r in DropDuplicates(s) ==> r in s
    decreases |s|
  {
    if s != [] {
      var p, x := s[..|s| - 1], s[|s| - 1];
      DropIsStrict(p);
      FirstIsMember(p, x.id);
      if First(p, x.id).None? {
        forall i | 0 <= i < |DropDuplicates(p)|
          ensures DropDuplicates(p)[i].id != x.id && TextLeq(DropDuplicates(p)[i].id, x.id)
        {
          var r := DropDuplicates(p)[i];
          assert r in DropDuplicates(p) && r in p;
          var k :| 0 <= k < |p| && p[k] == r;
          assert Before(s[k], s[|s| - 1]);
        }
      }
    }
  }

  // Merging is last-writer-wins: one row per normalised id, in id order, and that
  // row is the freshest of both frames, the primary's on a tie.
  lemma MergeIsLastWriterWins(primary: seq<Row>, secondary: seq<Row>, u: CharClass, id: string)
    ensures OnePerId(Merge(primary, secondary, u))
    ensures First(Merge(primary, secondary, u), id)
            == Winner(Freshest(NormalizeAll(primary, u), id), Freshest(NormalizeAll(secondary, u), id))
  {
    hide Winner, Before;
    var rows := NormalizeAll(primary + secondary, u);
    assert rows == NormalizeAll(primary, u) + NormalizeAll(secondary, u);
    InIdOrderSorts(rows);
    DropIsStrict(InIdOrder(rows));
    DropKeepsFirst(InIdOrder(rows), id);
    SortPutsFreshestFirst(rows, id);
    FreshestConcat(NormalizeAll(primary, u), NormalizeAll(secondary, u), id);
  }

  lemma WinnerAssociative(a: Option<Row>, b: Option<Row>, c: Option<Row>)
    ensures Winner(Winner(a, b), c) == Winner(a, Winner(b, c))
    ensures Winner(a, a) == a && Winner(a, None) == a
  {}

  lemma {:induction false} FreshestConcat(a: seq<Row>, b: seq<Row>, id: string)
    ensures Freshest(a + b, id) == Winner(Freshest(a, id), Freshest(b, id))
  {
    if a == [] {
      assert a + b == b;
    } else {
      assert (a + b)[1..] == a[1..] + b;
      FreshestConcat(a[1..], b, id);
      WinnerAssociative(if a[0].id == id then Some(a[0]) else None, Freshest(a[1..], id), Freshest(b, id));
    }
  }

  // ------------------------------------------------- algebra of merging

  lemma {:induction false} FreshestOfOnePerId(s: seq<Row>, id: string)
    requires OnePerId(s)
    ensures Freshest(s, id) == First(s, id)
  {
    if s != [] {
      FreshestOfOnePerId(s[1..], id);
      FirstIsMember(s[1..], id);
    }
  }

  lemma MergedIsNormal(primary: seq<Row>, secondary: seq<Row>, u: CharClass)
    requires Sane(u)
    ensures NormalizeAll(Merge(primary, secondary, u), u) == Merge(primary, secondary, u)
  {
    var rows := NormalizeAll(primary + secondary, u);
    var m := Merge(primary, secondary, u);
    InIdOrderSorts(rows);
    DropIsStrict(InIdOrder(rows));
    forall i | 0 <= i < |m| ensures NormalizeBotId(m[i].id, u) == m[i].id {
      assert m[i] in m && m[i] in rows;
      var k :| 0 <= k < |rows| && rows[k] == m[i];
      NormalizeIsIdempotent((primary + secondary)[k].id, u);
    }
  }

  // What a merge result contributes to a further merge.
  lemma MergedFreshest(a: seq<Row>, b: seq<Row>, u: CharClass, id: string)
    requires Sane(u)
    ensures Freshest(NormalizeAll(Merge(a, b, u), u), id)
            == Winner(Freshest(NormalizeAll(a, u), id), Freshest(NormalizeAll(b, u), id))
  {
    hide Winner;
    MergedIsNormal(a, b, u);
    MergeIsLastWriterWins(a, b, u, id);
    FreshestOfOnePerId(Merge(a, b, u), id);
  }

  // A list with one row per id, in id order, is determined by its lookups.
  lemma {:induction false} SameLookups(a: seq<Row>, b: seq<Row>)
    requires OnePerId(a) && OnePerId(b) && forall id :: First(a, id) == First(b, id)
    ensures a == b
  {
    assert a != [] ==> First(b, a[0].id) == Some(a[0]);
    assert b != [] ==> First(a, b[0].id) == Some(b[0]);
    if a != [] {
      HeadsAgree(a, b);
      assert a == [a[0]] + a[1..] && b == [b[0]] + b[1..];
      forall id ensures First(a[1..], id) == First(b[1..], id) {
        assert First(a, id) == First(b, id);
        FirstIsMember(a[1..], id);
        FirstIsMember(b[1..], id);
      }
      SameLookups(a[1..], b[1..]);
    }
  }

  lemma HeadsAgree(a: seq<Row>, b: seq<Row>)
    requires a != [] && b != [] && OnePerId(a) && OnePerId(b) && forall id :: First(a, id) == First(b, id)
    ensures a[0] == b[0]
  {
    assert First(a, a[0].id) == First(b, a[0].id) && First(a, b[0].id) == First(b, b[0].id);
    FirstIsMember(b, a[0].id);
    FirstIsMember(a, b[0].id);
    if a[0].id != b[0].id {
      TextTotal(a[0].id, b[0].id);
    }
  }

  lemma MergeIsAssociative(a: seq<Row>, b: seq<Row>, c: seq<Row>, u: CharClass)
    requires Sane(u)
    ensures Merge(Merge(a, b, u), c, u) == Merge(a, Merge(b, c, u), u)
  {
    hide Winner, Merge, Freshest;
    var x, y := Merge(Merge(a, b, u), c, u), Merge(a, Merge(b, c, u), u);
    forall id ensures First(x, id) == First(y, id) && OnePerId(x) && OnePerId(y) {
      MergeIsLastWriterWins(Merge(a, b, u), c, u, id);
      MergeIsLastWriterWins(a, Merge(b, c, u), u, id);
      MergedFreshest(a, b, u, id);
      MergedFreshest(b, c, u, id);
      WinnerAssociative(Freshest(NormalizeAll(a, u), id), Freshest(NormalizeAll(b, u), id),
          Freshest(NormalizeAll(c, u), id));
    }
    assert OnePerId(x) && OnePerId(y) by { assert First(x, "") == First(y, ""); }
    SameLookups(x, y);
  }

  // Merging a frame with itself adds nothing, and merging again changes nothing.
  lemma MergeIsIdempotent(a: seq<Row>, b: seq<Row>, u: CharClass)
    requires Sane(u)
    ensures Merge(a, a, u) == Merge(a, [], u)
    ensures Merge(Merge(a, b, u), Merge(a, b, u), u) == Merge(a, b, u)
  {
    hide Winner, Merge, Freshest;
    var m := Merge(a, b, u);
    var mm := Merge(m, m, u);
    assert NormalizeAll([], u) == [];
    forall id
      ensures First(Merge(a, a, u), id) == First(Merge(a, [], u), id) && First(mm, id) == First(m, id)
      ensures OnePerId(Merge(a, a, u)) && OnePerId(Merge(a, [], u)) && OnePerId(mm) && OnePerId(m)
    {
      MergeIsLastWriterWins(a, a, u, id);
      MergeIsLastWriterWins(a, [], u, id);
      MergeIsLastWriterWins(a, b, u, id);
      MergeIsLastWriterWins(m, m, u, id);
      MergedFreshest(a, b, u, id);
      NothingFreshest(id);
      WinnerAssociative(Freshest(NormalizeAll(a, u), id), None, None);
      WinnerAssociative(Freshest(NormalizeAll(m, u), id), None, None);
    }
    assert First(mm, "") == First(m, "") && First(Merge(a, a, u), "") == First(Merge(a, [], u), "");
    SameLookups(Merge(a, a, u), Merge(a, [], u));
    SameLookups(mm, m);
  }

  lemma NothingFreshest(id: string)
    ensures Freshest([], id) == None
  {}

  // ---------------------------------------------------- what a normal id keeps

  // s[i..j] starts and ends with the first and the last letter or digit of s.
  predicate Core(s: string, i: nat, j: nat, u: CharClass) {
    && i < j <= |s| && u.alnum(s[i]) && u.alnum(s[j - 1])
    && (forall k :: 0 <= k < |s| && (k < i || j <= k) ==> !u.alnum(s[k]))
  }

  lemma {:induction false} StripLeftCuts(s: string, drop: char -> bool) returns (i: nat)
    ensures i <= |s| && StripLeft(s, drop) == s[i..] && forall k :: 0 <= k < i ==> drop(s[k])
    ensures i < |s| ==> !drop(s[i])
  {
    i := 0;
    if s != "" && drop(s[0]) {
      var n := StripLeftCuts(s[1..], drop);
      i := n + 1;
      forall k | 0 <= k < i ensures drop(s[k]) {
        if k > 0 { assert s[1..][k - 1] == s[k]; }
      }
    }
  }

  lemma {:induction false} StripRightCuts(s: string, drop: char -> bool) returns (j: nat)
    ensures j <= |s| && StripRight(s, drop) == s[..j] && forall k :: j <= k < |s| ==> drop(s[k])
    ensures j > 0 ==> !drop(s[j - 1])
    decreases |s|
  {
    j := |s|;
    if s != "" && drop(s[|s| - 1]) {
      j := StripRightCuts(s[..|s| - 1], drop);
    }
  }

  // Stripping cuts off a front and an end that are dropped throughout.
  lemma StripCuts(s: string, drop: char -> bool) returns (i: nat, j: nat)
    ensures i <= j <= |s| && Strip(s, drop) == s[i..j]
    ensures forall k :: 0 <= k < i || j <= k < |s| ==> drop(s[k])
    ensures i < j ==> !drop(s[i]) && !drop(s[j - 1])
  {
    i := StripLeftCuts(s, drop);
    var n := StripRightCuts(s[i..], drop);
    j := i + n;
    assert s[i..][..n] == s[i..j];
    forall k | j <= k < |s| ensures drop(s[k]) { assert s[i..][k - i] == s[k]; }
    if n > 0 { assert s[i..][n - 1] == s[j - 1]; assert s[i..][0] == s[i]; }
  }

  // Trimming cuts off no letter or digit.
  lemma TrimKeepsAlnum(s: string, u: CharClass) returns (a: nat, b: nat)
    requires Sane(u)
    ensures a <= b <= |s| && Strip(s, u.space) == s[a..b]
    ensures forall k :: 0 <= k < |s| && (k < a || b <= k) ==> !u.alnum(s[k])
  {
    hide Strip;
    a, b := StripCuts(s, u.space);
    assert forall k :: 0 <= k < a || b <= k < |s| ==> u.space(s[k]);
  }

  // A normal id is the text from its first to its last letter or digit with every other
  // character between them replaced by an underscore, and "bot" when there is none.
  lemma NormalIdIsCore(s: string, u: CharClass) returns (i: nat, j: nat)
    requires Sane(u)
    ensures if exists k :: 0 <= k < |s| && u.alnum(s[k]) then
              && Core(s, i, j, u) && |NormalizeBotId(s, u)| == j - i
              && forall k :: 0 <= k < j - i ==>
                   NormalizeBotId(s, u)[k] == if u.alnum(s[i + k]) then s[i + k] else '_'
            else NormalizeBotId(s, u) == "bot"
  {
    var a, b := TrimKeepsAlnum(s, u);
    var marked := Underscored(Strip(s, u.space), u);
    var drop := ch => ch == '_';
    var c, d := StripCuts(marked, drop);
    i, j := a + c, a + d;
    hide Strip;
    MarkedIsAlnum(s, a, b, u);
    CoreOfMarked(s, a, b, marked, c, d, u);
    hide Core, Underscored, Sane;
    assert c < d ==> u.alnum(s[i]) by { assert Core(s, i, j, u) ==> u.alnum(s[i]); }
    assert forall k :: 0 <= k < d - c ==> Strip(marked, drop)[k] == marked[c + k];
  }

  // Stripping the marks of a part outside of which s has no letter or digit.
  lemma CoreOfMarked(s: string, a: nat, b: nat, marked: string, c: nat, d: nat, u: CharClass)
    requires a <= b <= |s| && |marked| == b - a && c <= d <= |marked|
    requires forall k :: 0 <= k < |s| && (k < a || b <= k) ==> !u.alnum(s[k])
    requires forall k :: 0 <= k < |marked| ==> (marked[k] == '_' <==> !u.alnum(s[a + k]))
    requires forall k :: 0 <= k < c || d <= k < |marked| ==> marked[k] == '_'
    requires c < d ==> marked[c] != '_' && marked[d - 1] != '_'
    ensures if c < d then Core(s, a + c, a + d, u) else forall k :: 0 <= k < |s| ==> !u.alnum(s[k])
  {
    forall k | 0 <= k < |s| && (c < d ==> k < a + c || a + d <= k) ensures !u.alnum(s[k]) {
      if a <= k < b { assert marked[k - a] == '_'; }
    }
  }

  // Marking a part of s leaves its letters and digits, and only these.
  lemma MarkedIsAlnum(s: string, a: nat, b: nat, u: CharClass)
    requires Sane(u) && a <= b <= |s|
    ensures var marked := Underscored(s[a..b], u);
            && |marked| == b - a
            && forall k :: 0 <= k < b - a ==>
                 && marked[k] == (if u.alnum(s[a + k]) then s[a + k] else '_')
                 && (marked[k] == '_' <==> !u.alnum(s[a + k]))
  {}

}
