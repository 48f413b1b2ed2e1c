/** The leaderboard: a max-merge of run results and the rankings read from it
    (cache/memory/memory.go and leaderboard/service.go). */
module Leaderboard {
  type PlayerId = string

  datatype Entry = Entry(rank: int, player: PlayerId, score: int)

  type Board = map<PlayerId, int>

  // ---- the order of entries ----

  /** Byte-wise lexicographic order. */
  predicate StringLess(a: string, b: string) {
    if b == "" then false
    else if a == "" then true
    else a[0] < b[0] || (a[0] == b[0] && StringLess(a[1..], b[1..]))
  }

  lemma {:induction false} StringTotal(a: string, b: string)
    ensures StringLess(a, b) || StringLess(b, a) || a == b
    ensures !(StringLess(a, b) && StringLess(b, a)) && (a == b ==> !StringLess(a, b))
    decreases |a|
  {
    if a != "" && b != "" {
      StringTotal(a[1..], b[1..]);
      if a[0] == b[0] && a[1..] == b[1..] {
        assert a == [a[0]] + a[1..] && b == [b[0]] + b[1..];
      }
    }
  }

  lemma {:induction false} StringTransitive(a: string, b: string, c: string)
    requires StringLess(a, b) && StringLess(b, c)
    ensures StringLess(a, c)
    decreases |a|
  {
    if a != "" && a[0] == b[0] && b[0] == c[0] { StringTransitive(a[1..], b[1..], c[1..]); }
  }

  /** `a` comes before `b` in a dictionary: it is the beginning of `b`, or has the smaller
      letter where they first differ. */
  ghost predicate Alphabetical(a: string, b: string) {
    exists k :: FirstDifference(a, b, k)
  }

  ghost predicate FirstDifference(a: string, b: string, k: int) {
    0 <= k <= |a| && k < |b| && a[..k] == b[..k] && (k == |a| || a[k] < b[k])
  }

  lemma {:induction false} StringLessIsOrder(a: string, b: string)
    ensures StringLess(a, b) <==> Alphabetical(a, b)
    decreases |a|
  {
    if b != "" && (a == "" || a[0] < b[0]) {
      assert FirstDifference(a, b, 0);
    } else if b != "" && a[0] == b[0] {
      StringLessIsOrder(a[1..], b[1..]);
      if k :| FirstDifference(a[1..], b[1..], k) {
        assert a[..k + 1] == [a[0]] + a[1..][..k] && b[..k + 1] == [b[0]] + b[1..][..k];
        assert FirstDifference(a, b, k + 1);
      }
    }
    if k :| FirstDifference(a, b, k) {
      if k > 0 {
        assert a[0] == a[..k][0] && b[0] == b[..k][0];
        assert a[1..][..k - 1] == a[..k][1..] && b[1..][..k - 1] == b[..k][1..];
        assert FirstDifference(a[1..], b[1..], k - 1);
      }
    }
  }

  /** `x` ranks before `y`: a higher score, or the same score and the later name. */
  predicate Better(x: Entry, y: Entry) {
    x.score > y.score || (x.score == y.score && StringLess(y.player, x.player))
  }

  lemma BetterTotal(x: Entry, y: Entry)
    ensures Better(x, y) || Better(y, x) || (x.player == y.player && x.score == y.score)
    ensures !(Better(x, y) && Better(y, x)) && (x.player == y.player && x.score == y.score ==> !Better(x, y))
  {
    hide StringLess;
    StringTotal(x.player, y.player);
  }

  lemma BetterTransitive(x: Entry, y: Entry, z: Entry)
    requires Better(x, y) && Better(y, z)
    ensures Better(x, z)
  {
    hide StringLess;
    if x.score == y.score == z.score { StringTransitive(z.player, y.player, x.player); }
  }

  // ---- merging results ----

  function Merge(b: Board, p: PlayerId, score: int): Board {
    if p !in b || score > b[p] then b[p := score] else b
  }

  /** A delivered run result: player and score. */
  type Delivery = (PlayerId, int)

  function Delivered(b: Board, ds: seq<Delivery>): Board {
    if ds == [] then b else Merge(Delivered(b, ds[..|ds| - 1]), ds[|ds| - 1].0, ds[|ds| - 1].1)
  }

  /** Each delivered player has the highest of the scores delivered for it. */
  ghost predicate IsMaximum(b: Board, ds: seq<Delivery>) {
    && (forall d :: d in ds ==> d.0 in b && d.1 <= b[d.0])
    && (forall p :: p in b ==> (p, b[p]) in ds)
  }

  lemma {:induction false} DeliveredIsMaximum(ds: seq<Delivery>)
    ensures IsMaximum(Delivered(map[], ds), ds)
    decreases |ds|
  {
    if ds != [] {
      var rest := ds[..|ds| - 1];
      DeliveredIsMaximum(rest);
      assert ds == rest + [ds[|ds| - 1]];
    }
  }

  /** Convergence: whatever the order and however often results are delivered, the same
      results make the same board. */
  lemma DeliveryConverges(ds: seq<Delivery>, es: seq<Delivery>)
    requires forall d :: d in ds <==> d in es
    ensures Delivered(map[], ds) == Delivered(map[], es)
  {
    hide Delivered;
    DeliveredIsMaximum(ds);
    DeliveredIsMaximum(es);
    var a, b := Delivered(map[], ds), Delivered(map[], es);
    forall p ensures p in a <==> p in b {
      if p in a { assert (p, a[p]) in es; }
      if p in b { assert (p, b[p]) in ds; }
    }
    forall p | p in a ensures a[p] == b[p] {
      assert (p, a[p]) in es && (p, b[p]) in ds;
    }
  }

  // ---- rankings ----

  /** All players of the board, best first, with their ranks. */
  ghost predicate IsRanking(b: Board, out: seq<Entry>) {
    && (forall i :: 0 <= i < |out| ==> out[i].player in b && out[i].score == b[out[i].player] && out[i].rank == i + 1)
    && (forall p :: p in b ==> exists i :: 0 <= i < |out| && out[i].player == p)
    && (forall i, j :: 0 <= i < j < |out| ==> Better(out[i], out[j]))
  }

  /** The players that rank before `p`. */
  ghost function Ahead(b: Board, p: PlayerId): set<PlayerId>
    requires p in b
  {
    set q | q in b && Better(Entry(0, q, b[q]), Entry(0, p, b[p]))
  }

  ghost function PlayersOf(out: seq<Entry>, n: nat): set<PlayerId>
    requires n <= |out|
  {
    if n == 0 then {} else PlayersOf(out, n - 1) + {out[n - 1].player}
  }

  /** `p` is one of the first `n`. */
  ghost predicate IsAt(out: seq<Entry>, i: int, p: PlayerId) {
    0 <= i < |out| && out[i].player == p
  }

  /** A ranking goes by score, highest first; among equal scores the name that comes later in
      the dictionary goes first. */
  lemma RankedByScore(b: Board, out: seq<Entry>, i: nat, j: nat)
    requires IsRanking(b, out) && i < |out| && j < |out|
    ensures out[i].rank == i + 1 && out[i].player in b && out[j].player in b
    ensures var x, y := out[i].player, out[j].player;
      i < j <==> b[x] > b[y] || (b[x] == b[y] && Alphabetical(y, x))
  {
    hide StringLess, Alphabetical;
    StringLessIsOrder(out[i].player, out[j].player);
    StringLessIsOrder(out[j].player, out[i].player);
    StringTotal(out[i].player, out[j].player);
  }

  lemma {:induction false} PlayersMembers(out: seq<Entry>, n: nat, p: PlayerId)
    requires n <= |out|
    ensures p in PlayersOf(out, n) <==> exists i :: i < n && IsAt(out, i, p)
    decreases n
  {
    if n > 0 {
      PlayersMembers(out, n - 1, p);
      assert IsAt(out, n - 1, p) <==> out[n - 1].player == p;
    }
  }

  lemma PlayersDiffer(b: Board, out: seq<Entry>, i: int, j: int)
    requires IsRanking(b, out) && 0 <= i < j < |out|
    ensures out[i].player != out[j].player
  {
    hide Better;
    BetterTotal(out[i], out[j]);
  }

  lemma {:induction false} PlayersCount(b: Board, out: seq<Entry>, n: nat)
    requires IsRanking(b, out) && n <= |out|
    ensures |PlayersOf(out, n)| == n
    decreases n
  {
    hide IsRanking;
    if n > 0 {
      PlayersCount(b, out, n - 1);
      var p := out[n - 1].player;
      PlayersMembers(out, n - 1, p);
      if p in PlayersOf(out, n - 1) {
        var i :| i < n - 1 && IsAt(out, i, p);
        PlayersDiffer(b, out, i, n - 1);
      }
    }
  }

  /** Positions and the order of entries say the same. */
  lemma OrderIsPosition(b: Board, out: seq<Entry>, i: int, j: int)
    requires IsRanking(b, out) && 0 <= i < |out| && 0 <= j < |out|
    ensures Better(Entry(0, out[j].player, b[out[j].player]), Entry(0, out[i].player, b[out[i].player])) <==> j < i
  {
    hide Better;
    SamePosition(out[j], Entry(0, out[j].player, b[out[j].player]), out[i], Entry(0, out[i].player, b[out[i].player]));
    BetterTotal(out[j], out[i]);
  }

  /** A rank is one more than the number of players that rank before. */
  lemma RankCountsPlayersAhead(b: Board, out: seq<Entry>, i: nat)
    requires IsRanking(b, out) && i < |out|
    ensures out[i].rank == 1 + |Ahead(b, out[i].player)|
  {
    hide Better;
    PlayersCount(b, out, i);
    var p := out[i].player;
    forall q ensures q in Ahead(b, p) <==> q in PlayersOf(out, i) {
      PlayersMembers(out, i, q);
      if q in b {
        var j :| 0 <= j < |out| && out[j].player == q;
        OrderIsPosition(b, out, i, j);
        assert IsAt(out, j, q);
      }
      if k :| k < i && IsAt(out, k, q) {
        OrderIsPosition(b, out, i, k);
      }
    }
    assert Ahead(b, p) == PlayersOf(out, i);
  }

  lemma SamePosition(x: Entry, x': Entry, y: Entry, y': Entry)
    requires x.player == x'.player && x.score == x'.score && y.player == y'.player && y.score == y'.score
    ensures Better(x, y) == Better(x', y')
  {}

  /** There is one ranking of a board. */
  lemma RankingIsUnique(b: Board, out: seq<Entry>, out': seq<Entry>)
    requires IsRanking(b, out) && IsRanking(b, out')
    ensures out == out'
  {
    hide Better, Ahead;
    RankingLength(b, out);
    RankingLength(b, out');
    forall i | 0 <= i < |out| ensures out[i] == out'[i] {
      var p := out[i].player;
      var j :| 0 <= j < |out'| && out'[j].player == p;
      RankCountsPlayersAhead(b, out, i);
      RankCountsPlayersAhead(b, out', j);
    }
  }

  lemma RankingLength(b: Board, out: seq<Entry>)
    requires IsRanking(b, out)
    ensures |out| == |b|
  {
    hide Better;
    PlayersCount(b, out, |out|);
    forall p ensures p in PlayersOf(out, |out|) <==> p in b {
      PlayersMembers(out, |out|, p);
      if p in b {
        var i :| 0 <= i < |out| && out[i].player == p;
        assert IsAt(out, i, p);
      }
    }
    assert PlayersOf(out, |out|) == b.Keys;
  }

  // ---- the cache object ----

  class Boards {
    var boards: map<string, Board>

    constructor ()
      ensures boards == map[]
    {
      boards := map[];
    }

    function BoardOf(event: string): Board
      reads this
    {
      if event in boards then boards[event] else map[]
    }

    method Submit(event: string, player: PlayerId, score: int)
      modifies this
      ensures boards == old(boards)[event := Merge(old(BoardOf(event)), player, score)]
    {
      var board := BoardOf(event);
      if player !in board || score > board[player] {
        board := board[player := score];
      }
      boards := boards[event := board];
    }

    /** The sink: only finished runs of a known player in a known event count. */
    method Handle(isRunFinished: bool, event: string, player: PlayerId, score: int)
      modifies this
      ensures isRunFinished && event != "" && player != "" ==>
        boards == old(boards)[event := Merge(old(BoardOf(event)), player, score)]
      ensures !(isRunFinished && event != "" && player != "") ==> boards == old(boards)
    {
      if !isRunFinished || event == "" || player == "" {
        return;
      }
      Submit(event, player, score);
    }

    /** The entries of a board in ranking order. */
    method Sorted(event: string) returns (out: seq<Entry>)
      ensures IsRanking(BoardOf(event), out)
    {
      hide IsRanking, InOrder;
      var board := BoardOf(event);
      out := [];
      var left := board.Keys;
      NoneListed(board);
      while left != {}
        invariant left <= board.Keys && Listed(board, board.Keys - left, out)
        decreases |left|
      {
        var p :| p in left;
        ListOne(board, board.Keys - left, out, p);
        assert board.Keys - left + {p} == board.Keys - (left - {p});
        out := Insert(out, Entry(0, p, board[p]));
        left := left - {p};
      }
      assert board.Keys - left == board.Keys;
      ghost var entries := out;
      AllListed(board, out);
      var ranked := [];
      for i := 0 to |out|
        invariant |ranked| == i && forall j :: 0 <= j < i ==> ranked[j] == entries[j].(rank := j + 1)
      {
        ranked := ranked + [out[i].(rank := i + 1)];
      }
      RankedIsRanking(board, entries, ranked);
      out := ranked;
    }

    method Top(event: string, limit: int) returns (out: seq<Entry>)
      ensures exists all ::
        IsRanking(BoardOf(event), all) && out == all[..if limit > 0 && |all| > limit then limit else |all|]
    {
      hide IsRanking;
      var all := Sorted(event);
      out := all;
      if limit > 0 && |all| > limit {
        out := all[..limit];
      }
      assert out == all[..if limit > 0 && |all| > limit then limit else |all|];
    }

    method Rank(event: string, player: PlayerId) returns (rank: int, score: int, found: bool)
      ensures found <==> player in BoardOf(event)
      ensures found ==> score == BoardOf(event)[player] && rank == 1 + |Ahead(BoardOf(event), player)|
    {
      hide Ahead, Better;
      var all := Sorted(event);
      for i := 0 to |all|
        invariant forall j :: 0 <= j < i ==> all[j].player != player
      {
        if all[i].player == player {
          RankCountsPlayersAhead(BoardOf(event), all, i);
          return all[i].rank, all[i].score, true;
        }
      }
      return 0, 0, false;
    }

    /** The window of `radius` entries on each side of the player; nothing for a player that
        is not ranked. */
    method Around(event: string, player: PlayerId, radius: nat) returns (out: seq<Entry>)
      ensures player !in BoardOf(event) ==> out == []
      ensures player in BoardOf(event) ==>
        exists all, i :: IsRanking(BoardOf(event), all) && IsWindow(all, i, player, radius, out)
    {
      hide Better;
      var all := Sorted(event);
      var idx := -1;
      for i := 0 to |all|
        invariant idx == -1 && forall j :: 0 <= j < i ==> all[j].player != player
      {
        if all[i].player == player {
          idx := i;
          break;
        }
      }
      if idx < 0 {
        return [];
      }
      var lo := if 0 > idx - radius then 0 else idx - radius;
      var hi := if |all| < idx + radius + 1 then |all| else idx + radius + 1;
      out := all[lo..hi];
      assert IsWindow(all, idx, player, radius, out);
    }
  }

  ghost predicate IsWindow(all: seq<Entry>, i: int, player: PlayerId, radius: nat, out: seq<Entry>) {
    && 0 <= i < |all| && all[i].player == player
    && out == all[(if i > radius then i - radius else 0)..(if i + radius < |all| then i + radius + 1 else |all|)]
  }

  // ---- sorting ----

  ghost predicate InOrder(out: seq<Entry>) {
    forall i, j :: 0 <= i < j < |out| ==> Better(out[i], out[j])
  }

  /** Where an entry belongs. */
  function Insert(out: seq<Entry>, e: Entry): seq<Entry> {
    if out == [] then [e]
    else if Better(out[|out| - 1], e) then out + [e]
    else Insert(out[..|out| - 1], e) + [out[|out| - 1]]
  }

  /** The players `done`, once each and in order. */
  ghost predicate Listed(b: Board, done: set<PlayerId>, out: seq<Entry>)
    requires done <= b.Keys
  {
    && InOrder(out)
    && (forall i :: 0 <= i < |out| ==> out[i].player in done && out[i].score == b[out[i].player])
    && (forall p :: p in done ==> Entry(0, p, b[p]) in out)
  }

  lemma NoneListed(b: Board)
    ensures Listed(b, b.Keys - b.Keys, [])
  {}

  lemma {:induction false} InsertKeeps(out: seq<Entry>, e: Entry)
    requires InOrder(out) && forall i :: 0 <= i < |out| ==> Better(out[i], e) || Better(e, out[i])
    ensures InOrder(Insert(out, e))
    ensures forall x :: x in Insert(out, e) <==> x in out || x == e
    decreases |out|
  {
    hide Better;
    if out != [] {
      var last, rest := out[|out| - 1], out[..|out| - 1];
      assert out == rest + [last];
      if Better(last, e) {
        forall i | 0 <= i < |out| ensures Better(out[i], e) {
          if i < |out| - 1 { BetterTransitive(out[i], last, e); }
        }
      } else {
        InsertKeeps(rest, e);
        var inner := Insert(rest, e);
        forall i | 0 <= i < |inner| ensures Better(inner[i], last) {
          assert inner[i] in inner;
          if inner[i] != e { assert inner[i] in rest; }
        }
      }
    }
  }

  lemma ListOne(b: Board, done: set<PlayerId>, out: seq<Entry>, p: PlayerId)
    requires done <= b.Keys && p in b && p !in done && Listed(b, done, out)
    ensures Listed(b, done + {p}, Insert(out, Entry(0, p, b[p])))
  {
    hide Better, Insert;
    var e := Entry(0, p, b[p]);
    forall i | 0 <= i < |out| ensures Better(out[i], e) || Better(e, out[i]) {
      BetterTotal(out[i], e);
    }
    InsertKeeps(out, e);
    var out' := Insert(out, e);
    forall i | 0 <= i < |out'| ensures out'[i].player in done + {p} && out'[i].score == b[out'[i].player] {
      assert out'[i] in out';
    }
  }

  lemma AllListed(b: Board, out: seq<Entry>)
    requires Listed(b, b.Keys, out)
    ensures InOrder(out) && (forall i :: 0 <= i < |out| ==> out[i].player in b && out[i].score == b[out[i].player])
    ensures forall p :: p in b ==> exists i :: 0 <= i < |out| && out[i].player == p
  {
    hide InOrder;
    forall p | p in b ensures exists i :: 0 <= i < |out| && out[i].player == p {
      var i :| 0 <= i < |out| && out[i] == Entry(0, p, b[p]);
      assert out[i].player == p;
    }
  }

  lemma RankedIsRanking(b: Board, entries: seq<Entry>, ranked: seq<Entry>)
    requires InOrder(entries)
    requires (forall i :: 0 <= i < |entries| ==> entries[i].player in b && entries[i].score == b[entries[i].player])
    requires forall p :: p in b ==> exists i :: 0 <= i < |entries| && entries[i].player == p
    requires |ranked| == |entries| && forall i :: 0 <= i < |entries| ==> ranked[i] == entries[i].(rank := i + 1)
    ensures IsRanking(b, ranked)
  {
    hide Better;
    forall i, j | 0 <= i < j < |ranked| ensures Better(ranked[i], ranked[j]) {
      assert Better(entries[i], entries[j]);
      SamePosition(entries[i], ranked[i], entries[j], ranked[j]);
    }
    forall p | p in b ensures exists i :: 0 <= i < |ranked| && ranked[i].player == p {
      var i :| 0 <= i < |entries| && entries[i].player == p;
      assert ranked[i].player == p;
    }
  }
}
