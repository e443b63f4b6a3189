/**
 * The Bola leaderboards: per difficulty, a `Vec<LeaderboardEntry>` kept sorted
 * ascending under the derived ordering (score first, then username), free of
 * duplicates and at most `leaderboard_span` long.
 */
module Leaderboard {
  import opened Wrappers
  import opened Bytes

  datatype Ordering = Lt | Eq | Gt

  function Flip(o: Ordering): Ordering {
    match o
    case Lt => Gt
    case Eq => Eq
    case Gt => Lt
  }

  /**
   * `Ord for String`: lexicographic, a proper prefix first. Rust compares the
   * UTF-8 bytes; for valid UTF-8 that is the same order as comparing code points.
   */
  function CmpStr(a: string, b: string): Ordering
    decreases |a|
  {
    if |a| == 0 then (if |b| == 0 then Eq else Lt)
    else if |b| == 0 then Gt
    else if a[0] < b[0] then Lt
    else if a[0] > b[0] then Gt
    else CmpStr(a[1..], b[1..])
  }

  lemma {:induction false} CmpStrEq(a: string, b: string)
    ensures CmpStr(a, b) == Eq <==> a == b
    decreases |a|
  {
    if |a| > 0 && |b| > 0 && a[0] == b[0] {
      CmpStrEq(a[1..], b[1..]);
      assert a == [a[0]] + a[1..] && b == [b[0]] + b[1..];
    }
  }

  lemma {:induction false} CmpStrFlip(a: string, b: string)
    ensures CmpStr(b, a) == Flip(CmpStr(a, b))
    decreases |a|
  {
    if |a| > 0 && |b| > 0 && a[0] == b[0] {
      CmpStrFlip(a[1..], b[1..]);
    }
  }

  lemma {:induction false} CmpStrTrans(a: string, b: string, c: string)
    requires CmpStr(a, b) == Lt && CmpStr(b, c) == Lt
    ensures CmpStr(a, c) == Lt
    decreases |a|
  {
    if |a| > 0 && |b| > 0 && |c| > 0 && a[0] == b[0] == c[0] {
      CmpStrTrans(a[1..], b[1..], c[1..]);
    }
  }

  /** `LeaderboardEntry { score: u16, username: String }`. */
  datatype Entry = Entry(score: u16, username: string)

  /** The derived `Ord`: fields compared in declaration order. */
  function Cmp(a: Entry, b: Entry): Ordering {
    if a.score < b.score then Lt
    else if a.score > b.score then Gt
    else CmpStr(a.username, b.username)
  }

  /** `a < b` under the derived ordering. */
  predicate Below(a: Entry, b: Entry) {
    Cmp(a, b) == Lt
  }

  lemma CmpEqIffSame(a: Entry, b: Entry)
    ensures Cmp(a, b) == Eq <==> a == b
  {
    CmpStrEq(a.username, b.username);
  }

  lemma CmpAntisymmetric(a: Entry, b: Entry)
    ensures Cmp(b, a) == Flip(Cmp(a, b))
  {
    CmpStrFlip(a.username, b.username);
  }

  lemma BelowTransitive(a: Entry, b: Entry, c: Entry)
    requires Below(a, b) && Below(b, c)
    ensures Below(a, c)
  {
    if a.score == b.score == c.score {
      CmpStrTrans(a.username, b.username, c.username);
    }
  }

  lemma BelowIrreflexive(a: Entry)
    ensures !Below(a, a)
  {
    CmpEqIffSame(a, a);
  }

  /** Strictly ascending, hence without duplicates. */
  ghost predicate Sorted(s: seq<Entry>) {
    forall i, j :: 0 <= i < j < |s| ==> Below(s[i], s[j])
  }

  lemma SortedHasNoDuplicates(s: seq<Entry>)
    requires Sorted(s)
    ensures forall i, j :: 0 <= i < |s| && 0 <= j < |s| && i != j ==> s[i] != s[j]
  {
    forall i, j | 0 <= i < |s| && 0 <= j < |s| && i != j
      ensures s[i] != s[j]
    {
      if i < j { BelowIrreflexive(s[i]); } else { BelowIrreflexive(s[j]); }
    }
  }

  /**
   * The reference definition of a sorted insert: walk past the smaller entries,
   * stop at an equal one (leaving the list as it is) or insert before a greater one.
   */
  function InsertSorted(s: seq<Entry>, e: Entry): seq<Entry> {
    if s == [] then [e]
    else match Cmp(e, s[0])
      case Lt => [e] + s
      case Eq => s
      case Gt => [s[0]] + InsertSorted(s[1..], e)
  }

  /** `Vec::pop` when the list has grown past the span: removes the last element only. */
  function Truncate(s: seq<Entry>, span: nat): seq<Entry> {
    if |s| > span then s[..|s| - 1] else s
  }

  /** What `add_leaderboard_entry` leaves in the list. */
  function AddEntry(s: seq<Entry>, e: Entry, span: nat): seq<Entry> {
    if e in s then s else Truncate(InsertSorted(s, e), span)
  }

  lemma {:induction false} InsertSortedElements(s: seq<Entry>, e: Entry)
    requires Sorted(s)
    ensures e !in s ==> multiset(InsertSorted(s, e)) == multiset(s) + multiset{e}
    ensures e in s ==> InsertSorted(s, e) == s
  {
    if s != [] {
      CmpEqIffSame(e, s[0]);
      match Cmp(e, s[0])
      case Lt =>
        if e in s {
          var k :| 0 <= k < |s| && s[k] == e;
          if k == 0 { BelowIrreflexive(e); }
          else { CmpAntisymmetric(e, s[0]); BelowTransitive(e, s[0], s[k]); BelowIrreflexive(e); }
        }
      case Eq =>
      case Gt =>
        assert Sorted(s[1..]);
        InsertSortedElements(s[1..], e);
        assert s == [s[0]] + s[1..];
        assert e in s <==> e in s[1..];
    }
  }

  lemma {:induction false} InsertSortedIsSorted(s: seq<Entry>, e: Entry)
    requires Sorted(s)
    ensures Sorted(InsertSorted(s, e))
  {
    if s != [] {
      match Cmp(e, s[0])
      case Lt =>
        var r := [e] + s;
        forall i, j | 0 <= i < j < |r| ensures Below(r[i], r[j]) {
          if i == 0 && j > 1 { BelowTransitive(e, s[0], s[j - 1]); }
        }
      case Eq =>
      case Gt =>
        var t := s[1..];
        assert Sorted(t);
        InsertSortedIsSorted(t, e);
        InsertSortedElements(t, e);
        var u := InsertSorted(t, e);
        CmpAntisymmetric(e, s[0]);
        forall x | x in multiset(u) ensures Below(s[0], x) {
          if x != e {
            assert x in multiset(t);
            var k :| 0 <= k < |t| && t[k] == x;
            assert s[k + 1] == x;
          }
        }
        var r := [s[0]] + u;
        forall i, j | 0 <= i < j < |r| ensures Below(r[i], r[j]) {
          if i == 0 { assert r[j] in multiset(u); }
          else { assert r[i] == u[i - 1] && r[j] == u[j - 1]; }
        }
    }
  }

  /**
   * Inserting at the index the binary search reports (all before it smaller, all
   * from it greater) is the reference sorted insert.
   */
  lemma {:induction false} InsertAtSearchIndex(s: seq<Entry>, e: Entry, k: nat)
    requires k <= |s|
    requires forall i :: 0 <= i < k ==> Below(s[i], e)
    requires forall i :: k <= i < |s| ==> Below(e, s[i])
    ensures InsertSorted(s, e) == s[..k] + [e] + s[k..]
  {
    if s != [] {
      if k == 0 {
        assert Cmp(e, s[0]) == Lt;
      } else {
        CmpAntisymmetric(s[0], e);
        assert Cmp(e, s[0]) == Gt;
        InsertAtSearchIndex(s[1..], e, k - 1);
        assert s[..k] == [s[0]] + s[1..][..k - 1];
        assert s[k..] == s[1..][k - 1..];
      }
    }
  }

  lemma SearchIndexExcludes(s: seq<Entry>, e: Entry, k: nat)
    requires k <= |s|
    requires forall i :: 0 <= i < k ==> Below(s[i], e)
    requires forall i :: k <= i < |s| ==> Below(e, s[i])
    ensures e !in s
  {
    if e in s {
      var i :| 0 <= i < |s| && s[i] == e;
      BelowIrreflexive(e);
    }
  }

  /** Popping past the span keeps the order and drops only the last, greatest element. */
  lemma TruncateProperties(t: seq<Entry>, span: nat)
    requires Sorted(t)
    ensures Sorted(Truncate(t, span))
    ensures |t| <= span ==> Truncate(t, span) == t
    ensures |t| > span ==>
      && Truncate(t, span) + [t[|t| - 1]] == t
      && forall x :: x in Truncate(t, span) ==> Below(x, t[|t| - 1])
  {
    if |t| > span {
      var r := t[..|t| - 1];
      assert r + [t[|t| - 1]] == t;
      forall x | x in r ensures Below(x, t[|t| - 1]) {
        var i :| 0 <= i < |r| && r[i] == x;
      }
    }
  }

  /**
   * What one add does to a sorted list: it stays sorted; a present entry leaves
   * it unchanged; otherwise the entry is in it and at most the last (greatest)
   * element of the enlarged list is dropped, and only when that list exceeds the span.
   */
  lemma AddEntryProperties(s: seq<Entry>, e: Entry, span: nat)
    requires Sorted(s)
    ensures Sorted(AddEntry(s, e, span))
    ensures |s| <= span ==> |AddEntry(s, e, span)| <= span
    ensures e in s ==> AddEntry(s, e, span) == s
    ensures e !in s ==>
      var t := InsertSorted(s, e);
      && multiset(t) == multiset(s) + multiset{e}
      && (|t| <= span ==> AddEntry(s, e, span) == t)
      && (|t| > span ==> AddEntry(s, e, span) + [t[|t| - 1]] == t
                         && forall x :: x in AddEntry(s, e, span) ==> Below(x, t[|t| - 1]))
  {
    InsertSortedElements(s, e);
    if e !in s {
      var t := InsertSorted(s, e);
      InsertSortedIsSorted(s, e);
      assert |t| == |s| + 1 by { assert |multiset(t)| == |multiset(s)| + 1; }
      TruncateProperties(t, span);
    }
  }

  /** `Vec::binary_search` on a strictly sorted list. */
  method BinarySearch(s: seq<Entry>, e: Entry) returns (r: Result<nat, nat>)
    requires Sorted(s)
    ensures r.Ok? ==> r.value < |s| && s[r.value] == e
    ensures r.Err? ==>
      && r.error <= |s|
      && (forall i :: 0 <= i < r.error ==> Below(s[i], e))
      && (forall i :: r.error <= i < |s| ==> Below(e, s[i]))
  {
    var lo, hi := 0, |s|;
    while lo < hi
      invariant 0 <= lo <= hi <= |s|
      invariant forall i :: 0 <= i < lo ==> Below(s[i], e)
      invariant forall i :: hi <= i < |s| ==> Below(e, s[i])
    {
      var mid := lo + (hi - lo) / 2;
      var c := Cmp(s[mid], e);
      CmpEqIffSame(s[mid], e);
      CmpAntisymmetric(s[mid], e);
      if c == Eq {
        return Ok(mid);
      } else if c == Lt {
        forall i | 0 <= i <= mid ensures Below(s[i], e) {
          if i < mid { BelowTransitive(s[i], s[mid], e); }
        }
        lo := mid + 1;
      } else {
        forall i | mid <= i < |s| ensures Below(e, s[i]) {
          if i > mid { BelowTransitive(e, s[mid], s[i]); }
        }
        hi := mid;
      }
    }
    return Err(lo);
  }

  /** One leaderboard list behind its `RwLock`. */
  class Board {
    var entries: seq<Entry>

    constructor ()
      ensures entries == []
    {
      entries := [];
    }
  }

  datatype AddLeaderboardEntryError = NotAUser | InternalError

  /** Result of `get_email_from_username`. */
  datatype EmailLookup = Email(address: string) | NoSuchUser | LookupFailed

  /** The profile update sent to the database: `{difficulty}_highscore := score` for `email`. */
  datatype HighscoreWrite = HighscoreWrite(email: string, attribute: string, score: u16)

  /** The `NetworkMessage::HighscoreUpdate` broadcast to sibling nodes. */
  datatype HighscoreUpdate = HighscoreUpdate(username: string, difficulty: string, score: u16)

  /** What one call sends out: the list snapshot, the database write, the sibling broadcast. */
  datatype Effects = Effects(
    snapshot: Option<seq<Entry>>,
    dbWrite: Option<HighscoreWrite>,
    broadcast: Option<HighscoreUpdate>)

  const NoEffects := Effects(None, None, None)

  predicate IsDifficulty(d: string) {
    d == "easy" || d == "normal" || d == "expert"
  }

  /**
   * What `add_leaderboard_entry` reports for one call that turned board `before`
   * into `after`: a duplicate is `Ok` with nothing sent; otherwise the snapshot is
   * the new board, a missing user or a failed lookup stops before the database,
   * and a failed update stops before the broadcast.
   */
  predicate Reported(before: seq<Entry>, after: seq<Entry>, entry: Entry, difficulty: string,
                     email: EmailLookup, updateOk: bool, r: Result<Unit, AddLeaderboardEntryError>, fx: Effects)
  {
    && (entry in before ==> r == Ok(Unit) && fx == NoEffects)
    && (entry !in before ==>
        && fx.snapshot == Some(after)
        && (email.NoSuchUser? ==> r == Err(NotAUser) && fx.dbWrite.None? && fx.broadcast.None?)
        && (email.LookupFailed? ==> r == Err(InternalError) && fx.dbWrite.None? && fx.broadcast.None?)
        && (email.Email? ==>
              && fx.dbWrite == Some(HighscoreWrite(email.address, difficulty + "_highscore", entry.score))
              && (updateOk ==>
                    r == Ok(Unit) && fx.broadcast == Some(HighscoreUpdate(entry.username, difficulty, entry.score)))
              && (!updateOk ==> r == Err(InternalError) && fx.broadcast.None?)))
  }

  class Leaderboard {
    const easy: Board
    const normal: Board
    const expert: Board
    const span: nat

    ghost predicate Valid()
      reads this, easy, normal, expert
    {
      && easy != normal && normal != expert && easy != expert
      && Sorted(easy.entries) && |easy.entries| <= span
      && Sorted(normal.entries) && |normal.entries| <= span
      && Sorted(expert.entries) && |expert.entries| <= span
    }

    constructor (span: nat)
      ensures Valid() && this.span == span
      ensures easy.entries == [] && normal.entries == [] && expert.entries == []
    {
      this.span := span;
      easy := new Board();
      normal := new Board();
      expert := new Board();
    }

    /**
     * `add_leaderboard_entry`. The user's email lookup and the database update
     * are the outcomes `email` and `updateOk` of the two database calls.
     */
    method AddLeaderboardEntry(board: Board, entry: Entry, difficulty: string, email: EmailLookup, updateOk: bool)
      returns (r: Result<Unit, AddLeaderboardEntryError>, fx: Effects)
      requires IsDifficulty(difficulty)
      requires Sorted(board.entries)
      modifies board
      ensures board.entries == AddEntry(old(board.entries), entry, span)
      ensures Reported(old(board.entries), board.entries, entry, difficulty, email, updateOk, r, fx)
    {
      var found := BinarySearch(board.entries, entry);
      if found.Ok? {
        return Ok(Unit), NoEffects;
      }
      var idx := found.error;
      ghost var s := board.entries;
      SearchIndexExcludes(s, entry, idx);
      InsertAtSearchIndex(s, entry, idx);

      board.entries := board.entries[..idx] + [entry] + board.entries[idx..];
      if |board.entries| > span {
        board.entries := board.entries[..|board.entries| - 1];
      }

      fx := Effects(Some(board.entries), None, None);

      if email.NoSuchUser? {
        return Err(NotAUser), fx;
      } else if email.LookupFailed? {
        return Err(InternalError), fx;
      }

      fx := fx.(dbWrite := Some(HighscoreWrite(email.address, difficulty + "_highscore", entry.score)));
      if !updateOk {
        return Err(InternalError), fx;
      }

      fx := fx.(broadcast := Some(HighscoreUpdate(entry.username, difficulty, entry.score)));
      r := Ok(Unit);
    }

    method AddEasyEntry(entry: Entry, email: EmailLookup, updateOk: bool)
      returns (r: Result<Unit, AddLeaderboardEntryError>, fx: Effects)
      requires Valid()
      modifies easy
      ensures Valid()
      ensures easy.entries == AddEntry(old(easy.entries), entry, span)
      ensures Reported(old(easy.entries), easy.entries, entry, "easy", email, updateOk, r, fx)
    {
      AddEntryProperties(easy.entries, entry, span);
      r, fx := AddLeaderboardEntry(easy, entry, "easy", email, updateOk);
    }

    method AddNormalEntry(entry: Entry, email: EmailLookup, updateOk: bool)
      returns (r: Result<Unit, AddLeaderboardEntryError>, fx: Effects)
      requires Valid()
      modifies normal
      ensures Valid()
      ensures normal.entries == AddEntry(old(normal.entries), entry, span)
      ensures Reported(old(normal.entries), normal.entries, entry, "normal", email, updateOk, r, fx)
    {
      AddEntryProperties(normal.entries, entry, span);
      r, fx := AddLeaderboardEntry(normal, entry, "normal", email, updateOk);
    }

    method AddExpertEntry(entry: Entry, email: EmailLookup, updateOk: bool)
      returns (r: Result<Unit, AddLeaderboardEntryError>, fx: Effects)
      requires Valid()
      modifies expert
      ensures Valid()
      ensures expert.entries == AddEntry(old(expert.entries), entry, span)
      ensures Reported(old(expert.entries), expert.entries, entry, "expert", email, updateOk, r, fx)
    {
      AddEntryProperties(expert.entries, entry, span);
      r, fx := AddLeaderboardEntry(expert, entry, "expert", email, updateOk);
    }
  }
}
