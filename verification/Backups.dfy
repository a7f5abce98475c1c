/** Which of the channels backups that were found should be restored: the scans are sorted, then compared one by one
    with the best so far. */
module Backups {
  import opened Wrappers
  import opened Sequences

  datatype BackupType = LOCAL | GDRIVE

  /** Channel ids are 32-byte strings, read here as numbers. */
  type ChannelId = nat

  /** A readable backup: where it was found, what it holds, its date, its decrypted file, and whether this device wrote
      it. */
  datatype Backup = Backup(
    origin: BackupType, localCommitIndexMap: map<ChannelId, int>, lastModified: int, file: string, isFromDevice: bool)

  datatype Scan = NoBackup | ScanOk(backup: Backup) | ScanFailure(message: string)

  datatype Entry = Entry(origin: BackupType, scan: Scan)

  datatype UnreadableBackup = UnreadableBackup(origin: BackupType, message: string)

  // ---- sorting

  function Compare(b1: Entry, b2: Entry): int {
    if b1.scan.ScanOk? then
      if b2.scan.ScanOk? then CompareDates(b2.scan.backup.lastModified, b1.scan.backup.lastModified) else -1
    else 1
  }

  function CompareDates(d1: int, d2: int): int { if d1 < d2 then -1 else if d1 == d2 then 0 else 1 }

  /** The comparator contradicts itself on any two entries that are not readable. */
  lemma CompareIsNotAntisymmetric(b1: Entry, b2: Entry)
    ensures (Compare(b1, b2) < 0 <==> Compare(b2, b1) > 0) <==> b1.scan.ScanOk? || b2.scan.ScanOk?
  {
  }

  function Insert(s: seq<Entry>, x: Entry): seq<Entry> {
    if s != [] && Compare(x, s[|s| - 1]) < 0 then Insert(s[..|s| - 1], x) + [s[|s| - 1]] else s + [x]
  }

  function Sorted(s: seq<Entry>): seq<Entry> {
    if s == [] then [] else Insert(Sorted(s[..|s| - 1]), s[|s| - 1])
  }

  /** Readable backups come first, the most recent ahead. */
  ghost predicate Ordered(s: seq<Entry>) {
    forall i, j :: 0 <= i < j < |s| && s[j].scan.ScanOk? ==>
      s[i].scan.ScanOk? && s[i].scan.backup.lastModified >= s[j].scan.backup.lastModified
  }

  lemma MultisetOfLast(s: seq<Entry>)
    requires s != []
    ensures multiset(s) == multiset(s[..|s| - 1]) + multiset{s[|s| - 1]}
  {
    assert s == s[..|s| - 1] + [s[|s| - 1]];
  }

  lemma {:induction false} InsertKeepsMultiset(s: seq<Entry>, x: Entry)
    ensures multiset(Insert(s, x)) == multiset(s) + multiset{x}
  {
    if s != [] && Compare(x, s[|s| - 1]) < 0 {
      InsertKeepsMultiset(s[..|s| - 1], x);
      MultisetOfLast(s);
    }
  }

  lemma {:induction false} SortedIsPermutation(s: seq<Entry>)
    ensures multiset(Sorted(s)) == multiset(s)
  {
    if s != [] {
      SortedIsPermutation(s[..|s| - 1]);
      InsertKeepsMultiset(Sorted(s[..|s| - 1]), s[|s| - 1]);
      MultisetOfLast(s);
    }
  }

  lemma SameElements(s: seq<Entry>, t: seq<Entry>, x: Entry)
    requires multiset(s) == multiset(t)
    ensures x in s <==> x in t
  {
    assert x in s <==> x in multiset(s);
    assert x in t <==> x in multiset(t);
  }

  lemma {:induction false} InsertedOrBefore(s: seq<Entry>, x: Entry, i: nat)
    requires i < |Insert(s, x)|
    ensures Insert(s, x)[i] == x || Insert(s, x)[i] in s
  {
    if s != [] && Compare(x, s[|s| - 1]) < 0 && i < |Insert(s[..|s| - 1], x)| {
      InsertedOrBefore(s[..|s| - 1], x, i);
    }
  }

  lemma {:induction false} InsertKeepsOrdered(s: seq<Entry>, x: Entry)
    requires Ordered(s)
    ensures Ordered(Insert(s, x))
  {
    if s != [] && Compare(x, s[|s| - 1]) < 0 {
      var front, last := s[..|s| - 1], s[|s| - 1];
      InsertKeepsOrdered(front, x);
      var r := Insert(front, x);
      forall i | 0 <= i < |r| && last.scan.ScanOk?
        ensures r[i].scan.ScanOk? && r[i].scan.backup.lastModified >= last.scan.backup.lastModified
      {
        InsertedOrBefore(front, x, i);
      }
    }
  }

  lemma {:induction false} SortedIsOrdered(s: seq<Entry>)
    ensures Ordered(Sorted(s))
  {
    if s != [] {
      SortedIsOrdered(s[..|s| - 1]);
      InsertKeepsOrdered(Sorted(s[..|s| - 1]), s[|s| - 1]);
    }
  }

  /** The entries with a given rank, in their order: a date for the readable ones, none for all others. */
  function Rank(x: Entry): Option<int> { if x.scan.ScanOk? then Some(x.scan.backup.lastModified) else None }

  function OfRank(s: seq<Entry>, rank: Option<int>): seq<Entry> {
    if s == [] then []
    else OfRank(s[..|s| - 1], rank) + IfRank(s[|s| - 1], rank)
  }

  function IfRank(x: Entry, rank: Option<int>): seq<Entry> { if Rank(x) == rank then [x] else [] }

  lemma OfRankAppend(s: seq<Entry>, x: Entry, rank: Option<int>)
    ensures OfRank(s + [x], rank) == OfRank(s, rank) + IfRank(x, rank)
  {
    assert (s + [x])[..|s|] == s;
  }

  /** Past an entry of another rank, an insertion adds to the same place of its own rank. */
  lemma InsertPasses(front: seq<Entry>, inserted: seq<Entry>, x: Entry, last: Entry, rank: Option<int>)
    requires Compare(x, last) < 0 && OfRank(inserted, rank) == OfRank(front, rank) + IfRank(x, rank)
    ensures OfRank(inserted + [last], rank) == OfRank(front + [last], rank) + IfRank(x, rank)
  {
    OfRankAppend(inserted, last, rank);
    OfRankAppend(front, last, rank);
    assert IfRank(x, rank) == [] || IfRank(last, rank) == [];
    hide OfRank, IfRank, Compare;
    var before := OfRank(front, rank);
    if IfRank(x, rank) == [] {
      AddNone(before);
      AddNone(before + IfRank(last, rank));
    } else {
      AddNone(before);
      AddNone(before + IfRank(x, rank));
    }
  }

  lemma {:induction false} InsertIsStable(s: seq<Entry>, x: Entry, rank: Option<int>)
    ensures OfRank(Insert(s, x), rank) == OfRank(s, rank) + IfRank(x, rank)
  {
    hide OfRank, IfRank;
    if s != [] && Compare(x, s[|s| - 1]) < 0 {
      var front, last := s[..|s| - 1], s[|s| - 1];
      InsertIsStable(front, x, rank);
      InsertPasses(front, Insert(front, x), x, last, rank);
      assert front + [last] == s;
    } else {
      OfRankAppend(s, x, rank);
    }
  }

  /** Entries of equal rank keep their order. */
  lemma {:induction false} SortedIsStable(s: seq<Entry>, rank: Option<int>)
    ensures OfRank(Sorted(s), rank) == OfRank(s, rank)
  {
    if s != [] {
      SortedIsStable(s[..|s| - 1], rank);
      InsertIsStable(Sorted(s[..|s| - 1]), s[|s| - 1], rank);
    }
  }

  lemma {:induction false} OfRankHolds(s: seq<Entry>, rank: Option<int>)
    ensures OfRank(s, rank) != [] <==> exists i :: 0 <= i < |s| && Rank(s[i]) == rank
    ensures |OfRank(s, rank)| <= |s|
  {
    if s != [] {
      var front := s[..|s| - 1];
      OfRankHolds(front, rank);
      if i :| 0 <= i < |s| && Rank(s[i]) == rank {
        assert i < |front| ==> Rank(front[i]) == rank;
      }
      if i :| 0 <= i < |front| && Rank(front[i]) == rank {
        assert Rank(s[i]) == rank;
      }
    }
  }

  ghost predicate SameRanks(s: seq<Entry>, t: seq<Entry>) { forall rank :: OfRank(s, rank) == OfRank(t, rank) }

  lemma LastOfRank(s: seq<Entry>)
    requires s != []
    ensures var x := s[|s| - 1]; OfRank(s, Rank(x)) == OfRank(s[..|s| - 1], Rank(x)) + [x]
  {
  }

  lemma HasRank(s: seq<Entry>, t: seq<Entry>, i: nat)
    requires SameRanks(s, t) && i < |s|
    ensures exists j :: 0 <= j < |t| && Rank(t[j]) == Rank(s[i])
  {
    hide OfRank;
    OfRankHolds(s, Rank(s[i]));
    OfRankHolds(t, Rank(s[i]));
  }

  /** No entry of an ordered list ranks below the last. */
  lemma LastIsLowest(s: seq<Entry>, i: nat)
    requires Ordered(s) && i < |s|
    ensures var last := Rank(s[|s| - 1]);
            last.Some? ==> Rank(s[i]).Some? && Rank(s[i]).value >= last.value
  {
  }

  /** Ordered lists that agree on the entries of every rank end alike. */
  lemma SameLast(s: seq<Entry>, t: seq<Entry>)
    requires Ordered(s) && Ordered(t) && s != [] && SameRanks(s, t)
    ensures t != [] && s[|s| - 1] == t[|t| - 1]
  {
    HasRank(s, t, |s| - 1);
    HasRank(t, s, |t| - 1);
    hide OfRank, Ordered;
    var j :| 0 <= j < |t| && Rank(t[j]) == Rank(s[|s| - 1]);
    var i :| 0 <= i < |s| && Rank(s[i]) == Rank(t[|t| - 1]);
    LastIsLowest(s, i);
    LastIsLowest(t, j);
    LastOfRank(s);
    LastOfRank(t);
    var rank := Rank(s[|s| - 1]);
    assert Rank(t[|t| - 1]) == rank && OfRank(s, rank) == OfRank(t, rank);
    SameEnd(OfRank(s[..|s| - 1], rank), [s[|s| - 1]], OfRank(t[..|t| - 1], rank), [t[|t| - 1]]);
  }

  lemma SameEnd(a: seq<Entry>, b: seq<Entry>, c: seq<Entry>, d: seq<Entry>)
    requires a + b == c + d && |b| == |d|
    ensures a == c && b == d
  {
    assert a == (a + b)[..|a|] && c == (c + d)[..|a|];
    assert b == (a + b)[|a|..] && d == (c + d)[|a|..];
  }

  lemma SameFront(s: seq<Entry>, t: seq<Entry>)
    requires SameRanks(s, t) && s != [] && t != [] && s[|s| - 1] == t[|t| - 1]
    ensures SameRanks(s[..|s| - 1], t[..|t| - 1])
  {
    var front, front' := s[..|s| - 1], t[..|t| - 1];
    forall rank: Option<int> ensures OfRank(front, rank) == OfRank(front', rank) {
      var last := if Rank(s[|s| - 1]) == rank then [s[|s| - 1]] else [];
      assert OfRank(s, rank) == OfRank(front, rank) + last;
      assert OfRank(t, rank) == OfRank(front', rank) + last;
      SameEnd(OfRank(front, rank), last, OfRank(front', rank), last);
    }
  }

  lemma {:induction false} SameRanksSameList(s: seq<Entry>, t: seq<Entry>)
    requires Ordered(s) && Ordered(t) && SameRanks(s, t)
    ensures s == t
  {
    if s == [] {
      if t != [] {
        HasRank(t, s, 0);
      }
    } else {
      hide OfRank, SameRanks;
      SameLast(s, t);
      SameFront(s, t);
      SameRanksSameList(s[..|s| - 1], t[..|t| - 1]);
      assert s == s[..|s| - 1] + [s[|s| - 1]] && t == t[..|t| - 1] + [t[|t| - 1]];
    }
  }

  /** Any stable sort gives this list: there is no other with readable entries first, by descending date, in which
      entries of equal rank keep their order. */
  lemma SortedIsOnlyOne(s: seq<Entry>, t: seq<Entry>)
    ensures t == Sorted(s) <==> Ordered(t) && SameRanks(t, s)
  {
    SortedIsOrdered(s);
    forall rank: Option<int> ensures OfRank(Sorted(s), rank) == OfRank(s, rank) {
      SortedIsStable(s, rank);
    }
    if Ordered(t) && SameRanks(t, s) {
      SameRanksSameList(t, Sorted(s));
    }
  }

  /** Insertion in place. */
  method SortBackupDateDesc(a: array<Entry>)
    modifies a
    ensures a[..] == Sorted(old(a[..]))
  {
    ghost var was := a[..];
    var i := 0;
    while i < a.Length
      invariant 0 <= i <= a.Length
      invariant a[..i] == Sorted(was[..i])
      invariant forall k :: i <= k < a.Length ==> a[k] == was[k]
    {
      assert was[..i + 1][..i] == was[..i] && a[i] == was[i];
      InsertLast(a, i);
      i := i + 1;
    }
    assert was[..i] == was && a[..i] == a[..];
  }

  /** Where an insertion ends up. */
  lemma {:induction false} InsertAt(s: seq<Entry>, x: Entry, j: nat)
    requires j <= |s|
    requires forall k :: j <= k < |s| ==> Compare(x, s[k]) < 0
    requires j > 0 ==> Compare(x, s[j - 1]) >= 0
    ensures Insert(s, x) == s[..j] + [x] + s[j..]
  {
    if j < |s| {
      InsertAt(s[..|s| - 1], x, j);
    }
  }

  /** The same, place by place. */
  lemma InsertedAt(s: seq<Entry>, x: Entry, j: nat, r: seq<Entry>)
    requires j <= |s| && |r| == |s| + 1
    requires forall k :: j <= k < |s| ==> Compare(x, s[k]) < 0
    requires j > 0 ==> Compare(x, s[j - 1]) >= 0
    requires r[j] == x
    requires forall k :: 0 <= k < j ==> r[k] == s[k]
    requires forall k :: j < k < |r| ==> r[k] == s[k - 1]
    ensures r == Insert(s, x)
  {
    InsertAt(s, x, j);
    hide Insert, Compare;
    assert r == s[..j] + [x] + s[j..];
  }

  method InsertLast(a: array<Entry>, i: nat)
    requires i < a.Length
    modifies a
    ensures a[..i + 1] == Insert(old(a[..i]), old(a[i]))
    ensures forall k :: i < k < a.Length ==> a[k] == old(a[k])
  {
    hide Insert, Compare;
    ghost var front := a[..i];
    var pivot := a[i];
    var j := i;
    while j > 0 && Compare(pivot, a[j - 1]) < 0
      invariant 0 <= j <= i
      invariant forall k :: 0 <= k < j ==> a[k] == front[k]
      invariant forall k :: j < k <= i ==> a[k] == front[k - 1]
      invariant forall k :: j <= k < i ==> Compare(pivot, front[k]) < 0
      invariant forall k :: i < k < a.Length ==> a[k] == old(a[k])
    {
      a[j] := a[j - 1];
      j := j - 1;
    }
    a[j] := pivot;
    InsertedAt(front, pivot, j, a[..i + 1]);
  }
}
