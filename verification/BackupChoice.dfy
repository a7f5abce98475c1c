/** The best channels backup: each readable scan challenges the best one so far. */
module BackupChoice {
  import opened Wrappers
  import opened Backups

  /** Java's `short`. */
  function ToShort(x: int): (r: int)
    ensures -0x8000 <= r < 0x8000
    ensures -0x8000 <= x < 0x8000 ==> r == x
    ensures r > 0 <==> 0 < x % 0x1_0000 < 0x8000
  {
    var low := x % 0x1_0000;
    if low < 0x8000 then low else low - 0x1_0000
  }

  lemma ShortSteps(x: int, d: int)
    ensures ToShort(ToShort(x) + d) == ToShort(x + d)
  {
  }

  type Indices = map<ChannelId, int>

  /** The shared channels on which the right backup is ahead of the left one. */
  function Ahead(left: Indices, right: Indices): set<ChannelId> {
    set k | k in left && k in right && left[k] < right[k]
  }

  function Score(best: Indices, challenger: Indices): int {
    ToShort(|Ahead(best, challenger)| - |Ahead(challenger, best)|)
  }

  predicate Covers(challenger: Indices, best: Indices) { best.Keys <= challenger.Keys }

  predicate Wins(best: Backup, challenger: Backup) {
    Covers(challenger.localCommitIndexMap, best.localCommitIndexMap)
    && Score(best.localCommitIndexMap, challenger.localCommitIndexMap) > 0
  }

  /** The search from some best so far, over scans in order. */
  function Search(scans: seq<Entry>, best: Option<Backup>): Result<Option<Backup>, UnreadableBackup> {
    if scans == [] then Ok(best)
    else
      match scans[0].scan
      case NoBackup => Search(scans[1..], best)
      case ScanFailure(message) => Err(UnreadableBackup(scans[0].origin, message))
      case ScanOk(backup) => Search(scans[1..], Some(Best(best, backup)))
  }

  function Best(best: Option<Backup>, challenger: Backup): Backup {
    if best.None? || Wins(best.value, challenger) then challenger else best.value
  }

  // ---- the code

  lemma CountOneMore(all: set<ChannelId>, left: set<ChannelId>, k: ChannelId)
    requires k in left
    ensures |all - (left - {k})| == |all - left| + if k in all then 1 else 0
  {
    if k in all {
      assert all - (left - {k}) == (all - left) + {k};
    } else {
      assert all - (left - {k}) == all - left;
    }
  }

  ghost predicate Scored(score: int, left: set<ChannelId>, best: Indices, challenger: Indices) {
    && left <= Ahead(best, challenger) + Ahead(challenger, best)
    && score == ToShort(|Ahead(best, challenger) - left| - |Ahead(challenger, best) - left|)
  }

  lemma ScoredOneMore(score: int, left: set<ChannelId>, best: Indices, challenger: Indices, k: ChannelId)
    requires Scored(score, left, best, challenger) && k in left
    ensures Scored(ToShort(if best[k] >= challenger[k] then score - 1 else score + 1), left - {k}, best, challenger)
  {
    var up, down := Ahead(best, challenger), Ahead(challenger, best);
    CountOneMore(up, left, k);
    CountOneMore(down, left, k);
    ShortSteps(|up - left| - |down - left|, if best[k] >= challenger[k] then -1 else 1);
  }

  lemma ScoredNone(best: Indices, challenger: Indices)
    ensures Scored(0, Differing(best, challenger), best, challenger)
  {
    var all := Differing(best, challenger);
    assert Ahead(best, challenger) - all == {} && Ahead(challenger, best) - all == {};
  }

  lemma ScoredAll(score: int, best: Indices, challenger: Indices)
    requires Scored(score, {}, best, challenger)
    ensures score == Score(best, challenger)
  {
    assert Ahead(best, challenger) - {} == Ahead(best, challenger)
        && Ahead(challenger, best) - {} == Ahead(challenger, best);
  }

  function Differing(left: Indices, right: Indices): set<ChannelId> {
    set k | k in left && k in right && left[k] != right[k]
  }

  method ScoreOf(best: Indices, challenger: Indices) returns (score: int)
    ensures score == Score(best, challenger)
  {
    var left := Differing(best, challenger);
    ScoredNone(best, challenger);
    score := 0;
    while left != {}
      invariant Scored(score, left, best, challenger)
      decreases |left|
    {
      var k :| k in left;
      ScoredOneMore(score, left, best, challenger, k);
      score := ToShort(if best[k] >= challenger[k] then score - 1 else score + 1);
      left := left - {k};
    }
    ScoredAll(score, best, challenger);
  }

  lemma CoversBySize(best: Indices, challenger: Indices)
    ensures |best.Keys * challenger.Keys| < |best| <==> !Covers(challenger, best)
  {
    var both := best.Keys * challenger.Keys;
    assert |best.Keys| == |both| + |best.Keys - both|;
    if both != best.Keys {
      assert best.Keys - both != {};
    }
  }

  method Challenge(best: Option<Backup>, challenger: Backup) returns (r: Backup)
    ensures r == Best(best, challenger)
  {
    if best.None? {
      return challenger;
    }
    var b, c := best.value.localCommitIndexMap, challenger.localCommitIndexMap;
    CoversBySize(b, c);
    if |b.Keys * c.Keys| < |b| {
      return best.value;
    }
    var score := ScoreOf(b, c);
    return if score > 0 then challenger else best.value;
  }

  method FindBestBackup(backupsSet: seq<Entry>) returns (r: Result<Option<Backup>, UnreadableBackup>)
    ensures r == Search(Sorted(backupsSet), None)
  {
    var sorted := SortedCopy(backupsSet);
    ghost var scans := sorted[..];
    var best: Option<Backup> := None;
    var i := 0;
    while i < sorted.Length
      invariant 0 <= i <= sorted.Length
      invariant sorted[..] == scans && Search(scans[i..], best) == Search(scans, None)
    {
      assert scans[i..][0] == sorted[i] && scans[i..][1..] == scans[i + 1..];
      match sorted[i].scan {
        case NoBackup =>
        case ScanFailure(message) => return Err(UnreadableBackup(sorted[i].origin, message));
        case ScanOk(challenger) =>
          var winner := Challenge(best, challenger);
          best := Some(winner);
      }
      i := i + 1;
    }
    return Ok(best);
  }

  method SortedCopy(backupsSet: seq<Entry>) returns (a: array<Entry>)
    ensures fresh(a) && a[..] == Sorted(backupsSet)
  {
    a := new Entry[|backupsSet|](i requires 0 <= i < |backupsSet| => backupsSet[i]);
    assert a[..] == backupsSet;
    SortBackupDateDesc(a);
  }

  // ---- when it throws, and when it finds nothing

  ghost predicate HasFailure(scans: seq<Entry>) { exists i :: 0 <= i < |scans| && scans[i].scan.ScanFailure? }

  ghost predicate HasReadable(scans: seq<Entry>) { exists i :: 0 <= i < |scans| && scans[i].scan.ScanOk? }

  /** Backups in the list, or the best before it. */
  ghost predicate IsCandidate(scans: seq<Entry>, best: Option<Backup>, b: Backup) {
    best == Some(b) || exists i :: 0 <= i < |scans| && scans[i].scan == ScanOk(b)
  }

  lemma {:induction false} SearchOutcome(scans: seq<Entry>, best: Option<Backup>)
    ensures Search(scans, best).Err? <==> HasFailure(scans)
    ensures Search(scans, best).Ok? ==>
              (Search(scans, best).value.None? <==> best.None? && !HasReadable(scans))
    ensures Search(scans, best).Ok? && Search(scans, best).value.Some? ==>
              IsCandidate(scans, best, Search(scans, best).value.value)
  {
    if scans != [] {
      var rest := scans[1..];
      assert scans == [scans[0]] + rest;
      match scans[0].scan
      case NoBackup => SearchOutcome(rest, best);
      case ScanFailure(_) =>
      case ScanOk(backup) => SearchOutcome(rest, Some(Best(best, backup)));
    }
  }

  /** The exception names the first failed scan in sorted order. */
  lemma {:induction false} ThrowsFirstFailure(scans: seq<Entry>, best: Option<Backup>, i: nat)
    requires i < |scans| && scans[i].scan.ScanFailure?
    requires forall j :: 0 <= j < i ==> !scans[j].scan.ScanFailure?
    ensures Search(scans, best) == Err(UnreadableBackup(scans[i].origin, scans[i].scan.message))
  {
    if i > 0 {
      var best' := if scans[0].scan.ScanOk? then Some(Best(best, scans[0].scan.backup)) else best;
      ThrowsFirstFailure(scans[1..], best', i - 1);
    }
  }

  lemma SortedKeepsFailures(s: seq<Entry>, t: seq<Entry>)
    requires multiset(s) == multiset(t)
    ensures HasFailure(s) ==> HasFailure(t)
    ensures HasReadable(s) ==> HasReadable(t)
  {
    if HasFailure(s) {
      var i :| 0 <= i < |s| && s[i].scan.ScanFailure?;
      SameElements(s, t, s[i]);
    }
    if HasReadable(s) {
      var i :| 0 <= i < |s| && s[i].scan.ScanOk?;
      SameElements(s, t, s[i]);
    }
  }

  /** It throws exactly when a scan failed, finds nothing exactly when no scan failed and none is readable, and
      otherwise returns one of the readable backups. */
  lemma FindsOrThrows(backupsSet: seq<Entry>)
    ensures var r := Search(Sorted(backupsSet), None);
            && (r.Err? <==> HasFailure(backupsSet))
            && (r == Ok(None) <==> !HasFailure(backupsSet) && !HasReadable(backupsSet))
            && (r.Ok? && r.value.Some? ==> IsCandidate(backupsSet, None, r.value.value))
  {
    SortedIsPermutation(backupsSet);
    SearchOutcome(Sorted(backupsSet), None);
    SortedKeepsFailures(backupsSet, Sorted(backupsSet));
    SortedKeepsFailures(Sorted(backupsSet), backupsSet);
    var r := Search(Sorted(backupsSet), None);
    if r.Ok? && r.value.Some? {
      var i :| 0 <= i < |Sorted(backupsSet)| && Sorted(backupsSet)[i].scan == ScanOk(r.value.value);
      SameElements(Sorted(backupsSet), backupsSet, Sorted(backupsSet)[i]);
    }
  }

  // ---- the channels of the most recent backup are never lost

  lemma {:induction false} ChannelsOnlyGrow(scans: seq<Entry>, best: Backup)
    ensures var r := Search(scans, Some(best));
            r.Ok? ==> r.value.Some? && Covers(r.value.value.localCommitIndexMap, best.localCommitIndexMap)
  {
    if scans != [] {
      match scans[0].scan
      case NoBackup => ChannelsOnlyGrow(scans[1..], best);
      case ScanFailure(_) =>
      case ScanOk(backup) => ChannelsOnlyGrow(scans[1..], Best(Some(best), backup));
    }
  }

  lemma {:induction false} FirstReadableIsCovered(scans: seq<Entry>, i: nat)
    requires i < |scans| && scans[i].scan.ScanOk? && forall j :: 0 <= j < i ==> !scans[j].scan.ScanOk?
    ensures var r := Search(scans, None);
            r.Ok? ==>
              r.value.Some? && Covers(r.value.value.localCommitIndexMap, scans[i].scan.backup.localCommitIndexMap)
  {
    if i == 0 {
      ChannelsOnlyGrow(scans[1..], scans[0].scan.backup);
    } else {
      FirstReadableIsCovered(scans[1..], i - 1);
    }
  }

  /** One of the most recent readable backups: its date is the highest. */
  ghost predicate IsMostRecent(backupsSet: seq<Entry>, b: Backup) {
    && IsCandidate(backupsSet, None, b)
    && forall i :: 0 <= i < |backupsSet| && backupsSet[i].scan.ScanOk? ==>
         backupsSet[i].scan.backup.lastModified <= b.lastModified
  }

  lemma RecentChannelsAreKept(backupsSet: seq<Entry>)
    requires !HasFailure(backupsSet) && HasReadable(backupsSet)
    ensures var r := Search(Sorted(backupsSet), None);
            && r.Ok? && r.value.Some?
            && exists recent ::
                 && IsMostRecent(backupsSet, recent)
                 && Covers(r.value.value.localCommitIndexMap, recent.localCommitIndexMap)
  {
    var s := Sorted(backupsSet);
    FindsOrThrows(backupsSet);
    SortedIsPermutation(backupsSet);
    SortedIsOrdered(backupsSet);
    SortedKeepsFailures(backupsSet, s);
    var i :| 0 <= i < |s| && s[i].scan.ScanOk?;
    assert s[0].scan.ScanOk?;
    FirstReadableIsCovered(s, 0);
    var recent := s[0].scan.backup;
    SameElements(s, backupsSet, s[0]);
    forall j | 0 <= j < |backupsSet| && backupsSet[j].scan.ScanOk?
      ensures backupsSet[j].scan.backup.lastModified <= recent.lastModified
    {
      SameElements(s, backupsSet, backupsSet[j]);
      var k :| 0 <= k < |s| && s[k] == backupsSet[j];
    }
    assert IsMostRecent(backupsSet, recent);
  }

  // ---- a backup that dominates all others

  /** All the other's channels, no commitment behind, and one shared commitment ahead. */
  predicate Dominates(d: Indices, other: Indices) {
    Covers(d, other) && Ahead(d, other) == {} && Ahead(other, d) != {}
  }

  /** The score counts the channels ahead in 16 bits: this is when the count still shows. */
  predicate CountShows(n: int) { ToShort(n) > 0 }

  /** The challenger knows all of d's channels and the count of those on which d is ahead wraps to its favour. */
  predicate Displaces(x: Entry, d: Backup) {
    && x.scan.ScanOk?
    && var other := x.scan.backup.localCommitIndexMap;
       Covers(other, d.localCommitIndexMap) && CountShows(-|Ahead(other, d.localCommitIndexMap)|)
  }

  lemma DominantWins(d: Backup, x: Entry)
    requires x.scan.ScanOk? && Dominates(d.localCommitIndexMap, x.scan.backup.localCommitIndexMap)
    ensures Wins(x.scan.backup, d) <==> CountShows(|Ahead(x.scan.backup.localCommitIndexMap, d.localCommitIndexMap)|)
    ensures Wins(d, x.scan.backup) <==> Displaces(x, d)
    ensures d != x.scan.backup
  {
  }

  lemma {:induction false} LoserStaysOut(scans: seq<Entry>, best: Backup, d: Backup)
    requires best != d && !HasFailure(scans)
    requires forall i :: 0 <= i < |scans| && scans[i].scan.ScanOk? ==> scans[i].scan.backup != d
    ensures Search(scans, Some(best)).Ok? && Search(scans, Some(best)) != Ok(Some(d))
  {
    SearchOutcome(scans, Some(best));
  }

  /** The best backup stays best through dominated challengers exactly when none of them displaces it. */
  lemma {:induction false} StaysBest(scans: seq<Entry>, d: Backup)
    requires !HasFailure(scans) && DominatesAll(d, scans)
    ensures Search(scans, Some(d)) == Ok(Some(d)) <==> forall i :: 0 <= i < |scans| ==> !Displaces(scans[i], d)
  {
    if scans != [] {
      var x, rest := scans[0], scans[1..];
      assert scans == [x] + rest;
      PartsOfScans([x], rest);
      if x.scan.ScanOk? {
        DominantWins(d, x);
      }
      if Displaces(x, d) {
        DominatedAreOthers(rest, d);
        LoserStaysOut(rest, x.scan.backup, d);
      } else {
        StaysBest(rest, d);
      }
    }
  }

  lemma DominatedAreOthers(scans: seq<Entry>, d: Backup)
    requires DominatesAll(d, scans)
    ensures forall i :: 0 <= i < |scans| && scans[i].scan.ScanOk? ==> scans[i].scan.backup != d
  {
    forall i | 0 <= i < |scans| && scans[i].scan.ScanOk? ensures scans[i].scan.backup != d {
      DominantWins(d, scans[i]);
    }
  }

  ghost predicate DominatesAll(d: Backup, scans: seq<Entry>) {
    forall i :: 0 <= i < |scans| && scans[i].scan.ScanOk? ==>
        Dominates(d.localCommitIndexMap, scans[i].scan.backup.localCommitIndexMap)
  }

  lemma PartsOfScans(front: seq<Entry>, back: seq<Entry>)
    ensures !HasFailure(front + back) ==> !HasFailure(front) && !HasFailure(back)
    ensures !HasReadable(front + back) ==> !HasReadable(front) && !HasReadable(back)
    ensures forall d :: DominatesAll(d, front + back) ==> DominatesAll(d, front) && DominatesAll(d, back)
  {
    var all := front + back;
    assert forall i :: 0 <= i < |front| ==> all[i] == front[i];
    assert forall i :: 0 <= i < |back| ==> all[|front| + i] == back[i];
  }

  lemma {:induction false} SearchSplits(front: seq<Entry>, back: seq<Entry>, best: Option<Backup>)
    requires !HasFailure(front)
    ensures Search(front, best).Ok? && Search(front + back, best) == Search(back, Search(front, best).value)
  {
    if front == [] {
      assert front + back == back;
    } else {
      var x, rest := front[0], front[1..];
      assert front == [x] + rest && (front + back)[1..] == rest + back;
      PartsOfScans([x], rest);
      SearchSplits(rest, back, if x.scan.ScanOk? then Some(Best(best, x.scan.backup)) else best);
    }
  }

  /** A dominant backup must beat the best of those before it and must not be displaced by those after. */
  ghost predicate CountsShow(front: seq<Entry>, d: Backup, back: seq<Entry>) {
    && (match Search(front, None)
        case Ok(Some(before)) => CountShows(|Ahead(before.localCommitIndexMap, d.localCommitIndexMap)|)
        case _ => true)
    && forall i :: 0 <= i < |back| ==> !Displaces(back[i], d)
  }

  /** Among scans in order, a backup that dominates all others is returned exactly when the counts show. */
  lemma DominantIsChosenExactly(front: seq<Entry>, x: Entry, back: seq<Entry>)
    requires x.scan.ScanOk? && !HasFailure(front) && !HasFailure(back)
    requires DominatesAll(x.scan.backup, front) && DominatesAll(x.scan.backup, back)
    ensures Search(front + [x] + back, None) == Ok(Some(x.scan.backup)) <==> CountsShow(front, x.scan.backup, back)
  {
    var d := x.scan.backup;
    assert front + [x] + back == front + ([x] + back) && ([x] + back)[1..] == back;
    SearchSplits(front, [x] + back, None);
    StaysBest(back, d);
    DominatedAreOthers(back, d);
    SearchOutcome(front, None);
    var before := Search(front, None).value;
    if before.Some? {
      var i :| 0 <= i < |front| && front[i].scan == ScanOk(before.value);
      DominantWins(d, front[i]);
      if !Wins(before.value, d) {
        LoserStaysOut(back, before.value, d);
      }
    }
  }

  lemma SmallCountsShow(n: int)
    requires 0 < n < 0x8000
    ensures CountShows(n) && !CountShows(-n)
  {
  }

  predicate DominatesBriefly(d: Backup, y: Entry) {
    y.scan.ScanOk? ==>
      && Dominates(d.localCommitIndexMap, y.scan.backup.localCommitIndexMap)
      && |Ahead(y.scan.backup.localCommitIndexMap, d.localCommitIndexMap)| < 0x8000
  }

  lemma CountsShowWhenSmall(front: seq<Entry>, d: Backup, back: seq<Entry>)
    requires !HasFailure(front)
    requires forall y :: y in front || y in back ==> DominatesBriefly(d, y)
    ensures CountsShow(front, d, back) && DominatesAll(d, front) && DominatesAll(d, back)
  {
    SearchOutcome(front, None);
    forall y | (y in front || y in back) && y.scan.ScanOk?
      ensures CountShows(|Ahead(y.scan.backup.localCommitIndexMap, d.localCommitIndexMap)|) && !Displaces(y, d)
    {
      SmallCountsShow(|Ahead(y.scan.backup.localCommitIndexMap, d.localCommitIndexMap)|);
    }
    var before := Search(front, None).value;
    if before.Some? {
      var i :| 0 <= i < |front| && front[i].scan == ScanOk(before.value);
      assert front[i] in front;
    }
    forall i | 0 <= i < |back| ensures !Displaces(back[i], d) {
      assert back[i] in back;
    }
  }

  lemma MultisetOfOthers(s: seq<Entry>, p: nat)
    requires p < |s|
    ensures multiset(s[..p] + s[p + 1..]) == multiset(s) - multiset{s[p]}
  {
    assert s == s[..p] + [s[p]] + s[p + 1..];
  }

  /** Beside one occurrence of an entry, two arrangements hold the same entries. */
  lemma OthersOfBoth(s: seq<Entry>, p: nat, t: seq<Entry>, q: nat)
    requires multiset(s) == multiset(t) && p < |s| && q < |t| && s[p] == t[q]
    ensures forall y :: y in t[..q] || y in t[q + 1..] ==> exists i :: 0 <= i < |s| && i != p && s[i] == y
  {
    var sOthers, tOthers := s[..p] + s[p + 1..], t[..q] + t[q + 1..];
    MultisetOfOthers(s, p);
    MultisetOfOthers(t, q);
    forall y | y in t[..q] || y in t[q + 1..] ensures exists i :: 0 <= i < |s| && i != p && s[i] == y {
      assert y in tOthers;
      SameElements(sOthers, tOthers, y);
      var i :| 0 <= i < |sOthers| && sOthers[i] == y;
      assert s[if i < p then i else i + 1] == y;
    }
  }

  lemma DominantIsFoundAt(front: seq<Entry>, x: Entry, back: seq<Entry>)
    requires x.scan.ScanOk? && !HasFailure(front + ([x] + back))
    requires forall y :: y in front || y in back ==> DominatesBriefly(x.scan.backup, y)
    ensures Search(front + [x] + back, None) == Ok(Some(x.scan.backup))
  {
    hide DominatesBriefly, CountsShow;
    PartsOfScans(front, [x] + back);
    PartsOfScans([x], back);
    CountsShowWhenSmall(front, x.scan.backup, back);
    DominantIsChosenExactly(front, x, back);
  }

  /** With fewer than 32768 channels ahead of each other backup, the dominant one is found whatever the dates, the
      order and the number of backups. */
  lemma DominantIsFound(backupsSet: seq<Entry>, p: nat)
    requires p < |backupsSet| && backupsSet[p].scan.ScanOk? && !HasFailure(backupsSet)
    requires forall i :: 0 <= i < |backupsSet| && i != p ==> DominatesBriefly(backupsSet[p].scan.backup, backupsSet[i])
    ensures Search(Sorted(backupsSet), None) == Ok(Some(backupsSet[p].scan.backup))
  {
    hide HasFailure, DominatesBriefly, Search, Sorted;
    var x, s := backupsSet[p], Sorted(backupsSet);
    SortedIsPermutation(backupsSet);
    SameElements(backupsSet, s, x);
    var q :| 0 <= q < |s| && s[q] == x;
    var front, back := s[..q], s[q + 1..];
    SortedKeepsFailures(s, backupsSet);
    OthersOfBoth(backupsSet, p, s, q);
    forall y | y in front || y in back ensures DominatesBriefly(x.scan.backup, y) {
      var i :| 0 <= i < |backupsSet| && i != p && backupsSet[i] == y;
    }
    assert s == front + [x] + back == front + ([x] + back);
    DominantIsFoundAt(front, x, back);
  }

  // ---- the wrap

  /** Two backups of the same n channels, every commitment of the right one ahead by one. */
  function Level(n: nat, index: int): Indices {
    if n == 0 then map[] else Level(n - 1, index)[n - 1 := index]
  }

  lemma {:induction false} LevelHolds(n: nat, index: int)
    ensures forall k: nat :: k in Level(n, index) <==> k < n
    ensures forall k: nat :: k < n ==> Level(n, index)[k] == index
  {
    if n > 0 {
      LevelHolds(n - 1, index);
    }
  }

  lemma LevelAheadStep(n: nat)
    requires n > 0
    ensures Ahead(Level(n, 0), Level(n, 1)) == Ahead(Level(n - 1, 0), Level(n - 1, 1)) + {n - 1}
    ensures n - 1 !in Ahead(Level(n - 1, 0), Level(n - 1, 1))
  {
    LevelHolds(n, 0);
    LevelHolds(n, 1);
    LevelHolds(n - 1, 0);
    LevelHolds(n - 1, 1);
    hide Level;
  }

  lemma NoneBehind(n: nat)
    ensures Ahead(Level(n, 1), Level(n, 0)) == {}
  {
    LevelHolds(n, 0);
    LevelHolds(n, 1);
    hide Level;
  }

  lemma {:induction false} LevelIsAhead(n: nat)
    ensures |Ahead(Level(n, 0), Level(n, 1))| == n && Ahead(Level(n, 1), Level(n, 0)) == {}
    decreases n
  {
    NoneBehind(n);
    if n > 0 {
      LevelIsAhead(n - 1);
      LevelAheadStep(n);
      hide Level, Ahead;
    }
  }

  function LevelBackup(origin: BackupType, n: nat, index: int, date: int): Backup {
    Backup(origin, Level(n, index), date, "", true)
  }

  /** The dominant one of two such backups is found exactly when the count shows. */
  lemma LevelSearch(n: nat, dateBehind: int, dateAhead: int)
    requires n > 0
    ensures var behind, ahead := LevelBackup(LOCAL, n, 0, dateBehind), LevelBackup(GDRIVE, n, 1, dateAhead);
            && Dominates(ahead.localCommitIndexMap, behind.localCommitIndexMap)
            && Search([Entry(LOCAL, ScanOk(behind)), Entry(GDRIVE, ScanOk(ahead))], None)
               == Ok(Some(if CountShows(n) then ahead else behind))
  {
    LevelIsAhead(n);
    LevelHolds(n, 0);
    LevelHolds(n, 1);
    hide Level;
    var behind, ahead := LevelBackup(LOCAL, n, 0, dateBehind), LevelBackup(GDRIVE, n, 1, dateAhead);
    assert 0 in Ahead(behind.localCommitIndexMap, ahead.localCommitIndexMap);
    var scans := [Entry(LOCAL, ScanOk(behind)), Entry(GDRIVE, ScanOk(ahead))];
    DominantWins(ahead, scans[0]);
    SearchPair(scans[0], scans[1]);
  }

  /** 32768 channels ahead, and the older state is restored. */
  lemma DominantIsMissed()
    ensures var behind, ahead := LevelBackup(LOCAL, 0x8000, 0, 2), LevelBackup(GDRIVE, 0x8000, 1, 1);
            && Dominates(ahead.localCommitIndexMap, behind.localCommitIndexMap)
            && Search(Sorted([Entry(LOCAL, ScanOk(behind)), Entry(GDRIVE, ScanOk(ahead))]), None) == Ok(Some(behind))
  {
    LevelSearch(0x8000, 2, 1);
    hide Level, Search, Dominates;
    var behind, ahead := LevelBackup(LOCAL, 0x8000, 0, 2), LevelBackup(GDRIVE, 0x8000, 1, 1);
    SortedPair(Entry(LOCAL, ScanOk(behind)), Entry(GDRIVE, ScanOk(ahead)));
  }

  // ---- the order of iteration

  /** Readable backups of one date are one backup. */
  ghost predicate DatesDiffer(scans: seq<Entry>) {
    forall x, y :: x in scans && y in scans && x.scan.ScanOk? && y.scan.ScanOk? && Rank(x) == Rank(y) ==> x == y
  }

  lemma {:induction false} NothingReadable(scans: seq<Entry>, best: Option<Backup>)
    requires !HasFailure(scans) && !HasReadable(scans)
    ensures Search(scans, best) == Ok(best)
  {
    if scans != [] {
      var rest := scans[1..];
      assert scans == [scans[0]] + rest;
      PartsOfScans([scans[0]], rest);
      NothingReadable(rest, best);
    }
  }

  /** Ordered lists of the same entries begin alike, unless they hold nothing readable. */
  lemma SameHead(s: seq<Entry>, t: seq<Entry>)
    requires multiset(s) == multiset(t) && Ordered(s) && Ordered(t) && DatesDiffer(s)
    requires s != [] && s[0].scan.ScanOk?
    ensures t != [] && t[0] == s[0]
  {
    SameElements(s, t, s[0]);
    var j :| 0 <= j < |t| && t[j] == s[0];
    assert t[0].scan.ScanOk?;
    SameElements(s, t, t[0]);
    var i :| 0 <= i < |s| && s[i] == t[0];
  }

  lemma TailsMatch(s: seq<Entry>, t: seq<Entry>)
    requires multiset(s) == multiset(t) && s != [] && t != [] && s[0] == t[0]
    ensures multiset(s[1..]) == multiset(t[1..])
  {
    MultisetOfTail(s);
    MultisetOfTail(t);
  }

  lemma MultisetOfTail(s: seq<Entry>)
    requires s != []
    ensures multiset(s[1..]) == multiset(s) - multiset{s[0]}
  {
    assert s == [s[0]] + s[1..];
  }

  lemma TailKeeps(s: seq<Entry>)
    requires s != [] && Ordered(s) && !HasFailure(s)
    ensures Ordered(s[1..]) && !HasFailure(s[1..])
    ensures DatesDiffer(s) ==> DatesDiffer(s[1..])
  {
    assert [s[0]] + s[1..] == s;
    PartsOfScans([s[0]], s[1..]);
  }

  lemma {:induction false} SameSearch(s: seq<Entry>, t: seq<Entry>, best: Option<Backup>)
    requires multiset(s) == multiset(t) && Ordered(s) && Ordered(t) && DatesDiffer(s) && !HasFailure(s)
             && !HasFailure(t)
    ensures Search(s, best) == Search(t, best)
  {
    hide Ordered, DatesDiffer, HasFailure;
    if s != [] && s[0].scan.ScanOk? {
      SameHead(s, t);
      TailsMatch(s, t);
      TailKeeps(s);
      TailKeeps(t);
      SameSearch(s[1..], t[1..], Some(Best(best, s[0].scan.backup)));
    } else {
      FirstIsReadable(s);
      SortedKeepsFailures(t, s);
      NothingReadable(s, best);
      NothingReadable(t, best);
    }
  }

  lemma FirstIsReadable(s: seq<Entry>)
    requires Ordered(s)
    ensures HasReadable(s) <==> s != [] && s[0].scan.ScanOk?
  {
  }

  /** The map of scans may be iterated in any order: without two readable backups of one date, the outcome is the same,
      up to which failed scan is reported. */
  lemma OrderDoesNotMatter(backupsSet: seq<Entry>, shuffled: seq<Entry>)
    requires multiset(backupsSet) == multiset(shuffled) && DatesDiffer(backupsSet)
    ensures var r, r' := Search(Sorted(backupsSet), None), Search(Sorted(shuffled), None);
            r == r' || (r.Err? && r'.Err?)
  {
    var s, t := Sorted(backupsSet), Sorted(shuffled);
    SortedIsPermutation(backupsSet);
    SortedIsPermutation(shuffled);
    SortedIsOrdered(backupsSet);
    SortedIsOrdered(shuffled);
    SearchOutcome(s, None);
    SearchOutcome(t, None);
    SortedKeepsFailures(s, t);
    SortedKeepsFailures(t, s);
    forall x | x in s ensures x in backupsSet {
      SameElements(s, backupsSet, x);
    }
    if !HasFailure(s) {
      SameSearch(s, t, None);
    }
  }

  /** What sorting makes of two entries, and searching of each order. */
  lemma SortedPair(x: Entry, y: Entry)
    ensures Sorted([x, y]) == if Compare(y, x) < 0 then [y, x] else [x, y]
  {
    assert [x, y][..1] == [x] && [x][..0] == [] && [y, x][..1] == [y];
    assert Sorted([x]) == [x];
    assert Insert([], y) == [y];
  }

  lemma SearchPair(x: Entry, y: Entry)
    requires x.scan.ScanOk? && y.scan.ScanOk?
    ensures Search([x, y], None) == Ok(Some(Best(Some(x.scan.backup), y.scan.backup)))
  {
    hide Best;
    assert [x, y][1..] == [y] && [y][1..] == [];
    var best := Some(Best(Some(x.scan.backup), y.scan.backup));
    assert Search([], best) == Ok(best);
    assert Search([y], Some(x.scan.backup)) == Ok(best);
    assert Best(None, x.scan.backup) == x.scan.backup by { BestOfNone(x.scan.backup); }
  }

  lemma BestOfNone(b: Backup)
    ensures Best(None, b) == b
  {
  }

  /** With an entry that is not readable, its place does not matter, except between two failures. */
  lemma SearchUnreadable(x: Entry, y: Entry)
    requires !x.scan.ScanOk? || !y.scan.ScanOk?
    ensures Search([x, y], None) ==
              if x.scan.ScanFailure? then Err(UnreadableBackup(x.origin, x.scan.message))
              else if y.scan.ScanFailure? then Err(UnreadableBackup(y.origin, y.scan.message))
              else if x.scan.ScanOk? then Ok(Some(x.scan.backup))
              else if y.scan.ScanOk? then Ok(Some(y.scan.backup))
              else Ok(None)
  {
    hide Wins;
    assert [x, y][1..] == [y] && [y][1..] == [];
    assert forall best :: Search([], best) == Ok(best);
  }

  lemma OppositeShorts(n: int)
    ensures !(ToShort(n) > 0 && ToShort(-n) > 0)
  {
    assert n % 0x1_0000 + (-n) % 0x1_0000 in {0, 0x1_0000};
  }

  lemma BothCannotWin(b: Backup, c: Backup)
    ensures !(Wins(b, c) && Wins(c, b))
  {
    OppositeShorts(
      |Ahead(b.localCommitIndexMap, c.localCommitIndexMap)| - |Ahead(c.localCommitIndexMap, b.localCommitIndexMap)|);
  }

  /** Two failures that read differently, or two different backups of one date of which neither wins. */
  predicate OrderMatters(x: Entry, y: Entry) {
    || (x.scan.ScanFailure? && y.scan.ScanFailure? && x != y)
    || (x.scan.ScanOk? && y.scan.ScanOk? && Rank(x) == Rank(y) && x.scan.backup != y.scan.backup
        && !Wins(x.scan.backup, y.scan.backup) && !Wins(y.scan.backup, x.scan.backup))
  }

  /** The map of scans has two keys: its order of iteration changes the outcome exactly then. As the keys differ, so do
      two readable backups: only their dates and the score can decide. */
  lemma OrderOfTwoMatters(x: Entry, y: Entry)
    ensures Search(Sorted([x, y]), None) != Search(Sorted([y, x]), None) <==> OrderMatters(x, y)
    ensures x.scan.ScanOk? && y.scan.ScanOk? && x.scan.backup.origin != y.scan.backup.origin ==>
              (OrderMatters(x, y) <==>
                  Rank(x) == Rank(y) && !Wins(x.scan.backup, y.scan.backup) && !Wins(y.scan.backup, x.scan.backup))
  {
    SortedPair(x, y);
    SortedPair(y, x);
    hide Sorted, Search, Wins;
    if x.scan.ScanOk? && y.scan.ScanOk? {
      SearchPair(x, y);
      SearchPair(y, x);
      BothCannotWin(x.scan.backup, y.scan.backup);
    } else {
      SearchUnreadable(x, y);
      SearchUnreadable(y, x);
    }
  }

  /** For one: of two backups of one date of which neither wins, the one iterated first is returned. */
  lemma EqualDatesKeepTheFirst(b: Backup, c: Backup)
    requires b.lastModified == c.lastModified && !Wins(b, c) && !Wins(c, b)
    ensures Search(Sorted([Entry(LOCAL, ScanOk(b)), Entry(GDRIVE, ScanOk(c))]), None) == Ok(Some(b))
    ensures Search(Sorted([Entry(GDRIVE, ScanOk(c)), Entry(LOCAL, ScanOk(b))]), None) == Ok(Some(c))
  {
    var x, y := Entry(LOCAL, ScanOk(b)), Entry(GDRIVE, ScanOk(c));
    SortedPair(x, y);
    SortedPair(y, x);
    hide Sorted, Search, Wins;
    SearchPair(x, y);
    SearchPair(y, x);
  }

  /** So for backups that do not know each other's channels, and for one backup found in two places: the order then
      decides which file is restored, and what the user is told of its origin. */
  lemma NeitherWins(b: Backup, c: Backup)
    requires || b.localCommitIndexMap == c.localCommitIndexMap
             || (!Covers(b.localCommitIndexMap, c.localCommitIndexMap)
                 && !Covers(c.localCommitIndexMap, b.localCommitIndexMap))
    ensures !Wins(b, c) && !Wins(c, b)
    ensures b.origin != c.origin && b.lastModified == c.lastModified ==>
              OrderMatters(Entry(b.origin, ScanOk(b)), Entry(c.origin, ScanOk(c)))
  {
  }

  /** The count for a dominant backup: it must not be displaced by the other when it comes first, by date or, for one
      date, in the map; when it comes second, the count must show. */
  predicate CountOfTwoShows(d: Entry, other: Entry, inFront: bool)
    requires d.scan.ScanOk?
  {
    other.scan.ScanOk? ==>
      var date, otherDate := d.scan.backup.lastModified, other.scan.backup.lastModified;
      if date > otherDate || (date == otherDate && inFront) then !Displaces(other, d.scan.backup)
      else CountShows(|Ahead(other.scan.backup.localCommitIndexMap, d.scan.backup.localCommitIndexMap)|)
  }

  /** Of two scans, one of them failed or not readable or dominated by the other, the code returns the dominant one
      exactly when no scan failed and the count shows. */
  lemma DominantOfTwo(d: Entry, other: Entry)
    requires d.scan.ScanOk?
    requires other.scan.ScanOk? ==>
               Dominates(d.scan.backup.localCommitIndexMap, other.scan.backup.localCommitIndexMap)
    ensures Search(Sorted([d, other]), None) == Ok(Some(d.scan.backup)) <==>
              !other.scan.ScanFailure? && CountOfTwoShows(d, other, true)
    ensures Search(Sorted([other, d]), None) == Ok(Some(d.scan.backup)) <==>
              !other.scan.ScanFailure? && CountOfTwoShows(d, other, false)
  {
    SortedPair(d, other);
    SortedPair(other, d);
    hide Sorted, Search, Wins, Displaces, Dominates;
    if other.scan.ScanOk? {
      SearchPair(d, other);
      SearchPair(other, d);
      DominantWins(d.scan.backup, other);
    } else {
      SearchUnreadable(d, other);
      SearchUnreadable(other, d);
    }
  }

  // ---- channels ahead on either side

  /** The channels of both on which c is above b. */
  function Above(c: Indices, b: Indices): set<ChannelId> { set k | k in b.Keys * c.Keys && c[k] > b[k] }

  /** c has all channels of b, and counts more of them above than below, in 16 bits. */
  predicate IsBetter(c: Indices, b: Indices) {
    (forall k :: k in b ==> k in c) && 0 < (|Above(c, b)| - |Above(b, c)|) % 0x1_0000 < 0x8000
  }

  lemma BetterWins(b: Backup, c: Backup)
    ensures Wins(b, c) <==> IsBetter(c.localCommitIndexMap, b.localCommitIndexMap)
  {
    var l, r := b.localCommitIndexMap, c.localCommitIndexMap;
    assert Ahead(l, r) == Above(r, l);
    assert Ahead(r, l) == Above(l, r);
  }

  /** Whatever the indices of two readable backups: the one with the later date, or the first of one date, is returned
      unless the other is better. */
  lemma BetterOfTwo(x: Entry, y: Entry)
    requires x.scan.ScanOk? && y.scan.ScanOk? && x.scan.backup.lastModified >= y.scan.backup.lastModified
    ensures var b, c := x.scan.backup, y.scan.backup;
            Search(Sorted([x, y]), None)
            == Ok(Some(if IsBetter(c.localCommitIndexMap, b.localCommitIndexMap) then c else b))
    ensures var b, c := x.scan.backup, y.scan.backup;
            b.lastModified > c.lastModified ==>
              Search(Sorted([y, x]), None)
              == Ok(Some(if IsBetter(c.localCommitIndexMap, b.localCommitIndexMap) then c else b))
  {
    SortedPair(x, y);
    SortedPair(y, x);
    hide Sorted, Search, Wins, IsBetter;
    SearchPair(x, y);
    BetterWins(x.scan.backup, y.scan.backup);
  }

  /** And for any number of scans, one more: it replaces the best of those before it exactly when it is better. */
  lemma OneMoreScan(front: seq<Entry>, x: Entry, b: Backup)
    requires Search(front, None) == Ok(Some(b)) && x.scan.ScanOk?
    ensures var c := x.scan.backup;
            Search(front + [x], None)
            == Ok(Some(if IsBetter(c.localCommitIndexMap, b.localCommitIndexMap) then c else b))
  {
    SearchOutcome(front, None);
    SearchSplits(front, [x], None);
    BetterWins(b, x.scan.backup);
    hide Wins, IsBetter, Sorted;
    assert [x][1..] == [];
  }
}
