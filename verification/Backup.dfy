/** Rotation of the database snapshots (backend/app/services/backup.py). */
module Backup {

  // ---------------------------------------------------------------- names

  datatype Stamp = Stamp(year: int, month: int, day: int, hour: int, minute: int, second: int)

  /** The stamps of the years that strftime writes with four digits. */
  predicate FourDigitYear(s: Stamp) {
    && 1000 <= s.year <= 9999 && 1 <= s.month <= 12 && 1 <= s.day <= 31
    && 0 <= s.hour <= 23 && 0 <= s.minute <= 59 && 0 <= s.second <= 59
  }

  /** The order of time. */
  predicate Before(a: Stamp, b: Stamp) {
    || a.year < b.year
    || (a.year == b.year && (a.month < b.month
    || (a.month == b.month && (a.day < b.day
    || (a.day == b.day && (a.hour < b.hour
    || (a.hour == b.hour && (a.minute < b.minute
    || (a.minute == b.minute && a.second < b.second)))))))))
  }

  /** n in decimal, in exactly width digits */
  function Digits(n: nat, width: nat): (r: string)
    ensures |r| == width
  {
    if width == 0 then "" else Digits(n / 10, width - 1) + [(n % 10) as char + '0']
  }

  function Power10(width: nat): nat {
    if width == 0 then 1 else 10 * Power10(width - 1)
  }

  /** The order in which sorted() lists names. */
  predicate Less(a: string, b: string) {
    if a == [] then b != []
    else b != [] && (a[0] < b[0] || (a[0] == b[0] && Less(a[1..], b[1..])))
  }

  function Name(s: Stamp): string
    requires FourDigitYear(s)
  {
    "vmpanel-" + (Digits(s.year, 4) + (Digits(s.month, 2) + (Digits(s.day, 2) + ("-" +
      (Digits(s.hour, 2) + (Digits(s.minute, 2) + (Digits(s.second, 2) + ".db")))))))
  }

  lemma {:induction false} LessConcat(a: string, x: string, b: string, y: string)
    requires |a| == |b|
    ensures Less(a + x, b + y) <==> Less(a, b) || (a == b && Less(x, y))
  {
    if a == [] {
      assert a + x == x && b + y == y;
    } else {
      LessConcat(a[1..], x, b[1..], y);
      assert (a + x)[1..] == a[1..] + x && (b + y)[1..] == b[1..] + y;
      assert a == [a[0]] + a[1..] && b == [b[0]] + b[1..];
    }
  }

  lemma LessIrreflexive(a: string)
    ensures !Less(a, a)
  {
  }

  /** Fixed-width decimals sort like numbers. */
  lemma {:induction false} DigitsOrdered(n: nat, m: nat, width: nat)
    requires n < Power10(width) && m < Power10(width)
    ensures Less(Digits(n, width), Digits(m, width)) <==> n < m
    ensures Digits(n, width) == Digits(m, width) <==> n == m
  {
    if width > 0 {
      DigitsOrdered(n / 10, m / 10, width - 1);
      var c, d := [(n % 10) as char + '0'], [(m % 10) as char + '0'];
      LessConcat(Digits(n / 10, width - 1), c, Digits(m / 10, width - 1), d);
      assert Digits(n, width) == Digits(n / 10, width - 1) + c;
      assert Digits(m, width) == Digits(m / 10, width - 1) + d;
      assert c[0] == (n % 10) as char + '0' && d[0] == (m % 10) as char + '0';
      assert Less(c, d) <==> n % 10 < m % 10;
      assert Digits(n, width)[..width - 1] == Digits(n / 10, width - 1);
      assert Digits(m, width)[..width - 1] == Digits(m / 10, width - 1);
      assert Digits(n, width)[width - 1] == c[0] && Digits(m, width)[width - 1] == d[0];
    }
  }

  lemma FieldOrdered(n: nat, x: string, m: nat, y: string, width: nat)
    requires n < Power10(width) && m < Power10(width)
    ensures Less(Digits(n, width) + x, Digits(m, width) + y) <==> n < m || (n == m && Less(x, y))
  {
    LessConcat(Digits(n, width), x, Digits(m, width), y);
    DigitsOrdered(n, m, width);
  }

  /** Name order is time order, for all stamps of four-digit years. */
  lemma NamesSortByTime(a: Stamp, b: Stamp)
    requires FourDigitYear(a) && FourDigitYear(b)
    ensures Less(Name(a), Name(b)) <==> Before(a, b)
  {
    assert Power10(2) == 100 && Power10(4) == 10000;
    var a6, b6 := Digits(a.second, 2) + ".db", Digits(b.second, 2) + ".db";
    FieldOrdered(a.second, ".db", b.second, ".db", 2);
    LessIrreflexive(".db");
    var a5, b5 := Digits(a.minute, 2) + a6, Digits(b.minute, 2) + b6;
    FieldOrdered(a.minute, a6, b.minute, b6, 2);
    var a4, b4 := Digits(a.hour, 2) + a5, Digits(b.hour, 2) + b5;
    FieldOrdered(a.hour, a5, b.hour, b5, 2);
    LessConcat("-", a4, "-", b4);
    LessIrreflexive("-");
    FieldOrdered(a.day, "-" + a4, b.day, "-" + b4, 2);
    var a3, b3 := Digits(a.day, 2) + ("-" + a4), Digits(b.day, 2) + ("-" + b4);
    FieldOrdered(a.month, a3, b.month, b3, 2);
    var a2, b2 := Digits(a.month, 2) + a3, Digits(b.month, 2) + b3;
    FieldOrdered(a.year, a2, b.year, b2, 4);
    LessConcat("vmpanel-", Digits(a.year, 4) + a2, "vmpanel-", Digits(b.year, 4) + b2);
    LessIrreflexive("vmpanel-");
  }

  // ---------------------------------------------------------------- rotation

  /** The second a stamp names, counted in a calendar whose months all have 31 days. */
  function Moment(s: Stamp): int {
    ((((s.year * 12 + s.month) * 31 + s.day) * 24 + s.hour) * 60 + s.minute) * 60 + s.second
  }

  /** sorted() lists the files by the moment they are named after, and no two moments
      share a name; so a snapshot file is its moment from here on. */
  lemma NamesSortByMoment(a: Stamp, b: Stamp)
    requires FourDigitYear(a) && FourDigitYear(b)
    ensures Less(Name(a), Name(b)) <==> Moment(a) < Moment(b)
    ensures Name(a) == Name(b) <==> Moment(a) == Moment(b)
  {
    NamesSortByTime(a, b);
    NamesSortByTime(b, a);
    LessIrreflexive(Name(a));
  }

  type Snapshot = int

  /** A directory listing, as sorted(glob(...)) returns it. */
  predicate Listed(files: seq<Snapshot>) {
    forall i, j :: 0 <= i < j < |files| ==> files[i] < files[j]
  }

  /** The listing after a file is written; a file of the same name is overwritten. */
  function Insert(files: seq<Snapshot>, x: Snapshot): (r: seq<Snapshot>)
    ensures r != []
  {
    if files == [] then [x] else
    var front, last := files[..|files| - 1], files[|files| - 1];
    if last == x then files else if last < x then files + [x] else Insert(front, x) + [last]
  }

  lemma InsertBelow(front: seq<Snapshot>, last: Snapshot, x: Snapshot)
    ensures x < last ==> Insert(front + [last], x) == Insert(front, x) + [last]
    ensures x == last ==> Insert(front + [last], x) == front + [last]
    ensures x > last ==> Insert(front + [last], x) == front + [last] + [x]
  {
    assert (front + [last])[..|front|] == front;
  }

  lemma {:induction false} InsertHolds(files: seq<Snapshot>, x: Snapshot, f: Snapshot)
    ensures f in Insert(files, x) <==> f in files || f == x
  {
    if files != [] {
      var front := files[..|files| - 1];
      assert files == front + [files[|files| - 1]];
      InsertHolds(front, x, f);
    }
  }

  lemma {:induction false} InsertListed(files: seq<Snapshot>, x: Snapshot)
    requires Listed(files)
    ensures Listed(Insert(files, x))
  {
    if files != [] {
      var front, last := files[..|files| - 1], files[|files| - 1];
      InsertListed(front, x);
      if x < last {
        forall i | 0 <= i < |Insert(front, x)| ensures Insert(front, x)[i] < last {
          InsertHolds(front, x, Insert(front, x)[i]);
        }
      }
    }
  }

  /** The k latest of a listing. */
  function Latest(files: seq<Snapshot>, k: nat): (r: seq<Snapshot>)
    ensures |r| == if |files| < k then |files| else k
  {
    if |files| <= k then files else files[|files| - k..]
  }

  /** The files of a listing that could not be removed. */
  function Unremoved(files: seq<Snapshot>, busy: set<Snapshot>): (r: seq<Snapshot>)
    ensures forall f :: f in r <==> f in files && f in busy
  {
    if files == [] then [] else
    var n := |files| - 1;
    assert files == files[..n] + [files[n]];
    Unremoved(files[..n], busy) + if files[n] in busy then [files[n]] else []
  }

  lemma {:induction false} RemainingListed(files: seq<Snapshot>, busy: set<Snapshot>)
    requires Listed(files)
    ensures Listed(Unremoved(files, busy))
  {
    if files != [] {
      var n := |files| - 1;
      RemainingListed(files[..n], busy);
      forall i | 0 <= i < |Unremoved(files[..n], busy)|
        ensures Unremoved(files[..n], busy)[i] < files[n]
      {
        assert Unremoved(files[..n], busy)[i] in files[..n];
      }
    }
  }

  /** What the rotation leaves of a listing when the removal of the busy files fails. */
  function Rotated(files: seq<Snapshot>, keep: int, busy: set<Snapshot>): seq<Snapshot> {
    if keep <= 0 || |files| <= keep then files
    else Unremoved(files[..|files| - keep], busy) + files[|files| - keep..]
  }

  /** Whatever removals fail, the keep latest files stay. */
  lemma RotatedKeepsLatest(files: seq<Snapshot>, keep: int, busy: set<Snapshot>)
    ensures keep > 0 ==> Latest(Rotated(files, keep, busy), keep) == Latest(files, keep)
  {
  }

  /** Every file is kept but the older ones whose own removal succeeds. */
  lemma RotatedHolds(files: seq<Snapshot>, keep: int, busy: set<Snapshot>, f: Snapshot)
    ensures f in Rotated(files, keep, busy) <==>
      f in files && (keep <= 0 || f in Latest(files, keep) || f in busy)
  {
    if 0 < keep < |files| {
      var cut := |files| - keep;
      assert files == files[..cut] + files[cut..];
    }
  }

  lemma RotatedListed(files: seq<Snapshot>, keep: int, busy: set<Snapshot>)
    requires Listed(files)
    ensures Listed(Rotated(files, keep, busy))
  {
    if keep > 0 && |files| > keep {
      var cut := |files| - keep;
      var left, tail := Unremoved(files[..cut], busy), files[cut..];
      RemainingListed(files[..cut], busy);
      forall i, j | 0 <= i < |left| && 0 <= j < |tail| ensures left[i] < tail[j] {
        assert left[i] in files[..cut];
      }
    }
  }

  /** The listing without one file. */
  function Without(files: seq<Snapshot>, x: Snapshot): seq<Snapshot> {
    if files == [] then []
    else if files[0] == x then files[1..]
    else [files[0]] + Without(files[1..], x)
  }

  /** The listing without the file at place i. */
  lemma {:induction false} WithoutAt(files: seq<Snapshot>, i: nat)
    requires i < |files| && forall j :: 0 <= j < i ==> files[j] != files[i]
    ensures |Without(files, files[i])| == |files| - 1
    ensures forall j :: 0 <= j < |files| - 1 ==> Without(files, files[i])[j] == files[if j < i then j else j + 1]
  {
    if i > 0 {
      WithoutAt(files[1..], i - 1);
    }
  }

  lemma WithoutMiddle(a: seq<Snapshot>, x: Snapshot, b: seq<Snapshot>)
    requires x !in a
    ensures Without(a + [x] + b, x) == a + b
  {
    WithoutAt(a + [x] + b, |a|);
  }

  lemma RemainingNext(files: seq<Snapshot>, n: nat, busy: set<Snapshot>)
    requires n < |files|
    ensures Unremoved(files[..n + 1], busy)
      == Unremoved(files[..n], busy) + if files[n] in busy then [files[n]] else []
  {
    assert files[..n + 1][..n] == files[..n];
  }

  lemma NotListedBefore(files: seq<Snapshot>, n: nat, busy: set<Snapshot>)
    requires Listed(files) && n < |files|
    ensures files[n] !in Unremoved(files[..n], busy)
  {
    assert forall i :: 0 <= i < n ==> files[..n][i] != files[n];
  }

  /** A listing once the removal of its first n files was tried, one by one. */
  function Swept(files: seq<Snapshot>, n: nat, busy: set<Snapshot>): seq<Snapshot>
    requires n <= |files|
  {
    if n == 0 then files else
    var before := Swept(files, n - 1, busy);
    if files[n - 1] in busy then before else Without(before, files[n - 1])
  }

  lemma {:induction false} SweptSplits(files: seq<Snapshot>, n: nat, busy: set<Snapshot>)
    requires Listed(files) && n <= |files|
    ensures Swept(files, n, busy) == Unremoved(files[..n], busy) + files[n..]
  {
    if n > 0 {
      SweptSplits(files, n - 1, busy);
      RemainingNext(files, n - 1, busy);
      NotListedBefore(files, n - 1, busy);
      SweptNext(files, n, busy, Unremoved(files[..n - 1], busy));
    }
  }

  lemma SweptAll(files: seq<Snapshot>, keep: nat, busy: set<Snapshot>)
    requires Listed(files) && 0 < keep < |files|
    ensures Swept(files, |files| - keep, busy) == Rotated(files, keep, busy)
  {
    SweptSplits(files, |files| - keep, busy);
  }

  lemma SweptNext(files: seq<Snapshot>, n: nat, busy: set<Snapshot>, left: seq<Snapshot>)
    requires 0 < n <= |files| && files[n - 1] !in left
    requires Swept(files, n - 1, busy) == left + files[n - 1..]
    ensures Swept(files, n, busy) == left + (if files[n - 1] in busy then [files[n - 1]] else []) + files[n..]
  {
    var x, rest := files[n - 1], files[n..];
    assert left + files[n - 1..] == left + [x] + rest;
    assert left + [] == left;
    WithoutMiddle(left, x, rest);
  }

  class Directory {
    var files: seq<Snapshot>

    ghost predicate Valid() reads this { Listed(files) }

    constructor ()
      ensures Valid() && files == []
    {
      files := [];
    }

    /** _run_backup; removing a file of busy raises OSError. */
    method RunBackup(stamp: Snapshot, keep: int, busy: set<Snapshot>)
      requires Valid()
      modifies this
      ensures Valid() && files == Rotated(Insert(old(files), stamp), keep, busy)
    {
      InsertListed(files, stamp);
      files := Insert(files, stamp);
      Rotate(keep, busy);
    }

    /** The removal loop of _run_backup. */
    method Rotate(keep: int, busy: set<Snapshot>)
      requires Valid()
      modifies this
      ensures Valid() && files == Rotated(old(files), keep, busy)
    {
      RotatedListed(files, keep, busy);
      if 0 < keep < |files| {
        var snaps := files;
        SweptAll(snaps, keep, busy);
        var n := 0;
        while n < |snaps| - keep
          invariant 0 <= n <= |snaps| - keep
          invariant files == Swept(snaps, n, busy)
        {
          if snaps[n] !in busy {
            files := Without(files, snaps[n]);
          }
          n := n + 1;
        }
      }
    }

    /** make_backup: BACKUP_KEEP is clamped, so the latest snapshot is always kept. */
    method MakeBackup(stamp: Snapshot, backupKeep: int, busy: set<Snapshot>)
      requires Valid()
      modifies this
      ensures Valid() && files == Backup(old(files), BackupCall(stamp, busy), Clamp(backupKeep))
    {
      RunBackup(stamp, if backupKeep < 1 then 1 else backupKeep, busy);
    }
  }

  function Clamp(backupKeep: int): (keep: nat)
    ensures keep >= 1 && keep >= backupKeep && (keep == 1 || keep == backupKeep)
  {
    if backupKeep < 1 then 1 else backupKeep
  }

  // ---------------------------------------------------------------- any sequence of backups

  /** One call of make_backup: when it ran, and the files it could not remove. */
  datatype BackupCall = BackupCall(stamp: Snapshot, busy: set<Snapshot>)

  function Backup(files: seq<Snapshot>, call: BackupCall, keep: nat): seq<Snapshot> {
    Rotated(Insert(files, call.stamp), keep, call.busy)
  }

  function After(files: seq<Snapshot>, calls: seq<BackupCall>, keep: nat): seq<Snapshot> {
    if calls == [] then files
    else Backup(After(files, calls[..|calls| - 1], keep), calls[|calls| - 1], keep)
  }

  /** Every snapshot that was there at the start or was ever taken. */
  function Ever(files: seq<Snapshot>, calls: seq<BackupCall>): seq<Snapshot> {
    if calls == [] then files
    else Insert(Ever(files, calls[..|calls| - 1]), calls[|calls| - 1].stamp)
  }

  /** Ever is the listing of the files at the start and all stamps, each once. */
  lemma {:induction false} EverHolds(files: seq<Snapshot>, calls: seq<BackupCall>, f: Snapshot)
    requires Listed(files)
    ensures Listed(Ever(files, calls))
    ensures f in Ever(files, calls) <==> f in files || exists i :: 0 <= i < |calls| && calls[i].stamp == f
  {
    if calls != [] {
      var n := |calls| - 1;
      EverHolds(files, calls[..n], f);
      InsertHolds(Ever(files, calls[..n]), calls[n].stamp, f);
      InsertListed(Ever(files, calls[..n]), calls[n].stamp);
      assert forall i :: 0 <= i < n ==> calls[..n][i] == calls[i];
    }
  }

  /** The k latest depend only on the k latest of before: the rotation may forget the rest. */
  lemma {:induction false} LatestOfLatest(files: seq<Snapshot>, x: Snapshot, k: nat)
    requires k >= 1
    ensures Latest(Insert(Latest(files, k), x), k) == Latest(Insert(files, x), k)
    decreases |files|
  {
    if |files| > k {
      var n := |files| - 1;
      var last, init := files[n], files[..n];
      var low := Latest(init, k - 1);
      assert files == init + [last];
      LatestSnoc(init, last, k);
      if k > 1 { LatestOfLatest(init, x, k - 1); }
      LatestBelow(init, low, last, x, k);
    }
  }

  lemma LatestBelow(init: seq<Snapshot>, low: seq<Snapshot>, last: Snapshot, x: Snapshot, k: nat)
    requires k >= 1 && low == Latest(init, k - 1)
    requires k > 1 ==> Latest(Insert(low, x), k - 1) == Latest(Insert(init, x), k - 1)
    ensures Latest(Insert(low + [last], x), k) == Latest(Insert(init + [last], x), k)
  {
    InsertBelow(init, last, x);
    InsertBelow(low, last, x);
    if x < last {
      LatestSnoc(Insert(init, x), last, k);
      LatestSnoc(Insert(low, x), last, k);
    } else if x > last {
      LatestSnoc(init + [last], x, k);
      LatestSnoc(low + [last], x, k);
      LatestAbove(init, last, k - 1);
    } else {
      LatestAbove(init, last, k);
    }
  }

  lemma LatestAbove(init: seq<Snapshot>, last: Snapshot, k: nat)
    ensures forall n: nat :: n + 1 >= k ==> Latest(Latest(init, n) + [last], k) == Latest(init + [last], k)
  {
  }

  lemma LatestSnoc(files: seq<Snapshot>, x: Snapshot, k: nat)
    requires k >= 1
    ensures Latest(files + [x], k) == Latest(files, k - 1) + [x]
  {
  }

  /** Whichever removals fail, in this backup or in earlier ones, the keep latest snapshots
      ever taken are there. */
  lemma {:induction false} LatestNeverLost(files: seq<Snapshot>, calls: seq<BackupCall>, keep: nat)
    requires keep >= 1
    ensures Latest(After(files, calls, keep), keep) == Latest(Ever(files, calls), keep)
  {
    if calls != [] {
      var n := |calls| - 1;
      var was, ever, call := After(files, calls[..n], keep), Ever(files, calls[..n]), calls[n];
      LatestNeverLost(files, calls[..n], keep);
      RotatedKeepsLatest(Insert(was, call.stamp), keep, call.busy);
      LatestOfLatest(was, call.stamp, keep);
      LatestOfLatest(ever, call.stamp, keep);
    }
  }

  /** A backup whose removals succeed leaves exactly the keep latest snapshots ever taken,
      whatever failed before it. */
  lemma ExactlyTheLatest(files: seq<Snapshot>, calls: seq<BackupCall>, keep: nat)
    requires keep >= 1
    requires |calls| > 0 && calls[|calls| - 1].busy == {}
    ensures After(files, calls, keep) == Latest(Ever(files, calls), keep)
  {
    LatestNeverLost(files, calls, keep);
    NothingRemains(files, calls, keep);
  }

  lemma NothingRemains(files: seq<Snapshot>, calls: seq<BackupCall>, keep: nat)
    requires keep >= 1
    requires |calls| > 0 && calls[|calls| - 1].busy == {}
    ensures |After(files, calls, keep)| <= keep
  {
    var n := |calls| - 1;
    var all := Insert(After(files, calls[..n], keep), calls[n].stamp);
    if |all| > keep {
      NoneRemain(all[..|all| - keep]);
    }
  }

  lemma {:induction false} NoneRemain(files: seq<Snapshot>)
    ensures Unremoved(files, {}) == []
  {
    if files != [] {
      NoneRemain(files[..|files| - 1]);
    }
  }
}
