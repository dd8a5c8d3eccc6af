/** Go's string order (bytewise, lexicographic) and the directory listing of the migration runner. */
module FileOrder {

  predicate LexLeq(a: string, b: string) {
    if a == "" then true
    else if b == "" then false
    else a[0] < b[0] || (a[0] == b[0] && LexLeq(a[1..], b[1..]))
  }

  /** a comes no later than b: a starts b, or is smaller at the first place they differ. */
  ghost predicate NoLater(a: string, b: string) {
    a <= b || exists i :: DiffersAt(a, b, i) && a[i] < b[i]
  }

  predicate DiffersAt(a: string, b: string, i: int) {
    0 <= i < |a| && i < |b| && a[..i] == b[..i] && a[i] != b[i]
  }

  lemma {:induction false} LexLeqIff(a: string, b: string)
    ensures LexLeq(a, b) <==> NoLater(a, b)
  {
    if a != "" && b != "" {
      if a[0] == b[0] {
        LexLeqIff(a[1..], b[1..]);
        SameHead(a, b);
      } else {
        assert a[0] < b[0] ==> DiffersAt(a, b, 0);
        forall i | DiffersAt(a, b, i) ensures i == 0 {
          EqualHeads(a, b, i);
        }
      }
    }
  }

  lemma EqualHeads(a: string, b: string, i: int)
    requires DiffersAt(a, b, i)
    ensures i > 0 ==> a[0] == b[0]
  {
    if i > 0 {
      assert a[..i][0] == a[0] && b[..i][0] == b[0];
    }
  }

  lemma SameHead(a: string, b: string)
    requires a != "" && b != "" && a[0] == b[0]
    ensures NoLater(a, b) <==> NoLater(a[1..], b[1..])
  {
    assert a == [a[0]] + a[1..] && b == [b[0]] + b[1..];
    forall i | DiffersAt(a, b, i) ensures DiffersAt(a[1..], b[1..], i - 1) {
      assert a[1..][..i-1] == a[..i][1..] && b[1..][..i-1] == b[..i][1..];
    }
    forall i | DiffersAt(a[1..], b[1..], i) ensures DiffersAt(a, b, i + 1) {
      assert a[..i+1] == [a[0]] + a[1..][..i] && b[..i+1] == [b[0]] + b[1..][..i];
    }
    if i :| DiffersAt(a[1..], b[1..], i) && a[1..][i] < b[1..][i] {
      assert DiffersAt(a, b, i + 1) && a[i+1] < b[i+1];
    }
  }

  lemma {:induction false} LexTotal(a: string, b: string)
    ensures LexLeq(a, b) || LexLeq(b, a)
    ensures LexLeq(a, b) && LexLeq(b, a) ==> a == b
  {
    if a != "" && b != "" {
      LexTotal(a[1..], b[1..]);
      if a[1..] == b[1..] && a[0] == b[0] {
        assert a == [a[0]] + a[1..] == b;
      }
    }
  }

  lemma {:induction false} LexTransitive(a: string, b: string, c: string)
    requires LexLeq(a, b) && LexLeq(b, c)
    ensures LexLeq(a, c)
  {
    if a != "" {
      if a[0] == b[0] == c[0] {
        LexTransitive(a[1..], b[1..], c[1..]);
      }
    }
  }

  predicate Sorted(xs: seq<string>) {
    forall i, j | 0 <= i < j < |xs| :: LexLeq(xs[i], xs[j])
  }

  predicate Distinct(xs: seq<string>) {
    forall i, j | 0 <= i < j < |xs| :: xs[i] != xs[j]
  }

  lemma {:induction false} HeadIsLeast(xs: seq<string>, y: string)
    requires Sorted(xs) && y in xs
    ensures LexLeq(xs[0], y)
  {
    var i :| 0 <= i < |xs| && xs[i] == y;
    LexTotal(y, y);
  }

  /** Sorting has one possible result, whatever the algorithm. */
  lemma {:induction false} SortedIsUnique(xs: seq<string>, ys: seq<string>)
    requires Sorted(xs) && Sorted(ys) && multiset(xs) == multiset(ys)
    ensures xs == ys
    decreases |xs|
  {
    assert |multiset(xs)| == |xs| && |multiset(ys)| == |ys|;
    if xs != [] {
      assert ys[0] in multiset(ys) && xs[0] in multiset(xs);
      HeadIsLeast(xs, ys[0]);
      HeadIsLeast(ys, xs[0]);
      LexTotal(xs[0], ys[0]);
      SameTail(xs, ys);
      SortedIsUnique(xs[1..], ys[1..]);
    }
  }

  lemma SameTail(xs: seq<string>, ys: seq<string>)
    requires xs != [] && ys != [] && xs[0] == ys[0] && multiset(xs) == multiset(ys)
    ensures multiset(xs[1..]) == multiset(ys[1..])
    ensures xs[1..] == ys[1..] ==> xs == ys
  {
    assert xs == [xs[0]] + xs[1..] && ys == [ys[0]] + ys[1..];
    assert multiset(xs[1..]) == multiset(xs) - multiset{xs[0]};
    assert multiset(ys[1..]) == multiset(ys) - multiset{ys[0]};
  }

  datatype DirEntry = DirEntry(name: string, isDir: bool)

  const SUFFIX: string := ".up.sql"

  predicate IsUpMigration(e: DirEntry) {
    !e.isDir && |e.name| >= |SUFFIX| && e.name[|e.name| - |SUFFIX|..] == SUFFIX
  }

  function UpNames(entries: seq<DirEntry>): seq<string> {
    if entries == [] then []
    else
      var e := entries[|entries|-1];
      UpNames(entries[..|entries|-1]) + if IsUpMigration(e) then [e.name] else []
  }

  /** The one sorted arrangement of the up-migrations in the directory. */
  method ListUpMigrations(entries: seq<DirEntry>) returns (files: seq<string>)
    ensures Sorted(files) && multiset(files) == multiset(UpNames(entries))
  {
    files := [];
    for i := 0 to |entries|
      invariant files == UpNames(entries[..i])
    {
      assert entries[..i+1][..i] == entries[..i];
      if IsUpMigration(entries[i]) {
        files := files + [entries[i].name];
      }
    }
    assert entries[..|entries|] == entries;
    files := SortStrings(files);
  }

  /** The library's sort, by insertion. */
  method SortStrings(xs: seq<string>) returns (ys: seq<string>)
    ensures Sorted(ys) && multiset(ys) == multiset(xs)
  {
    ys := [];
    for i := 0 to |xs|
      invariant Sorted(ys) && multiset(ys) == multiset(xs[..i])
    {
      assert xs[..i+1] == xs[..i] + [xs[i]];
      ys := Insert(xs[i], ys);
    }
    assert xs[..|xs|] == xs;
  }

  method Insert(x: string, ys: seq<string>) returns (zs: seq<string>)
    requires Sorted(ys)
    ensures Sorted(zs) && multiset(zs) == multiset(ys) + multiset{x}
  {
    var k := 0;
    while k < |ys| && LexLeq(ys[k], x)
      invariant k <= |ys| && forall i | 0 <= i < k :: LexLeq(ys[i], x)
    {
      k := k + 1;
    }
    zs := ys[..k] + [x] + ys[k..];
    assert ys == ys[..k] + ys[k..];
    StaysSorted(ys, k, x);
  }

  lemma {:induction false} StaysSorted(ys: seq<string>, k: nat, x: string)
    requires Sorted(ys) && k <= |ys| && forall i | 0 <= i < k :: LexLeq(ys[i], x)
    requires k < |ys| ==> !LexLeq(ys[k], x)
    ensures Sorted(ys[..k] + [x] + ys[k..])
  {
    forall j | k <= j < |ys| ensures LexLeq(x, ys[j]) {
      LexTotal(x, ys[k]);
      if k < j {
        LexTransitive(x, ys[k], ys[j]);
      }
    }
  }

  /** A directory holds no name twice, so neither does its listing. */
  lemma {:induction false} ListingIsDistinct(entries: seq<DirEntry>, files: seq<string>)
    requires forall i, j | 0 <= i < j < |entries| :: entries[i].name != entries[j].name
    requires multiset(files) == multiset(UpNames(entries))
    ensures Distinct(files)
  {
    forall i, j | 0 <= i < j < |files| ensures files[i] != files[j] {
      UpNamesOnce(entries, files[i]);
      Twice(files, i, j);
    }
  }

  lemma Twice(files: seq<string>, i: nat, j: nat)
    requires i < j < |files|
    ensures files[i] == files[j] ==> multiset(files)[files[i]] >= 2
  {
    assert files == files[..i] + [files[i]] + files[i+1..j] + [files[j]] + files[j+1..];
  }

  lemma {:induction false} UpNamesOnce(entries: seq<DirEntry>, x: string)
    requires forall i, j | 0 <= i < j < |entries| :: entries[i].name != entries[j].name
    ensures multiset(UpNames(entries))[x] <= 1
  {
    if entries != [] {
      var n := |entries| - 1;
      UpNamesOnce(entries[..n], x);
      if x in UpNames(entries[..n]) {
        var i := ListedEntry(entries[..n], x);
        assert entries[i].name == x;
      }
    }
  }

  lemma {:induction false} ListedEntry(entries: seq<DirEntry>, x: string) returns (i: nat)
    requires x in UpNames(entries)
    ensures i < |entries| && entries[i].name == x && IsUpMigration(entries[i])
  {
    var n := |entries| - 1;
    if x in UpNames(entries[..n]) {
      i := ListedEntry(entries[..n], x);
    } else {
      i := n;
    }
  }

  predicate IsFile(e: DirEntry, stem: string) {
    !e.isDir && e.name == stem + ".up.sql"
  }

  lemma SuffixIff(e: DirEntry)
    ensures IsUpMigration(e) <==> exists stem :: IsFile(e, stem)
  {
    if IsUpMigration(e) {
      assert IsFile(e, e.name[..|e.name| - |SUFFIX|]);
    }
    if stem :| IsFile(e, stem) {
      assert e.name[|e.name| - |SUFFIX|..] == SUFFIX;
    }
  }

  /** A name is listed if and only if it is that of a plain file and some stem followed by ".up.sql". */
  lemma {:induction false} ListedIff(entries: seq<DirEntry>, x: string)
    ensures x in UpNames(entries) <==>
              exists i, stem :: 0 <= i < |entries| && entries[i].name == x && IsFile(entries[i], stem)
  {
    if entries != [] {
      var n := |entries| - 1;
      ListedIff(entries[..n], x);
      SuffixIff(entries[n]);
      if i, stem :| 0 <= i < n && entries[..n][i].name == x && IsFile(entries[..n][i], stem) {
        assert entries[i].name == x && IsFile(entries[i], stem);
      }
      forall i, stem | 0 <= i < |entries| && entries[i].name == x && IsFile(entries[i], stem) ensures x in UpNames(entries) {
        if i < n {
          assert entries[..n][i].name == x && IsFile(entries[..n][i], stem);
        }
      }
    }
  }
}
