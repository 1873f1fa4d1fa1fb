/** The records of a segment log in the order they were appended, each with its index entry, and their folds. */
module LogEntries {
  import opened Bytes
  import opened SegmentFormat
  import opened SegmentStore

  datatype Entry = Entry(r: Record, index: IndexEntry)

  ghost function EntryAt(p: Params, segs: seq<seq<Record>>, j: nat, k: nat): Entry
    requires j < |segs| && k < |segs[j]|
  {
    Entry(segs[j][k], IndexAt(p, segs, j, k))
  }

  /** Position `k` of segment `j`, the end of the log included. */
  predicate Position(segs: seq<seq<Record>>, j: nat, k: nat) {
    if j == |segs| then k == 0 else j < |segs| && k <= |segs[j]|
  }

  /** The entries before a position. */
  ghost function EntriesTo(p: Params, segs: seq<seq<Record>>, j: nat, k: nat): seq<Entry>
    requires Position(segs, j, k)
    decreases j, k
  {
    if k > 0 then EntriesTo(p, segs, j, k - 1) + [EntryAt(p, segs, j, k - 1)]
    else if j > 0 then EntriesTo(p, segs, j - 1, |segs[j - 1]|)
    else []
  }

  /** All entries. */
  ghost function Entries(p: Params, segs: seq<seq<Record>>): seq<Entry> {
    EntriesTo(p, segs, |segs|, 0)
  }

  /** The number of records in the segments before `j`. */
  function Before(segs: seq<seq<Record>>, j: nat): nat
    requires j <= |segs|
  {
    if j == 0 then 0 else Before(segs, j - 1) + |segs[j - 1]|
  }

  function RecordsOf(es: seq<Entry>): (rs: seq<Record>)
    ensures |rs| == |es|
    ensures forall i :: 0 <= i < |es| ==> rs[i] == es[i].r
  {
    seq(|es|, i requires 0 <= i < |es| => es[i].r)
  }

  lemma {:induction false} EntriesToSize(p: Params, segs: seq<seq<Record>>, j: nat, k: nat)
    requires Position(segs, j, k)
    ensures |EntriesTo(p, segs, j, k)| == Before(segs, j) + k
    decreases j, k
  {
    if k > 0 {
      EntriesToSize(p, segs, j, k - 1);
    } else if j > 0 {
      EntriesToSize(p, segs, j - 1, |segs[j - 1]|);
    }
  }

  /** From any position on, the entries before it stay a prefix. */
  lemma {:induction false} EntriesToPrefix(p: Params, segs: seq<seq<Record>>, j: nat, k: nat, m: nat, n: nat)
    requires Position(segs, j, k) && Position(segs, m, n) && (j < m || (j == m && k <= n))
    ensures EntriesTo(p, segs, j, k) <= EntriesTo(p, segs, m, n)
    decreases m, n
  {
    if j == m && k == n {
    } else if n > 0 {
      EntriesToPrefix(p, segs, j, k, m, n - 1);
    } else {
      EntriesToPrefix(p, segs, j, k, m - 1, |segs[m - 1]|);
    }
  }

  /** The entry of the record at a position. */
  lemma EntryFound(p: Params, segs: seq<seq<Record>>, j: nat, k: nat)
    requires j < |segs| && k < |segs[j]|
    ensures var i := Before(segs, j) + k;
      i < |Entries(p, segs)| && Entries(p, segs)[i] == EntryAt(p, segs, j, k)
  {
    EntriesToPrefix(p, segs, j, k + 1, |segs|, 0);
    EntriesToSize(p, segs, j, k);
  }

  lemma EntriesSize(p: Params, segs: seq<seq<Record>>)
    ensures |Entries(p, segs)| == Before(segs, |segs|)
  {
    EntriesToSize(p, segs, |segs|, 0);
  }

  lemma {:induction false} BeforeRises(segs: seq<seq<Record>>, j: nat, m: nat)
    requires j <= m <= |segs|
    ensures Before(segs, j) <= Before(segs, m)
  {
    if j >= m {
    } else {
      BeforeRises(segs, j, m - 1);
    }
  }

  /** Every entry is that of some record. */
  lemma Locate(p: Params, segs: seq<seq<Record>>, i: nat) returns (j: nat, k: nat)
    requires i < |Entries(p, segs)|
    ensures j < |segs| && k < |segs[j]| && i == Before(segs, j) + k
    ensures Entries(p, segs)[i] == EntryAt(p, segs, j, k)
  {
    EntriesSize(p, segs);
    j := |segs| - 1;
    while Before(segs, j) > i
      invariant j < |segs| && i < Before(segs, j + 1)
      decreases j
    {
      j := j - 1;
    }
    k := i - Before(segs, j);
    EntryFound(p, segs, j, k);
  }

  /** The entries are those of the records, in order. */
  lemma {:induction false} EntriesAreRecords(p: Params, segs: seq<seq<Record>>, j: nat)
    requires j <= |segs|
    ensures RecordsOf(EntriesTo(p, segs, j, 0)) == Records(segs[..j])
  {
    if j == 0 {
    } else {
      EntriesAreRecords(p, segs, j - 1);
      assert segs[..j][..j - 1] == segs[..j - 1];
      SegmentRecords(p, segs, j - 1, |segs[j - 1]|);
      assert segs[j - 1][..|segs[j - 1]|] == segs[j - 1];
    }
  }

  lemma {:induction false} SegmentRecords(p: Params, segs: seq<seq<Record>>, j: nat, k: nat)
    requires j < |segs| && k <= |segs[j]|
    ensures RecordsOf(EntriesTo(p, segs, j, k)) == RecordsOf(EntriesTo(p, segs, j, 0)) + segs[j][..k]
  {
    if k == 0 {
    } else {
      SegmentRecords(p, segs, j, k - 1);
      assert segs[j][..k] == segs[j][..k - 1] + [segs[j][k - 1]];
    }
  }

  /** Segments that agree with others up to a position have the same entries up to it. */
  lemma {:induction false} EntriesToAgree(p: Params, a: seq<seq<Record>>, b: seq<seq<Record>>, j: nat, k: nat)
    requires Position(a, j, k) && Position(b, j, k)
    requires forall m :: 0 <= m < j ==> a[m] == b[m]
    requires k > 0 ==> a[j][..k] == b[j][..k]
    ensures EntriesTo(p, a, j, k) == EntriesTo(p, b, j, k)
    decreases j, k
  {
    if k > 0 {
      assert a[j][..k - 1] == a[j][..k][..k - 1] == b[j][..k - 1];
      assert a[j][k - 1] == a[j][..k][k - 1] == b[j][k - 1];
      EntriesToAgree(p, a, b, j, k - 1);
    } else if j > 0 {
      EntriesToAgree(p, a, b, j - 1, |a[j - 1]|);
    }
  }

  /** An empty segment has no entries. */
  lemma EntriesOfOpened(p: Params, segs: seq<seq<Record>>)
    ensures Entries(p, segs + [[]]) == Entries(p, segs)
  {
    EntriesToAgree(p, segs + [[]], segs, |segs|, 0);
  }

  /** A record more is an entry more. */
  lemma EntriesOfGrown(p: Params, segs: seq<seq<Record>>, r: Record)
    requires segs != []
    ensures var g, last := Grown(segs, r), |segs| - 1;
      && |g| == |segs| && |g[last]| == |segs[last]| + 1
      && Entries(p, g) == Entries(p, segs) + [EntryAt(p, g, last, |segs[last]|)]
      && EntryAt(p, g, last, |segs[last]|).r == r
  {
    var g, last := Grown(segs, r), |segs| - 1;
    assert g[last] == segs[last] + [r];
    assert g[last][..|segs[last]|] == segs[last] == segs[last][..|segs[last]|];
    EntriesToAgree(p, g, segs, last, |segs[last]|);
    assert Entries(p, segs) == EntriesTo(p, segs, last, |segs[last]|);
    assert Entries(p, g) == EntriesTo(p, g, last, |g[last]|);
  }

  /** Emptying a segment removes its entries and moves the later ones down. */
  lemma {:induction false} EntriesOfEmptied(p: Params, segs: seq<seq<Record>>, g: nat, j: nat, k: nat)
    requires g < |segs| && Position(segs, j, k) && j > g
    ensures var e := segs[g := []];
      && Before(segs, g + 1) <= |EntriesTo(p, segs, j, k)|
      && EntriesTo(p, e, j, k) ==
         EntriesTo(p, segs, g, 0) + EntriesTo(p, segs, j, k)[Before(segs, g + 1)..]
    decreases j, k
  {
    hide OffsetOf, Frames, Frame, Index, Body;
    var e := segs[g := []];
    EntriesToSize(p, segs, j, k);
    BeforeRises(segs, g + 1, j);
    if k > 0 {
      EntriesOfEmptied(p, segs, g, j, k - 1);
      assert EntryAt(p, e, j, k - 1) == EntryAt(p, segs, j, k - 1);
      assert EntriesTo(p, segs, j, k)[Before(segs, g + 1)..] ==
        EntriesTo(p, segs, j, k - 1)[Before(segs, g + 1)..] + [EntryAt(p, segs, j, k - 1)];
    } else if j == g + 1 {
      EntriesToAgree(p, e, segs, g, 0);
      assert EntriesTo(p, e, j, 0) == EntriesTo(p, e, g, 0);
    } else {
      EntriesOfEmptied(p, segs, g, j - 1, |segs[j - 1]|);
    }
  }

  // ---------------------------------------------------------------- folds

  /** The latest entry of each key. */
  function Latest(es: seq<Entry>): map<Data, Entry> {
    if es == [] then map[]
    else Latest(es[..|es| - 1])[es[|es| - 1].r.key := es[|es| - 1]]
  }

  /** The index the database should hold. */
  function Indexes(m: map<Data, Entry>): map<Data, IndexEntry> {
    map key | key in m :: m[key].index
  }

  /** What a log of records means: the value last put for each key. */
  function Contents(log: seq<Record>): map<Data, Data> {
    if log == [] then map[]
    else Contents(log[..|log| - 1])[log[|log| - 1].key := log[|log| - 1].value]
  }

  lemma {:induction false} LatestJoin(a: seq<Entry>, b: seq<Entry>)
    ensures Latest(a + b) == Latest(a) + Latest(b)
  {
    if b == [] {
      assert a + b == a;
    } else {
      LatestJoin(a, b[..|b| - 1]);
      assert (a + b)[..|a + b| - 1] == a + b[..|b| - 1];
    }
  }

  /** The latest entry of a key is an entry, none of that key comes behind it, and exactly the keys of entries have one. */
  lemma {:induction false} LatestIsLast(es: seq<Entry>, key: Data) returns (i: nat)
    ensures key in Latest(es) <==> exists m :: 0 <= m < |es| && es[m].r.key == key
    ensures key in Latest(es) ==> i < |es| && Latest(es)[key] == es[i] && es[i].r.key == key
    ensures key in Latest(es) ==> forall m :: i < m < |es| ==> es[m].r.key != key
  {
    i := 0;
    if es == [] {
    } else {
      var last := |es| - 1;
      i := LatestIsLast(es[..last], key);
      if es[last].r.key == key {
        i := last;
      } else if key in Latest(es) {
        assert es[..last][i] == es[i];
      } else {
        forall m | 0 <= m < last ensures es[m].r.key != key {
          assert es[..last][m] == es[m];
        }
      }
    }
  }

  function Values(m: map<Data, Entry>): map<Data, Data> {
    map key | key in m :: m[key].r.value
  }

  /** The contents are the values of the latest entries. */
  lemma {:induction false} ContentsOfLatest(es: seq<Entry>)
    ensures Contents(RecordsOf(es)) == Values(Latest(es))
  {
    if es == [] {
    } else {
      ContentsOfLatest(es[..|es| - 1]);
      assert RecordsOf(es)[..|es| - 1] == RecordsOf(es[..|es| - 1]);
    }
  }

  lemma RecordsOfTail(es: seq<Entry>, i: nat)
    requires i <= |es|
    ensures RecordsOf(es[i..]) == RecordsOf(es)[i..]
  {
  }

  /** Where the oldest record stands that still is the latest of its key. */
  function OldestAt(log: seq<Record>): (i: nat)
    requires log != []
    ensures i < |log|
  {
    if |log| > 1 && log[0].key in Contents(log[1..]) then 1 + OldestAt(log[1..]) else 0
  }

  /** Cutting the log behind that record takes its key away and leaves all others as they are. */
  lemma {:induction false} CutOldest(es: seq<Entry>)
    requires es != []
    ensures var i := OldestAt(RecordsOf(es));
      && i < |es| && es[i].r.key in Latest(es) && Latest(es)[es[i].r.key] == es[i]
      && Latest(es[i + 1..]) == Latest(es) - {es[i].r.key}
  {
    hide Latest, OldestAt, RecordsOf;
    var rest := es[1..];
    LatestOfFirst(es);
    OldestOfFirst(es);
    if es[0].r.key in Latest(rest) {
      CutOldest(rest);
      assert Latest(es) == Latest(rest);
      var i := OldestAt(RecordsOf(rest));
      assert rest[i + 1..] == es[i + 2..] && rest[i] == es[i + 1];
    } else {
      assert Latest(rest) == Latest(es) - {es[0].r.key};
    }
  }

  lemma OldestOfFirst(es: seq<Entry>)
    requires es != []
    ensures var rest := es[1..];
      OldestAt(RecordsOf(es)) == if es[0].r.key in Latest(rest) then 1 + OldestAt(RecordsOf(rest)) else 0
    ensures es[1..] == [] ==> Latest(es[1..]) == map[]
  {
    ContentsOfLatest(es[1..]);
    RecordsOfTail(es, 1);
  }

  lemma LatestOfFirst(es: seq<Entry>)
    requires es != []
    ensures Latest(es) == map[es[0].r.key := es[0]] + Latest(es[1..])
    ensures Latest([]) == map[]
  {
    LatestJoin([es[0]], es[1..]);
    assert [es[0]] + es[1..] == es;
    assert Latest([es[0]][..0]) == map[];
  }
}
