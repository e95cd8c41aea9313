/**
 * Garbage-collection bookkeeping of `StatsListener`: the platform's collector beans, the
 * per-source baseline table `gcStatsAtLastReport`, and the deltas that update reports carry.
 */
module Gc {
  import Int32

  /** A garbage collector bean: a fixed name and cumulative counters the runtime advances. */
  class GcBean {
    const name: string
    var collectionCount: int
    var collectionTime: int

    constructor (name: string, count: int, timeMs: int)
      ensures this.name == name && collectionCount == count && collectionTime == timeMs
    {
      this.name := name;
      collectionCount := count;
      collectionTime := timeMs;
    }
  }

  /** One (count, time) pair of the table; the Java `Pair<Long,Long>`. */
  datatype GcCounts = GcCounts(count: int, timeMs: int)

  /** What one bean shows when it is read. */
  datatype GcReading = GcReading(name: string, counts: GcCounts)

  /** One `reportGarbageCollection(name, deltaCount, deltaTime)` entry of an update report. */
  datatype GcEntry = GcEntry(name: string, deltaCount: int, deltaTimeMs: int)

  /** The current readings of a list of beans, in list order. */
  ghost function Readings(beans: seq<GcBean>): (rs: seq<GcReading>)
    reads beans
    ensures |rs| == |beans|
    ensures forall i :: 0 <= i < |beans| ==>
      rs[i] == GcReading(beans[i].name, GcCounts(beans[i].collectionCount, beans[i].collectionTime))
    ensures NamesMatch(rs, beans)
  {
    if beans == [] then []
    else
      var b := beans[|beans| - 1];
      Readings(beans[..|beans| - 1]) + [GcReading(b.name, GcCounts(b.collectionCount, b.collectionTime))]
  }

  function Names(rs: seq<GcReading>): set<string>
  {
    set r | r in rs :: r.name
  }

  /** Every reading has a stored pair under its name. */
  predicate Covers(table: map<string, GcCounts>, rs: seq<GcReading>)
  {
    forall i :: 0 <= i < |rs| ==> rs[i].name in table
  }

  predicate DistinctNames(rs: seq<GcReading>)
  {
    forall i, j :: 0 <= i < j < |rs| ==> rs[i].name != rs[j].name
  }

  /** The table built by the first GC report: one `put` per bean, in bean order. */
  function Baseline(rs: seq<GcReading>): (table: map<string, GcCounts>)
    ensures table.Keys == Names(rs)
    ensures Covers(table, rs)
  {
    if rs == [] then map[]
    else
      var prefix := rs[..|rs| - 1];
      var r := rs[|rs| - 1];
      assert rs == prefix + [r];
      Baseline(prefix)[r.name := r.counts]
  }

  /** The entry a later report gives for a reading r against its stored pair, with the `(int)` casts. */
  function Delta(r: GcReading, stored: GcCounts): GcEntry
  {
    GcEntry(r.name, Int32.Wrap(r.counts.count - stored.count), Int32.Wrap(r.counts.timeMs - stored.timeMs))
  }

  /**
   * A later GC report: for each reading in order, report it against the stored pair of its
   * name and then overwrite that pair with the reading. Returns the entries and the new table.
   */
  function DeltaPass(rs: seq<GcReading>, table: map<string, GcCounts>): (out: (seq<GcEntry>, map<string, GcCounts>))
    requires Covers(table, rs)
    ensures |out.0| == |rs|
    ensures out.1.Keys == table.Keys
  {
    if rs == [] then ([], table)
    else
      var prefix := rs[..|rs| - 1];
      var r := rs[|rs| - 1];
      assert forall i :: 0 <= i < |prefix| ==> prefix[i] == rs[i];
      var before := DeltaPass(prefix, table);
      (before.0 + [Delta(r, before.1[r.name])], before.1[r.name := r.counts])
  }

  /** The readings line up with the beans: one per bean, in bean order, under the bean's name. */
  predicate NamesMatch(rs: seq<GcReading>, beans: seq<GcBean>)
  {
    && |rs| == |beans|
    && forall i :: 0 <= i < |rs| ==> rs[i].name == beans[i].name
  }

  /** Read every bean once, in list order: `getCollectionCount()` and `getCollectionTime()`. */
  method ReadBeans(beans: seq<GcBean>) returns (rs: seq<GcReading>)
    ensures rs == Readings(beans)
    ensures NamesMatch(rs, beans)
  {
    rs := [];
    for i := 0 to |beans|
      invariant |rs| == i
      invariant forall k :: 0 <= k < i ==>
        rs[k] == GcReading(beans[k].name, GcCounts(beans[k].collectionCount, beans[k].collectionTime))
    {
      var bean := beans[i];
      rs := rs + [GcReading(bean.name, GcCounts(bean.collectionCount, bean.collectionTime))];
    }
  }

  /** The loop of the first GC report: one `put` of each reading's pair under its name. */
  method BaselineTable(rs: seq<GcReading>) returns (table: map<string, GcCounts>)
    ensures table == Baseline(rs)
  {
    table := map[];
    for i := 0 to |rs|
      invariant table == Baseline(rs[..i])
    {
      assert rs[..i + 1][..i] == rs[..i];
      table := table[rs[i].name := rs[i].counts];
    }
    assert rs[..|rs|] == rs;
  }

  /** The loop of a later GC report: each reading against its stored pair, which it then overwrites. */
  method DeltaEntries(rs: seq<GcReading>, stored: map<string, GcCounts>)
    returns (entries: seq<GcEntry>, table: map<string, GcCounts>)
    requires Covers(stored, rs)
    ensures (entries, table) == DeltaPass(rs, stored)
  {
    entries := [];
    table := stored;
    for i := 0 to |rs|
      invariant Covers(stored, rs[..i])
      invariant entries == DeltaPass(rs[..i], stored).0
      invariant table == DeltaPass(rs[..i], stored).1
    {
      assert rs[..i + 1][..i] == rs[..i];
      var name := rs[i].name;
      var lastStats := table[name];
      var deltaGCCount := rs[i].counts.count - lastStats.count;
      var deltaGCTime := rs[i].counts.timeMs - lastStats.timeMs;
      table := table[name := rs[i].counts];
      entries := entries + [GcEntry(name, Int32.Wrap(deltaGCCount), Int32.Wrap(deltaGCTime))];
    }
    assert rs[..|rs|] == rs;
  }

  /** With distinct names, the baseline stores exactly each source's reading. */
  lemma {:induction false} BaselineValues(rs: seq<GcReading>)
    requires DistinctNames(rs)
    ensures forall i :: 0 <= i < |rs| ==> Baseline(rs)[rs[i].name] == rs[i].counts
  {
    if rs != [] {
      var prefix := rs[..|rs| - 1];
      BaselineValues(prefix);
      forall i | 0 <= i < |rs| ensures Baseline(rs)[rs[i].name] == rs[i].counts {
        if i < |rs| - 1 {
          assert prefix[i] == rs[i];
        }
      }
    }
  }

  /**
   * With distinct names, a later report gives each source `current - stored` (cast to int)
   * and leaves the table holding the current readings, other sources untouched.
   */
  lemma {:induction false} DeltaPassValues(rs: seq<GcReading>, table: map<string, GcCounts>)
    requires Covers(table, rs) && DistinctNames(rs)
    ensures forall i :: 0 <= i < |rs| ==> DeltaPass(rs, table).0[i] == Delta(rs[i], table[rs[i].name])
    ensures forall i :: 0 <= i < |rs| ==> DeltaPass(rs, table).1[rs[i].name] == rs[i].counts
    ensures forall n :: n in table && n !in Names(rs) ==> DeltaPass(rs, table).1[n] == table[n]
  {
    if rs != [] {
      var prefix := rs[..|rs| - 1];
      var r := rs[|rs| - 1];
      assert rs == prefix + [r];
      assert Names(rs) == Names(prefix) + {r.name};
      assert Covers(table, prefix) by {
        forall k | 0 <= k < |prefix| ensures prefix[k].name in table {
          assert prefix[k] == rs[k];
        }
      }
      DeltaPassValues(prefix, table);
      var before := DeltaPass(prefix, table);
      assert r.name !in Names(prefix) by {
        forall k | 0 <= k < |prefix| ensures prefix[k].name != r.name {
          assert prefix[k] == rs[k];
        }
      }
      assert before.1[r.name] == table[r.name];
      forall i | 0 <= i < |rs|
        ensures DeltaPass(rs, table).0[i] == Delta(rs[i], table[rs[i].name])
        ensures DeltaPass(rs, table).1[rs[i].name] == rs[i].counts
      {
        if i < |rs| - 1 {
          assert prefix[i] == rs[i];
        }
      }
    }
  }

  /** Reporting against a baseline of the very same readings gives all-zero deltas. */
  lemma {:induction false} NoCollectionsNoDelta(rs: seq<GcReading>)
    requires DistinctNames(rs)
    ensures forall i :: 0 <= i < |rs| ==>
      DeltaPass(rs, Baseline(rs)).0[i] == GcEntry(rs[i].name, 0, 0)
  {
    BaselineValues(rs);
    DeltaPassValues(rs, Baseline(rs));
  }
}
