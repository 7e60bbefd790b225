/**
 * Data units and their packages (data_utils.py). A data unit of size n owns
 * packages 0..n-1, each with a state the simulation updates in place on the
 * shared package object: 0 waiting to be sent, 1 being sent, 2 delivered,
 * -1 lost. The controller numbers data units 0, 1, 2, ... as they are added,
 * lists the waiting packages, and says when nothing is waiting or in flight.
 *
 * Packages are objects (the lists handed out alias the stored packages);
 * the properties are stated on snapshots of their states.
 */
module DataUtils {

  /** The state of a freshly created package. */
  const Waiting := 0
  /** The state of a package a worker is carrying. */
  const Sending := 1

  /** One package as a value: its id and its state at the moment of the snapshot. */
  datatype PackageRecord = PackageRecord(packageId: int, state: int)

  /** A data unit as a value: its id and its packages in key order. */
  type DataRecord = (int, seq<PackageRecord>)

  // ---------------------------------------------------------------------------
  // Specification on snapshots
  // ---------------------------------------------------------------------------

  /** The packages of a data unit of size `size` as created: ids 0..size-1, all waiting. */
  function FreshRecords(size: int): (rs: seq<PackageRecord>)
    ensures |rs| == if size < 0 then 0 else size
    ensures IdsIncrease(rs) && forall j :: 0 <= j < |rs| ==> rs[j].packageId == j && rs[j].state == Waiting
  {
    seq(if size < 0 then 0 else size, i => PackageRecord(i, Waiting))
  }

  /** The packages still waiting, in order (`Data.get_not_sent_packages`). */
  function NotSent(rs: seq<PackageRecord>): (r: seq<PackageRecord>)
    ensures |r| <= |rs|
    ensures forall i :: 0 <= i < |r| ==> r[i].state == Waiting
  {
    if rs == [] then []
    else
      var last := rs[|rs| - 1];
      NotSent(rs[..|rs| - 1]) + (if last.state == Waiting then [last] else [])
  }

  /** Each element of `xs` (a package record or a package object) paired with the data id `d`. */
  function Tag<T>(d: int, xs: seq<T>): (r: seq<(int, T)>)
    ensures |r| == |xs| && forall i :: 0 <= i < |xs| ==> r[i] == (d, xs[i])
  {
    seq(|xs|, i requires 0 <= i < |xs| => (d, xs[i]))
  }

  /** The waiting packages of every data unit, data by data (`DataController.get_not_sent_packages`). */
  function AllNotSent(v: seq<DataRecord>): (r: seq<(int, PackageRecord)>)
    ensures forall i :: 0 <= i < |r| ==> r[i].1.state == Waiting
  {
    if v == [] then []
    else
      var last := v[|v| - 1];
      AllNotSent(v[..|v| - 1]) + Tag(last.0, NotSent(last.1))
  }

  /** A package is settled once it is neither waiting nor being sent. */
  predicate Settled(r: PackageRecord)
  {
    r.state != Waiting && r.state != Sending
  }

  /** `is_all_packages_delivered_or_lost`: every package of every data unit is settled. */
  predicate AllDeliveredOrLost(v: seq<DataRecord>)
    ensures v == [] ==> AllDeliveredOrLost(v)
  {
    forall i, j :: 0 <= i < |v| && 0 <= j < |v[i].1| ==> Settled(v[i].1[j])
  }

  /** Every waiting package set to `state`, as the simulation does when it hands packages out. */
  function MarkWaiting(v: seq<DataRecord>, state: int): (w: seq<DataRecord>)
  {
    seq(|v|, i requires 0 <= i < |v| =>
      (v[i].0, seq(|v[i].1|, j requires 0 <= j < |v[i].1| =>
        if v[i].1[j].state == Waiting then v[i].1[j].(state := state) else v[i].1[j])))
  }

  /** Package ids strictly increase along `rs`. */
  predicate IdsIncrease(rs: seq<PackageRecord>)
  {
    forall i, j :: 0 <= i < j < |rs| ==> rs[i].packageId < rs[j].packageId
  }

  /** The pairs strictly increase by data id and then by package id. */
  predicate PairsIncrease(ps: seq<(int, PackageRecord)>)
  {
    forall i, j :: 0 <= i < j < |ps| ==>
      ps[i].0 < ps[j].0 || (ps[i].0 == ps[j].0 && ps[i].1.packageId < ps[j].1.packageId)
  }

  // ---------------------------------------------------------------------------
  // Properties of the snapshots
  // ---------------------------------------------------------------------------

  /** The waiting list holds exactly the waiting packages, and no more than there are. */
  lemma {:induction false} NotSentExactly(rs: seq<PackageRecord>)
    ensures forall x :: x in NotSent(rs) <==> x in rs && x.state == Waiting
    ensures |NotSent(rs)| <= |rs|
  {
    if rs != [] {
      var init := rs[..|rs| - 1];
      NotSentExactly(init);
      assert rs == init + [rs[|rs| - 1]];
    }
  }

  /** The waiting list keeps the order of the packages. */
  lemma {:induction false} NotSentKeepsOrder(rs: seq<PackageRecord>)
    requires IdsIncrease(rs)
    ensures IdsIncrease(NotSent(rs))
  {
    if rs != [] {
      var init := rs[..|rs| - 1];
      var last := rs[|rs| - 1];
      NotSentKeepsOrder(init);
      NotSentExactly(init);
      var n := NotSent(init);
      forall i | 0 <= i < |n| ensures n[i].packageId < last.packageId {
        assert n[i] in init;
      }
    }
  }

  /** When every package is waiting, all of them are listed. */
  lemma {:induction false} AllWaitingListed(rs: seq<PackageRecord>)
    requires forall j :: 0 <= j < |rs| ==> rs[j].state == Waiting
    ensures NotSent(rs) == rs
  {
    if rs != [] {
      AllWaitingListed(rs[..|rs| - 1]);
    }
  }

  /** A pair is listed exactly when its data unit has that package waiting. */
  lemma {:induction false} AllNotSentExactly(v: seq<DataRecord>, d: int, x: PackageRecord)
    ensures (d, x) in AllNotSent(v) <==>
      exists i :: 0 <= i < |v| && v[i].0 == d && x in v[i].1 && x.state == Waiting
  {
    if v != [] {
      var init, last := v[..|v| - 1], v[|v| - 1];
      AllNotSentExactly(init, d, x);
      NotSentExactly(last.1);
      var tagged := Tag(last.0, NotSent(last.1));
      assert (d, x) in tagged <==> d == last.0 && x in NotSent(last.1) by {
        if (d, x) in tagged {
          var k :| 0 <= k < |tagged| && tagged[k] == (d, x);
        }
        if d == last.0 && x in NotSent(last.1) {
          var k :| 0 <= k < |NotSent(last.1)| && NotSent(last.1)[k] == x;
          assert tagged[k] == (d, x);
        }
      }
      if exists i :: 0 <= i < |v| && v[i].0 == d && x in v[i].1 && x.state == Waiting {
        var i :| 0 <= i < |v| && v[i].0 == d && x in v[i].1 && x.state == Waiting;
        if i < |v| - 1 {
          assert init[i] == v[i];
        }
      }
    }
  }

  /**
   * With data ids increasing and each unit's package ids increasing, the
   * list is ordered by data id and then by package id.
   */
  lemma {:induction false} AllNotSentOrdered(v: seq<DataRecord>)
    requires forall i, j :: 0 <= i < j < |v| ==> v[i].0 < v[j].0
    requires forall i :: 0 <= i < |v| ==> IdsIncrease(v[i].1)
    ensures PairsIncrease(AllNotSent(v))
  {
    if v != [] {
      var init, last := v[..|v| - 1], v[|v| - 1];
      AllNotSentOrdered(init);
      NotSentKeepsOrder(last.1);
      var a, b := AllNotSent(init), Tag(last.0, NotSent(last.1));
      forall i | 0 <= i < |a| ensures a[i].0 < last.0 {
        AllNotSentExactly(init, a[i].0, a[i].1);
        assert a[i] in a;
      }
      assert forall i :: |a| <= i < |a + b| ==> (a + b)[i] == b[i - |a|];
    }
  }

  /** A data unit without a waiting package contributes nothing. */
  lemma {:induction false} NoneWaiting(rs: seq<PackageRecord>)
    requires forall j :: 0 <= j < |rs| ==> rs[j].state != Waiting
    ensures NotSent(rs) == []
  {
    if rs != [] {
      NoneWaiting(rs[..|rs| - 1]);
    }
  }

  /** When no package is waiting the list is empty. */
  lemma {:induction false} NothingWaitingNothingListed(v: seq<DataRecord>)
    requires forall i, j :: 0 <= i < |v| && 0 <= j < |v[i].1| ==> v[i].1[j].state != Waiting
    ensures AllNotSent(v) == []
  {
    if v != [] {
      var init, last := v[..|v| - 1], v[|v| - 1];
      forall i, j | 0 <= i < |init| && 0 <= j < |init[i].1| ensures init[i].1[j].state != Waiting {
        assert init[i] == v[i];
      }
      NothingWaitingNothingListed(init);
      NoneWaiting(last.1);
    }
  }

  /** Once every package is delivered or lost, nothing is listed to send. */
  lemma DoneMeansNothingToSend(v: seq<DataRecord>)
    requires AllDeliveredOrLost(v)
    ensures AllNotSent(v) == []
  {
    NothingWaitingNothingListed(v);
  }

  /** A data unit with a waiting or sending package keeps the controller from being done. */
  lemma PendingMeansNotDone(v: seq<DataRecord>, i: int, j: int)
    requires 0 <= i < |v| && 0 <= j < |v[i].1| && v[i].1[j].state in {Waiting, Sending}
    ensures !AllDeliveredOrLost(v)
  {
  }

  /** Setting every waiting package to a non-waiting state empties the list. */
  lemma MarkingEmptiesList(v: seq<DataRecord>, state: int)
    requires state != Waiting
    ensures AllNotSent(MarkWaiting(v, state)) == []
  {
    NothingWaitingNothingListed(MarkWaiting(v, state));
  }

  /**
   * Setting every waiting package to delivered or lost, when none is being
   * sent, settles everything.
   */
  lemma MarkingSettles(v: seq<DataRecord>, state: int)
    requires state != Waiting && state != Sending
    requires forall i, j :: 0 <= i < |v| && 0 <= j < |v[i].1| ==> v[i].1[j].state != Sending
    ensures AllDeliveredOrLost(MarkWaiting(v, state))
  {
  }

  /** A new data unit puts all its packages at the end of the list, in id order. */
  lemma AddedDataJoinsTheList(v: seq<DataRecord>, d: int, size: int)
    ensures AllNotSent(v + [(d, FreshRecords(size))]) == AllNotSent(v) + Tag(d, FreshRecords(size))
  {
    AllWaitingListed(FreshRecords(size));
    assert (v + [(d, FreshRecords(size))])[..|v|] == v;
  }

  /**
   * The unit-test scenarios: two data units of eight packages list sixteen
   * packages and are not done; after handing all of them out (state 1)
   * nothing is listed; after delivering all of them (state 2) everything is
   * settled.
   */
  lemma DataScenarios()
    ensures var v := [(0, FreshRecords(8)), (1, FreshRecords(8))];
      && |AllNotSent(v)| == 16
      && !AllDeliveredOrLost(v)
      && AllNotSent(MarkWaiting(v, Sending)) == []
      && AllDeliveredOrLost(MarkWaiting(v, 2))
  {
    var v := [(0, FreshRecords(8)), (1, FreshRecords(8))];
    AddedDataJoinsTheList([], 0, 8);
    AddedDataJoinsTheList([(0, FreshRecords(8))], 1, 8);
    assert [(0, FreshRecords(8))] + [(1, FreshRecords(8))] == v;
    assert [] + [(0, FreshRecords(8))] == [(0, FreshRecords(8))];
    PendingMeansNotDone(v, 0, 0);
    MarkingEmptiesList(v, Sending);
    MarkingSettles(v, 2);
  }

  // ---------------------------------------------------------------------------
  // The objects
  // ---------------------------------------------------------------------------

  /** `Package`: its id and its mutable state. */
  class Package {
    const packageId: int
    var packageState: int

    constructor (packageId: int)
      ensures this.packageId == packageId && packageState == Waiting
    {
      this.packageId := packageId;
      this.packageState := Waiting;
    }
  }

  /** The packages of `ps` whose state is waiting, in order. */
  function WaitingAmong(ps: seq<Package>): seq<Package>
    reads set p | p in ps
  {
    if ps == [] then []
    else
      var last := ps[|ps| - 1];
      WaitingAmong(ps[..|ps| - 1]) + (if last.packageState == Waiting then [last] else [])
  }

  /** Filtering the objects agrees with filtering their snapshot, and keeps only objects of `ps`. */
  lemma {:induction false} WaitingAmongRecords(ps: seq<Package>)
    ensures Records(WaitingAmong(ps)) == NotSent(Records(ps))
    ensures forall p :: p in WaitingAmong(ps) ==> p in ps
  {
    if ps != [] {
      var init := ps[..|ps| - 1];
      WaitingAmongRecords(init);
      assert Records(ps)[..|ps| - 1] == Records(init);
    }
  }

  /** A snapshot of the states of `ps`. */
  function Records(ps: seq<Package>): (rs: seq<PackageRecord>)
    reads set p | p in ps
    ensures |rs| == |ps|
    ensures forall i :: 0 <= i < |ps| ==> rs[i] == PackageRecord(ps[i].packageId, ps[i].packageState)
  {
    seq(|ps|, i requires 0 <= i < |ps| reads set p | p in ps => PackageRecord(ps[i].packageId, ps[i].packageState))
  }

  /** A snapshot of the pairs of `r`, each package by its id and state. */
  function Listed(r: seq<(int, Package)>): (l: seq<(int, PackageRecord)>)
    reads set e | e in r :: e.1
    ensures |l| == |r|
    ensures forall i :: 0 <= i < |r| ==> l[i] == (r[i].0, PackageRecord(r[i].1.packageId, r[i].1.packageState))
  {
    seq(|r|, i requires 0 <= i < |r| reads set e | e in r :: e.1 =>
      (r[i].0, PackageRecord(r[i].1.packageId, r[i].1.packageState)))
  }

  /** Listing pairs appended under one data id appends their tagged records. */
  lemma ListedTag(r: seq<(int, Package)>, d: int, ps: seq<Package>)
    ensures Listed(r + Tag(d, ps)) == Listed(r) + Tag(d, Records(ps))
  {
    var l := r + Tag(d, ps);
    assert forall i :: |r| <= i < |l| ==> l[i] == (d, ps[i - |r|]);
  }

  /** `Data`: a data unit owning its packages under keys 0..size-1. */
  class Data {
    const dataId: int
    const dataSize: int
    const packages: map<int, Package>

    /** The number of packages `range(data_size)` creates. */
    function Count(): nat
    {
      if dataSize < 0 then 0 else dataSize
    }

    /** Keys are exactly 0..size-1 and each package carries its key as id. */
    ghost predicate Valid()
    {
      && (forall i :: i in packages <==> 0 <= i < Count())
      && (forall i :: i in packages ==> packages[i].packageId == i)
    }

    /** The packages in key order, which is the order they were inserted in. */
    function Ordered(): (ps: seq<Package>)
      requires Valid()
      ensures |ps| == Count() && forall i :: 0 <= i < Count() ==> i in packages && ps[i] == packages[i]
      ensures forall p :: p in ps ==> p in packages.Values
    {
      seq(Count(), i requires 0 <= i < Count() && i in packages => packages[i])
    }

    /** The unit's packages as values, in key order. */
    function Snapshot(): seq<PackageRecord>
      requires Valid()
      reads packages.Values
    {
      Records(Ordered())
    }

    /** A data unit of `dataSize` fresh waiting packages. */
    constructor (dataId: int, dataSize: int)
      ensures this.dataId == dataId && this.dataSize == dataSize && Valid()
      ensures forall i :: i in packages ==> fresh(packages[i])
      ensures Snapshot() == FreshRecords(dataSize)
    {
      this.dataId := dataId;
      this.dataSize := dataSize;
      var m: map<int, Package> := map[];
      var i := 0;
      while i < dataSize
        invariant 0 <= i <= if dataSize < 0 then 0 else dataSize
        invariant forall k :: k in m <==> 0 <= k < i
        invariant forall k :: k in m ==> m[k].packageId == k && m[k].packageState == Waiting && fresh(m[k])
      {
        var p := new Package(i);
        m := m[i := p];
        i := i + 1;
      }
      this.packages := m;
      new;
      assert forall i :: 0 <= i < Count() ==> Ordered()[i] == m[i] && Snapshot()[i] == FreshRecords(dataSize)[i];
    }

    /** `get_not_sent_packages`: the stored package objects that are waiting, in key order. */
    method GetNotSentPackages() returns (r: seq<Package>)
      requires Valid()
      ensures r == NotSentPackages()
    {
      ghost var all := Ordered();
      r := [];
      var i := 0;
      while i < Count()
        invariant 0 <= i <= Count()
        invariant r == WaitingAmong(all[..i])
      {
        var package := packages[i];
        assert all[..i + 1] == all[..i] + [package];
        if package.packageState == Waiting {
          r := r + [package];
        }
        i := i + 1;
      }
      assert all[..Count()] == all;
    }

    /**
     * What `get_not_sent_packages` returns: the stored package objects (not
     * copies) whose state is waiting, in key order.
     */
    function NotSentPackages(): (r: seq<Package>)
      requires Valid()
      reads packages.Values
      ensures Records(r) == NotSent(Snapshot())
      ensures forall p :: p in r ==> p.packageId in packages && packages[p.packageId] == p
    {
      WaitingAmongRecords(Ordered());
      WaitingAmong(Ordered())
    }
  }

  /** The package objects of every data unit in `datas`. */
  ghost function PackagesOf(datas: map<int, Data>): set<Package>
  {
    set d, p | d in datas.Values && p in d.packages.Values :: p
  }

  /** Data units 0..n-1 of `datas` as values, in id order. */
  function SnapshotOf(datas: map<int, Data>, n: int): (v: seq<DataRecord>)
    requires forall k :: 0 <= k < n ==> k in datas && datas[k].Valid()
    reads PackagesOf(datas)
    ensures |v| == if n < 0 then 0 else n
    ensures forall k :: 0 <= k < n ==> v[k] == (datas[k].dataId, datas[k].Snapshot())
    decreases n
  {
    if n <= 0 then []
    else
      assert datas[n - 1] in datas.Values;
      SnapshotOf(datas, n - 1) + [(datas[n - 1].dataId, datas[n - 1].Snapshot())]
  }

  /** Snapshots agree on maps that agree on the keys read. */
  lemma {:induction false} SnapshotOfAgree(m1: map<int, Data>, m2: map<int, Data>, n: int)
    requires forall k :: 0 <= k < n ==> k in m1 && k in m2 && m1[k] == m2[k] && m1[k].Valid()
    ensures SnapshotOf(m1, n) == SnapshotOf(m2, n)
    decreases n
  {
    if n > 0 {
      SnapshotOfAgree(m1, m2, n - 1);
    }
  }

  /** Adding unit `d` under the next key `n` appends its snapshot. */
  lemma SnapshotExtend(datas: map<int, Data>, n: int, d: Data)
    requires n >= 0 && d.Valid() && forall k :: 0 <= k < n ==> k in datas && datas[k].Valid()
    ensures SnapshotOf(datas[n := d], n + 1) == SnapshotOf(datas, n) + [(d.dataId, d.Snapshot())]
  {
    SnapshotOfAgree(datas[n := d], datas, n);
  }

  /** Ids 0..n-1 are exactly the keys, each taken by a valid unit carrying its id. */
  ghost predicate Units(datas: map<int, Data>, n: int)
  {
    && n >= 0
    && (forall k :: k in datas <==> 0 <= k < n)
    && (forall k :: k in datas ==> datas[k].dataId == k && datas[k].Valid())
  }

  /** Storing a valid unit under the next id keeps the units well formed. */
  lemma UnitsExtend(datas: map<int, Data>, n: int, d: Data)
    requires Units(datas, n) && d.Valid() && d.dataId == n
    ensures Units(datas[n := d], n + 1)
  {
  }

  /** Listing one more unit appends its waiting packages under its id. */
  lemma AllNotSentStep(datas: map<int, Data>, k: int)
    requires 0 <= k && forall i :: 0 <= i <= k ==> i in datas && datas[i].Valid()
    ensures AllNotSent(SnapshotOf(datas, k + 1)) ==
      AllNotSent(SnapshotOf(datas, k)) + Tag(datas[k].dataId, NotSent(datas[k].Snapshot()))
  {
    assert SnapshotOf(datas, k + 1)[..k] == SnapshotOf(datas, k);
  }

  /**
   * One round of the controller's listing: appending unit k's waiting
   * packages under its id extends the listing from units 0..k-1 to 0..k,
   * and every pair still names a stored package of its unit.
   */
  lemma OuterStep(datas: map<int, Data>, k: int, before: seq<(int, Package)>, waiting: seq<Package>)
    requires 0 <= k && forall i :: 0 <= i <= k ==> i in datas && datas[i].Valid() && datas[i].dataId == i
    requires Listed(before) == AllNotSent(SnapshotOf(datas, k))
    requires forall e :: e in before ==> e.0 in datas && e.1.packageId in datas[e.0].packages && datas[e.0].packages[e.1.packageId] == e.1
    requires waiting == datas[k].NotSentPackages()
    ensures Listed(before + Tag(k, waiting)) == AllNotSent(SnapshotOf(datas, k + 1))
    ensures forall e :: e in before + Tag(k, waiting) ==>
      e.0 in datas && e.1.packageId in datas[e.0].packages && datas[e.0].packages[e.1.packageId] == e.1
  {
    ListedTag(before, k, waiting);
    AllNotSentStep(datas, k);
    var r := before + Tag(k, waiting);
    forall e | e in r
      ensures e.0 in datas && e.1.packageId in datas[e.0].packages && datas[e.0].packages[e.1.packageId] == e.1
    {
      var i :| 0 <= i < |r| && r[i] == e;
      if i >= |before| {
        assert e == (k, waiting[i - |before|]) && waiting[i - |before|] in waiting;
      }
    }
  }

  /** `DataController`: the data units by id, and the next id to give. */
  class DataController {
    var datas: map<int, Data>
    var newDataId: int

    /** Ids 0..newDataId-1 are taken, each by a valid unit carrying its id. */
    ghost predicate Valid()
      reads this
    {
      Units(datas, newDataId)
    }

    /** Every data unit as a value, in id order. */
    function Snapshot(): seq<DataRecord>
      requires Valid()
      reads this, PackagesOf(datas)
    {
      SnapshotOf(datas, newDataId)
    }

    /** No data yet; the first unit gets id 0. */
    constructor ()
      ensures Valid() && newDataId == 0 && Snapshot() == []
    {
      datas := map[];
      newDataId := 0;
    }

    /** `add_data`: store a new unit under the next id and return it. */
    method AddData(dataSize: int) returns (d: Data)
      requires Valid()
      modifies this
      ensures Valid() && fresh(d) && d.Valid()
      ensures newDataId == old(newDataId) + 1 && datas == old(datas)[old(newDataId) := d]
      ensures d.dataId == old(newDataId) && d.Snapshot() == FreshRecords(dataSize)
      ensures Snapshot() == old(Snapshot()) + [(old(newDataId), FreshRecords(dataSize))]
    {
      ghost var earlier := Snapshot();
      d := new Data(newDataId, dataSize);
      assert Snapshot() == earlier;
      Register(d);
    }

    /** The second half of `add_data`: `d` goes under the next id, which moves on. */
    method Register(d: Data)
      requires Valid() && d.Valid() && d.dataId == newDataId
      modifies this
      ensures Valid()
      ensures newDataId == old(newDataId) + 1 && datas == old(datas)[old(newDataId) := d]
      ensures Snapshot() == old(Snapshot()) + [(d.dataId, d.Snapshot())]
    {
      SnapshotExtend(datas, newDataId, d);
      UnitsExtend(datas, newDataId, d);
      datas := datas[newDataId := d];
      newDataId := newDataId + 1;
    }

    /** `get_not_sent_packages`: (data id, package) for every waiting package, data by data. */
    method GetNotSentPackages() returns (r: seq<(int, Package)>)
      requires Valid()
      ensures Listed(r) == AllNotSent(Snapshot())
      ensures forall e :: e in r ==> e.0 in datas && e.1.packageId in datas[e.0].packages && datas[e.0].packages[e.1.packageId] == e.1
    {
      r := [];
      var k := 0;
      while k < newDataId
        invariant 0 <= k <= newDataId
        invariant Listed(r) == AllNotSent(SnapshotOf(datas, k))
        invariant forall e :: e in r ==> e.0 in datas && e.1.packageId in datas[e.0].packages && datas[e.0].packages[e.1.packageId] == e.1
      {
        var data := datas[k];
        ghost var before := r;
        var waiting := data.NotSentPackages();
        // the inner loop appends (data id, package) for each waiting package in turn
        r := r + Tag(data.dataId, waiting);
        OuterStep(datas, k, before, waiting);
        k := k + 1;
      }
    }

    /** `is_all_packages_delivered_or_lost`: no package of any unit waits or is being sent. */
    method IsAllPackagesDeliveredOrLost() returns (r: bool)
      requires Valid()
      ensures r == AllDeliveredOrLost(Snapshot())
    {
      ghost var v := Snapshot();
      var k := 0;
      while k < newDataId
        invariant 0 <= k <= newDataId
        invariant forall i, j :: 0 <= i < k && 0 <= j < |v[i].1| ==> Settled(v[i].1[j])
      {
        var data := datas[k];
        assert v[k].1 == Records(data.Ordered());
        var i := 0;
        while i < data.Count()
          invariant 0 <= i <= data.Count() == |v[k].1|
          invariant forall j :: 0 <= j < i ==> Settled(v[k].1[j])
        {
          var package := data.packages[i];
          assert v[k].1[i] == PackageRecord(package.packageId, package.packageState);
          if package.packageState == Waiting || package.packageState == Sending {
            return false;
          }
          i := i + 1;
        }
        k := k + 1;
      }
      return true;
    }
  }
}
