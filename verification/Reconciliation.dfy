/** Whole runs of the controller (internal/controller/scaledobject.go and
    repository_sink.go) over the stored workloads, and the scaler's snapshot
    cache (internal/scaler/cache.go) that depends on them. */
module Reconciliation {
  import opened Wrappers
  import opened Parser
  import opened WorkloadRepository

  // ----- runs

  /** The tables, and for every ScaledObject the workloads of the last observation
      whose transaction committed (none after a deletion). */
  datatype State = State(tables: Tables, last: map<Parent, seq<Spec>>)

  function Last(s: State, parent: Parent): seq<Spec> { if parent in s.last then s.last[parent] else [] }

  /** A ScaledObject is observed or found deleted, or some other component writes
      models and training runs. Any transaction may fail to commit. */
  datatype Event =
    | Observed(input: Input, options: Options, candidates: seq<Candidate>, uid: string, generation: int, now: int,
               commits: bool)
    | Deleted(parent: Parent, now: int, commits: bool)
    | OtherWrites(models: map<nat, nat>, runs: map<nat, Run>)

  ghost predicate Enabled(s: State, e: Event) {
    match e
    case Observed(i, o, candidates, _, _, _, _) =>
      |candidates| == |Predictive(i.triggers, o)| && forall k :: 0 <= k < |candidates| ==>
        IsCandidate(i, o, k, candidates[k])
    case Deleted(_, _, _) => true
    case OtherWrites(models, runs) => WellFormed(s.tables.(models := models, runs := runs))
  }

  function RequestOf(i: Input, o: Options, candidates: seq<Candidate>, uid: string, generation: int): Request {
    Request(Parent(o.cluster, i.namespace, i.name), uid, generation, Desired(candidates))
  }

  function Next(s: State, e: Event): State {
    match e
    case Observed(i, o, candidates, uid, generation, now, commits) =>
      var r := RequestOf(i, o, candidates, uid, generation);
      if commits && AllStorable(r.desired) then State(Reconciled(s.tables, r, now), s.last[r.parent := r.desired])
        else s
    case Deleted(parent, now, commits) =>
      if commits then State(Deactivated(s.tables, parent, {}, now), s.last[parent := []]) else s
    case OtherWrites(models, runs) => s.(tables := s.tables.(models := models, runs := runs))
  }

  function Run(s: State, es: seq<Event>): State {
    if es == [] then s else Next(Run(s, es[..|es| - 1]), es[|es| - 1])
  }

  ghost predicate AllEnabled(s: State, es: seq<Event>) {
    forall n :: 0 <= n < |es| ==> Enabled(Run(s, es[..n]), es[n])
  }

  const INITIAL := State(Tables(map[], map[], map[], 0), map[])

  ghost predicate ServesLast(s: State, parent: Parent) {
    Serves(s.tables, parent, Last(s, parent)) && Coherent(parent, Last(s, parent))
  }

  ghost predicate Inv(s: State) {
    WellFormed(s.tables) && forall parent: Parent :: ServesLast(s, parent)
  }

  lemma OthersServe(s: State, u: State, parent: Parent)
    requires Inv(s) && OthersUnchanged(s.tables, u.tables, parent) && WellFormed(u.tables)
    requires forall p: Parent :: p != parent ==> Last(u, p) == Last(s, p)
    requires ServesLast(u, parent)
    ensures Inv(u)
  {
    hide Wanted, Coherent, WellFormed, Last;
    forall p: Parent ensures ServesLast(u, p) {
      if p != parent {
        assert ServesLast(s, p);
        StillServes(s.tables, u.tables, parent, p, Last(s, p));
      }
    }
  }

  lemma StillServes(t: Tables, u: Tables, parent: Parent, p: Parent, ds: seq<Spec>)
    requires OthersUnchanged(t, u, parent) && p != parent && Serves(t, p, ds) && Coherent(p, ds)
    ensures Serves(u, p, ds)
  {
    hide Wanted, Consistent;
  }

  lemma NextKeeps(s: State, e: Event)
    requires Inv(s) && Enabled(s, e)
    ensures Inv(Next(s, e))
  {
    hide WellFormed, Serves, OthersUnchanged, Coherent, IsCandidate, Reconciled, Deactivated, Predictive, Desired,
      ModelsEffect, AllStorable, IdsKept, Wanted;
    var u := Next(s, e);
    match e
    case Observed(i, o, candidates, uid, generation, now, commits) =>
      var r := RequestOf(i, o, candidates, uid, generation);
      ParsedIsCoherent(i, o, candidates);
      if commits && AllStorable(r.desired) {
        ReconciledEffect(s.tables, r, now);
        OthersServe(s, u, r.parent);
      }
    case Deleted(parent, now, commits) =>
      if commits {
        DeactivatedEffect(s.tables, parent, now);
        NothingIsCoherent(parent);
        OthersServe(s, u, parent);
      }
    case OtherWrites(models, runs) =>
      forall p: Parent ensures ServesLast(u, p) {
        assert ServesLast(s, p);
        RowsServe(s.tables, u.tables, p, Last(s, p));
      }
  }

  lemma RowsServe(t: Tables, u: Tables, p: Parent, ds: seq<Spec>)
    requires t.rows == u.rows && Serves(t, p, ds)
    ensures Serves(u, p, ds)
  {
    hide Wanted;
  }

  lemma NothingIsCoherent(parent: Parent)
    ensures Coherent(parent, [])
  {
  }

  /** After any run of observations, deletions, failures and foreign writes, the
      active workloads of every ScaledObject are exactly those of its last
      committed observation. */
  lemma {:induction false} RunsServeTheLastObservation(es: seq<Event>)
    requires AllEnabled(INITIAL, es)
    ensures Inv(Run(INITIAL, es))
  {
    hide Enabled, Next, Inv;
    if es == [] {
      InitialInv();
    } else {
      var n := |es| - 1;
      forall m | 0 <= m < n ensures Enabled(Run(INITIAL, es[..n][..m]), es[..n][m]) { assert es[..n][..m] == es[..m]; }
      RunsServeTheLastObservation(es[..n]);
      NextKeeps(Run(INITIAL, es[..n]), es[n]);
    }
  }

  lemma InitialInv()
    ensures Inv(INITIAL)
  {
    forall p: Parent ensures ServesLast(INITIAL, p) { NothingIsCoherent(p); }
  }

  // ----- the scaler's key

  datatype Address = Address(cluster: string, namespace: string, scaledObject: string, source: string)

  function AddressOf(row: Row): Address {
    Address(row.spec.key.parent.cluster, row.spec.key.parent.namespace, row.spec.key.parent.name,
            row.spec.source.trigger)
  }

  predicate ActiveAt(t: Tables, k: Key) { k in t.rows && t.rows[k].active }

  /** The scaler addresses a workload by its source trigger, which identifies it
      among the active ones. */
  lemma AddressIdentifiesWorkload(s: State, j: Key, k: Key)
    requires Inv(s) && ActiveAt(s.tables, j) && ActiveAt(s.tables, k)
    requires AddressOf(s.tables.rows[j]) == AddressOf(s.tables.rows[k])
    ensures j == k
  {
    hide WellFormed, Consistent;
    ActiveIsWanted(s, j);
    ActiveIsWanted(s, k);
    var ds := Last(s, j.parent);
    var a :| 0 <= a < |ds| && ds[a].key == j;
    var b :| 0 <= b < |ds| && ds[b].key == k;
    assert s.tables.rows[j].spec == Saved(ds[a]) && s.tables.rows[k].spec == Saved(ds[b]);
  }

  lemma ActiveIsWanted(s: State, k: Key)
    requires Inv(s) && ActiveAt(s.tables, k)
    ensures Serves(s.tables, k.parent, Last(s, k.parent)) && Coherent(k.parent, Last(s, k.parent))
    ensures exists d :: d in Last(s, k.parent) && d.key == k && s.tables.rows[k].spec == Saved(d)
  {
    hide WellFormed, Coherent;
    assert ServesLast(s, k.parent);
    assert Wanted(Last(s, k.parent), k);
  }

  // ----- the cache

  datatype Snapshot = Snapshot(workload: nat, generatedAt: int, demand: real)

  datatype Listed = Listed(address: Address, snapshot: Snapshot)

  /** The snapshot belongs to the active workload at k and none of that workload
      is newer. */
  ghost predicate IsLatestOf(t: Tables, snapshots: set<Snapshot>, k: Key, s: Snapshot) {
    && ActiveAt(t, k) && s in snapshots && s.workload == t.rows[k].id
    && (forall x :: x in snapshots && x.workload == s.workload ==> x.generatedAt <= s.generatedAt)
  }

  ghost predicate ListedAt(t: Tables, snapshots: set<Snapshot>, cluster: string, k: Key, l: Listed) {
    IsLatestOf(t, snapshots, k, l.snapshot) && k.parent.cluster == cluster && l.address == AddressOf(t.rows[k])
  }

  ghost predicate IsListed(t: Tables, snapshots: set<Snapshot>, cluster: string, l: Listed) {
    exists k :: ListedAt(t, snapshots, cluster, k, l)
  }

  /** What ListLatestSnapshots returns: one latest snapshot for every active
      workload of the cluster that has any. */
  ghost predicate IsListing(t: Tables, snapshots: set<Snapshot>, cluster: string, rows: seq<Listed>) {
    && (forall n :: 0 <= n < |rows| ==> IsListed(t, snapshots, cluster, rows[n]))
    && (forall m, n :: 0 <= m < n < |rows| ==> rows[m].snapshot.workload != rows[n].snapshot.workload)
    && (forall k, s :: ActiveAt(t, k) && k.parent.cluster == cluster && s in snapshots && s.workload == t.rows[k].id ==>
          exists n :: 0 <= n < |rows| && rows[n].snapshot.workload == t.rows[k].id)
  }

  function Built(rows: seq<Listed>): map<Address, Snapshot> {
    if rows == [] then map[] else Built(rows[..|rows| - 1])[rows[|rows| - 1].address := rows[|rows| - 1].snapshot]
  }

  class SnapshotCache {
    const cluster: string
    var entries: map<Address, Snapshot>

    constructor (c: string)
      ensures cluster == c && entries == map[]
    {
      cluster, entries := c, map[];
    }

    /** A refresh that fails keeps what was cached. */
    method Refresh(listing: Option<seq<Listed>>) returns (ok: bool)
      modifies this`entries
      ensures ok <==> cluster != "" && listing.Some?
      ensures entries == if ok then Built(listing.value) else old(entries)
    {
      if cluster == "" { return false; }
      if listing.None? { return false; }
      var rows := listing.value;
      var next: map<Address, Snapshot> := map[];
      for n := 0 to |rows|
        invariant next == Built(rows[..n])
      {
        assert rows[..n + 1][..n] == rows[..n];
        next := next[rows[n].address := rows[n].snapshot];
      }
      assert rows[..|rows|] == rows;
      entries := next;
      ok := true;
    }

    /** The answer from the entries. Whenever these come from a listing, it is what
        the query itself would answer. */
    method LatestSnapshot(a: Address) returns (r: Option<Snapshot>)
      ensures r == if a in entries then Some(entries[a]) else None
      ensures forall s: State, snapshots, rows ::
                Inv(s) && IsListing(s.tables, snapshots, cluster, rows) && entries == Built(rows) ==>
                  AnswersLike(s.tables, snapshots, cluster, a, r)
    {
      hide Inv, IsListing, Answers, Built, AnswersLike;
      r := if a in entries then Some(entries[a]) else None;
      forall s: State, snapshots, rows
        | Inv(s) && IsListing(s.tables, snapshots, cluster, rows) && entries == Built(rows)
        ensures AnswersLike(s.tables, snapshots, cluster, a, r)
      {
        CacheAnswers(s, snapshots, cluster, rows, a);
      }
    }
  }

  lemma {:induction false} BuiltHolds(rows: seq<Listed>)
    requires forall m, n :: 0 <= m < n < |rows| ==> rows[m].address != rows[n].address
    ensures |Built(rows)| == |rows|
    ensures forall n :: 0 <= n < |rows| ==>
            rows[n].address in Built(rows)
            && Built(rows)[rows[n].address] == rows[n].snapshot
    ensures forall a :: a in Built(rows) ==> exists n :: 0 <= n < |rows| && rows[n].address == a
  {
    if rows != [] {
      var n := |rows| - 1;
      BuiltHolds(rows[..n]);
      assert forall m :: 0 <= m < n ==> rows[..n][m] == rows[m];
      BuiltStep(Built(rows[..n]), rows);
    }
  }

  lemma BuiltStep(before: map<Address, Snapshot>, rows: seq<Listed>)
    requires rows != [] && |before| == |rows| - 1
    requires forall m :: 0 <= m < |rows| - 1 ==> rows[m].address != rows[|rows| - 1].address
    requires forall m :: 0 <= m < |rows| - 1 ==>
             rows[m].address in before
             && before[rows[m].address] == rows[m].snapshot
    requires forall a :: a in before ==> exists m :: 0 <= m < |rows| - 1 && rows[m].address == a
    ensures var last := rows[|rows| - 1]; var built := before[last.address := last.snapshot];
            && |built| == |rows|
            && (forall m :: 0 <= m < |rows| ==> rows[m].address in built && built[rows[m].address] == rows[m].snapshot)
            && (forall a :: a in built ==> exists m :: 0 <= m < |rows| && rows[m].address == a)
  {
    var last := rows[|rows| - 1];
    MapCount(before, last.address, last.snapshot);
  }

  lemma MapCount<K, V>(m: map<K, V>, k: K, v: V)
    requires k !in m
    ensures |m[k := v]| == |m| + 1
  {
    assert m[k := v].Keys == m.Keys + {k};
    assert |m[k := v]| == |m[k := v].Keys| && |m| == |m.Keys|;
  }

  lemma ListedActive(t: Tables, snapshots: set<Snapshot>, cluster: string, rows: seq<Listed>, n: nat) returns (k: Key)
    requires IsListing(t, snapshots, cluster, rows) && n < |rows|
    ensures ActiveAt(t, k) && rows[n].address == AddressOf(t.rows[k]) && rows[n].snapshot.workload == t.rows[k].id
    ensures IsLatestOf(t, snapshots, k, rows[n].snapshot)
  {
    assert IsListed(t, snapshots, cluster, rows[n]);
    k :| ListedAt(t, snapshots, cluster, k, rows[n]);
  }

  lemma ListedOnce(s: State, snapshots: set<Snapshot>, cluster: string, rows: seq<Listed>, m: nat, n: nat)
    requires Inv(s) && IsListing(s.tables, snapshots, cluster, rows) && m < n < |rows|
    ensures rows[m].address != rows[n].address
  {
    hide Inv, ListedAt;
    var j := ListedActive(s.tables, snapshots, cluster, rows, m);
    var k := ListedActive(s.tables, snapshots, cluster, rows, n);
    if rows[m].address == rows[n].address { AddressIdentifiesWorkload(s, j, k); }
  }

  /** What the query without the cache answers for an address: a newest snapshot
      of any active workload with that address. */
  ghost predicate Answers(t: Tables, snapshots: set<Snapshot>, a: Address, s: Snapshot) {
    && s in snapshots && Owned(t, a, s)
    && (forall x :: x in snapshots && Owned(t, a, x) ==> x.generatedAt <= s.generatedAt)
  }

  ghost predicate Owned(t: Tables, a: Address, s: Snapshot) {
    exists k :: OwnedAt(t, a, s, k)
  }

  predicate OwnedAt(t: Tables, a: Address, s: Snapshot, k: Key) {
    ActiveAt(t, k) && AddressOf(t.rows[k]) == a && t.rows[k].id == s.workload
  }

  lemma LatestAnswers(s: State, snapshots: set<Snapshot>, k: Key, x: Snapshot)
    requires Inv(s) && IsLatestOf(s.tables, snapshots, k, x)
    ensures Answers(s.tables, snapshots, AddressOf(s.tables.rows[k]), x)
  {
    hide Inv;
    var a := AddressOf(s.tables.rows[k]);
    assert OwnedAt(s.tables, a, x, k);
    forall y | y in snapshots && Owned(s.tables, a, y) ensures y.generatedAt <= x.generatedAt {
      var j :| OwnedAt(s.tables, a, y, j);
      AddressIdentifiesWorkload(s, j, k);
    }
  }

  /** Rows carry their own key. */
  lemma RowCluster(s: State, k: Key)
    requires Inv(s) && ActiveAt(s.tables, k)
    ensures AddressOf(s.tables.rows[k]).cluster == k.parent.cluster
  {
    hide WellFormed, Coherent;
    ActiveIsWanted(s, k);
  }

  /** After a refresh the cache has exactly one entry per active workload with a
      snapshot, and answers every address of its cluster as the query would. */
  lemma CacheAnswersLikeTheDatabase(s: State, snapshots: set<Snapshot>, cluster: string, rows: seq<Listed>)
    requires Inv(s) && IsListing(s.tables, snapshots, cluster, rows)
    ensures |Built(rows)| == |rows|
    ensures forall a :: a in Built(rows) ==> Answers(s.tables, snapshots, a, Built(rows)[a])
    ensures forall a: Address, x :: a.cluster == cluster && x in snapshots && Owned(s.tables, a, x) ==> a in Built(rows)
  {
    hide Inv, Answers, AddressOf, ListedAt;
    forall m, n | 0 <= m < n < |rows|
      ensures rows[m].address != rows[n].address
    {
      ListedOnce(s, snapshots, cluster, rows, m, n);
    }
    BuiltHolds(rows);
    forall a | a in Built(rows) ensures Answers(s.tables, snapshots, a, Built(rows)[a]) {
      var n :| 0 <= n < |rows| && rows[n].address == a;
      var k := ListedActive(s.tables, snapshots, cluster, rows, n);
      LatestAnswers(s, snapshots, k, rows[n].snapshot);
    }
    forall a: Address, x | a.cluster == cluster && x in snapshots && Owned(s.tables, a, x) ensures a in Built(rows) {
      var k :| OwnedAt(s.tables, a, x, k);
      RowCluster(s, k);
      var n :| 0 <= n < |rows| && rows[n].snapshot.workload == s.tables.rows[k].id;
      var j := ListedActive(s.tables, snapshots, cluster, rows, n);
      SameId(s, j, k);
    }
  }

  /** The answer for one address, with the cache and without. */
  ghost predicate AnswersLike(t: Tables, snapshots: set<Snapshot>, cluster: string, a: Address, r: Option<Snapshot>) {
    if r.Some? then Answers(t, snapshots, a, r.value)
    else a.cluster == cluster ==> forall x :: x in snapshots ==> !Owned(t, a, x)
  }

  lemma CacheAnswers(s: State, snapshots: set<Snapshot>, cluster: string, rows: seq<Listed>, a: Address)
    requires Inv(s) && IsListing(s.tables, snapshots, cluster, rows)
    ensures AnswersLike(s.tables, snapshots, cluster, a, if a in Built(rows) then Some(Built(rows)[a]) else None)
  {
    hide Inv, IsListing, Answers, Built, Owned;
    CacheAnswersLikeTheDatabase(s, snapshots, cluster, rows);
  }

  lemma SameId(s: State, j: Key, k: Key)
    requires Inv(s) && j in s.tables.rows && k in s.tables.rows && s.tables.rows[j].id == s.tables.rows[k].id
    ensures j == k
  {
    hide ServesLast;
  }
}
