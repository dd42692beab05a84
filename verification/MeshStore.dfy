/** The links' paths in the store: none dangles, none is shared, and no two of a
    link have the same address. */
module MeshStore {
  import opened Requests
  import opened Paths
  import opened Mesh
  import opened MeshLaws

  /** A link's places are stored and their addresses distinct. */
  ghost predicate TidyLink(paths: map<nat, Path>, ids: seq<nat>) {
    && (forall k :: 0 <= k < |ids| ==> ids[k] in paths)
    && (forall j, k :: 0 <= j < k < |ids| ==> paths[ids[j]].addr != paths[ids[k]].addr)
  }

  ghost predicate Unshared(links: map<Name, Link>) {
    forall a, b, i :: a in links && b in links && i in links[a].paths && i in links[b].paths ==> a == b
  }

  ghost predicate Tidy(m: Mesh) {
    && (forall i :: i in m.paths ==> i < m.nextPath)
    && (forall n :: n in m.links ==> TidyLink(m.paths, m.links[n].paths))
    && Unshared(m.links)
  }

  lemma {:induction false} PlaceIsOurs(paths: map<nat, Path>, ids: seq<nat>, addr: string)
    ensures var p := PlaceOf(paths, ids, addr);
            if p.Some? then p.value in ids && p.value in paths && paths[p.value].addr == addr
            else forall i :: i in ids && i in paths ==> paths[i].addr != addr
  {
    if ids != [] {
      PlaceIsOurs(paths, ids[..|ids| - 1], addr);
      assert ids == ids[..|ids| - 1] + [ids[|ids| - 1]];
    }
  }

  /** A synced link keeps only places it had and fresh ones, one an address. */
  lemma {:induction false} PlacesAreTidy(paths: map<nat, Path>, ids: seq<nat>, addrs: seq<string>, n: nat, next: nat)
    requires n <= |addrs| && forall i :: i in paths ==> i < next
    ensures var r, f := PlacesOf(paths, ids, addrs, n, next), Filled(paths, ids, addrs, n, next);
            && TidyLink(f, r)
            && (forall i :: i in r ==> (i in ids && i in paths) || (next <= i < next + n))
            && (forall k :: 0 <= k < |r| ==> f[r[k]].addr in addrs[..n])
  {
    if n > 0 {
      var front, filled := PlacesOf(paths, ids, addrs, n - 1, next), Filled(paths, ids, addrs, n - 1, next);
      PlacesAreTidy(paths, ids, addrs, n - 1, next);
      PlaceIsOurs(paths, ids, addrs[n - 1]);
      FilledKeeps(paths, ids, addrs, n - 1, next);
      assert addrs[..n] == addrs[..n - 1] + [addrs[n - 1]];
    }
  }

  /** The links made so far use their own old places or ones since m. */
  ghost predicate OwnPlaces(m: Mesh, r: Mesh) {
    forall n, i :: n in r.links && i in r.links[n].paths ==> (n in m.links && i in m.links[n].paths) || m.nextPath <= i < r.nextPath
  }

  ghost predicate Grows(paths: map<nat, Path>, later: map<nat, Path>) {
    forall i :: i in paths ==> i in later && later[i] == paths[i]
  }

  lemma TidyLinkGrows(paths: map<nat, Path>, later: map<nat, Path>, ids: seq<nat>)
    requires TidyLink(paths, ids) && Grows(paths, later)
    ensures TidyLink(later, ids)
  {
  }

  /** What one record does to the link it names. */
  lemma SyncedIsTidy(m: Mesh, r: Record)
    requires forall i :: i in m.paths ==> i < m.nextPath
    ensures TidyLink(SyncedPaths(m, r), SyncedLink(m, r).paths) && Grows(m.paths, SyncedPaths(m, r))
    ensures forall i :: i in SyncedPaths(m, r) ==> i < m.nextPath + |r.addrs|
    ensures forall i :: i in SyncedLink(m, r).paths ==>
              (r.name in m.links && i in m.links[r.name].paths) || m.nextPath <= i < m.nextPath + |r.addrs|
  {
    var ids := if r.name in m.links then m.links[r.name].paths else [];
    PlacesAreTidy(m.paths, ids, r.addrs, |r.addrs|, m.nextPath);
    FilledKeeps(m.paths, ids, r.addrs, |r.addrs|, m.nextPath);
  }

  /** The first n addresses in registry order, repeats dropped. */
  function Firsts(addrs: seq<string>, n: nat): seq<string>
    requires n <= |addrs|
  {
    if n == 0 then [] else Firsts(addrs, n - 1) + if addrs[n - 1] in addrs[..n - 1] then [] else [addrs[n - 1]]
  }

  lemma {:induction false} PlacesFollow(paths: map<nat, Path>, ids: seq<nat>, addrs: seq<string>, n: nat, next: nat)
    requires n <= |addrs| && TidyLink(paths, ids) && forall i :: i in paths ==> i < next
    ensures var r, f := PlacesOf(paths, ids, addrs, n, next), Filled(paths, ids, addrs, n, next);
            && |r| == |Firsts(addrs, n)|
            && (forall k :: 0 <= k < |r| ==> r[k] in f && f[r[k]].addr == Firsts(addrs, n)[k])
            && (forall i :: i in ids && paths[i].addr in addrs[..n] ==> i in r)
            && (forall i :: i in f && i !in paths ==> f[i] == NewPath(f[i].addr))
  {
    if n > 0 {
      PlacesFollow(paths, ids, addrs, n - 1, next);
      PlacesAreTidy(paths, ids, addrs, n - 1, next);
      PlaceIsOurs(paths, ids, addrs[n - 1]);
      FilledKeeps(paths, ids, addrs, n - 1, next);
      assert addrs[..n] == addrs[..n - 1] + [addrs[n - 1]];
      forall i | i in ids && paths[i].addr in addrs[..n]
        ensures i in PlacesOf(paths, ids, addrs, n, next)
      {
        if paths[i].addr == addrs[n - 1] && addrs[n - 1] !in addrs[..n - 1] {
          OnePlace(paths, ids, i, PlaceOf(paths, ids, addrs[n - 1]).value);
        }
      }
    }
  }

  lemma OnePlace(paths: map<nat, Path>, ids: seq<nat>, i: nat, j: nat)
    requires TidyLink(paths, ids) && i in ids && j in ids && paths[i].addr == paths[j].addr
    ensures i == j
  {
    var a :| 0 <= a < |ids| && ids[a] == i;
    var b :| 0 <= b < |ids| && ids[b] == j;
  }

  /** A record makes its link's paths its addresses, in its order: a surviving address
      keeps its path and what was measured of it, a new one has none; the current path
      stays the current one while its address survives; and a link keeps its instants
      across records. */
  lemma SyncFollowsRecord(m: Mesh, r: Record)
    requires Tidy(m)
    ensures var was := if r.name in m.links then m.links[r.name] else Link(m.nextSerial, [], -1, 0, 0);
            var l, f := SyncedLink(m, r), SyncedPaths(m, r);
            && |l.paths| == |Firsts(r.addrs, |r.addrs|)|
            && (forall k :: 0 <= k < |l.paths| ==> l.paths[k] in f && f[l.paths[k]].addr == Firsts(r.addrs, |r.addrs|)[k])
            && (forall i :: i in was.paths && m.paths[i].addr in r.addrs ==> i in l.paths)
            && (forall i :: i in l.paths ==> if i in m.paths then f[i] == m.paths[i] else f[i] == NewPath(f[i].addr))
            && (if HasCur(was) && was.paths[was.cur] in l.paths then HasCur(l) && l.paths[l.cur] == was.paths[was.cur] else l.cur == -1)
            && l.serial == was.serial && l.switchedAt == was.switchedAt && l.heardAt == was.heardAt
  {
    var ids := if r.name in m.links then m.links[r.name].paths else [];
    PlacesFollow(m.paths, ids, r.addrs, |r.addrs|, m.nextPath);
    FilledKeeps(m.paths, ids, r.addrs, |r.addrs|, m.nextPath);
    assert r.addrs[..|r.addrs|] == r.addrs;
    var l := SyncedLink(m, r);
    if r.name in m.links && HasCur(m.links[r.name]) {
      IndexIsFound(l.paths, m.links[r.name].paths[m.links[r.name].cur]);
    }
  }

  /** With a record's link replaced, links still share nothing. */
  lemma UnsharedWith(m: Mesh, done: Mesh, name: Name, l: Link, grown: nat)
    requires Unshared(m.links) && Unshared(done.links) && OwnPlaces(m, done)
    requires m.nextPath <= done.nextPath
    requires forall n, i :: n in m.links && i in m.links[n].paths ==> i < m.nextPath
    requires forall i :: i in l.paths ==> (name in m.links && i in m.links[name].paths) || done.nextPath <= i < done.nextPath + grown
    ensures Unshared(done.links[name := l])
    ensures OwnPlaces(m, done.(links := done.links[name := l], nextPath := done.nextPath + grown))
  {
  }

  lemma WithRecordIsTidy(t: Timing, m: Mesh, done: Mesh, r: Record, now: int)
    requires Tidy(m) && Tidy(done) && OwnPlaces(m, done) && m.nextPath <= done.nextPath && Grows(m.paths, done.paths)
    ensures var w := WithRecord(t, m, done, r, now);
            Tidy(w) && OwnPlaces(m, w) && m.nextPath <= w.nextPath && Grows(m.paths, w.paths)
  {
    var w, from := WithRecord(t, m, done, r, now), done.(links := m.links);
    SyncedIsTidy(from, r);
    UnsharedWith(m, done, r.name, w.links[r.name], |r.addrs|);
    forall n | n in w.links
      ensures TidyLink(w.paths, w.links[n].paths)
    {
      if n != r.name {
        TidyLinkGrows(done.paths, w.paths, done.links[n].paths);
      }
    }
  }

  lemma {:induction false} RecordsAreTidy(t: Timing, m: Mesh, recs: seq<Record>, k: nat, now: int)
    requires Tidy(m) && k <= |recs|
    ensures var w := RecordsUpTo(t, m, recs, k, now);
            Tidy(w) && OwnPlaces(m, w) && m.nextPath <= w.nextPath && Grows(m.paths, w.paths)
  {
    if k > 0 {
      RecordsAreTidy(t, m, recs, k - 1, now);
      WithRecordIsTidy(t, m, RecordsUpTo(t, m, recs, k - 1, now), recs[k - 1], now);
    }
  }

  lemma OneRecordGrows(t: Timing, m: Mesh, recs: seq<Record>, k: nat, now: int)
    requires Tidy(m) && k < |recs|
    ensures Grows(RecordsUpTo(t, m, recs, k, now).paths, RecordsUpTo(t, m, recs, k + 1, now).paths)
    ensures RecordsUpTo(t, m, recs, k + 1, now).paths == SyncedPaths(RecordsUpTo(t, m, recs, k, now).(links := m.links), recs[k])
  {
    RecordsAreTidy(t, m, recs, k, now);
    SyncedIsTidy(RecordsUpTo(t, m, recs, k, now).(links := m.links), recs[k]);
  }

  lemma {:induction false} RecordsGrow(t: Timing, m: Mesh, recs: seq<Record>, j: nat, k: nat, now: int, from: map<nat, Path>)
    requires Tidy(m) && j <= k <= |recs| && Grows(from, RecordsUpTo(t, m, recs, j, now).paths)
    ensures Grows(from, RecordsUpTo(t, m, recs, k, now).paths)
    decreases k - j
  {
    if j < k {
      var here, next := RecordsUpTo(t, m, recs, j, now).paths, RecordsUpTo(t, m, recs, j + 1, now).paths;
      assert Grows(here, next) by { OneRecordGrows(t, m, recs, j, now); }
      GrowsOn(from, here, next);
      RecordsGrow(t, m, recs, j + 1, k, now, from);
    }
  }

  lemma GrowsOn(a: map<nat, Path>, b: map<nat, Path>, c: map<nat, Path>)
    requires Grows(a, b) && Grows(b, c)
    ensures Grows(a, c)
  {
  }

  /** What a record finds: the store as the records before it left it, and the links
      as they were. */
  ghost function Before(t: Timing, m: Mesh, recs: seq<Record>, k: nat, now: int): Mesh
    requires k <= |recs|
  {
    RecordsUpTo(t, m, recs, k, now).(links := m.links)
  }

  lemma BeforeIsTidy(t: Timing, m: Mesh, recs: seq<Record>, k: nat, now: int)
    requires Tidy(m) && k <= |recs|
    ensures Tidy(Before(t, m, recs, k, now)) && Grows(m.paths, Before(t, m, recs, k, now).paths)
  {
    RecordsAreTidy(t, m, recs, k, now);
    forall n | n in m.links
      ensures TidyLink(Before(t, m, recs, k, now).paths, m.links[n].paths)
    {
      TidyLinkGrows(m.paths, Before(t, m, recs, k, now).paths, m.links[n].paths);
    }
  }

  lemma LinkIsSynced(t: Timing, m: Mesh, recs: seq<Record>, now: int, k: nat)
    requires Tidy(m) && Can(t, m, SetRecords(recs, now)) && k < |recs|
    ensures var z, n, from := Do(t, m, SetRecords(recs, now)), recs[k].name, Before(t, m, recs, k, now);
            n in z.links && z.links[n].paths == SyncedLink(from, recs[k]).paths && Grows(SyncedPaths(from, recs[k]), z.paths)
  {
    RecordsLinkStays(t, m, recs, k, |recs|, now);
    RecordAnswers(t, m, recs, k, now);
    OneRecordGrows(t, m, recs, k, now);
    RecordsGrow(t, m, recs, k + 1, |recs|, now, SyncedPaths(Before(t, m, recs, k, now), recs[k]));
  }

  /** New records leave for each record a link with the record's addresses in its
      order, each surviving address on the path it had. */
  lemma LinksFollowRecords(t: Timing, m: Mesh, recs: seq<Record>, now: int, k: nat)
    requires Tidy(m) && Can(t, m, SetRecords(recs, now)) && k < |recs|
    ensures var z, n, firsts := Do(t, m, SetRecords(recs, now)), recs[k].name, Firsts(recs[k].addrs, |recs[k].addrs|);
            && n in z.links && |z.links[n].paths| == |firsts|
            && (forall i :: 0 <= i < |firsts| ==> z.links[n].paths[i] in z.paths && z.paths[z.links[n].paths[i]].addr == firsts[i])
            && (forall i :: n in m.links && i in m.links[n].paths && m.paths[i].addr in recs[k].addrs ==> i in z.links[n].paths)
            && (forall i :: i in m.paths ==> i in z.paths && z.paths[i] == m.paths[i])
  {
    BeforeIsTidy(t, m, recs, k, now);
    SyncFollowsRecord(Before(t, m, recs, k, now), recs[k]);
    LinkIsSynced(t, m, recs, now, k);
    RecordsGrow(t, m, recs, 0, |recs|, now, m.paths);
  }

  /** And no other link. */
  lemma OnlyRecordsAreLinked(t: Timing, m: Mesh, recs: seq<Record>, now: int, n: Name)
    requires n in Do(t, m, SetRecords(recs, now)).links
    ensures exists k :: 0 <= k < |recs| && recs[k].name == n
  {
    RecordsLinkNames(t, m, recs, |recs|, now, n);
  }

  lemma PlacesStay(t: Timing, m: Mesh, e: Event)
    requires !e.SetRecords?
    ensures Do(t, m, e).links.Keys == m.links.Keys && Do(t, m, e).paths.Keys == m.paths.Keys
    ensures forall n :: n in m.links ==> Do(t, m, e).links[n].paths == m.links[n].paths
    ensures forall i :: i in m.paths ==> Do(t, m, e).paths[i].addr == m.paths[i].addr
    ensures Do(t, m, e).nextPath == m.nextPath
  {
    forall i | i in m.paths
      ensures PathNext(t, m, e, i).addr == m.paths[i].addr
    {
    }
  }

  /** In every run no link names a path that is not stored, no path belongs to
      two links, and a link has one path an address. */
  lemma {:induction false} StoreHolds(t: Timing, es: seq<Event>)
    requires Possible(t, es)
    ensures Tidy(Run(t, es))
  {
    if |es| > 0 {
      var front, e := es[..|es| - 1], es[|es| - 1];
      StoreHolds(t, front);
      if e.SetRecords? {
        RecordsAreTidy(t, Run(t, front), e.recs, |e.recs|, e.now);
      } else {
        PlacesStay(t, Run(t, front), e);
      }
    }
  }
}
