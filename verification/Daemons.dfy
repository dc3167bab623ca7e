/** The Portworx daemonsets on the API server, and the part of `upgradePX` that rewrites their
    image and waits for the controller, interleaved with the controller at every request. */
module Daemons {
  import opened Options
  import opened Containers
  import opened Rollout

  /** What this part of the run did to daemonsets, in order. */
  datatype DsEvent =
    | Wrote(before: DaemonSet, after: DaemonSet)
    | Passed(listed: DaemonSet, seen: DaemonSet)

  /** Every write is one the trigger may make, and every pass of the wait can be trusted. */
  ghost predicate EventIsFine(e: DsEvent, image: string) {
    match e
    case Wrote(before, after) => AllowedWrite(before, after, image)
    case Passed(listed, seen) => HonestPass(listed, seen, image)
  }

  ghost predicate StatusesOnly(before: seq<DaemonSet>, now: seq<DaemonSet>) {
    |now| == |before| && forall i :: 0 <= i < |now| ==> StatusOnly(before[i], now[i])
  }

  ghost predicate AllProgressed(before: seq<DaemonSet>, now: seq<DaemonSet>, image: string) {
    |now| == |before| && forall i :: 0 <= i < |now| ==> Progressed(before[i], now[i], image)
  }

  /** What the last write on record made of a daemonset that began as `first`. */
  ghost function LastWritten(first: DaemonSet, events: seq<DsEvent>, uid: nat): DaemonSet {
    if events == [] then first
    else
      var e := events[|events| - 1];
      if e.Wrote? && e.after.uid == uid then e.after else LastWritten(first, events[..|events| - 1], uid)
  }

  /** Nothing but statuses has changed except by a write on record. */
  ghost predicate OnRecord(start: seq<DaemonSet>, events: seq<DsEvent>, all: seq<DaemonSet>) {
    |all| == |start| && forall i {:trigger LastWritten(start[i], events, i)} :: 0 <= i < |all| ==> StatusOnly(LastWritten(start[i], events, i), all[i])
  }

  lemma OnRecordStill(start: seq<DaemonSet>, events: seq<DsEvent>, before: seq<DaemonSet>, now: seq<DaemonSet>)
    requires OnRecord(start, events, before) && StatusesOnly(before, now)
    ensures OnRecord(start, events, now)
  {
    forall i | 0 <= i < |now| ensures StatusOnly(LastWritten(start[i], events, i), now[i]) {
      assert StatusOnly(before[i], now[i]);
    }
  }

  lemma OnRecordWrite(start: seq<DaemonSet>, events: seq<DsEvent>, all: seq<DaemonSet>, uid: nat, after: DaemonSet)
    requires OnRecord(start, events, all) && uid < |all| && after.uid == uid
    ensures OnRecord(start, events + [Wrote(all[uid], after)], all[uid := after])
  {
    var more, now := events + [Wrote(all[uid], after)], all[uid := after];
    assert more[..|events|] == events;
    forall i | 0 <= i < |now| ensures StatusOnly(LastWritten(start[i], more, i), now[i]) {
      assert i != uid ==> StatusOnly(LastWritten(start[i], events, i), now[i]);
    }
  }

  lemma OnRecordPass(start: seq<DaemonSet>, events: seq<DsEvent>, all: seq<DaemonSet>, listed: DaemonSet, seen: DaemonSet)
    requires OnRecord(start, events, all)
    ensures OnRecord(start, events + [Passed(listed, seen)], all)
  {
    var more := events + [Passed(listed, seen)];
    assert more[..|events|] == events;
    forall i | 0 <= i < |all| ensures StatusOnly(LastWritten(start[i], more, i), all[i]) {
      assert StatusOnly(LastWritten(start[i], events, i), all[i]);
    }
  }

  /** Copies of distinct daemonsets that only the controller may have touched since. */
  ghost predicate Listed(dss: seq<DaemonSet>, now: seq<DaemonSet>) {
    && (forall j :: 0 <= j < |dss| ==> dss[j].uid < |now| && Valid(dss[j]) && StatusOnly(dss[j], now[dss[j].uid]))
    && (forall j, k :: 0 <= j < k < |dss| ==> dss[j].uid != dss[k].uid)
  }

  ghost predicate HasUid(dss: seq<DaemonSet>, uid: nat) { exists j :: 0 <= j < |dss| && dss[j].uid == uid }

  /** A listing that misses no daemonset of these namespaces. */
  ghost predicate Covers(dss: seq<DaemonSet>, all: seq<DaemonSet>, namespaces: seq<string>) {
    forall i :: 0 <= i < |all| && all[i].namespace in namespaces ==> HasUid(dss, i)
  }

  lemma CoversMore(dss: seq<DaemonSet>, found: seq<DaemonSet>, all: seq<DaemonSet>, namespaces: seq<string>, namespace: string)
    requires Covers(dss, all, namespaces) && Covers(found, all, [namespace])
    ensures Covers(dss + found, all, namespaces + [namespace])
  {
    forall i | 0 <= i < |all| && all[i].namespace in namespaces + [namespace] ensures HasUid(dss + found, i) {
      if all[i].namespace in namespaces {
        var j :| 0 <= j < |dss| && dss[j].uid == i;
        assert (dss + found)[j].uid == i;
      } else {
        var j :| 0 <= j < |found| && found[j].uid == i;
        assert (dss + found)[|dss| + j].uid == i;
      }
    }
  }

  lemma CoversNext(before: seq<DaemonSet>, found: seq<DaemonSet>, all: seq<DaemonSet>, i: nat, namespace: string)
    requires i < |all| && all[i].uid == i && Covers(before, all[..i], [namespace])
    requires found == if all[i].namespace == namespace then before + [all[i]] else before
    ensures Covers(found, all[..i + 1], [namespace])
  {
    forall k | 0 <= k < i + 1 && all[..i + 1][k].namespace in [namespace] ensures HasUid(found, k) {
      if k < i {
        assert all[..i][k] == all[k] && HasUid(before, k);
        var j :| 0 <= j < |before| && before[j].uid == k;
        assert found[j].uid == k;
      } else {
        assert found[|before|].uid == k;
      }
    }
  }

  /** Every daemonset of these namespaces that has a portworx container is at the image. */
  ghost predicate AllAtImage(all: seq<DaemonSet>, namespaces: seq<string>, image: string) {
    forall i :: 0 <= i < |all| && all[i].namespace in namespaces && all[i].revisions != [] && HasPx(Current(all[i])) ==>
      AtImage(Current(all[i]), image)
  }

  lemma HandledIsAtImage(dss: seq<DaemonSet>, all: seq<DaemonSet>, namespaces: seq<string>, image: string)
    requires Handled(dss, |dss|, all, image) && Covers(dss, all, namespaces)
    ensures AllAtImage(all, namespaces, image)
  {
    forall i | 0 <= i < |all| && all[i].namespace in namespaces && all[i].revisions != [] && HasPx(Current(all[i]))
      ensures AtImage(Current(all[i]), image)
    {
      var j :| 0 <= j < |dss| && dss[j].uid == i;
      SettledIsAtImage(dss[j], all[i], image);
    }
  }

  lemma CoversLater(dss: seq<DaemonSet>, before: seq<DaemonSet>, now: seq<DaemonSet>, namespaces: seq<string>)
    requires Covers(dss, before, namespaces) && |now| == |before|
    requires forall i :: 0 <= i < |now| ==> now[i].namespace == before[i].namespace
    ensures Covers(dss, now, namespaces)
  {
  }

  /** The first `n` listed daemonsets have been dealt with, the others have not been touched. */
  ghost predicate Handled(dss: seq<DaemonSet>, n: nat, now: seq<DaemonSet>, image: string) {
    && (forall j :: 0 <= j < |dss| ==> dss[j].uid < |now| && Valid(dss[j]))
    && (forall j, k :: 0 <= j < k < |dss| ==> dss[j].uid != dss[k].uid)
    && (forall j :: 0 <= j < |dss| && j < n ==> Settled(dss[j], now[dss[j].uid], image))
    && (forall j :: n <= j < |dss| ==> StatusOnly(dss[j], now[dss[j].uid]))
  }

  /** The generations recorded for the first `n` listed daemonsets. */
  ghost predicate Expects(expected: map<nat, nat>, dss: seq<DaemonSet>, n: nat, image: string) {
    forall j :: 0 <= j < |dss| && j < n && dss[j].revisions != [] && HasPx(Current(dss[j])) ==>
      dss[j].uid in expected && expected[dss[j].uid] == Expected(dss[j], image)
  }

  lemma HandledStep(dss: seq<DaemonSet>, n: nat, mid: seq<DaemonSet>, now: seq<DaemonSet>, image: string)
    requires n < |dss| && Handled(dss, n, mid, image) && |now| == |mid|
    requires forall i :: 0 <= i < |now| && i != dss[n].uid ==> StatusOnly(mid[i], now[i])
    requires Settled(dss[n], now[dss[n].uid], image)
    ensures Handled(dss, n + 1, now, image)
  {
    forall j | 0 <= j < |dss| && j < n + 1 ensures Settled(dss[j], now[dss[j].uid], image) {
      if j < n {
        assert dss[j].uid != dss[n].uid;
        assert StatusOnly(mid[dss[j].uid], now[dss[j].uid]);
      }
    }
    forall j | n + 1 <= j < |dss| ensures StatusOnly(dss[j], now[dss[j].uid]) {
      assert dss[n].uid != dss[j].uid;
      assert StatusOnly(mid[dss[j].uid], now[dss[j].uid]);
    }
  }

  lemma ExpectsStep(before: map<nat, nat>, now: map<nat, nat>, dss: seq<DaemonSet>, n: nat, image: string)
    requires n < |dss| && Expects(before, dss, n, image)
    requires forall j, k :: 0 <= j < k < |dss| ==> dss[j].uid != dss[k].uid
    requires forall uid :: uid != dss[n].uid && uid in before ==> uid in now && now[uid] == before[uid]
    requires dss[n].revisions != [] && HasPx(Current(dss[n])) ==>
               dss[n].uid in now && now[dss[n].uid] == Expected(dss[n], image)
    ensures Expects(now, dss, n + 1, image)
  {
  }

  ghost predicate PassedSince(events: seq<DsEvent>, from: nat) {
    exists i :: from <= i < |events| && events[i].Passed?
  }

  /** The trigger met a daemonset without annotations that has to be rewritten: a write into a nil map,
      which kills the process. */
  ghost predicate KilledBy(judged: seq<DaemonSet>, from: nat, image: string) {
    exists i :: from <= i < |judged| && judged[i].revisions != [] && Judge(judged[i], image).Crash?
  }

  /** The trigger has looked at a daemonset that pins its image. */
  ghost predicate PinnedSince(judged: seq<DaemonSet>, from: nat) {
    exists i :: from <= i < |judged| && judged[i].revisions != [] && Pinned(Current(judged[i]))
  }

  lemma PinnedMore(before: seq<DaemonSet>, now: seq<DaemonSet>, from: nat)
    requires from <= |before| && before <= now
    ensures PinnedSince(now, from) <==> PinnedSince(before, from) || PinnedSince(now, |before|)
  {
    if i :| from <= i < |before| && before[i].revisions != [] && Pinned(Current(before[i])) {
      assert now[i].revisions != [] && Pinned(Current(now[i]));
    }
  }

  lemma PinnedOneMore(before: seq<DaemonSet>, now: seq<DaemonSet>, from: nat)
    requires from <= |before| && before <= now && |now| == |before| + 1 && now[|before|].revisions != []
    ensures PinnedSince(now, from) <==> PinnedSince(before, from) || Pinned(Current(now[|before|]))
  {
    PinnedMore(before, now, from);
  }

  lemma KilledByMore(before: seq<DaemonSet>, now: seq<DaemonSet>, from: nat, image: string)
    requires from <= |before| && before <= now
    ensures KilledBy(now, from, image) <==> KilledBy(before, from, image) || KilledBy(now, |before|, image)
  {
    if i :| from <= i < |before| && before[i].revisions != [] && Judge(before[i], image).Crash? {
      assert now[i].revisions != [] && Judge(now[i], image).Crash?;
    }
  }

  /** Every copy looked at since `from` is that of a daemonset in these namespaces, as the trigger may
      have left it. */
  ghost predicate JudgedThere(judged: seq<DaemonSet>, from: nat, first: seq<DaemonSet>, namespaces: seq<string>, image: string) {
    forall i :: from <= i < |judged| ==>
      judged[i].uid < |first| && judged[i].namespace in namespaces && Progressed(first[judged[i].uid], judged[i], image)
  }

  lemma JudgedEarlier(judged: seq<DaemonSet>, from: nat, first: seq<DaemonSet>, mid: seq<DaemonSet>, namespaces: seq<string>, image: string)
    requires JudgedThere(judged, from, mid, namespaces, image) && AllProgressed(first, mid, image)
    ensures JudgedThere(judged, from, first, namespaces, image)
  {
    forall i | from <= i < |judged| ensures Progressed(first[judged[i].uid], judged[i], image) {
      ProgressComposes(first[judged[i].uid], mid[judged[i].uid], judged[i], image);
    }
  }

  /** A daemonset that the trigger cannot rewrite without dying. */
  ghost predicate SomeCrash(all: seq<DaemonSet>, namespaces: seq<string>, image: string) {
    exists i :: 0 <= i < |all| && all[i].namespace in namespaces && all[i].revisions != [] && Judge(all[i], image).Crash?
  }

  lemma CrashIsThere(listed: DaemonSet, all: seq<DaemonSet>, namespaces: seq<string>, image: string)
    requires listed.uid < |all| && StatusOnly(listed, all[listed.uid]) && listed.namespace in namespaces
    requires listed.revisions != [] && Judge(listed, image).Crash?
    ensures SomeCrash(all, namespaces, image)
  {
    CrashIsOfTheSpec(listed, all[listed.uid], image);
  }

  /** A daemonset as the server had it between two moments. */
  ghost predicate SeenBetween(seen: DaemonSet, before: seq<DaemonSet>, now: seq<DaemonSet>) {
    seen.uid < |before| == |now| && StatusOnly(before[seen.uid], seen) && StatusOnly(seen, now[seen.uid])
  }

  /** The event since `from` is the pass of this listed daemonset, seen on the server. */
  ghost predicate IsPass(e: DsEvent, listed: DaemonSet, before: seq<DaemonSet>, now: seq<DaemonSet>) {
    e.Passed? && e.listed == listed && e.seen.uid == listed.uid && SeenBetween(e.seen, before, now)
  }

  /** Since `from` there were only passes, each of a daemonset as the server had it. */
  ghost predicate PassesSeen(events: seq<DsEvent>, from: nat, before: seq<DaemonSet>, now: seq<DaemonSet>, image: string) {
    forall i :: from <= i < |events| ==>
      events[i].Passed? && EventIsFine(events[i], image) && IsPass(events[i], events[i].listed, before, now)
  }

  lemma SeenWider(seen: DaemonSet, a: seq<DaemonSet>, b: seq<DaemonSet>, c: seq<DaemonSet>, d: seq<DaemonSet>)
    requires StatusesOnly(a, b) && SeenBetween(seen, b, c) && StatusesOnly(c, d)
    ensures SeenBetween(seen, a, d)
  {
    assert StatusOnly(a[seen.uid], b[seen.uid]) && StatusOnly(c[seen.uid], d[seen.uid]);
  }

  lemma StatusesReflexive(a: seq<DaemonSet>)
    ensures StatusesOnly(a, a)
  {
  }

  lemma StatusesCompose(a: seq<DaemonSet>, b: seq<DaemonSet>, c: seq<DaemonSet>)
    requires StatusesOnly(a, b) && StatusesOnly(b, c)
    ensures StatusesOnly(a, c)
  {
    forall i | 0 <= i < |c| ensures StatusOnly(a[i], c[i]) {
      assert StatusOnly(a[i], b[i]) && StatusOnly(b[i], c[i]);
    }
  }

  lemma PassesAdd(past: seq<DsEvent>, events: seq<DsEvent>, from: nat, first: seq<DaemonSet>, mid: seq<DaemonSet>, now: seq<DaemonSet>, image: string)
    requires from <= |past| && past <= events && PassesSeen(past, from, first, mid, image) && PassesSeen(events, |past|, mid, now, image)
    requires StatusesOnly(first, mid) && StatusesOnly(mid, now)
    ensures PassesSeen(events, from, first, now, image)
  {
    forall i | from <= i < |events|
      ensures events[i].Passed? && EventIsFine(events[i], image) && IsPass(events[i], events[i].listed, first, now)
    {
      if i < |past| {
        assert events[i] == past[i];
        StatusesReflexive(first);
        SeenWider(events[i].seen, first, first, mid, now);
      } else {
        StatusesReflexive(now);
        SeenWider(events[i].seen, first, mid, now, now);
      }
    }
  }

  ghost predicate IsPassOf(e: DsEvent, listed: DaemonSet) { e.Passed? && e.listed == listed }

  /** The passes since `from` are those of the first `n` listed daemonsets, in turn. */
  ghost predicate PassedInTurn(events: seq<DsEvent>, from: nat, dss: seq<DaemonSet>, n: nat) {
    |events| == from + n && n <= |dss| && forall j :: 0 <= j < n ==> IsPassOf(events[from + j], dss[j])
  }

  ghost predicate HasPassed(events: seq<DsEvent>, from: nat, listed: DaemonSet) {
    exists i :: from <= i < |events| && IsPassOf(events[i], listed)
  }

  /** Every listed daemonset has passed the wait since `from`. */
  ghost predicate PassedEach(events: seq<DsEvent>, from: nat, dss: seq<DaemonSet>) {
    forall j :: 0 <= j < |dss| ==> HasPassed(events, from, dss[j])
  }

  lemma InTurnIsEach(events: seq<DsEvent>, from: nat, start: nat, dss: seq<DaemonSet>)
    requires from <= start && PassedInTurn(events, start, dss, |dss|)
    ensures PassedEach(events, from, dss)
  {
    forall j | 0 <= j < |dss| ensures HasPassed(events, from, dss[j]) {
      assert IsPassOf(events[start + j], dss[j]);
    }
  }

  /** Whatever passed since `from` was seen on the server, at some moment of the rollout. */
  ghost predicate PassesTrue(events: seq<DsEvent>, from: nat, first: seq<DaemonSet>, now: seq<DaemonSet>, image: string) {
    forall i :: from <= i < |events| && events[i].Passed? ==>
      && events[i].seen.uid == events[i].listed.uid < |first| == |now|
      && Progressed(first[events[i].seen.uid], events[i].seen, image) && StatusOnly(events[i].seen, now[events[i].seen.uid])
  }

  lemma PassesEarlier(events: seq<DsEvent>, from: nat, first: seq<DaemonSet>, mid: seq<DaemonSet>, now: seq<DaemonSet>, image: string)
    requires PassesTrue(events, from, mid, now, image) && AllProgressed(first, mid, image)
    ensures PassesTrue(events, from, first, now, image)
  {
    forall i | from <= i < |events| && events[i].Passed? ensures Progressed(first[events[i].seen.uid], events[i].seen, image) {
      ProgressComposes(first[events[i].seen.uid], mid[events[i].seen.uid], events[i].seen, image);
    }
  }

  lemma SeenIsTrue(wrote: seq<DsEvent>, events: seq<DsEvent>, from: nat, first: seq<DaemonSet>, mid: seq<DaemonSet>, now: seq<DaemonSet>, image: string)
    requires from <= |wrote| && wrote <= events && (forall i :: from <= i < |wrote| ==> wrote[i].Wrote?)
    requires PassesSeen(events, |wrote|, mid, now, image) && AllProgressed(first, mid, image)
    ensures PassesTrue(events, from, first, now, image)
  {
    forall i | from <= i < |wrote| ensures events[i].Wrote? {
      assert wrote[i] == events[i];
    }
    forall i | from <= i < |events| && events[i].Passed?
      ensures events[i].seen.uid == events[i].listed.uid < |first| == |now|
      ensures Progressed(first[events[i].seen.uid], events[i].seen, image) && StatusOnly(events[i].seen, now[events[i].seen.uid])
    {
      var seen := events[i].seen;
      StatusIsProgress(mid[seen.uid], seen, image);
      ProgressComposes(first[seen.uid], mid[seen.uid], seen, image);
    }
  }

  /** The controller has observed what is expected of the first `n` listed daemonsets. */
  ghost predicate AllObserved(dss: seq<DaemonSet>, n: nat, all: seq<DaemonSet>, image: string) {
    forall j :: 0 <= j < |dss| && j < n ==>
      dss[j].uid < |all| && dss[j].revisions != [] &&
      (HasPx(Current(dss[j])) ==> all[dss[j].uid].observed >= Expected(dss[j], image))
  }

  /** Every listed daemonset whose controller was up to date then runs the image now. */
  ghost predicate AllRunning(dss: seq<DaemonSet>, all: seq<DaemonSet>, image: string) {
    forall j :: 0 <= j < |dss| ==>
      dss[j].uid < |all| && dss[j].revisions != [] &&
      (HasPx(Current(dss[j])) && dss[j].observed == Generation(dss[j]) ==> RunsImage(all[dss[j].uid], image))
  }

  lemma ObservedStays(dss: seq<DaemonSet>, n: nat, mid: seq<DaemonSet>, now: seq<DaemonSet>, image: string)
    requires AllObserved(dss, n, mid, image) && StatusesOnly(mid, now)
    ensures AllObserved(dss, n, now, image)
  {
    forall j | 0 <= j < |dss| && j < n ensures mid[dss[j].uid].observed <= now[dss[j].uid].observed {
      assert StatusOnly(mid[dss[j].uid], now[dss[j].uid]);
    }
  }

  /** A listed daemonset that had caught up and has passed the wait was seen on the server with the
      controller running the image. */
  lemma PassShowsTheImage(events: seq<DsEvent>, from: nat, dss: seq<DaemonSet>, j: nat,
                          first: seq<DaemonSet>, now: seq<DaemonSet>, image: string) returns (seen: DaemonSet)
    requires j < |dss| && PassedEach(events, from, dss) && PassesTrue(events, from, first, now, image)
    requires forall i :: from <= i < |events| ==> EventIsFine(events[i], image)
    requires Valid(dss[j]) && HasPx(Current(dss[j])) && CaughtUp(dss[j], image)
    ensures seen.uid == dss[j].uid < |first| == |now| && RunsImage(seen, image)
    ensures Progressed(first[seen.uid], seen, image) && StatusOnly(seen, now[seen.uid])
  {
    assert HasPassed(events, from, dss[j]);
    var i :| from <= i < |events| && IsPassOf(events[i], dss[j]);
    assert EventIsFine(events[i], image);
    seen := events[i].seen;
  }

  /** What the wait for the first `n` listed daemonsets has established. */
  ghost predicate WaitedFor(dss: seq<DaemonSet>, n: nat, events: seq<DsEvent>, from: nat, all: seq<DaemonSet>, image: string) {
    PassedInTurn(events, from, dss, n) && AllObserved(dss, n, all, image)
  }

  lemma WaitedForOneMore(dss: seq<DaemonSet>, n: nat, past: seq<DsEvent>, events: seq<DsEvent>, from: nat,
                         mid: seq<DaemonSet>, now: seq<DaemonSet>, image: string)
    requires n < |dss| && WaitedFor(dss, n, past, from, mid, image) && StatusesOnly(mid, now)
    requires past <= events && |events| == |past| + 1 && IsPassOf(events[|past|], dss[n])
    requires dss[n].uid < |now| && dss[n].revisions != [] &&
             (HasPx(Current(dss[n])) ==> now[dss[n].uid].observed >= Expected(dss[n], image))
    ensures WaitedFor(dss, n + 1, events, from, now, image)
  {
    ObservedStays(dss, n, mid, now, image);
    forall j | 0 <= j < n + 1 ensures IsPassOf(events[from + j], dss[j]) {
      if j < n {
        assert IsPassOf(past[from + j], dss[j]);
      }
    }
  }

  lemma ObservedAreRunning(dss: seq<DaemonSet>, all: seq<DaemonSet>, image: string)
    requires Handled(dss, |dss|, all, image) && AllObserved(dss, |dss|, all, image)
    requires forall i :: 0 <= i < |all| ==> Valid(all[i])
    ensures AllRunning(dss, all, image)
  {
    forall j | 0 <= j < |dss| && HasPx(Current(dss[j])) && dss[j].observed == Generation(dss[j])
      ensures RunsImage(all[dss[j].uid], image)
    {
      ObservedRuns(dss[j], all[dss[j].uid], image);
    }
  }

  /** Copies that were read since `first`, of distinct daemonsets in these namespaces. */
  ghost predicate Fetched(dss: seq<DaemonSet>, first: seq<DaemonSet>, now: seq<DaemonSet>, namespaces: seq<string>) {
    && |first| == |now| && Listed(dss, now)
    && forall j :: 0 <= j < |dss| ==> dss[j].namespace in namespaces && StatusOnly(first[dss[j].uid], dss[j])
  }

  lemma FetchedWiden(dss: seq<DaemonSet>, first: seq<DaemonSet>, now: seq<DaemonSet>, few: seq<string>, many: seq<string>)
    requires Fetched(dss, first, now, few) && few <= many
    ensures Fetched(dss, first, now, many)
  {
    forall j | 0 <= j < |dss| ensures dss[j].namespace in many {
      var i :| 0 <= i < |few| && few[i] == dss[j].namespace;
      assert many[i] == dss[j].namespace;
    }
  }

  lemma FetchedMore(dss: seq<DaemonSet>, found: seq<DaemonSet>, first: seq<DaemonSet>, mid: seq<DaemonSet>, now: seq<DaemonSet>,
                    namespaces: seq<string>, namespace: string)
    requires Fetched(dss, first, mid, namespaces) && StatusesOnly(mid, now) && StatusesOnly(first, now)
    requires Listed(found, now) && namespace !in namespaces
    requires forall j :: 0 <= j < |found| ==> found[j].namespace == namespace && found[j] == now[found[j].uid]
    ensures Fetched(dss + found, first, now, namespaces + [namespace])
  {
    var both := dss + found;
    forall j | 0 <= j < |both|
      ensures both[j].uid < |now| && Valid(both[j]) && StatusOnly(both[j], now[both[j].uid])
      ensures both[j].namespace in namespaces + [namespace] && StatusOnly(first[both[j].uid], both[j])
    {
      if j < |dss| {
        assert StatusOnly(mid[dss[j].uid], now[dss[j].uid]);
      }
    }
    forall j, k | 0 <= j < k < |both| ensures both[j].uid != both[k].uid {
      if j < |dss| <= k {
        assert StatusOnly(both[j], now[both[j].uid]) && both[j].namespace in namespaces;
      }
    }
  }

  lemma PostIsProgress(before: seq<DaemonSet>, all: seq<DaemonSet>, d: DaemonSet, image: string)
    requires StatusesOnly(before, all) && d.uid < |all| && all[d.uid] == d && Rollout.Valid(d)
    requires Judge(d, image).Rewrite? || Judge(d, image).Resend?
    ensures Posted(d, image).uid == d.uid && Rollout.Valid(Posted(d, image)) && Settled(d, Posted(d, image), image)
    ensures AllowedWrite(d, Posted(d, image), image) && AllProgressed(before, all[d.uid := Posted(d, image)], image)
  {
    if Judge(d, image).Rewrite? {
      RewriteTouchesOnlyTheImage(d, image);
    }
    forall i | 0 <= i < |all| ensures Progressed(before[i], all[d.uid := Posted(d, image)][i], image) {
      assert StatusOnly(before[i], all[i]);
    }
  }

  /** Where a trigger stands. */
  datatype Standing = Standing(all: seq<DaemonSet>, events: seq<DsEvent>, judged: seq<DaemonSet>, faults: nat, refused: nat)

  /** Attempts of a trigger led from `b` to `m`. */
  ghost predicate Advanced(b: Standing, m: Standing, namespaces: seq<string>, image: string) {
    && AllProgressed(b.all, m.all, image) && b.events <= m.events && b.judged <= m.judged && b.faults <= m.faults && b.refused <= m.refused
    && (forall i :: |b.events| <= i < |m.events| ==> m.events[i].Wrote? && EventIsFine(m.events[i], image))
    && JudgedThere(m.judged, |b.judged|, b.all, namespaces, image)
  }

  /** One more daemonset was looked at, and written to if at all. */
  lemma AdvancedByOne(b: Standing, m: Standing, now: Standing, listed: DaemonSet, namespaces: seq<string>, image: string)
    requires Advanced(b, m, namespaces, image) && AllProgressed(m.all, now.all, image) && now.judged == m.judged + [listed]
    requires m.events <= now.events && m.faults == now.faults && m.refused <= now.refused
    requires forall i :: |m.events| <= i < |now.events| ==> now.events[i].Wrote? && EventIsFine(now.events[i], image)
    requires listed.uid < |b.all| && listed.namespace in namespaces && StatusOnly(b.all[listed.uid], listed) && listed.revisions != []
    ensures Advanced(b, now, namespaces, image)
    ensures PinnedSince(now.judged, |b.judged|) <==> PinnedSince(m.judged, |b.judged|) || Pinned(Current(listed))
    ensures KilledBy(now.judged, |b.judged|, image) <==> KilledBy(m.judged, |b.judged|, image) || Judge(listed, image).Crash?
  {
    AllProgressCompose(b.all, m.all, now.all, image);
    StatusIsProgress(b.all[listed.uid], listed, image);
    assert now.judged[|m.judged|] == listed;
    PinnedOneMore(m.judged, now.judged, |b.judged|);
    KilledByMore(m.judged, now.judged, |b.judged|, image);
    forall i | |b.events| <= i < |now.events| ensures now.events[i].Wrote? && EventIsFine(now.events[i], image) {
      assert i < |m.events| ==> now.events[i] == m.events[i];
    }
  }

  lemma CoversThrough(dss: seq<DaemonSet>, first: seq<DaemonSet>, mid: seq<DaemonSet>, now: seq<DaemonSet>, namespaces: seq<string>, image: string)
    requires AllProgressed(first, mid, image) && AllProgressed(first, now, image) && Covers(dss, mid, namespaces)
    ensures Covers(dss, now, namespaces)
  {
    forall i | 0 <= i < |now| ensures now[i].namespace == mid[i].namespace {
      assert Progressed(first[i], mid[i], image) && Progressed(first[i], now[i], image);
    }
    CoversLater(dss, mid, now, namespaces);
  }

  lemma AdvancedOn(b: Standing, m: Standing, c: Standing, namespaces: seq<string>, image: string)
    requires Advanced(b, m, namespaces, image) && Advanced(m, c, namespaces, image)
    ensures Advanced(b, c, namespaces, image)
  {
    AllProgressCompose(b.all, m.all, c.all, image);
    JudgedEarlier(c.judged, |m.judged|, b.all, m.all, namespaces, image);
    forall i | |b.events| <= i < |c.events| ensures c.events[i].Wrote? && EventIsFine(c.events[i], image) {
      assert i < |m.events| ==> c.events[i] == m.events[i];
    }
  }

  class DaemonServer {
    var all: seq<DaemonSet>           // the daemonsets labelled as Portworx; the uid is the position
    const namespaces: seq<string>     // the namespaces in which Portworx is installed
    ghost const start: seq<DaemonSet> // what they were at first
    ghost var events: seq<DsEvent>
    ghost var judged: seq<DaemonSet>  // the listed copies that the trigger has looked at
    ghost var faults: nat             // listings that failed
    ghost var refused: nat            // updates that reported an error
    ghost var behind: nat             // polls that failed or found the controller behind
    ghost var unready: nat            // validations that failed

    ghost predicate Valid()
      reads this
    {
      && (forall i :: 0 <= i < |all| ==> all[i].uid == i && Rollout.Valid(all[i]))
      && (forall i, j :: 0 <= i < j < |namespaces| ==> namespaces[i] != namespaces[j])
      && OnRecord(start, events, all)
    }

    constructor (all: seq<DaemonSet>, namespaces: seq<string>)
      requires forall i :: 0 <= i < |all| ==> all[i].uid == i && Rollout.Valid(all[i])
      requires forall i, j :: 0 <= i < j < |namespaces| ==> namespaces[i] != namespaces[j]
      ensures Valid() && this.all == all && this.namespaces == namespaces && events == [] && judged == []
    {
      this.all, this.namespaces, start, events, judged := all, namespaces, all, [], [];
      faults, refused, behind, unready := 0, 0, 0, 0;
    }

    /** Only the controller acted. */
    twostate predicate ControllerActed()
      reads this
    {
      Valid() && events == old(events) && StatusesOnly(old(all), all)
    }

    /** The rollout went on: nothing but permitted writes, one per daemonset at most. */
    twostate predicate Rolled(image: string)
      reads this
    {
      && Valid() && AllProgressed(old(all), all, image)
      && old(events) <= events
      && forall i :: |old(events)| <= i < |events| ==> EventIsFine(events[i], image)
    }

    /** Nothing but writes was recorded. */
    twostate predicate OnlyWrites()
      reads this
    {
      old(events) <= events && forall i :: |old(events)| <= i < |events| ==> events[i].Wrote?
    }

    method Interfere()
      requires Valid()
      modifies this`all
      ensures ControllerActed()
    {
      var turns: nat := *;
      while turns > 0
        invariant ControllerActed()
      {
        turns := turns - 1;
        var uid: nat, generation: nat := *, *;
        if uid < |all| {
          ghost var before := all;
          all := all[uid := Step(all[uid], Observe(generation))];
          OnRecordStill(start, events, before, all);
        }
      }
    }

    /** `getPXDaemonsets`: the daemonsets of every installed namespace, one request each. */
    method GetPXDaemonsets() returns (ok: bool, dss: seq<DaemonSet>)
      requires Valid()
      modifies this`all, this`faults
      ensures ControllerActed() && (if ok then faults == old(faults) else faults > old(faults))
      ensures Fetched(dss, old(all), all, namespaces)
      ensures ok ==> Covers(dss, all, namespaces)
    {
      ok, dss := true, [];
      var n := 0;
      while n < |namespaces| && ok
        invariant 0 <= n <= |namespaces|
        invariant ControllerActed() && (if ok then faults == old(faults) else faults > old(faults))
        invariant Fetched(dss, old(all), all, namespaces[..n]) && Covers(dss, all, namespaces[..n])
        decreases |namespaces| - n
      {
        ghost var before := all;
        Interfere();
        CoversLater(dss, before, all, namespaces[..n]);
        ok := *;
        if !ok {
          faults := faults + 1;
        }
        var found := ListNamespace(namespaces[n]);
        FetchedMore(dss, found, old(all), before, all, namespaces[..n], namespaces[n]);
        CoversMore(dss, found, all, namespaces[..n], namespaces[n]);
        assert namespaces[..n + 1] == namespaces[..n] + [namespaces[n]];
        dss := dss + found;
        n := n + 1;
      }
      if n == |namespaces| {
        assert namespaces[..n] == namespaces;
      } else {
        FetchedWiden(dss, old(all), all, namespaces[..n], namespaces);
      }
    }

    method ListNamespace(namespace: string) returns (found: seq<DaemonSet>)
      requires Valid()
      ensures Listed(found, all)
      ensures forall j :: 0 <= j < |found| ==> found[j].namespace == namespace && found[j] == all[found[j].uid]
      ensures Covers(found, all, [namespace])
    {
      found := [];
      for i := 0 to |all|
        invariant Listed(found, all)
        invariant Covers(found, all[..i], [namespace])
        invariant forall j :: 0 <= j < |found| ==> found[j].namespace == namespace && found[j].uid < i && found[j] == all[found[j].uid]
      {
        ghost var before := found;
        if all[i].namespace == namespace {
          found := found + [all[i]];
        }
        CoversNext(before, found, all, i, namespace);
      }
      assert all[..|all|] == all;
    }

    /** Sends an update built from a listed copy. It is refused when the daemonset has moved on,
        may be lost, and may land without saying so. */
    method UpdateDaemonSet(listed: DaemonSet, image: string) returns (ok: bool)
      requires Valid() && Rollout.Valid(listed) && listed.uid < |all|
      requires Judge(listed, image).Rewrite? || Judge(listed, image).Resend?
      requires StatusOnly(listed, all[listed.uid])
      modifies this`all, this`events, this`refused
      ensures Rolled(image) && OnlyWrites() && refused == old(refused) + if ok then 0 else 1
      ensures forall i :: 0 <= i < |all| && i != listed.uid ==> StatusOnly(old(all)[i], all[i])
      ensures events == old(events) || events == old(events) + [Wrote(listed, Posted(listed, image))]
      ensures ok ==> Settled(listed, all[listed.uid], image)
    {
      Interfere();
      ok := false;
      if all[listed.uid].version == listed.version {
        if * {
          PostIsProgress(old(all), all, listed, image);
          Land(listed, image);
          ok := *;
        }
      }
      if !ok {
        refused := refused + 1;
      }
    }

    /** The update lands on the daemonset that was listed. */
    method Land(listed: DaemonSet, image: string)
      requires Valid() && Rollout.Valid(listed) && listed.uid < |all| && all[listed.uid] == listed
      requires Judge(listed, image).Rewrite? || Judge(listed, image).Resend?
      modifies this`all, this`events
      ensures Valid() && all == old(all)[listed.uid := Posted(listed, image)]
      ensures events == old(events) + [Wrote(listed, Posted(listed, image))]
    {
      StatusesReflexive(all);
      PostIsProgress(all, all, listed, image);
      OnRecordWrite(start, events, all, listed.uid, Posted(listed, image));
      all := all[listed.uid := Posted(listed, image)];
      events := events + [Wrote(listed, Posted(listed, image))];
    }

    /** One daemonset in one attempt of the trigger. */
    method TriggerOne(listed: DaemonSet, image: string, expectedIn: map<nat, nat>) returns (a: Attempt, expected: map<nat, nat>)
      requires Valid() && Rollout.Valid(listed) && listed.uid < |all| && StatusOnly(listed, all[listed.uid])
      modifies this`all, this`events, this`judged, this`refused
      ensures Rolled(image) && OnlyWrites() && judged == old(judged) + [listed]
      ensures events == old(events) || (events == old(events) + [Wrote(listed, Posted(listed, image))] && (a.Finish? || a.Again?))
      ensures a.Abort? <==> Pinned(Current(listed))
      ensures refused == old(refused) + if a.Again? then 1 else 0
      ensures (a.Panic? <==> Judge(listed, image).Crash?) && (a.Panic? ==> all == old(all))
      ensures forall i :: 0 <= i < |all| && i != listed.uid ==> StatusOnly(old(all)[i], all[i])
      ensures forall uid :: uid != listed.uid && uid in expectedIn ==> uid in expected && expected[uid] == expectedIn[uid]
      ensures a.Finish? ==> Settled(listed, all[listed.uid], image)
      ensures a.Finish? && HasPx(Current(listed)) ==>
                listed.uid in expected && expected[listed.uid] == Expected(listed, image)
    {
      expected := expectedIn;
      judged := judged + [listed];
      var verdict := Inspect(listed, image);
      match verdict {
        case Refuse => a := Abort;
        case Skip(generation) =>
          expected := expected[listed.uid := generation];
          a := Finish;
        case Crash => a := Panic;
        case Rewrite(generation, _) =>
          expected := expected[listed.uid := generation];
          var ok := UpdateDaemonSet(listed, image);
          a := if ok then Finish else Again;
        case Resend(_) =>
          var ok := UpdateDaemonSet(listed, image);
          a := if ok then Finish else Again;
      }
    }

    /** One run of the trigger closure over a fresh listing. */
    method TryTrigger(image: string, expectedIn: map<nat, nat>)
      returns (a: Attempt, dss: seq<DaemonSet>, expected: map<nat, nat>)
      requires Valid()
      modifies this
      ensures Valid() && Advanced(old(Stand()), Stand(), namespaces, image) && behind == old(behind) && unready == old(unready)
      ensures (a.Abort? <==> PinnedSince(judged, |old(judged)|)) && (a.Again? ==> HinderedSince(old(Stand())))
      ensures (a.Panic? <==> KilledBy(judged, |old(judged)|, image)) && (a.Panic? ==> SomeCrash(all, namespaces, image))
      ensures a.Finish? ==> Triggered(dss, expected, image)
    {
      expected := expectedIn;
      ghost var b := Stand();
      var ok;
      ok, dss := GetPXDaemonsets();
      StatusesAreProgress(b.all, all, image);
      if !ok || dss == [] {
        a := Again;
        return;
      }
      ghost var mid := all;
      a, expected := TriggerListed(dss, image, expected, b);
      if a.Finish? {
        CoversThrough(dss, b.all, mid, all, namespaces, image);
        HandledIsAtImage(dss, all, namespaces, image);
      }
    }

    /** The daemonsets of a listing one after the other; `b` is what there was before it. */
    method TriggerListed(dss: seq<DaemonSet>, image: string, expectedIn: map<nat, nat>, ghost b: Standing)
      returns (a: Attempt, expected: map<nat, nat>)
      requires Valid() && Listed(dss, all) && Stand() == b.(all := all, faults := faults) && b.faults <= faults && AllProgressed(b.all, all, image)
      requires forall j :: 0 <= j < |dss| ==> dss[j].namespace in namespaces && StatusOnly(b.all[dss[j].uid], dss[j])
      modifies this`all, this`events, this`judged, this`refused
      ensures Valid() && Advanced(b, Stand(), namespaces, image)
      ensures (a.Again? ==> refused > b.refused) && (a.Abort? <==> PinnedSince(judged, |b.judged|))
      ensures (a.Panic? <==> KilledBy(judged, |b.judged|, image)) && (a.Panic? ==> SomeCrash(all, namespaces, image))
      ensures a.Finish? ==> Handled(dss, |dss|, all, image) && Expects(expected, dss, |dss|, image)
    {
      expected := expectedIn;
      a := Finish;
      var n := 0;
      while n < |dss| && a.Finish?
        invariant n <= |dss| && Valid() && Advanced(b, Stand(), namespaces, image)
        invariant (a.Again? ==> refused > b.refused) && (a.Abort? <==> PinnedSince(judged, |b.judged|))
        invariant (a.Panic? <==> KilledBy(judged, |b.judged|, image)) && (a.Panic? ==> SomeCrash(all, namespaces, image))
        invariant a.Finish? ==> Handled(dss, n, all, image) && Expects(expected, dss, n, image)
        decreases |dss| - n
      {
        a, expected := TriggerNext(dss, n, image, expected, b);
        n := n + 1;
      }
    }

    /** One round of that loop. */
    method TriggerNext(dss: seq<DaemonSet>, n: nat, image: string, expectedIn: map<nat, nat>, ghost b: Standing)
      returns (a: Attempt, expected: map<nat, nat>)
      requires Valid() && Advanced(b, Stand(), namespaces, image) && !PinnedSince(judged, |b.judged|) && !KilledBy(judged, |b.judged|, image)
      requires n < |dss| && Handled(dss, n, all, image) && Expects(expectedIn, dss, n, image)
      requires dss[n].namespace in namespaces && StatusOnly(b.all[dss[n].uid], dss[n])
      modifies this`all, this`events, this`judged, this`refused
      ensures Valid() && Advanced(b, Stand(), namespaces, image)
      ensures (a.Again? ==> refused > b.refused) && (a.Abort? <==> PinnedSince(judged, |b.judged|))
      ensures (a.Panic? <==> KilledBy(judged, |b.judged|, image)) && (a.Panic? ==> SomeCrash(all, namespaces, image))
      ensures a.Finish? ==> Handled(dss, n + 1, all, image) && Expects(expected, dss, n + 1, image)
    {
      ghost var m := Stand();
      a, expected := TriggerOne(dss[n], image, expectedIn);
      AdvancedByOne(b, m, Stand(), dss[n], namespaces, image);
      if a.Panic? {
        CrashIsThere(dss[n], all, namespaces, image);
      }
      if a.Finish? {
        HandledStep(dss, n, m.all, all, image);
        ExpectsStep(expectedIn, expected, dss, n, image);
      }
    }

    /** The retried trigger. When it returns nil, every daemonset of the installed namespaces is at
        the image, and those of the last listing carry the expectation that listing calls for. */
    method Trigger(image: string) returns (out: Outcome, dss: seq<DaemonSet>, expected: map<nat, nat>)
      requires Valid()
      modifies this
      ensures Valid() && Advanced(old(Stand()), Stand(), namespaces, image) && !out.Panicked?
      ensures behind == old(behind) && unready == old(unready)
      ensures PinnedSince(judged, |old(judged)|) ==> out.Failed?
      ensures out.Failed? ==> PinnedSince(judged, |old(judged)|) || HinderedSince(old(Stand()))
      ensures (out.Died? <==> KilledBy(judged, |old(judged)|, image)) && (out.Died? ==> SomeCrash(all, namespaces, image))
      ensures out.Ok? ==> Triggered(dss, expected, image)
    {
      var attempts: nat := *;
      if attempts == 0 { attempts := 1; }
      out, dss, expected := Failed, [], map[];
      ghost var b := Stand();
      AllProgressReflexive(all, image);
      while attempts > 0 && out.Failed?
        invariant b == old(Stand()) && Valid() && Advanced(b, Stand(), namespaces, image) && !out.Panicked?
        invariant behind == old(behind) && unready == old(unready)
        invariant PinnedSince(judged, |b.judged|) ==> out.Failed? && attempts == 0
        invariant attempts == 0 && out.Failed? ==> PinnedSince(judged, |b.judged|) || HinderedSince(b)
        invariant (out.Died? <==> KilledBy(judged, |b.judged|, image)) && (out.Died? ==> SomeCrash(all, namespaces, image))
        invariant out.Ok? ==> Triggered(dss, expected, image)
        decreases attempts
      {
        attempts := attempts - 1;
        var a;
        a, dss, expected := TryAgain(image, expected, b);
        match a {
          case Finish => out := Ok;
          case Again =>
          case Abort => attempts := 0;
          case Panic => out := Died;
        }
      }
    }

    ghost function Stand(): Standing
      reads this
    {
      Standing(all, events, judged, faults, refused)
    }

    /** Since `b` a listing or an update failed, or there is nothing to list. */
    ghost predicate HinderedSince(b: Standing)
      reads this
    {
      faults > b.faults || refused > b.refused || forall i :: 0 <= i < |all| ==> all[i].namespace !in namespaces
    }

    /** What a trigger that ends well has achieved. */
    ghost predicate Triggered(dss: seq<DaemonSet>, expected: map<nat, nat>, image: string)
      reads this
    {
      && dss != [] && Handled(dss, |dss|, all, image) && Expects(expected, dss, |dss|, image)
      && AllAtImage(all, namespaces, image)
    }

    /** One more attempt, after some since `b` that neither killed nor met a pinned image. */
    method TryAgain(image: string, expectedIn: map<nat, nat>, ghost b: Standing)
      returns (a: Attempt, dss: seq<DaemonSet>, expected: map<nat, nat>)
      requires Valid() && Advanced(b, Stand(), namespaces, image)
      requires !PinnedSince(judged, |b.judged|) && !KilledBy(judged, |b.judged|, image)
      modifies this
      ensures Valid() && Advanced(b, Stand(), namespaces, image) && behind == old(behind) && unready == old(unready)
      ensures (a.Abort? <==> PinnedSince(judged, |b.judged|)) && (a.Again? ==> HinderedSince(b))
      ensures (a.Panic? <==> KilledBy(judged, |b.judged|, image)) && (a.Panic? ==> SomeCrash(all, namespaces, image))
      ensures a.Finish? ==> Triggered(dss, expected, image)
    {
      ghost var m := Stand();
      a, dss, expected := TryTrigger(image, expectedIn);
      AdvancedOn(b, m, Stand(), namespaces, image);
      KilledByMore(m.judged, judged, |b.judged|, image);
      PinnedMore(m.judged, judged, |b.judged|);
    }

    /** The retried wait for one daemonset of the listing. A pass is recorded with what was seen. */
    method WaitForController(listed: DaemonSet, image: string, expected: map<nat, nat>) returns (ok: bool)
      requires Valid() && Rollout.Valid(listed) && listed.uid < |all| && Settled(listed, all[listed.uid], image)
      requires HasPx(Current(listed)) ==> listed.uid in expected && expected[listed.uid] == Expected(listed, image)
      modifies this`all, this`events, this`behind
      ensures Valid() && StatusesOnly(old(all), all)
      ensures old(behind) <= behind && (!ok ==> behind > old(behind))
      ensures old(events) <= events && |events| == |old(events)| + if ok then 1 else 0
      ensures ok ==> IsPass(events[|old(events)|], listed, old(all), all) && EventIsFine(events[|old(events)|], image)
      ensures ok ==> events[|old(events)|].seen.observed == if listed.uid in expected then expected[listed.uid] else 0
      ensures ok && HasPx(Current(listed)) ==> all[listed.uid].observed >= Expected(listed, image)
    {
      var attempts: nat := *;
      if attempts == 0 { attempts := 1; }
      ok := false;
      while attempts > 0
        invariant Valid() && StatusesOnly(old(all), all) && events == old(events) && !ok
        invariant old(behind) <= behind && (attempts == 0 ==> behind > old(behind))
      {
        attempts := attempts - 1;
        Interfere();
        if * {
          var seen := all[listed.uid];
          var generation := if listed.uid in expected then expected[listed.uid] else 0;
          if seen.observed == generation {
            SettledPassIsHonest(listed, seen, image);
            OnRecordPass(start, events, all, listed, seen);
            events := events + [Passed(listed, seen)];
            ok := true;
            return;
          }
        }
        behind := behind + 1;
      }
    }

    /** `ValidateDaemonSet`: whether all pods became ready in time. */
    method ValidateDaemonSet() returns (ok: bool)
      modifies this`unready
      ensures unready == old(unready) + if ok then 0 else 1
    {
      ok := *;
      if !ok {
        unready := unready + 1;
      }
    }
  }

  lemma StatusesAreProgress(before: seq<DaemonSet>, now: seq<DaemonSet>, image: string)
    requires StatusesOnly(before, now)
    ensures AllProgressed(before, now, image)
  {
    forall i | 0 <= i < |now| ensures Progressed(before[i], now[i], image) {
      assert StatusOnly(before[i], now[i]);
    }
  }

  lemma AllProgressReflexive(all: seq<DaemonSet>, image: string)
    ensures AllProgressed(all, all, image)
  {
  }

  lemma AllProgressCompose(a: seq<DaemonSet>, b: seq<DaemonSet>, c: seq<DaemonSet>, image: string)
    requires AllProgressed(a, b, image) && AllProgressed(b, c, image)
    ensures AllProgressed(a, c, image)
  {
    forall i | 0 <= i < |c| ensures Progressed(a[i], c[i], image) {
      ProgressComposes(a[i], b[i], c[i], image);
    }
  }
}
