/** The user store (src/store/userStore.js): the user's preferences and a
    most-recent-first list of at most ten recent projects. Persisting the
    state to localStorage under "user-preferences" is not part of this
    model. */
module UserStore {
  import opened Js

  /** How many recent projects the list keeps. */
  const MaxRecent := 10

  const DefaultPreferences: Record := map[
    "defaultWatermarkText" := Str("© Your Name"), "defaultFont" := Str("Arial"),
    "defaultImageQuality" := Num(80.0), "defaultExportFormat" := Str("PNG"),
    "autoSave" := Bool(true), "preserveMetadata" := Bool(true)]

  /** The project stamped with the time it was added. */
  function Stamped(project: Record, now: real): (r: Record)
    ensures r.Keys == project.Keys + {"timestamp"}
    ensures Get(r, "timestamp") == Num(now)
    ensures forall k :: k in project && k != "timestamp" ==> k in r && r[k] == project[k]
  {
    Spread(project, map["timestamp" := Num(now)])
  }

  /** [entry, ...recent].slice(0, 10) */
  function RecentAfterAdd(entry: Record, recent: seq<Record>): (t: seq<Record>)
    ensures 1 <= |t| <= MaxRecent
    ensures t[0] == entry
    ensures |t| == if |recent| < MaxRecent then |recent| + 1 else MaxRecent
    ensures t[1..] == recent[..|t| - 1]
  {
    var all := [entry] + recent;
    assert all[1..] == recent;
    all[..if |all| < MaxRecent then |all| else MaxRecent]
  }

  class UserStore {
    var preferences: Record
    var recentProjects: seq<Record>

    constructor()
      ensures preferences == DefaultPreferences && recentProjects == []
    {
      preferences := DefaultPreferences;
      recentProjects := [];
    }

    /** Shallow merge: the supplied keys win, every other key is kept. */
    method UpdatePreferences(newPreferences: Record)
      modifies this
      ensures preferences == Spread(old(preferences), newPreferences)
      ensures recentProjects == old(recentProjects)
    {
      preferences := Spread(preferences, newPreferences);
    }

    /** Puts the project, stamped with now (Date.now()), in front and keeps
        the ten most recent entries. */
    method AddRecentProject(project: Record, now: real)
      modifies this
      ensures recentProjects == RecentAfterAdd(Stamped(project, now), old(recentProjects))
      ensures preferences == old(preferences)
    {
      recentProjects := RecentAfterAdd(Stamped(project, now), recentProjects);
    }

    method ClearRecentProjects()
      modifies this
      ensures recentProjects == [] && preferences == old(preferences)
    {
      recentProjects := [];
    }

    method ResetPreferences()
      modifies this
      ensures preferences == DefaultPreferences && recentProjects == old(recentProjects)
    {
      preferences := DefaultPreferences;
    }
  }

  // ---------------------------------------------------------------------
  // What the bounded list promises

  /** A list built only by adds never exceeds ten entries, and the newest
      entry is always first. */
  function RecentAfterAdds(entries: seq<Record>, recent: seq<Record>): (t: seq<Record>)
    requires |recent| <= MaxRecent
    ensures |t| <= MaxRecent
    ensures |entries| > 0 ==> |t| > 0 && t[0] == entries[|entries| - 1]
    decreases |entries|
  {
    if entries == [] then recent
    else RecentAfterAdd(entries[|entries| - 1], RecentAfterAdds(entries[..|entries| - 1], recent))
  }

  /** After ten or more adds the list is exactly the last ten projects
      added, newest first: every older entry, and everything the list held
      before, has been dropped from the end. */
  lemma {:induction false} OldestDropOut(entries: seq<Record>, recent: seq<Record>)
    requires |recent| <= MaxRecent && |entries| >= MaxRecent
    ensures RecentAfterAdds(entries, recent) == Reverse(entries[|entries| - MaxRecent..])
    decreases |entries|
  {
    var n := |entries|;
    var prev := entries[..n - 1];
    if n == MaxRecent {
      Fill(entries, recent);
    } else {
      OldestDropOut(prev, recent);
      assert prev[|prev| - MaxRecent..] == entries[n - 1 - MaxRecent..n - 1];
      var t := RecentAfterAdds(entries, recent);
      var r := Reverse(entries[n - MaxRecent..]);
      ReverseOfWindow(entries, n);
      assert t == r;
    }
  }

  /** The list read newest first. */
  function Reverse(xs: seq<Record>): (r: seq<Record>)
    ensures |r| == |xs|
    ensures forall i :: 0 <= i < |xs| ==> r[i] == xs[|xs| - 1 - i]
  {
    if xs == [] then [] else [xs[|xs| - 1]] + Reverse(xs[..|xs| - 1])
  }

  lemma ReverseOfWindow(entries: seq<Record>, n: nat)
    requires n == |entries| > MaxRecent
    ensures Reverse(entries[n - MaxRecent..]) ==
            [entries[n - 1]] + Reverse(entries[n - 1 - MaxRecent..n - 1])[..MaxRecent - 1]
  {
  }

  /** Ten adds to any list of at most ten replace it completely. */
  lemma {:induction false} Fill(entries: seq<Record>, recent: seq<Record>)
    requires |recent| <= MaxRecent && |entries| == MaxRecent
    ensures RecentAfterAdds(entries, recent) == Reverse(entries)
  {
    FillPrefix(entries, recent, MaxRecent);
  }

  /** After k adds, k at most ten, the list starts with those k entries,
      newest first. */
  lemma {:induction false} FillPrefix(entries: seq<Record>, recent: seq<Record>, k: nat)
    requires |recent| <= MaxRecent && k == |entries| <= MaxRecent
    ensures var t := RecentAfterAdds(entries, recent);
            |t| >= k && t[..k] == Reverse(entries)
    decreases k
  {
    if k > 0 {
      var prev := entries[..k - 1];
      FillPrefix(prev, recent, k - 1);
      var u := RecentAfterAdds(prev, recent);
      var t := RecentAfterAdds(entries, recent);
      assert t == RecentAfterAdd(entries[k - 1], u);
      assert u[..k - 1] == Reverse(prev);
      assert t[1..][..k - 1] == u[..k - 1];
      assert t[..k] == [entries[k - 1]] + t[1..][..k - 1];
      assert Reverse(entries) == [entries[k - 1]] + Reverse(prev);
    }
  }
}
