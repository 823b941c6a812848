/** The agent's lifecycle state (`DLPAgent`, agent.py:130-224): the `running` flag and
    the list of directory watchers. Which paths exist on disk is given as a set. */
module Agent {
  import opened Wrappers
  import Config

  /** A watchdog observer: the root it watches, whether recursively, and whether it is
      still running. */
  datatype Watcher = Watcher(root: string, recursive: bool, active: bool)

  /** The watchers `start_file_monitoring` starts for `paths`: one recursive, running
      watcher per path that exists, in list order. */
  function WatchersFor(paths: seq<string>, existing: set<string>): (r: seq<Watcher>)
    ensures |r| <= |paths|
    ensures forall k :: 0 <= k < |r| ==>
      r[k].root in paths && r[k].root in existing && r[k].recursive && r[k].active
  {
    if paths == [] then []
    else
      var last := paths[|paths| - 1];
      WatchersFor(paths[..|paths| - 1], existing)
        + (if last in existing then [Watcher(last, true, true)] else [])
  }

  class DlpAgent {
    const config: Config.Settings
    const agentId: Config.Json
    const serverUrl: Config.Json
    var running: bool
    var observers: seq<Watcher>

    /** `__init__`, given the loaded configuration. */
    constructor (config: Config.Settings)
      ensures this.config == config
      ensures agentId == Config.Get(config, "agent_id", Config.Null)
      ensures serverUrl == Config.Get(config, "server_url", Config.Null)
      ensures !running && observers == []
    {
      this.config := config;
      agentId := Config.Get(config, "agent_id", Config.Null);
      serverUrl := Config.Get(config, "server_url", Config.Null);
      running := false;
      observers := [];
    }

    /** `start_file_monitoring`: look up the monitored paths and start a watcher on each
        that exists. `ok` is false when the lookup fails, and then nothing is started. */
    method StartFileMonitoring(existing: set<string>) returns (ok: bool)
      modifies this
      ensures running == old(running)
      ensures ok <==> Config.MonitoredPaths(config).Some?
      ensures ok ==> observers == old(observers) + WatchersFor(Config.MonitoredPaths(config).value, existing)
      ensures !ok ==> observers == old(observers)
    {
      var lookup := Config.MonitoredPaths(config);
      if lookup.None? {
        return false;
      }
      var paths := lookup.value;
      for i := 0 to |paths|
        invariant observers == old(observers) + WatchersFor(paths[..i], existing)
        invariant running == old(running)
      {
        assert paths[..i + 1][..i] == paths[..i];
        if paths[i] in existing {
          observers := observers + [Watcher(paths[i], true, true)];
        }
      }
      assert paths[..|paths|] == paths;
      ok := true;
    }

    /** `start` up to its keep-alive loop: set `running`, and start file monitoring when
        monitoring.file_system is truthy. `ok` is false when a configuration lookup
        fails. */
    method Start(existing: set<string>) returns (ok: bool)
      modifies this
      ensures running
      ensures Config.FileSystemEnabled(config) == Some(false) ==> ok && observers == old(observers)
      ensures Config.FileSystemEnabled(config) == Some(true) ==>
        (ok <==> Config.MonitoredPaths(config).Some?) &&
        (ok ==> observers == old(observers) + WatchersFor(Config.MonitoredPaths(config).value, existing)) &&
        (!ok ==> observers == old(observers))
      ensures Config.FileSystemEnabled(config).None? ==> !ok && observers == old(observers)
    {
      running := true;
      var enabled := Config.FileSystemEnabled(config);
      if enabled.None? {
        return false;
      }
      if enabled.value {
        ok := StartFileMonitoring(existing);
      } else {
        ok := true;
      }
    }

    /** `stop`: clear `running` and stop every watcher; the list itself is kept. */
    method Stop()
      modifies this
      ensures !running
      ensures |observers| == |old(observers)|
      ensures forall k :: 0 <= k < |observers| ==> observers[k] == old(observers)[k].(active := false)
    {
      running := false;
      for i := 0 to |observers|
        invariant !running
        invariant |observers| == |old(observers)|
        invariant forall k :: 0 <= k < i ==> observers[k] == old(observers)[k].(active := false)
        invariant forall k :: i <= k < |observers| ==> observers[k] == old(observers)[k]
      {
        observers := observers[i := observers[i].(active := false)];
      }
    }
  }

  // ---------------------------------------------------------------------------
  // Properties of the watchers started
  // ---------------------------------------------------------------------------

  lemma {:induction false} WatchersForAppend(paths: seq<string>, more: seq<string>, existing: set<string>)
    ensures WatchersFor(paths + more, existing) == WatchersFor(paths, existing) + WatchersFor(more, existing)
    decreases |more|
  {
    if more == [] {
      assert paths + more == paths;
    } else {
      var init := more[..|more| - 1];
      assert (paths + more)[..|paths + more| - 1] == paths + init;
      assert (paths + more)[|paths + more| - 1] == more[|more| - 1];
      WatchersForAppend(paths, init, existing);
    }
  }

  /** A path gets a watcher exactly when it is listed and exists. */
  lemma {:induction false} WatchedIffListedAndExisting(paths: seq<string>, existing: set<string>, p: string)
    ensures (exists k :: 0 <= k < |WatchersFor(paths, existing)| && WatchersFor(paths, existing)[k].root == p)
        <==> p in paths && p in existing
  {
    if paths != [] {
      var init := paths[..|paths| - 1];
      var last := paths[|paths| - 1];
      WatchedIffListedAndExisting(init, existing, p);
      assert paths == init + [last];
      var w := WatchersFor(paths, existing);
      var wi := WatchersFor(init, existing);
      if p in init && p in existing {
        var k :| 0 <= k < |wi| && wi[k].root == p;
        assert w[k] == wi[k];
      } else if p == last && p in existing {
        assert w[|wi|].root == p;
        assert p in paths by { assert paths[|paths| - 1] == p; }
      }
    }
  }

  /** When every listed path exists, the watchers follow the list one for one. */
  lemma {:induction false} AllExistingAllWatched(paths: seq<string>, existing: set<string>)
    requires forall k :: 0 <= k < |paths| ==> paths[k] in existing
    ensures |WatchersFor(paths, existing)| == |paths|
    ensures forall k :: 0 <= k < |paths| ==> WatchersFor(paths, existing)[k] == Watcher(paths[k], true, true)
  {
    if paths != [] {
      var init := paths[..|paths| - 1];
      AllExistingAllWatched(init, existing);
      var w := WatchersFor(paths, existing);
      var wi := WatchersFor(init, existing);
      assert w == wi + [Watcher(paths[|paths| - 1], true, true)];
      forall k | 0 <= k < |paths| ensures w[k] == Watcher(paths[k], true, true) {
        if k < |init| {
          assert w[k] == wi[k];
          assert init[k] == paths[k];
        }
      }
    }
  }

  /** When no listed path exists, nothing is watched. */
  lemma {:induction false} NoneExistingNoneWatched(paths: seq<string>, existing: set<string>)
    requires forall k :: 0 <= k < |paths| ==> paths[k] !in existing
    ensures WatchersFor(paths, existing) == []
  {
    if paths != [] {
      NoneExistingNoneWatched(paths[..|paths| - 1], existing);
    }
  }

  /** Watchers keep the order of the list: the roots of two watchers appear in the list
      at increasing positions. */
  lemma {:induction false} WatchersKeepListOrder(paths: seq<string>, existing: set<string>, i: nat, j: nat)
    requires i < j < |WatchersFor(paths, existing)|
    ensures exists a, b :: (0 <= a < b < |paths| &&
      paths[a] == WatchersFor(paths, existing)[i].root && paths[b] == WatchersFor(paths, existing)[j].root)
  {
    var init := paths[..|paths| - 1];
    var last := paths[|paths| - 1];
    var wi := WatchersFor(init, existing);
    var w := WatchersFor(paths, existing);
    if j < |wi| {
      WatchersKeepListOrder(init, existing, i, j);
      var a, b :| 0 <= a < b < |init| && init[a] == wi[i].root && init[b] == wi[j].root;
      assert paths[a] == w[i].root && paths[b] == w[j].root;
    } else {
      assert w[j].root == last;
      assert wi[i].root in init;
      var a :| 0 <= a < |init| && init[a] == wi[i].root;
      assert paths[a] == w[i].root && paths[|paths| - 1] == w[j].root;
    }
  }

  /** The listed paths that exist, front to back, repetitions included. */
  function ExistingInOrder(paths: seq<string>, existing: set<string>): (r: seq<string>)
    ensures |r| <= |paths|
    ensures forall k :: 0 <= k < |r| ==> r[k] in existing && r[k] in paths
  {
    if paths == [] then []
    else (if paths[0] in existing then [paths[0]] else []) + ExistingInOrder(paths[1..], existing)
  }

  /** The watchers started are exactly one per listed path that exists, in list order:
      a root listed twice gets two watchers, a missing root none. */
  lemma {:induction false} WatcherRootsAreExistingPaths(paths: seq<string>, existing: set<string>)
    ensures |WatchersFor(paths, existing)| == |ExistingInOrder(paths, existing)|
    ensures forall k :: 0 <= k < |WatchersFor(paths, existing)| ==>
      WatchersFor(paths, existing)[k] == Watcher(ExistingInOrder(paths, existing)[k], true, true)
  {
    if paths != [] {
      var p, rest := paths[0], paths[1..];
      assert paths == [p] + rest;
      WatchersForAppend([p], rest, existing);
      WatcherRootsAreExistingPaths(rest, existing);
      assert [p][..0] == [];
      var head := if p in existing then [Watcher(p, true, true)] else [];
      assert WatchersFor([p], existing) == head;
      var w, wr := WatchersFor(paths, existing), WatchersFor(rest, existing);
      var e, er := ExistingInOrder(paths, existing), ExistingInOrder(rest, existing);
      assert w == head + wr;
      assert e == (if p in existing then [p] else []) + er;
      forall k | 0 <= k < |w| ensures w[k] == Watcher(e[k], true, true) {
        if p in existing && k > 0 {
          assert w[k] == wr[k - 1] && e[k] == er[k - 1];
        } else if p !in existing {
          assert w[k] == wr[k] && e[k] == er[k];
        }
      }
    }
  }

  /** With the default configuration and nothing in the file's "monitoring" key, the
      monitored paths are the default roots /home, /var/www, /opt/data. */
  lemma DefaultRootsListed(agentId: string, hostname: string, loaded: Config.Settings)
    requires "monitoring" !in loaded
    ensures var cfg := Config.LoadConfig(Config.DefaultConfig(agentId, hostname), Some(loaded));
      Config.MonitoredPaths(cfg) == Some(["/home", "/var/www", "/opt/data"])
  {
    Config.DefaultListsWhenSectionAbsent(agentId, hostname, loaded);
  }

  /** When the three default roots all exist, monitoring them starts exactly three
      recursive watchers, one per root, in that order. */
  lemma DefaultRootsWatched(existing: set<string>)
    requires "/home" in existing && "/var/www" in existing && "/opt/data" in existing
    ensures WatchersFor(["/home", "/var/www", "/opt/data"], existing)
         == [Watcher("/home", true, true), Watcher("/var/www", true, true), Watcher("/opt/data", true, true)]
  {
    var roots := ["/home", "/var/www", "/opt/data"];
    AllExistingAllWatched(roots, existing);
  }
}
