/** The wavefront launched: a run of the callback-mode scheduler that creates and tries all its tasks. */
module WavefrontRun {
  import opened Wrappers
  import opened TaskStates
  import opened HostCallback
  import opened HostCallbackInvariant
  import opened HostCallbackSafety
  import HostCallbackRuntime
  import Wavefront
  import WavefrontSafety

  /** A task requires the tasks of a tile's dependencies, the tiles' tasks starting with id first. */
  ghost predicate RequiresAll(preds: seq<nat>, deps: set<nat>, first: nat) {
    forall x {:trigger x in deps} :: x in deps ==> first + x in preds
  }

  ghost predicate RequiresOnly(preds: seq<nat>, deps: set<nat>, first: nat) {
    forall j :: 0 <= j < |preds| ==> preds[j] >= first && preds[j] - first in deps
  }

  /** The ids of required tasks as a list. */
  lemma {:induction false} Handles(deps: set<nat>, first: nat) returns (list: seq<nat>)
    ensures RequiresAll(list, deps, first) && RequiresOnly(list, deps, first)
  {
    if deps == {} {
      list := [];
    } else {
      var x :| x in deps;
      var rest := Handles(deps - {x}, first);
      list := [first + x] + rest;
      HandlesNext(rest, deps, x, first);
    }
  }

  lemma HandlesNext(rest: seq<nat>, deps: set<nat>, x: nat, first: nat)
    requires x in deps && RequiresAll(rest, deps - {x}, first) && RequiresOnly(rest, deps - {x}, first)
    ensures RequiresAll([first + x] + rest, deps, first) && RequiresOnly([first + x] + rest, deps, first)
  {
    hide RequiresOnly, RequiresAll;
    OnlyNext(rest, deps, x, first);
    var list := [first + x] + rest;
    forall y {:trigger y in deps} | y in deps
      ensures first + y in list
    {
      HandleStays(rest, deps, x, first, y);
    }
    AllOf(list, deps, first);
  }

  lemma AllOf(list: seq<nat>, deps: set<nat>, first: nat)
    requires forall y {:trigger y in deps} :: y in deps ==> first + y in list
    ensures RequiresAll(list, deps, first)
  {
  }

  lemma OnlyNext(rest: seq<nat>, deps: set<nat>, x: nat, first: nat)
    requires x in deps && RequiresOnly(rest, deps - {x}, first)
    ensures RequiresOnly([first + x] + rest, deps, first)
  {
    var list := [first + x] + rest;
    forall j | 0 <= j < |list|
      ensures list[j] >= first && list[j] - first in deps
    {
      if j > 0 { assert list[j] == rest[j - 1]; }
    }
  }

  lemma HandleStays(rest: seq<nat>, deps: set<nat>, x: nat, first: nat, y: nat)
    requires RequiresAll(rest, deps - {x}, first) && y in deps
    ensures first + y in [first + x] + rest
  {
    var list := [first + x] + rest;
    if y == x {
      assert list[0] == first + y;
    } else {
      assert y in deps - {x};
      var m :| 0 <= m < |rest| && rest[m] == first + y;
      assert list[m + 1] == first + y;
    }
  }

  /** A task that exists can be tried. */
  lemma MayLaunch(s: State, t: nat)
    requires Inv(s) && t < |s.tasks|
    ensures Launchable(s, t)
  {
    assert TaskShape(s, t);
  }

  /** A task of a kernel with the given arguments can be created at any time. */
  ghost predicate Creatable(s: State, kernel: Option<nat>, image: seq<byte>) {
    KnownKernel(s, kernel) && (kernel.Some? ==> |image| == s.kernels[kernel.value].segmentSize)
  }

  lemma StaysCreatable(s: State, s': State, kernel: Option<nat>, image: seq<byte>)
    requires Creatable(s, kernel, image) && SameMachine(s, s')
    ensures Creatable(s', kernel, image)
  {
  }

  /** Tasks created and tried are there to stay, with what they require. */
  ghost predicate Tried(s: State, s': State, t: nat, preds: seq<nat>) {
    && Inv(s') && |s'.tasks| == |s.tasks| + 1 && t == |s.tasks| && SameMachine(s, s') && AllAdvance(s.tasks, s'.tasks)
    && s'.tasks[t].preds == preds && s'.tasks[t].status != Uninitialized
  }

  lemma LaunchOne(s: State, preds: seq<nat>, kernel: Option<nat>, image: seq<byte>) returns (s1: State, s': State)
    requires Inv(s) && CanCreate(s, preds, kernel, 1, image)
    ensures s1 == Step(s, Create(preds, kernel, 1, image)) && Enabled(s1, Event.Launch(|s.tasks|))
    ensures s' == Step(s1, Event.Launch(|s.tasks|)) && Tried(s, s', |s.tasks|, preds)
  {
    hide Inv, Launchable, TryDispatch, SameMachine, AllAdvance;
    var t := |s.tasks|;
    s1 := DoCreate(s, preds, kernel, 1, image);
    CreateKeeps(s, preds, kernel, 1, image);
    MayLaunch(s1, t);
    s' := TryDispatch(s1, t);
    LaunchKeepsAll(s1, t);
    AdvanceOver(s, s1, s', preds);
    CreateSameMachine(s, s1, s');
  }

  lemma AdvanceOver(s: State, s1: State, s': State, preds: seq<nat>)
    requires |s1.tasks| == |s.tasks| + 1 && s1.tasks[..|s.tasks|] == s.tasks && s1.tasks[|s.tasks|].preds == preds
    requires AllAdvance(s1.tasks, s'.tasks) && |s'.tasks| == |s1.tasks|
    ensures AllAdvance(s.tasks, s'.tasks) && s'.tasks[|s.tasks|].preds == preds
  {
    assert Advances(s1.tasks[|s.tasks|], s'.tasks[|s.tasks|]);
    forall i | 0 <= i < |s.tasks|
      ensures Advances(s.tasks[i], s'.tasks[i])
    {
      assert s1.tasks[..|s.tasks|][i] == s1.tasks[i];
      assert Advances(s1.tasks[i], s'.tasks[i]);
    }
  }

  lemma CreateSameMachine(s: State, s1: State, s': State)
    requires s1 == s.(tasks := s1.tasks) && SameMachine(s1, s')
    ensures SameMachine(s, s')
  {
  }

  lemma LaunchKeepsAll(s: State, t: nat)
    requires Inv(s) && Launchable(s, t) && s.tasks[t].status == Uninitialized
    ensures Inv(TryDispatch(s, t)) && AllAdvance(s.tasks, TryDispatch(s, t).tasks) && SameMachine(s, TryDispatch(s, t))
    ensures |TryDispatch(s, t).tasks| == |s.tasks| && TryDispatch(s, t).tasks[t].status != Uninitialized
  {
    StepKeeps(s, Event.Launch(t));
    TryAdvances(s, t);
    TrySameMachine(s, t);
    TriedTasks(s, t);
    LinkKeepsTasks(s.tasks, t, s.tasks[t].preds);
    StageRises(s, Event.Launch(t));
    hide Inv, Launchable, TryDispatch, SameMachine, Link;
  }

  ghost predicate TileLaunched(s: State, tile: Wavefront.Tile, t: nat, first: nat) {
    && t < |s.tasks| && s.tasks[t].status != Uninitialized
    && RequiresAll(s.tasks[t].preds, tile.deps, first) && RequiresOnly(s.tasks[t].preds, tile.deps, first)
  }

  /** The first n tiles have been launched, from id first on. */
  ghost predicate LaunchedSoFar(s: State, tiles: seq<Wavefront.Tile>, first: nat, n: nat) {
    && n <= |tiles| && |s.tasks| == first + n
    && forall k :: 0 <= k < n ==> TileLaunched(s, tiles[k], first + k, first)
  }

  lemma TileStays(s: State, s': State, tile: Wavefront.Tile, t: nat, first: nat)
    requires TileLaunched(s, tile, t, first) && AllAdvance(s.tasks, s'.tasks)
    ensures TileLaunched(s', tile, t, first)
  {
    assert Advances(s.tasks[t], s'.tasks[t]);
  }

  lemma LaunchedOneMore(s: State, s': State, tiles: seq<Wavefront.Tile>, first: nat, n: nat, preds: seq<nat>)
    requires n < |tiles| && LaunchedSoFar(s, tiles, first, n) && Tried(s, s', first + n, preds)
    requires RequiresAll(preds, tiles[n].deps, first) && RequiresOnly(preds, tiles[n].deps, first)
    ensures LaunchedSoFar(s', tiles, first, n + 1)
  {
    hide Inv, SameMachine, AllAdvance, RequiresAll, RequiresOnly;
    forall k | 0 <= k < n
      ensures TileLaunched(s', tiles[k], first + k, first)
    {
      TileStays(s, s', tiles[k], first + k, first);
    }
    assert TileLaunched(s', tiles[n], first + n, first);
  }

  ghost predicate EarlierOnly(tiles: seq<Wavefront.Tile>) {
    forall k, x {:trigger x in tiles[k].deps} :: 0 <= k < |tiles| && x in tiles[k].deps ==> x < k
  }

  /** Tiles that require earlier ones only can be launched one after the other. */
  lemma {:induction false} LaunchTiles(
    s: State, tiles: seq<Wavefront.Tile>, n: nat, kernel: Option<nat>, image: seq<byte>)
    returns (es: seq<Event>, s': State)
    requires Inv(s) && Creatable(s, kernel, image) && n <= |tiles|
    requires EarlierOnly(tiles)
    ensures HostCallbackRuntime.Ran(s, es, s') && Inv(s') && Creatable(s', kernel, image)
    ensures LaunchedSoFar(s', tiles, |s.tasks|, n)
  {
    hide Inv, Creatable, Enabled, Step, Tried, TileLaunched, EarlierOnly, RequiresAll, RequiresOnly;
    if n == 0 {
      es, s' := [], s;
      assert s.tasks[..|s.tasks|] == s.tasks;
    } else {
      var s0;
      es, s0 := LaunchTiles(s, tiles, n - 1, kernel, image);
      hide LaunchedSoFar, HostCallbackRuntime.Ran;
      var preds := Handles(tiles[n - 1].deps, |s.tasks|);
      HandlesExist(s0, tiles, |s.tasks|, n - 1, preds);
      MayCreate(s0, preds, kernel, image);
      var s1;
      s1, s' := LaunchOne(s0, preds, kernel, image);
      es := HostCallbackRuntime.RanStep(s, es, s0, Create(preds, kernel, 1, image));
      es := HostCallbackRuntime.RanStep(s, es, s1, Event.Launch(|s0.tasks|));
      TriedStays(s0, s', preds, kernel, image);
      LaunchedOneMore(s0, s', tiles, |s.tasks|, n - 1, preds);
    }
  }

  lemma TriedStays(s: State, s': State, preds: seq<nat>, kernel: Option<nat>, image: seq<byte>)
    requires Tried(s, s', |s.tasks|, preds) && Creatable(s, kernel, image)
    ensures Inv(s') && Creatable(s', kernel, image)
  {
    StaysCreatable(s, s', kernel, image);
  }

  lemma HandlesExist(s: State, tiles: seq<Wavefront.Tile>, first: nat, n: nat, preds: seq<nat>)
    requires n < |tiles| && EarlierOnly(tiles) && LaunchedSoFar(s, tiles, first, n)
    requires RequiresOnly(preds, tiles[n].deps, first)
    ensures (forall j :: 0 <= j < |preds| ==> preds[j] < |s.tasks|) && |s.tasks| == first + n
  {
  }

  lemma MayCreate(s: State, preds: seq<nat>, kernel: Option<nat>, image: seq<byte>)
    requires Creatable(s, kernel, image) && forall j :: 0 <= j < |preds| ==> preds[j] < |s.tasks|
    ensures CanCreate(s, preds, kernel, 1, image) && Enabled(s, Create(preds, kernel, 1, image))
  {
  }

  /**
    From any reachable state there is a run that creates and tries every task of the wavefront, in the order of the
    example's loops, each requiring the tasks its tile depends on and no others.
   */
  lemma {:induction false} WavefrontLaunches(
    s: State, before: seq<Event>, w: nat, size: nat, kernel: Option<nat>, image: seq<byte>) returns (es: seq<Event>)
    requires Initial(s) && Possible(s, before) && Creatable(Exec(s, before), kernel, image) && w > 0 && size > 0
    ensures Possible(Exec(s, before), es)
    ensures var s', first := Exec(Exec(s, before), es), |Exec(s, before).tasks|;
            var tiles := WavefrontSafety.AllTiles(w, size);
            WavefrontSafety.LaunchedAs(s', tiles, first) && LaunchedSoFar(s', tiles, first, |tiles|)
  {
    InitialHolds(s);
    RunKeeps(s, before);
    hide Inv, Creatable, Initial, Possible, Exec, WavefrontSafety.AllTiles;
    var tiles := WavefrontSafety.AllTiles(w, size);
    forall k, x | 0 <= k < |tiles| && x in tiles[k].deps
      ensures x < k
    {
      var r, c, r2, c2 := WavefrontSafety.OnlyNeighboursRequired(w, size, k, x);
    }
    assert EarlierOnly(tiles);
    var s';
    es, s' := LaunchTiles(Exec(s, before), tiles, |tiles|, kernel, image);
    AllLaunched(s', tiles, |Exec(s, before).tasks|);
  }

  lemma AllLaunched(s: State, tiles: seq<Wavefront.Tile>, first: nat)
    requires LaunchedSoFar(s, tiles, first, |tiles|)
    ensures WavefrontSafety.LaunchedAs(s, tiles, first)
  {
    forall k, x | 0 <= k < |tiles| && x in tiles[k].deps
      ensures first + x in s.tasks[first + k].preds
    {
      assert TileLaunched(s, tiles[k], first + k, first);
    }
  }
}
