/**
 * The dependency-resolving initialiser as a sequential, memoised depth-first
 * traversal over `requires` names. `Initialise` is `pluginInitialise`,
 * `FanOut` is the top-level `Promise.all(pluginsList.map(pluginInitialise))`
 * and `InitRun` is the whole of `init`. Hooks are not executed: the traversal
 * records, in a log, the moment each hook is invoked.
 */
module Resolution {
  import opened Wrappers
  import opened Stages
  import opened Plugins

  /** The `requires` list of every registered plugin, keyed by registered name. */
  type Graph = map<string, seq<string>>

  /** What the registry does, in the order it does it. */
  datatype Event =
    | StageEntered(stage: Stage)
      /** `plugin.init(registry)` is invoked for `promise`, after awaiting `awaited`. */
    | InitHook(plugin: string, promise: Promise, awaited: seq<Promise>)
      /** `plugin.onRegistryInitFinish(registry)` is invoked. */
    | FinishHook(plugin: string)

  /**
   * The state the traversal reads and writes: the `state` slot of each
   * registered plugin, the number of promises created so far, and the log.
   */
  datatype World = World(slots: map<string, Option<Promise>>, created: nat, log: seq<Event>)

  /**
   * `rank` decreases along every dependency edge between registered plugins:
   * the graph has no cycle. A cycle, a self-dependency included, that the
   * traversal enters while its slots are unset makes the source recurse
   * without bound; runs in which every cycle is cut by a set slot end in the
   * source but are excluded here too.
   */
  ghost predicate RankedBy(g: Graph, rank: map<string, nat>)
  {
    g.Keys <= rank.Keys &&
    forall p, j :: p in g && 0 <= j < |g[p]| && g[p][j] in g ==> rank[g[p][j]] < rank[p]
  }

  /** Every name a plugin requires is registered. */
  ghost predicate Closed(g: Graph)
  {
    forall p, j :: p in g && 0 <= j < |g[p]| ==> g[p][j] in g
  }

  /**
   * `pluginInitialise(p)`: a new promise is created, the dependencies are
   * resolved in order, and only then is the promise stored in `p`'s slot,
   * overwriting whatever was there, and `p`'s hook invoked.
   */
  ghost function Initialise(g: Graph, rank: map<string, nat>, w: World, p: string)
    : (r: Result<(Promise, World), RegistryError>)
    requires RankedBy(g, rank) && p in g && w.slots.Keys == g.Keys
    ensures r.Ok? ==> r.value.1.slots.Keys == g.Keys
    decreases rank[p], 1
  {
    var promise := Promise(w.created);
    match ResolveDeps(g, rank, p, 0, w.(created := w.created + 1), [])
    case Err(e) => Err(e)
    case Ok((awaited, w')) =>
      Ok((promise, w'.(slots := w'.slots[p := Some(promise)],
                       log := w'.log + [InitHook(p, promise, awaited)])))
  }

  /** `Initialise` in terms of the outcome of resolving `p`'s dependencies. */
  lemma InitialiseAfterDeps(g: Graph, rank: map<string, nat>, w: World, p: string)
    requires RankedBy(g, rank) && p in g && w.slots.Keys == g.Keys
    ensures var deps := ResolveDeps(g, rank, p, 0, w.(created := w.created + 1), []);
      var h := Promise(w.created);
      (deps.Err? ==> Initialise(g, rank, w, p) == Err(deps.error)) &&
      (deps.Ok? ==> Initialise(g, rank, w, p)
                      == Ok((h, deps.value.1.(slots := deps.value.1.slots[p := Some(h)],
                                              log := deps.value.1.log + [InitHook(p, h, deps.value.0)]))))
  {
  }

  /**
   * The dependencies `g[p][i..]`, left to right: a name with no registered
   * plugin fails; a dependency whose slot is set is reused (its promise is
   * awaited); any other is initialised first. `awaited` collects the promises.
   */
  ghost function ResolveDeps(g: Graph, rank: map<string, nat>, p: string, i: nat, w: World, awaited: seq<Promise>)
    : (r: Result<(seq<Promise>, World), RegistryError>)
    requires RankedBy(g, rank) && p in g && i <= |g[p]| && w.slots.Keys == g.Keys
    ensures r.Ok? ==> r.value.1.slots.Keys == g.Keys
    decreases rank[p], 0, |g[p]| - i
  {
    if i == |g[p]| then Ok((awaited, w))
    else
      var d := g[p][i];
      if d !in g then Err(MissingDependency(d))
      else match w.slots[d]
        case Some(existing) => ResolveDeps(g, rank, p, i + 1, w, awaited + [existing])
        case None =>
          match Initialise(g, rank, w, d)
          case Err(e) => Err(e)
          case Ok((promise, w')) => ResolveDeps(g, rank, p, i + 1, w', awaited + [promise])
  }

  /** One step of `ResolveDeps`, case by case. */
  lemma ResolveDepsStep(g: Graph, rank: map<string, nat>, p: string, i: nat, w: World, awaited: seq<Promise>)
    requires RankedBy(g, rank) && p in g && i <= |g[p]| && w.slots.Keys == g.Keys
    ensures i == |g[p]| ==> ResolveDeps(g, rank, p, i, w, awaited) == Ok((awaited, w))
    ensures i < |g[p]| && g[p][i] !in g ==> ResolveDeps(g, rank, p, i, w, awaited) == Err(MissingDependency(g[p][i]))
    ensures i < |g[p]| && g[p][i] in g && w.slots[g[p][i]].Some? ==>
      ResolveDeps(g, rank, p, i, w, awaited) == ResolveDeps(g, rank, p, i + 1, w, awaited + [w.slots[g[p][i]].value])
    ensures i < |g[p]| && g[p][i] in g && w.slots[g[p][i]].None? ==>
      var init := Initialise(g, rank, w, g[p][i]);
      (init.Err? ==> ResolveDeps(g, rank, p, i, w, awaited) == Err(init.error)) &&
      (init.Ok? ==> ResolveDeps(g, rank, p, i, w, awaited) == ResolveDeps(g, rank, p, i + 1, init.value.1, awaited + [init.value.0]))
  {
  }

  /** The top-level fan-out over `order[i..]`: every plugin is initialised at its turn, set slot or not. */
  ghost function FanOut(g: Graph, rank: map<string, nat>, order: seq<string>, i: nat, w: World)
    : (r: Result<World, RegistryError>)
    requires RankedBy(g, rank) && i <= |order| && w.slots.Keys == g.Keys
    requires forall k :: 0 <= k < |order| ==> order[k] in g
    ensures r.Ok? ==> r.value.slots.Keys == g.Keys
    decreases |order| - i
  {
    if i == |order| then Ok(w)
    else match Initialise(g, rank, w, order[i])
      case Err(e) => Err(e)
      case Ok((_, w')) => FanOut(g, rank, order, i + 1, w')
  }

  /** One turn of the fan-out, in terms of the outcome of initialising `order[i]`. */
  lemma FanOutUnfold(g: Graph, rank: map<string, nat>, order: seq<string>, i: nat, w: World)
    requires RankedBy(g, rank) && i < |order| && w.slots.Keys == g.Keys
    requires forall k :: 0 <= k < |order| ==> order[k] in g
    ensures var init := Initialise(g, rank, w, order[i]);
      (init.Err? ==> FanOut(g, rank, order, i, w) == Err(init.error)) &&
      (init.Ok? ==> FanOut(g, rank, order, i, w) == FanOut(g, rank, order, i + 1, init.value.1))
  {
  }

  /** `notifyPluginOnInitFinish` over the plugins, in insertion order. */
  function FinishHooks(order: seq<string>): (r: seq<Event>)
    ensures |r| == |order|
    ensures forall k :: 0 <= k < |order| ==> r[k] == FinishHook(order[k])
  {
    if order == [] then [] else [FinishHook(order[0])] + FinishHooks(order[1..])
  }

  /** Notifying one more plugin appends its finish hook to the log. */
  lemma FinishHooksSnoc(log: seq<Event>, order: seq<string>, i: nat)
    requires i < |order|
    ensures log + FinishHooks(order[..i + 1]) == (log + FinishHooks(order[..i])) + [FinishHook(order[i])]
  {
    var r, r' := FinishHooks(order[..i + 1]), FinishHooks(order[..i]) + [FinishHook(order[i])];
    assert |r| == |r'|;
    forall k | 0 <= k < |r| ensures r[k] == r'[k] {
    }
    assert r == r';
  }

  /**
   * `init`: enter PluginsInitialisation, run the fan-out, notify every plugin,
   * enter Ready. A failure leaves the registry in PluginsInitialisation.
   */
  ghost function InitRun(g: Graph, rank: map<string, nat>, order: seq<string>, w: World)
    : (r: Result<World, RegistryError>)
    requires RankedBy(g, rank) && w.slots.Keys == g.Keys
    requires forall k :: 0 <= k < |order| ==> order[k] in g
  {
    var started := w.(log := w.log + [StageEntered(PluginsInitialisation)]);
    match FanOut(g, rank, order, 0, started)
    case Err(e) => Err(e)
    case Ok(w') => Ok(w'.(log := w'.log + FinishHooks(order) + [StageEntered(Ready)]))
  }

  // ---------------------------------------------------------------------------
  // Properties of the traversal

  /** The hook of `p` was invoked for promise `h` at some position in `lo..hi`. */
  ghost predicate FiredBetween(log: seq<Event>, lo: int, hi: int, p: string, h: Promise)
  {
    exists k :: lo <= k < hi && 0 <= k < |log| && log[k].InitHook? && log[k].plugin == p && log[k].promise == h
  }

  /** The hook at position `i` was invoked only after the hook behind every promise it awaited. */
  ghost predicate AwaitedFiredBefore(g: Graph, log: seq<Event>, i: int)
    requires 0 <= i < |log| && log[i].InitHook?
  {
    var e := log[i];
    e.plugin in g && |e.awaited| == |g[e.plugin]| &&
    forall j :: 0 <= j < |e.awaited| ==> FiredBetween(log, 0, i, g[e.plugin][j], e.awaited[j])
  }

  /** Dependencies before dependents, throughout the log. */
  ghost predicate DependenciesFirst(g: Graph, log: seq<Event>)
  {
    forall i :: 0 <= i < |log| && log[i].InitHook? ==> AwaitedFiredBefore(g, log, i)
  }

  /** Every promise stored in a slot is one whose hook has been invoked. */
  ghost predicate SlotsFired(w: World)
  {
    forall p :: p in w.slots && w.slots[p].Some? ==> FiredBetween(w.log, 0, |w.log|, p, w.slots[p].value)
  }

  ghost predicate Coherent(g: Graph, w: World)
  {
    w.slots.Keys == g.Keys && SlotsFired(w) && DependenciesFirst(g, w.log)
  }

  /** `w'` keeps the slots' keys and extends the log of `w`. */
  ghost predicate Extends(w: World, w': World)
  {
    w'.slots.Keys == w.slots.Keys && |w.log| <= |w'.log| &&
    forall k :: 0 <= k < |w.log| ==> w'.log[k] == w.log[k]
  }

  /** Every slot set in `w`, other than those in `except`, holds the same promise in `w'`. */
  ghost predicate SetSlotsKept(w: World, w': World, except: set<string>)
  {
    forall q :: q in w.slots && q !in except && w.slots[q].Some? ==> q in w'.slots && w'.slots[q] == w.slots[q]
  }

  /** Positions `|w.log|..upto` of `w'.log` are hooks of plugins whose slot was not set in `w`. */
  ghost predicate OnlyUnsetInitialised(w: World, w': World, upto: int)
  {
    forall k :: |w.log| <= k < upto && 0 <= k < |w'.log| ==>
      w'.log[k].InitHook? && w'.log[k].plugin in w.slots && w.slots[w'.log[k].plugin].None?
  }

  lemma FiredWidens(log: seq<Event>, log': seq<Event>, lo: int, hi: int, hi': int, p: string, h: Promise)
    requires FiredBetween(log, lo, hi, p, h) && hi <= |log| <= |log'| && hi <= hi'
    requires forall k :: 0 <= k < |log| ==> log'[k] == log[k]
    ensures FiredBetween(log', lo, hi', p, h)
  {
    var k :| lo <= k < hi && 0 <= k < |log| && log[k].InitHook? && log[k].plugin == p && log[k].promise == h;
    assert log'[k] == log[k];
  }

  /** Appending one event keeps a coherent world coherent when the event is not a hook, or awaits only fired promises. */
  lemma {:induction false} AppendKeepsOrder(g: Graph, log: seq<Event>, e: Event)
    requires DependenciesFirst(g, log)
    requires e.InitHook? ==>
               e.plugin in g && |e.awaited| == |g[e.plugin]| &&
               forall j :: 0 <= j < |e.awaited| ==> FiredBetween(log, 0, |log|, g[e.plugin][j], e.awaited[j])
    ensures DependenciesFirst(g, log + [e])
  {
    var log' := log + [e];
    forall i | 0 <= i < |log'| && log'[i].InitHook? ensures AwaitedFiredBefore(g, log', i) {
      var ev := log'[i];
      if i < |log| {
        assert ev == log[i] && AwaitedFiredBefore(g, log, i);
        forall j | 0 <= j < |ev.awaited| ensures FiredBetween(log', 0, i, g[ev.plugin][j], ev.awaited[j]) {
          FiredWidens(log, log', 0, i, i, g[ev.plugin][j], ev.awaited[j]);
        }
      } else {
        forall j | 0 <= j < |ev.awaited| ensures FiredBetween(log', 0, i, g[ev.plugin][j], ev.awaited[j]) {
          FiredWidens(log, log', 0, |log|, i, g[ev.plugin][j], ev.awaited[j]);
        }
      }
    }
  }

  lemma ExtendsTransitive(w0: World, w1: World, w2: World)
    requires Extends(w0, w1) && Extends(w1, w2)
    ensures Extends(w0, w2)
  {
    forall k | 0 <= k < |w0.log| ensures w2.log[k] == w0.log[k] {
      assert w2.log[k] == w1.log[k];
    }
  }

  lemma {:induction false} OnlyUnsetTransitive(w0: World, w1: World, w2: World)
    requires Extends(w0, w1) && Extends(w1, w2) && SetSlotsKept(w0, w1, {})
    requires OnlyUnsetInitialised(w0, w1, |w1.log|) && OnlyUnsetInitialised(w1, w2, |w2.log|)
    ensures OnlyUnsetInitialised(w0, w2, |w2.log|)
  {
    forall k | |w0.log| <= k < |w2.log| && 0 <= k < |w2.log|
      ensures w2.log[k].InitHook? && w2.log[k].plugin in w0.slots && w0.slots[w2.log[k].plugin].None?
    {
      if k < |w1.log| {
        assert w2.log[k] == w1.log[k];
      } else {
        var q := w2.log[k].plugin;
        assert q in w1.slots && w1.slots[q].None?;
      }
    }
  }

  /**
   * What one `pluginInitialise(p)` does to a coherent world: it stays coherent
   * (dependencies before dependents; every stored promise's hook invoked); the
   * last new log entry is `p`'s hook for the promise now in `p`'s slot; every
   * earlier new entry is the hook of a plugin whose slot was not set, so a set
   * dependency is never initialised again; and a dependency whose slot was set
   * is awaited through the promise already there.
   */
  lemma {:induction false} InitialiseSound(g: Graph, rank: map<string, nat>, w: World, p: string)
    requires RankedBy(g, rank) && p in g && Coherent(g, w)
    ensures var r := Initialise(g, rank, w, p);
      r.Ok? ==>
        var (h, w') := r.value;
        Coherent(g, w') && Extends(w, w') && SetSlotsKept(w, w', {p}) &&
        w'.slots[p] == Some(h) && |w.log| < |w'.log| &&
        var last := w'.log[|w'.log| - 1];
        last.InitHook? && last.plugin == p && last.promise == h && |last.awaited| == |g[p]| &&
        OnlyUnsetInitialised(w, w', |w'.log| - 1) &&
        forall j :: 0 <= j < |g[p]| && g[p][j] in w.slots && w.slots[g[p][j]].Some? ==>
          last.awaited[j] == w.slots[g[p][j]].value
    decreases rank[p], 1
  {
    var promise := Promise(w.created);
    var w1 := w.(created := w.created + 1);
    ResolveDepsSound(g, rank, p, 0, w1, []);
    var deps := ResolveDeps(g, rank, p, 0, w1, []);
    if deps.Ok? {
      var (aw, w2) := deps.value;
      assert ResolvedFrom(g, p, 0, w1, [], aw, w2);
      var e := InitHook(p, promise, aw);
      var w3 := w2.(slots := w2.slots[p := Some(promise)], log := w2.log + [e]);
      assert Initialise(g, rank, w, p) == Ok((promise, w3));
      AppendKeepsOrder(g, w2.log, e);
      forall q | q in w3.slots && w3.slots[q].Some? ensures FiredBetween(w3.log, 0, |w3.log|, q, w3.slots[q].value) {
        if q == p {
          assert w3.log[|w2.log|] == e;
        } else {
          FiredWidens(w2.log, w3.log, 0, |w2.log|, |w3.log|, q, w2.slots[q].value);
        }
      }
      ExtendsTransitive(w, w2, w3);
    }
  }

  /** The promises awaited before position `i` of `g[p]` all had their hooks invoked. */
  ghost predicate AwaitedSoFar(g: Graph, p: string, i: nat, log: seq<Event>, awaited: seq<Promise>)
    requires p in g && i <= |g[p]|
  {
    |awaited| == i && forall j :: 0 <= j < i ==> FiredBetween(log, 0, |log|, g[p][j], awaited[j])
  }

  /** What resolving `g[p][i..]` from `w` with `awaited` so far guarantees of its outcome `(aw, w')`. */
  ghost predicate ResolvedFrom(g: Graph, p: string, i: nat, w: World, awaited: seq<Promise>, aw: seq<Promise>, w': World)
    requires p in g && i <= |g[p]|
  {
    Coherent(g, w') && Extends(w, w') && SetSlotsKept(w, w', {}) &&
    OnlyUnsetInitialised(w, w', |w'.log|) &&
    AwaitedSoFar(g, p, |g[p]|, w'.log, aw) && aw[..i] == awaited &&
    forall j :: i <= j < |aw| && g[p][j] in w.slots && w.slots[g[p][j]].Some? ==> aw[j] == w.slots[g[p][j]].value
  }

  /** A dependency whose slot is set: its promise is awaited and nothing else happens. */
  lemma {:induction false} ReuseStep(g: Graph, p: string, i: nat, w: World, awaited: seq<Promise>, aw: seq<Promise>, w': World)
    requires p in g && i < |g[p]| && g[p][i] in w.slots && w.slots[g[p][i]].Some?
    requires ResolvedFrom(g, p, i + 1, w, awaited + [w.slots[g[p][i]].value], aw, w')
    ensures ResolvedFrom(g, p, i, w, awaited, aw, w')
  {
    assert aw[..i] == (aw[..i + 1])[..i];
  }

  lemma KeptTransitive(w0: World, w1: World, w2: World)
    requires SetSlotsKept(w0, w1, {}) && SetSlotsKept(w1, w2, {})
    ensures SetSlotsKept(w0, w2, {})
  {
  }

  lemma {:induction false} UnsetUpToLast(w: World, wd: World, d: string)
    requires d in w.slots && w.slots[d].None? && SetSlotsKept(w, wd, {d})
    requires |w.log| < |wd.log| && wd.log[|wd.log| - 1].InitHook? && wd.log[|wd.log| - 1].plugin == d
    requires OnlyUnsetInitialised(w, wd, |wd.log| - 1)
    ensures OnlyUnsetInitialised(w, wd, |wd.log|) && SetSlotsKept(w, wd, {})
  {
  }

  /** A dependency whose slot was not set: it is initialised, then the rest is resolved. */
  lemma {:induction false} InitialiseStep(g: Graph, p: string, i: nat, w: World, awaited: seq<Promise>,
                                          pr: Promise, wd: World, aw: seq<Promise>, w': World)
    requires p in g && i < |g[p]| && g[p][i] in w.slots && w.slots[g[p][i]].None?
    requires Extends(w, wd) && SetSlotsKept(w, wd, {g[p][i]})
    requires |w.log| < |wd.log| && wd.log[|wd.log| - 1].InitHook? && wd.log[|wd.log| - 1].plugin == g[p][i]
    requires OnlyUnsetInitialised(w, wd, |wd.log| - 1)
    requires ResolvedFrom(g, p, i + 1, wd, awaited + [pr], aw, w')
    ensures ResolvedFrom(g, p, i, w, awaited, aw, w')
  {
    assert aw[..i] == (aw[..i + 1])[..i];
    UnsetUpToLast(w, wd, g[p][i]);
    KeptTransitive(w, wd, w');
    ExtendsTransitive(w, wd, w');
    OnlyUnsetTransitive(w, wd, w');
    forall j | i <= j < |aw| && g[p][j] in w.slots && w.slots[g[p][j]].Some?
      ensures aw[j] == w.slots[g[p][j]].value
    {
      assert j != i;
      assert g[p][j] in wd.slots && wd.slots[g[p][j]] == w.slots[g[p][j]];
    }
  }

  /** `ResolveDeps` from position `i`: the invariant `InitialiseSound` needs. */
  lemma {:induction false} ResolveDepsSound(g: Graph, rank: map<string, nat>, p: string, i: nat, w: World, awaited: seq<Promise>)
    requires RankedBy(g, rank) && p in g && i <= |g[p]| && Coherent(g, w)
    requires AwaitedSoFar(g, p, i, w.log, awaited)
    ensures var r := ResolveDeps(g, rank, p, i, w, awaited);
      r.Ok? ==> ResolvedFrom(g, p, i, w, awaited, r.value.0, r.value.1)
    decreases rank[p], 0, |g[p]| - i
  {
    if i == |g[p]| {
      assert awaited[..i] == awaited;
    } else if g[p][i] in g {
      var d := g[p][i];
      match w.slots[d]
      case Some(existing) =>
        ResolveDepsSound(g, rank, p, i + 1, w, awaited + [existing]);
        var r := ResolveDeps(g, rank, p, i + 1, w, awaited + [existing]);
        if r.Ok? {
          ReuseStep(g, p, i, w, awaited, r.value.0, r.value.1);
        }
      case None =>
        InitialiseSound(g, rank, w, d);
        var init := Initialise(g, rank, w, d);
        if init.Ok? {
          var (pr, wd) := init.value;
          forall j | 0 <= j < i ensures FiredBetween(wd.log, 0, |wd.log|, g[p][j], awaited[j]) {
            FiredWidens(w.log, wd.log, 0, |w.log|, |wd.log|, g[p][j], awaited[j]);
          }
          ResolveDepsSound(g, rank, p, i + 1, wd, awaited + [pr]);
          var r := ResolveDeps(g, rank, p, i + 1, wd, awaited + [pr]);
          if r.Ok? {
            assert ResolvedFrom(g, p, i + 1, wd, awaited + [pr], r.value.0, r.value.1);
            InitialiseStep(g, p, i, w, awaited, pr, wd, r.value.0, r.value.1);
          }
        }
    }
  }

  /** Appending events that are not init hooks keeps the order property. */
  lemma {:induction false} AppendNonHooks(g: Graph, log: seq<Event>, t: seq<Event>)
    requires DependenciesFirst(g, log)
    requires forall k :: 0 <= k < |t| ==> !t[k].InitHook?
    ensures DependenciesFirst(g, log + t)
  {
    var log' := log + t;
    forall i | 0 <= i < |log'| && log'[i].InitHook? ensures AwaitedFiredBefore(g, log', i) {
      assert i < |log|;
      var ev := log'[i];
      assert ev == log[i] && AwaitedFiredBefore(g, log, i);
      forall j | 0 <= j < |ev.awaited| ensures FiredBetween(log', 0, i, g[ev.plugin][j], ev.awaited[j]) {
        FiredWidens(log, log', 0, i, i, g[ev.plugin][j], ev.awaited[j]);
      }
    }
  }

  /** Every plugin among `order[..i]` has a set slot whose hook was invoked at or after position `n`. */
  ghost predicate TurnsTaken(order: seq<string>, i: nat, w: World, n: int)
    requires i <= |order|
  {
    forall k :: 0 <= k < i ==>
      order[k] in w.slots && w.slots[order[k]].Some? &&
      FiredBetween(w.log, n, |w.log|, order[k], w.slots[order[k]].value)
  }

  /** Every log entry from position `n` on is an init hook. */
  ghost predicate HooksFrom(log: seq<Event>, n: int)
  {
    forall k :: n <= k < |log| && 0 <= k ==> log[k].InitHook?
  }

  lemma {:induction false} FanOutStep(order: seq<string>, i: nat, w: World, h: Promise, w': World, n: int)
    requires i < |order| && 0 <= n <= |w.log|
    requires TurnsTaken(order, i, w, n) && HooksFrom(w.log, n)
    requires Extends(w, w') && SetSlotsKept(w, w', {order[i]}) && order[i] in w'.slots && w'.slots[order[i]] == Some(h)
    requires |w.log| < |w'.log| && OnlyUnsetInitialised(w, w', |w'.log| - 1)
    requires w'.log[|w'.log| - 1].InitHook? && w'.log[|w'.log| - 1].plugin == order[i] && w'.log[|w'.log| - 1].promise == h
    ensures TurnsTaken(order, i + 1, w', n) && HooksFrom(w'.log, n)
  {
    forall k | 0 <= k < i + 1
      ensures order[k] in w'.slots && w'.slots[order[k]].Some?
      ensures FiredBetween(w'.log, n, |w'.log|, order[k], w'.slots[order[k]].value)
    {
      if order[k] == order[i] {
        assert w'.log[|w'.log| - 1].promise == w'.slots[order[k]].value;
      } else {
        FiredWidens(w.log, w'.log, n, |w.log|, |w'.log|, order[k], w.slots[order[k]].value);
      }
    }
    forall k | n <= k < |w'.log| && 0 <= k ensures w'.log[k].InitHook? {
      if k < |w.log| {
        assert w'.log[k] == w.log[k];
      }
    }
  }

  /**
   * The fan-out keeps the world coherent, adds only init hooks, and leaves
   * every plugin of `order` with a set slot whose hook was invoked during it.
   */
  lemma {:induction false} FanOutSound(g: Graph, rank: map<string, nat>, order: seq<string>, i: nat, w: World, n: int)
    requires RankedBy(g, rank) && i <= |order| && Coherent(g, w) && 0 <= n <= |w.log|
    requires forall k :: 0 <= k < |order| ==> order[k] in g
    requires TurnsTaken(order, i, w, n) && HooksFrom(w.log, n)
    ensures var r := FanOut(g, rank, order, i, w);
      r.Ok? ==> Coherent(g, r.value) && Extends(w, r.value) &&
                TurnsTaken(order, |order|, r.value, n) && HooksFrom(r.value.log, n)
    decreases |order| - i
  {
    if i < |order| {
      InitialiseSound(g, rank, w, order[i]);
      var init := Initialise(g, rank, w, order[i]);
      if init.Ok? {
        var (h, w') := init.value;
        FanOutStep(order, i, w, h, w', n);
        FanOutSound(g, rank, order, i + 1, w', n);
        if FanOut(g, rank, order, i + 1, w').Ok? {
          ExtendsTransitive(w, w', FanOut(g, rank, order, i + 1, w').value);
        }
      }
    }
  }

  /** Appending events that are not init hooks keeps a world coherent. */
  lemma {:induction false} AppendNonHooksCoherent(g: Graph, w: World, t: seq<Event>)
    requires Coherent(g, w)
    requires forall k :: 0 <= k < |t| ==> !t[k].InitHook?
    ensures Coherent(g, w.(log := w.log + t)) && Extends(w, w.(log := w.log + t))
  {
    var w' := w.(log := w.log + t);
    AppendNonHooks(g, w.log, t);
    forall q | q in w'.slots && w'.slots[q].Some? ensures FiredBetween(w'.log, 0, |w'.log|, q, w'.slots[q].value) {
      FiredWidens(w.log, w'.log, 0, |w.log|, |w'.log|, q, w.slots[q].value);
    }
  }

  /** The notification round and the change to Ready, appended after a successful fan-out. */
  lemma {:induction false} FinishSound(order: seq<string>, w1: World, n: int)
    requires 0 <= n <= |w1.log| && HooksFrom(w1.log, n)
    ensures var w2 := w1.(log := w1.log + FinishHooks(order) + [StageEntered(Ready)]);
      var m := |w2.log|;
      m == |w1.log| + |order| + 1 &&
      (forall k :: n <= k < m - |order| - 1 ==> w2.log[k].InitHook?) &&
      w2.log[m - |order| - 1 .. m - 1] == FinishHooks(order) &&
      w2.log[m - 1] == StageEntered(Ready)
  {
    var w2 := w1.(log := w1.log + FinishHooks(order) + [StageEntered(Ready)]);
    assert w2.log[|w1.log| .. |w1.log| + |order|] == FinishHooks(order);
    forall k | n <= k < |w1.log| ensures w2.log[k].InitHook? {
      assert w2.log[k] == w1.log[k];
    }
  }

  /** After the fan-out every registered plugin's slot holds a promise whose hook was invoked in the window `n..|w1.log|`. */
  lemma {:induction false} EveryPluginFired(g: Graph, order: seq<string>, w1: World, w2: World, n: int)
    requires TurnsTaken(order, |order|, w1, n)
    requires forall p :: p in g ==> p in order
    requires Extends(w1, w2) && w2.slots == w1.slots
    ensures forall p :: p in g ==> p in w2.slots && w2.slots[p].Some? && FiredBetween(w2.log, n, |w1.log|, p, w2.slots[p].value)
  {
    forall p | p in g ensures p in w2.slots && w2.slots[p].Some? && FiredBetween(w2.log, n, |w1.log|, p, w2.slots[p].value) {
      var k :| 0 <= k < |order| && order[k] == p;
      FiredWidens(w1.log, w2.log, n, |w1.log|, |w1.log|, p, w1.slots[p].value);
    }
  }

  /**
   * A successful `init` from a coherent world: the log gains the stage change
   * to PluginsInitialisation, then init hooks only, then one finish hook per
   * plugin in insertion order, then the stage change to Ready. Every
   * registered plugin ends with a set slot whose hook was invoked during this
   * run, and every hook ran after the hooks of the promises it awaited.
   */
  lemma {:induction false} InitRunSound(g: Graph, rank: map<string, nat>, order: seq<string>, w: World)
    requires RankedBy(g, rank) && Coherent(g, w)
    requires forall k :: 0 <= k < |order| ==> order[k] in g
    requires forall p :: p in g ==> p in order
    ensures var r := InitRun(g, rank, order, w);
      r.Ok? ==>
        var n, m, log := |w.log|, |r.value.log|, r.value.log;
        Coherent(g, r.value) &&
        n + |order| + 2 <= m &&
        (forall k :: 0 <= k < n ==> log[k] == w.log[k]) &&
        log[n] == StageEntered(PluginsInitialisation) &&
        (forall k :: n < k < m - |order| - 1 ==> log[k].InitHook?) &&
        log[m - |order| - 1 .. m - 1] == FinishHooks(order) &&
        log[m - 1] == StageEntered(Ready) &&
        forall p :: p in g ==> r.value.slots[p].Some? && FiredBetween(log, n + 1, m - |order| - 1, p, r.value.slots[p].value)
  {
    var started := w.(log := w.log + [StageEntered(PluginsInitialisation)]);
    AppendNonHooksCoherent(g, w, [StageEntered(PluginsInitialisation)]);
    FanOutSound(g, rank, order, 0, started, |w.log| + 1);
    var fan := FanOut(g, rank, order, 0, started);
    if fan.Ok? {
      var w1 := fan.value;
      var w2 := w1.(log := w1.log + FinishHooks(order) + [StageEntered(Ready)]);
      assert InitRun(g, rank, order, w).value == w2;
      RunLogShape(order, w, started, w1, w2);
      RunSlotsFired(g, order, |w.log| + 1, w1, w2);
    }
  }

  /** The log of `init` after a successful fan-out from `started` to `w1`: notification, then Ready. */
  lemma {:induction false} RunLogShape(order: seq<string>, w: World, started: World, w1: World, w2: World)
    requires started == w.(log := w.log + [StageEntered(PluginsInitialisation)])
    requires Extends(started, w1) && HooksFrom(w1.log, |w.log| + 1)
    requires w2 == w1.(log := w1.log + FinishHooks(order) + [StageEntered(Ready)])
    ensures |w.log| + 1 <= |w1.log| && |w2.log| == |w1.log| + |order| + 1
    ensures forall k :: 0 <= k < |w.log| ==> w2.log[k] == w.log[k]
    ensures w2.log[|w.log|] == StageEntered(PluginsInitialisation)
    ensures forall k :: |w.log| < k < |w1.log| ==> w2.log[k].InitHook?
    ensures w2.log[|w1.log| .. |w2.log| - 1] == FinishHooks(order) && w2.log[|w2.log| - 1] == StageEntered(Ready)
  {
    var n := |w.log|;
    FinishSound(order, w1, n + 1);
    assert Extends(w1, w2);
    ExtendsTransitive(started, w1, w2);
    forall k | 0 <= k < n ensures w2.log[k] == w.log[k] {
      assert w2.log[k] == started.log[k];
    }
    assert w2.log[n] == started.log[n];
  }

  /** After a successful fan-out to `w1`, the end state of `init` is coherent and every plugin's hook fired in the fan-out. */
  lemma {:induction false} RunSlotsFired(g: Graph, order: seq<string>, n: int, w1: World, w2: World)
    requires forall p :: p in g ==> p in order
    requires Coherent(g, w1) && TurnsTaken(order, |order|, w1, n)
    requires w2 == w1.(log := w1.log + FinishHooks(order) + [StageEntered(Ready)])
    ensures Coherent(g, w2)
    ensures forall p :: p in g ==> w2.slots[p].Some? && FiredBetween(w2.log, n, |w1.log|, p, w2.slots[p].value)
  {
    var notified := w1.(log := w1.log + FinishHooks(order));
    assert w2 == notified.(log := notified.log + [StageEntered(Ready)]);
    AppendNonHooksCoherent(g, w1, FinishHooks(order));
    AppendNonHooksCoherent(g, notified, [StageEntered(Ready)]);
    ExtendsTransitive(w1, notified, w2);
    EveryPluginFired(g, order, w1, w2, n);
  }

  /**
   * A registry that has never initialised is coherent: every slot unset and
   * no hook in the log. So `InitRunSound` applies to the first `init`.
   */
  lemma {:induction false} FreshWorldCoherent(g: Graph, w: World)
    requires w.slots.Keys == g.Keys && forall p :: p in w.slots ==> w.slots[p].None?
    requires forall k :: 0 <= k < |w.log| ==> !w.log[k].InitHook?
    ensures Coherent(g, w)
  {
  }

  // ---------------------------------------------------------------------------
  // When `init` fails

  /** With every required name registered, `pluginInitialise` cannot fail. */
  lemma {:induction false} InitialiseTotal(g: Graph, rank: map<string, nat>, w: World, p: string)
    requires RankedBy(g, rank) && Closed(g) && p in g && w.slots.Keys == g.Keys
    ensures Initialise(g, rank, w, p).Ok?
    decreases rank[p], 1
  {
    ResolveDepsTotal(g, rank, p, 0, w.(created := w.created + 1), []);
  }

  lemma {:induction false} ResolveDepsTotal(g: Graph, rank: map<string, nat>, p: string, i: nat, w: World, awaited: seq<Promise>)
    requires RankedBy(g, rank) && Closed(g) && p in g && i <= |g[p]| && w.slots.Keys == g.Keys
    ensures ResolveDeps(g, rank, p, i, w, awaited).Ok?
    decreases rank[p], 0, |g[p]| - i
  {
    if i < |g[p]| {
      var d := g[p][i];
      match w.slots[d]
      case Some(existing) =>
        ResolveDepsTotal(g, rank, p, i + 1, w, awaited + [existing]);
      case None =>
        InitialiseTotal(g, rank, w, d);
        var (pr, wd) := Initialise(g, rank, w, d).value;
        ResolveDepsTotal(g, rank, p, i + 1, wd, awaited + [pr]);
    }
  }

  /** A required name at position `j` with no registered plugin makes resolving `g[p][i..]` fail, for `i <= j`. */
  lemma {:induction false} ResolveDepsMissing(g: Graph, rank: map<string, nat>, p: string, i: nat, w: World,
                                              awaited: seq<Promise>, j: nat)
    requires RankedBy(g, rank) && p in g && i <= j < |g[p]| && g[p][j] !in g && w.slots.Keys == g.Keys
    ensures ResolveDeps(g, rank, p, i, w, awaited).Err?
    decreases j - i
  {
    if i < j && g[p][i] in g {
      var d := g[p][i];
      match w.slots[d]
      case Some(existing) =>
        ResolveDepsMissing(g, rank, p, i + 1, w, awaited + [existing], j);
      case None =>
        var init := Initialise(g, rank, w, d);
        if init.Ok? {
          ResolveDepsMissing(g, rank, p, i + 1, init.value.1, awaited + [init.value.0], j);
        }
    }
  }

  lemma {:induction false} FanOutTotal(g: Graph, rank: map<string, nat>, order: seq<string>, i: nat, w: World)
    requires RankedBy(g, rank) && Closed(g) && i <= |order| && w.slots.Keys == g.Keys
    requires forall k :: 0 <= k < |order| ==> order[k] in g
    ensures FanOut(g, rank, order, i, w).Ok?
    decreases |order| - i
  {
    if i < |order| {
      InitialiseTotal(g, rank, w, order[i]);
      FanOutTotal(g, rank, order, i + 1, Initialise(g, rank, w, order[i]).value.1);
    }
  }

  /** The fan-out fails when the plugin at position `k` requires a name with no registered plugin. */
  lemma {:induction false} FanOutMissing(g: Graph, rank: map<string, nat>, order: seq<string>, i: nat, w: World, k: nat, j: nat)
    requires RankedBy(g, rank) && i <= k < |order| && w.slots.Keys == g.Keys
    requires forall k :: 0 <= k < |order| ==> order[k] in g
    requires j < |g[order[k]]| && g[order[k]][j] !in g
    ensures FanOut(g, rank, order, i, w).Err?
    decreases k - i
  {
    var init := Initialise(g, rank, w, order[i]);
    if i == k {
      ResolveDepsMissing(g, rank, order[k], 0, w.(created := w.created + 1), [], j);
    } else if init.Ok? {
      FanOutMissing(g, rank, order, i + 1, init.value.1, k, j);
    }
  }

  /**
   * `init` completes exactly when every name in every plugin's `requires` is
   * registered; otherwise it fails and the registry never becomes Ready.
   */
  lemma {:induction false} InitRunSucceedsIffClosed(g: Graph, rank: map<string, nat>, order: seq<string>, w: World)
    requires RankedBy(g, rank) && w.slots.Keys == g.Keys
    requires forall k :: 0 <= k < |order| ==> order[k] in g
    requires forall p :: p in g ==> p in order
    ensures InitRun(g, rank, order, w).Ok? <==> Closed(g)
  {
    var started := w.(log := w.log + [StageEntered(PluginsInitialisation)]);
    if Closed(g) {
      FanOutTotal(g, rank, order, 0, started);
    } else {
      var p, j :| p in g && 0 <= j < |g[p]| && g[p][j] !in g;
      var k :| 0 <= k < |order| && order[k] == p;
      FanOutMissing(g, rank, order, 0, started, k, j);
    }
  }

  // ---------------------------------------------------------------------------
  // Memoisation

  /** The promises already stored in the slots of `names`. */
  ghost function StoredPromises(names: seq<string>, slots: map<string, Option<Promise>>): seq<Promise>
    requires forall j :: 0 <= j < |names| ==> names[j] in slots && slots[names[j]].Some?
  {
    seq(|names|, j requires 0 <= j < |names| => slots[names[j]].value)
  }

  lemma {:induction false} ResolveDepsAllSet(g: Graph, rank: map<string, nat>, p: string, i: nat, w: World, awaited: seq<Promise>)
    requires RankedBy(g, rank) && p in g && i <= |g[p]| && w.slots.Keys == g.Keys
    requires forall j :: 0 <= j < |g[p]| ==> g[p][j] in g && w.slots[g[p][j]].Some?
    ensures ResolveDeps(g, rank, p, i, w, awaited) == Ok((awaited + StoredPromises(g[p][i..], w.slots), w))
    decreases |g[p]| - i
  {
    var rest := StoredPromises(g[p][i..], w.slots);
    if i == |g[p]| {
      assert awaited + rest == awaited;
    } else {
      var existing := w.slots[g[p][i]].value;
      ResolveDepsAllSet(g, rank, p, i + 1, w, awaited + [existing]);
      var tail := StoredPromises(g[p][i + 1..], w.slots);
      assert |rest| == 1 + |tail|;
      forall j | 0 <= j < |rest| ensures rest[j] == ([existing] + tail)[j] {
        if j > 0 {
          assert g[p][i..][j] == g[p][i + 1..][j - 1];
        }
      }
      assert rest == [existing] + tail;
      assert (awaited + [existing]) + tail == awaited + rest;
    }
  }

  /**
   * When every dependency of `p` already has a set slot, `pluginInitialise(p)`
   * initialises nothing else: it awaits exactly the stored promises, in
   * `requires` order, stores its new promise and invokes `p`'s hook once. A
   * plugin with no dependencies is the case `g[p] == []`.
   */
  lemma {:induction false} ResolvedDependenciesReused(g: Graph, rank: map<string, nat>, w: World, p: string)
    requires RankedBy(g, rank) && p in g && w.slots.Keys == g.Keys
    requires forall j :: 0 <= j < |g[p]| ==> g[p][j] in g && w.slots[g[p][j]].Some?
    ensures var h := Promise(w.created);
      Initialise(g, rank, w, p)
        == Ok((h, World(w.slots[p := Some(h)], w.created + 1, w.log + [InitHook(p, h, StoredPromises(g[p], w.slots))])))
  {
    var w1 := w.(created := w.created + 1);
    ResolveDepsAllSet(g, rank, p, 0, w1, []);
    assert g[p][0..] == g[p];
    var stored := StoredPromises(g[p], w.slots);
    assert [] + stored == stored;
    assert ResolveDeps(g, rank, p, 0, w1, []) == Ok((stored, w1));
  }

  // ---------------------------------------------------------------------------
  // One traversal invokes each plugin's hook at most once

  /** The init hooks logged from `w` to `w'` name pairwise distinct plugins. */
  ghost predicate HooksOnce(w: World, w': World)
  {
    forall k1, k2 :: |w.log| <= k1 < k2 < |w'.log| && w'.log[k1].InitHook? && w'.log[k2].InitHook? ==>
      w'.log[k1].plugin != w'.log[k2].plugin
  }

  /** Every plugin whose hook was logged from `w` to `w'` has a set slot in `w'`. */
  ghost predicate HooksSet(w: World, w': World)
  {
    forall k :: |w.log| <= k < |w'.log| && w'.log[k].InitHook? ==>
      w'.log[k].plugin in w'.slots && w'.slots[w'.log[k].plugin].Some?
  }

  /** Every plugin whose hook was logged from `w` to `w'` ranks below `bound`. */
  ghost predicate HooksRanked(rank: map<string, nat>, w: World, w': World, bound: nat)
  {
    forall k :: |w.log| <= k < |w'.log| && w'.log[k].InitHook? ==>
      w'.log[k].plugin in rank && rank[w'.log[k].plugin] < bound
  }

  /** Promises awaited so far stay fired as the log grows. */
  lemma AwaitedWidens(g: Graph, p: string, i: nat, w: World, w': World, awaited: seq<Promise>)
    requires p in g && i <= |g[p]| && AwaitedSoFar(g, p, i, w.log, awaited) && Extends(w, w')
    ensures AwaitedSoFar(g, p, i, w'.log, awaited)
  {
    forall j | 0 <= j < i ensures FiredBetween(w'.log, 0, |w'.log|, g[p][j], awaited[j]) {
      FiredWidens(w.log, w'.log, 0, |w.log|, |w'.log|, g[p][j], awaited[j]);
    }
  }

  /**
   * Two stretches of a traversal: the first sets the slot of every plugin it
   * initialises, the second initialises only plugins whose slot was unset, so
   * no plugin is initialised in both.
   */
  lemma {:induction false} HooksOnceCompose(rank: map<string, nat>, w: World, wd: World, w': World, b: nat, bound: nat)
    requires Extends(w, wd) && Extends(wd, w') && SetSlotsKept(wd, w', {}) && OnlyUnsetInitialised(wd, w', |w'.log|)
    requires HooksOnce(w, wd) && HooksSet(w, wd) && HooksRanked(rank, w, wd, b) && b <= bound
    requires HooksOnce(wd, w') && HooksSet(wd, w') && HooksRanked(rank, wd, w', bound)
    ensures HooksOnce(w, w') && HooksSet(w, w') && HooksRanked(rank, w, w', bound)
  {
    forall k | |w.log| <= k < |wd.log| ensures w'.log[k] == wd.log[k] {
    }
    forall k1, k2 | |w.log| <= k1 < k2 < |w'.log| && w'.log[k1].InitHook? && w'.log[k2].InitHook?
      ensures w'.log[k1].plugin != w'.log[k2].plugin
    {
      if k1 < |wd.log| <= k2 {
        var q1, q2 := wd.log[k1].plugin, w'.log[k2].plugin;
        assert wd.slots[q1].Some? && wd.slots[q2].None?;
      }
    }
  }

  /**
   * Within one `pluginInitialise(p)`, no plugin's hook is invoked twice: a
   * plugin that several dependents require is initialised for the first and
   * its promise reused by the rest. Every plugin initialised ends with a set
   * slot, and none ranks above `p`.
   */
  lemma {:induction false} InitialiseOnce(g: Graph, rank: map<string, nat>, w: World, p: string)
    requires RankedBy(g, rank) && p in g && Coherent(g, w)
    ensures var r := Initialise(g, rank, w, p);
      r.Ok? ==> HooksOnce(w, r.value.1) && HooksSet(w, r.value.1) && HooksRanked(rank, w, r.value.1, rank[p] + 1)
    decreases rank[p], 1
  {
    var h := Promise(w.created);
    var w1 := w.(created := w.created + 1);
    ResolveDepsOnce(g, rank, p, 0, w1, []);
    var deps := ResolveDeps(g, rank, p, 0, w1, []);
    if deps.Ok? {
      var (aw, w2) := deps.value;
      var w3 := w2.(slots := w2.slots[p := Some(h)], log := w2.log + [InitHook(p, h, aw)]);
      assert Initialise(g, rank, w, p) == Ok((h, w3));
      forall k | |w.log| <= k < |w2.log| ensures w3.log[k] == w2.log[k] {
      }
    }
  }

  /** `ResolveDeps` from position `i`: the invariant `InitialiseOnce` needs. */
  lemma {:induction false} ResolveDepsOnce(g: Graph, rank: map<string, nat>, p: string, i: nat, w: World, awaited: seq<Promise>)
    requires RankedBy(g, rank) && p in g && i <= |g[p]| && Coherent(g, w)
    requires AwaitedSoFar(g, p, i, w.log, awaited)
    ensures var r := ResolveDeps(g, rank, p, i, w, awaited);
      r.Ok? ==> HooksOnce(w, r.value.1) && HooksSet(w, r.value.1) && HooksRanked(rank, w, r.value.1, rank[p])
    decreases rank[p], 0, |g[p]| - i
  {
    if i < |g[p]| && g[p][i] in g {
      var d := g[p][i];
      match w.slots[d]
      case Some(existing) =>
        ResolveDepsOnce(g, rank, p, i + 1, w, awaited + [existing]);
      case None =>
        InitialiseSound(g, rank, w, d);
        InitialiseOnce(g, rank, w, d);
        var init := Initialise(g, rank, w, d);
        if init.Ok? {
          var (pr, wd) := init.value;
          AwaitedWidens(g, p, i, w, wd, awaited);
          ResolveDepsSound(g, rank, p, i + 1, wd, awaited + [pr]);
          ResolveDepsOnce(g, rank, p, i + 1, wd, awaited + [pr]);
          var r := ResolveDeps(g, rank, p, i + 1, wd, awaited + [pr]);
          if r.Ok? {
            assert ResolvedFrom(g, p, i + 1, wd, awaited + [pr], r.value.0, r.value.1);
            HooksOnceCompose(rank, w, wd, r.value.1, rank[d] + 1, rank[p]);
          }
        }
    }
  }

  // ---------------------------------------------------------------------------
  // Two registrations of the same pair of plugins, `a` requiring `b`

  /** `a`'s turn from the empty world: promise 0 for `a`, and `b` initialised first with promise 1. */
  lemma DependentTurn()
    ensures var g := map["a" := ["b"], "b" := []];
      var rank := map["a" := 1, "b" := 0];
      Initialise(g, rank, World(map["a" := None, "b" := None], 0, []), "a")
        == Ok((Promise(0), World(map["a" := Some(Promise(0)), "b" := Some(Promise(1))], 2,
                                 [InitHook("b", Promise(1), []), InitHook("a", Promise(0), [Promise(1)])])))
  {
    assert "a" != "b" by { assert "a"[0] != "b"[0]; }
    var g := map["a" := ["b"], "b" := []];
    var rank := map["a" := 1, "b" := 0];
    assert RankedBy(g, rank);
    var w := World(map["a" := None, "b" := None], 0, []);
    var w1 := w.(created := 1);
    ResolvedDependenciesReused(g, rank, w1, "b");
    assert StoredPromises(g["b"], w1.slots) == [];
    var wb := World(map["a" := None, "b" := Some(Promise(1))], 2, [InitHook("b", Promise(1), [])]);
    assert w1.slots["b" := Some(Promise(1))] == wb.slots;
    assert w1.log + [InitHook("b", Promise(1), StoredPromises(g["b"], w1.slots))] == wb.log;
    assert Initialise(g, rank, w1, "b") == Ok((Promise(1), wb));
    assert w1.slots["b"] == None && g["a"][0] == "b" && [] + [Promise(1)] == [Promise(1)];
    assert ResolveDeps(g, rank, "a", 0, w1, []) == ResolveDeps(g, rank, "a", 1, wb, [Promise(1)]);
    assert ResolveDeps(g, rank, "a", 1, wb, [Promise(1)]) == Ok(([Promise(1)], wb));
    var wa := World(map["a" := Some(Promise(0)), "b" := Some(Promise(1))], 2,
                    [InitHook("b", Promise(1), []), InitHook("a", Promise(0), [Promise(1)])]);
    assert wb.slots["a" := Some(Promise(0))] == wa.slots;
    assert wb.log + [InitHook("a", Promise(0), [Promise(1)])] == wa.log;
  }

  /**
   * `a` registered before `b`: `b` is first initialised as `a`'s dependency,
   * and its slot is overwritten and its hook invoked again at its own
   * top-level turn. `a` awaited the first of `b`'s two promises.
   */
  lemma DependentFirstReinitialises()
    ensures var g := map["a" := ["b"], "b" := []];
      var rank := map["a" := 1, "b" := 0];
      var w := World(map["a" := None, "b" := None], 0, []);
      FanOut(g, rank, ["a", "b"], 0, w)
        == Ok(World(map["a" := Some(Promise(0)), "b" := Some(Promise(2))], 3,
                    [InitHook("b", Promise(1), []), InitHook("a", Promise(0), [Promise(1)]), InitHook("b", Promise(2), [])]))
  {
    assert "a" != "b" by { assert "a"[0] != "b"[0]; }
    var g := map["a" := ["b"], "b" := []];
    var rank := map["a" := 1, "b" := 0];
    assert RankedBy(g, rank);
    var w := World(map["a" := None, "b" := None], 0, []);
    var wa := World(map["a" := Some(Promise(0)), "b" := Some(Promise(1))], 2,
                    [InitHook("b", Promise(1), []), InitHook("a", Promise(0), [Promise(1)])]);
    DependentTurn();
    assert FanOut(g, rank, ["a", "b"], 0, w) == FanOut(g, rank, ["a", "b"], 1, wa);
    // `b`'s own turn: promise 2 overwrites its slot
    ResolvedDependenciesReused(g, rank, wa, "b");
    assert StoredPromises(g["b"], wa.slots) == [];
    var wc := World(map["a" := Some(Promise(0)), "b" := Some(Promise(2))], 3,
                    [InitHook("b", Promise(1), []), InitHook("a", Promise(0), [Promise(1)]), InitHook("b", Promise(2), [])]);
    assert wa.slots["b" := Some(Promise(2))] == wc.slots;
    assert wa.log + [InitHook("b", Promise(2), StoredPromises(g["b"], wa.slots))] == wc.log;
    assert Initialise(g, rank, wa, "b") == Ok((Promise(2), wc));
    assert FanOut(g, rank, ["a", "b"], 1, wa) == FanOut(g, rank, ["a", "b"], 2, wc);
  }

  /** `b` registered before `a`: `a` finds `b`'s slot set and reuses it; each hook runs once. */
  lemma DependencyFirstInitialisesOnce()
    ensures var g := map["a" := ["b"], "b" := []];
      var rank := map["a" := 1, "b" := 0];
      var w := World(map["a" := None, "b" := None], 0, []);
      FanOut(g, rank, ["b", "a"], 0, w)
        == Ok(World(map["a" := Some(Promise(1)), "b" := Some(Promise(0))], 2,
                    [InitHook("b", Promise(0), []), InitHook("a", Promise(1), [Promise(0)])]))
  {
    assert "a" != "b" by { assert "a"[0] != "b"[0]; }
    var g := map["a" := ["b"], "b" := []];
    var rank := map["a" := 1, "b" := 0];
    assert RankedBy(g, rank);
    var w := World(map["a" := None, "b" := None], 0, []);
    ResolvedDependenciesReused(g, rank, w, "b");
    assert StoredPromises(g["b"], w.slots) == [];
    var wb := World(map["a" := None, "b" := Some(Promise(0))], 1, [InitHook("b", Promise(0), [])]);
    assert w.slots["b" := Some(Promise(0))] == wb.slots;
    assert w.log + [InitHook("b", Promise(0), StoredPromises(g["b"], w.slots))] == wb.log;
    assert World(w.slots["b" := Some(Promise(0))], w.created + 1, w.log + [InitHook("b", Promise(0), StoredPromises(g["b"], w.slots))]) == wb;
    assert Initialise(g, rank, w, "b") == Ok((Promise(0), wb));
    assert FanOut(g, rank, ["b", "a"], 0, w) == FanOut(g, rank, ["b", "a"], 1, wb);
    ResolvedDependenciesReused(g, rank, wb, "a");
    assert StoredPromises(g["a"], wb.slots) == [Promise(0)];
    var wa := World(map["a" := Some(Promise(1)), "b" := Some(Promise(0))], 2,
                    [InitHook("b", Promise(0), []), InitHook("a", Promise(1), [Promise(0)])]);
    assert wb.slots["a" := Some(Promise(1))] == wa.slots;
    assert wb.log + [InitHook("a", Promise(1), StoredPromises(g["a"], wb.slots))] == wa.log;
    assert Initialise(g, rank, wb, "a") == Ok((Promise(1), wa));
    assert FanOut(g, rank, ["b", "a"], 1, wb) == FanOut(g, rank, ["b", "a"], 2, wa);
  }

  /**
   * A diamond: `a` requires `b` and `c`, and `c` requires `b`. From unset
   * slots, `b` is initialised once, for `a`'s first dependency, and `c`
   * reuses its promise; three hooks run in all.
   */
  lemma DiamondInitialisesSharedOnce()
    ensures var g := map["a" := ["b", "c"], "b" := [], "c" := ["b"]];
      var rank := map["a" := 2, "b" := 0, "c" := 1];
      Initialise(g, rank, World(map["a" := None, "b" := None, "c" := None], 0, []), "a")
        == Ok((Promise(0), World(map["a" := Some(Promise(0)), "b" := Some(Promise(1)), "c" := Some(Promise(2))], 3,
                                 [InitHook("b", Promise(1), []), InitHook("c", Promise(2), [Promise(1)]),
                                  InitHook("a", Promise(0), [Promise(1), Promise(2)])])))
  {
    assert "a" != "b" by { assert "a"[0] != "b"[0]; }
    assert "a" != "c" by { assert "a"[0] != "c"[0]; }
    assert "b" != "c" by { assert "b"[0] != "c"[0]; }
    var g := map["a" := ["b", "c"], "b" := [], "c" := ["b"]];
    var rank := map["a" := 2, "b" := 0, "c" := 1];
    assert RankedBy(g, rank);
    var w := World(map["a" := None, "b" := None, "c" := None], 0, []);
    var w1 := w.(created := 1);
    // `b`, as `a`'s first dependency
    ResolvedDependenciesReused(g, rank, w1, "b");
    assert StoredPromises(g["b"], w1.slots) == [];
    var wb := World(map["a" := None, "b" := Some(Promise(1)), "c" := None], 2, [InitHook("b", Promise(1), [])]);
    assert w1.slots["b" := Some(Promise(1))] == wb.slots;
    assert w1.log + [InitHook("b", Promise(1), StoredPromises(g["b"], w1.slots))] == wb.log;
    assert Initialise(g, rank, w1, "b") == Ok((Promise(1), wb));
    assert w1.slots["b"] == None && g["a"][0] == "b" && [] + [Promise(1)] == [Promise(1)];
    assert ResolveDeps(g, rank, "a", 0, w1, []) == ResolveDeps(g, rank, "a", 1, wb, [Promise(1)]);
    // `c`, as `a`'s second dependency, finds `b` set
    ResolvedDependenciesReused(g, rank, wb, "c");
    assert StoredPromises(g["c"], wb.slots) == [Promise(1)];
    var wc := World(map["a" := None, "b" := Some(Promise(1)), "c" := Some(Promise(2))], 3,
                    [InitHook("b", Promise(1), []), InitHook("c", Promise(2), [Promise(1)])]);
    assert wb.slots["c" := Some(Promise(2))] == wc.slots;
    assert wb.log + [InitHook("c", Promise(2), StoredPromises(g["c"], wb.slots))] == wc.log;
    assert Initialise(g, rank, wb, "c") == Ok((Promise(2), wc));
    assert wb.slots["c"] == None && g["a"][1] == "c" && [Promise(1)] + [Promise(2)] == [Promise(1), Promise(2)];
    assert ResolveDeps(g, rank, "a", 1, wb, [Promise(1)]) == ResolveDeps(g, rank, "a", 2, wc, [Promise(1), Promise(2)]);
    assert ResolveDeps(g, rank, "a", 2, wc, [Promise(1), Promise(2)]) == Ok(([Promise(1), Promise(2)], wc));
    var wa := World(map["a" := Some(Promise(0)), "b" := Some(Promise(1)), "c" := Some(Promise(2))], 3,
                    [InitHook("b", Promise(1), []), InitHook("c", Promise(2), [Promise(1)]),
                     InitHook("a", Promise(0), [Promise(1), Promise(2)])]);
    assert wc.slots["a" := Some(Promise(0))] == wa.slots;
    assert wc.log + [InitHook("a", Promise(0), [Promise(1), Promise(2)])] == wa.log;
  }

  /** Only `c` is registered and it requires `d`, which never is: `init` fails. */
  lemma UnregisteredDependencyFails()
    ensures InitRun(map["c" := ["d"]], map["c" := 0], ["c"], World(map["c" := None], 0, []))
         == Err(MissingDependency("d"))
  {
  }
}
