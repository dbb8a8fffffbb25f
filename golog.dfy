/** The package's own layer over the logging engine: building a logger from
    a '/'-separated list of provider types (`Init`), starting it
    (`InitWithProvider`, `InitWithLogger`), stopping it (`Uninit`), and
    reading or changing its level at run time (the HTTP handlers and
    `SetLevelFromString`). */
module Golog {
  import opened Results
  import opened Levels
  import opened GoStrings
  import opened Providers

  /** The engine's logger as the package uses it: the provider it writes to,
      its current level and whether it has been started. `sync` records
      whether it came from `logger.NewSync` rather than `logger.New`. */
  class Logger {
    var provider: Provider
    var level: Level
    var running: bool
    const sync: bool

    /** `logger.New(p)`: a logger over `p`, not yet started. */
    constructor New(p: Provider)
      ensures provider == p && !running && !sync
    {
      provider := p;
      running := false;
      sync := false;
    }

    /** `logger.NewSync(p)`: a synchronous logger over `p`, not yet started. */
    constructor NewSync(p: Provider)
      ensures provider == p && !running && sync
    {
      provider := p;
      running := false;
      sync := true;
    }

    function GetLevel(): (lv: Level)
      reads this
      ensures lv == level
    {
      level
    }

    /** `SetLevel(l, level)`: the new level, nothing else changes. */
    method SetLevel(lv: Level)
      modifies this`level
      ensures level == lv
    {
      level := lv;
    }

    /** `Run()`: the logger is started; level and provider stay. */
    method Run()
      modifies this`running
      ensures running
    {
      running := true;
    }

    /** `Quit()`: the logger is stopped; level and provider stay. */
    method Quit()
      modifies this`running
      ensures !running
    {
      running := false;
    }
  }

  // ---------------------------------------------------------------------
  // Starting and stopping

  /** `InitWithLogger(l)`: starts `l` and hands it back, never failing. */
  method InitWithLogger(l: Logger) returns (r: Result<Logger>)
    modifies l`running
    ensures r == Ok(l) && l.running
  {
    l.Run();
    r := Ok(l);
  }

  /** `InitWithProvider(p)`: a new logger over `p`, at level INFO, started. */
  method InitWithProvider(p: Provider) returns (r: Result<Logger>)
    ensures r.Ok? && fresh(r.value)
    ensures r.value.provider == p && r.value.level == Info && r.value.running && !r.value.sync
  {
    var l := new Logger.New(p);
    l.SetLevel(Info);
    r := InitWithLogger(l);
  }

  /** `InitSyncWithProvider(p)`: the same over `logger.NewSync`. */
  method InitSyncWithProvider(p: Provider) returns (r: Result<Logger>)
    ensures r.Ok? && fresh(r.value)
    ensures r.value.provider == p && r.value.level == Info && r.value.running && r.value.sync
  {
    var l := new Logger.NewSync(p);
    l.SetLevel(Info);
    r := InitWithLogger(l);
  }

  /** `Uninit(l)` (and `DeferLogger`, which does the same): stops `l`. */
  method Uninit(l: Logger)
    modifies l`running
    ensures !l.running
  {
    l.Quit();
  }

  // ---------------------------------------------------------------------
  // Init: composing providers from type names

  /** The views an `opts` value offers Init's type switch: the value itself
      when it is a Go string, what its `JSON()` method returns when it has
      one, what its `String()` method returns when it has one, and its `%v`
      formatting. */
  datatype OptsValue = OptsValue(
    asString: Option<string>, asJson: Option<string>, asStringer: Option<string>, formatted: string)

  /** The options string every constructor receives: the first view that
      applies, in the order of Init's type switch. */
  function OptsString(opts: OptsValue): (optsString: string)
    ensures opts.asString.Some? ==> optsString == opts.asString.value
    ensures opts.asString.None? && opts.asJson.Some? ==> optsString == opts.asJson.value
    ensures opts.asString.None? && opts.asJson.None? && opts.asStringer.Some? ==> optsString == opts.asStringer.value
    ensures opts.asString.None? && opts.asJson.None? && opts.asStringer.None? ==> optsString == opts.formatted
  {
    match (opts.asString, opts.asJson, opts.asStringer)
    case (Some(s), _, _) => s
    case (None, Some(j), _) => j
    case (None, None, Some(t)) => t
    case (None, None, None) => opts.formatted
  }

  /** The names a list of pieces stands for: each piece trimmed of white
      space, once each. */
  function TrimmedNames(pieces: seq<string>): (names: set<string>)
    ensures |names| <= |pieces|
    ensures pieces != [] ==> names != {}
  {
    if pieces == [] then {}
    else TrimmedNames(pieces[..|pieces| - 1]) + {TrimSpace(pieces[|pieces| - 1])}
  }

  /** The provider type names Init looks up: every '/'-separated piece of
      `providerTypes`, trimmed of white space, once each. Every list, even "",
      names at least one type, so after Init's empty check the set of names
      is never empty. */
  function TypeNames(providerTypes: string): (names: set<string>)
    ensures 1 <= |names| <= |Split(providerTypes, '/')|
  {
    TrimmedNames(Split(providerTypes, '/'))
  }

  /** The text Init's error puts before a name the registry does not know. */
  const UnregisteredPrefix: string := "unregistered provider type: "

  /** Init's error for `name`: the prefix, then the name as it was looked up. */
  function UnregisteredError(name: string): (message: string)
    ensures |message| == |UnregisteredPrefix| + |name|
    ensures message[..|UnregisteredPrefix|] == UnregisteredPrefix && message[|UnregisteredPrefix|..] == name
  {
    UnregisteredPrefix + name
  }

  /** Init's first loop ("clean repeated provider type"): the pieces, each
      trimmed, gathered into a set. */
  method CleanTypes(types: seq<string>) returns (usedTypes: set<string>)
    ensures usedTypes == TrimmedNames(types)
  {
    usedTypes := {};
    for i := 0 to |types|
      invariant usedTypes == TrimmedNames(types[..i])
    {
      assert types[..i + 1][..i] == types[..i];
      usedTypes := usedTypes + {TrimSpace(types[i])};
    }
    assert types[..|types|] == types;
  }

  /** No element occurs twice. */
  ghost predicate Distinct<T>(s: seq<T>) {
    forall i, j :: 0 <= i < j < |s| ==> s[i] != s[j]
  }

  /** Each name in `calls` was looked up in the registry, found there and
      had its constructor run, and no name twice. */
  ghost predicate RanOnce(registry: Registry, names: set<string>, calls: seq<string>) {
    && Distinct(calls)
    && (forall i :: 0 <= i < |calls| ==> calls[i] in names && calls[i] in registry)
  }

  /** Every one of `names` appears in `calls`, which is no longer. */
  ghost predicate RanAll(names: set<string>, calls: seq<string>) {
    |calls| == |names| && forall t :: t in names ==> t in calls
  }

  /** Bookkeeping of Init's second loop: `calls` are the names already
      looked up and constructed, each once, `remaining` the names still to
      visit; together they are `usedTypes`. */
  ghost predicate Progress(registry: Registry, usedTypes: set<string>, remaining: set<string>, calls: seq<string>) {
    && remaining <= usedTypes
    && Distinct(calls)
    && (forall t :: t in calls <==> t in usedTypes && t !in remaining)
    && (forall i :: 0 <= i < |calls| ==> calls[i] in registry)
    && |calls| + |remaining| == |usedTypes|
  }

  lemma ProgressStep(registry: Registry, usedTypes: set<string>, remaining: set<string>, calls: seq<string>, typ: string)
    requires Progress(registry, usedTypes, remaining, calls)
    requires typ in remaining && typ in registry
    ensures Progress(registry, usedTypes, remaining - {typ}, calls + [typ])
  {
    assert typ !in calls;
    var calls' := calls + [typ];
    forall i, j | 0 <= i < j < |calls'| ensures calls'[i] != calls'[j] {
      if j == |calls| {
        assert calls[i] in calls;
      }
    }
  }

  /** With nothing left to visit, every name was looked up, found and
      constructed once. */
  lemma ProgressDone(registry: Registry, usedTypes: set<string>, calls: seq<string>)
    requires Progress(registry, usedTypes, {}, calls)
    ensures RanAll(usedTypes, calls) && usedTypes <= registry.Keys
  {
    forall t | t in usedTypes ensures t in registry {
      assert t in calls;
      var i :| 0 <= i < |calls| && calls[i] == t;
    }
  }

  /** Init's second loop ("creates providers"): looks every name up and runs
      its constructor, in the unspecified order of Go's map iteration, and
      stops at the first unregistered name, which it returns in `missing`.
      `calls` lists the names whose constructors ran, in the order they ran,
      and `providers` what they built. */
  method CreateProviders(registry: Registry, usedTypes: set<string>, optsString: string)
    returns (missing: Option<string>, calls: seq<string>, providers: seq<Provider>)
    ensures missing.Some? ==> missing.value in usedTypes && missing.value !in registry
    ensures missing.None? ==> usedTypes <= registry.Keys
    ensures RanOnce(registry, usedTypes, calls)
    ensures missing.None? ==> RanAll(usedTypes, calls)
    ensures providers == Construct(registry, calls, optsString)
  {
    calls, providers := [], [];
    var remaining := usedTypes;
    while remaining != {}
      invariant Progress(registry, usedTypes, remaining, calls)
      invariant providers == Construct(registry, calls, optsString)
      decreases remaining
    {
      var typ :| typ in remaining;
      if typ !in registry {
        return Some(typ), calls, providers;
      }
      var p := Create(registry[typ], optsString);
      ProgressStep(registry, usedTypes, remaining, calls, typ);
      assert (calls + [typ])[..|calls|] == calls;
      calls, providers := calls + [typ], providers + [p];
      remaining := remaining - {typ};
    }
    ProgressDone(registry, usedTypes, calls);
    missing := None;
  }

  /** Init from its "creates providers" step on: the loop, then the error
      for an unregistered name, the single provider as it is, or several
      inside a Mix. With one name the loop visits just that one, so starting
      the logger after the loop, as here, is what Go's early return inside
      the loop does. */
  method StartProviders(registry: Registry, usedTypes: set<string>, optsString: string)
    returns (r: Result<Logger>, calls: seq<string>)
    requires usedTypes != {}
    ensures r.Ok? <==> usedTypes <= registry.Keys
    ensures r.Err? ==> exists t :: t in usedTypes && t !in registry && r.error == UnregisteredError(t)
    ensures RanOnce(registry, usedTypes, calls)
    ensures r.Ok? ==> RanAll(usedTypes, calls)
    ensures r.Ok? ==> fresh(r.value)
    ensures r.Ok? ==> r.value.level == Info && r.value.running && !r.value.sync
    ensures r.Ok? && |calls| == 1 ==> r.value.provider == Create(registry[calls[0]], optsString)
    ensures r.Ok? && |calls| > 1 ==> r.value.provider == Mix(Construct(registry, calls, optsString))
  {
    var missing, providers;
    missing, calls, providers := CreateProviders(registry, usedTypes, optsString);
    if missing.Some? {
      r := Err(UnregisteredError(missing.value));
    } else if |usedTypes| == 1 {
      r := InitWithProvider(providers[0]);
    } else {
      assert [providers[0]] + providers[1..] == providers;
      r := InitWithProvider(Mix([providers[0]] + providers[1..]));
    }
  }

  /** `Init(providerTypes, opts)`: a started logger at level INFO over one
      provider per distinct type name, or the configuration error. */
  method Init(registry: Registry, providerTypes: string, opts: OptsValue)
    returns (r: Result<Logger>, calls: seq<string>)
    ensures providerTypes == "" ==> r == Err("empty providers") && calls == []
    ensures r.Ok? <==> providerTypes != "" && TypeNames(providerTypes) <= registry.Keys
    ensures r.Err? && providerTypes != "" ==>
      exists t :: t in TypeNames(providerTypes) && t !in registry && r.error == UnregisteredError(t)
    ensures RanOnce(registry, TypeNames(providerTypes), calls)
    ensures r.Ok? ==> RanAll(TypeNames(providerTypes), calls)
    ensures r.Ok? ==> fresh(r.value)
    ensures r.Ok? ==> r.value.level == Info && r.value.running && !r.value.sync
    ensures r.Ok? && |calls| == 1 ==> r.value.provider == Create(registry[calls[0]], OptsString(opts))
    ensures r.Ok? && |calls| > 1 ==> r.value.provider == Mix(Construct(registry, calls, OptsString(opts)))
  {
    var types := Split(providerTypes, '/');
    if |types| == 0 || |providerTypes| == 0 {
      r, calls := Err("empty providers"), [];
      return;
    }
    var optsString := OptsString(opts);
    var usedTypes := CleanTypes(types);
    assert usedTypes != {};
    r, calls := StartProviders(registry, usedTypes, optsString);
  }

  lemma {:induction false} TrimmedNamesConcat(a: seq<string>, b: seq<string>)
    ensures TrimmedNames(a + b) == TrimmedNames(a) + TrimmedNames(b)
    decreases |b|
  {
    if b == [] {
      assert a + b == a;
    } else {
      var b' := b[..|b| - 1];
      assert (a + b)[..|a + b| - 1] == a + b';
      TrimmedNamesConcat(a, b');
    }
  }

  /** Every trimmed piece is among the names. */
  lemma {:induction false} TrimmedNamesHas(pieces: seq<string>, i: int)
    requires 0 <= i < |pieces|
    ensures TrimSpace(pieces[i]) in TrimmedNames(pieces)
    decreases |pieces|
  {
    if i < |pieces| - 1 {
      var init := pieces[..|pieces| - 1];
      assert init[i] == pieces[i];
      TrimmedNamesHas(init, i);
    }
  }

  /** And every name is some trimmed piece. */
  lemma {:induction false} TrimmedNamesFrom(pieces: seq<string>, t: string)
    requires t in TrimmedNames(pieces)
    ensures exists i :: 0 <= i < |pieces| && TrimSpace(pieces[i]) == t
    decreases |pieces|
  {
    var last := |pieces| - 1;
    if TrimSpace(pieces[last]) != t {
      var init := pieces[..last];
      TrimmedNamesFrom(init, t);
      var i :| 0 <= i < |init| && TrimSpace(init[i]) == t;
      assert init[i] == pieces[i];
    }
  }

  /** The names of two lists joined by '/' are the names of each. */
  lemma TypeNamesConcat(a: string, b: string)
    ensures TypeNames(a + "/" + b) == TypeNames(a) + TypeNames(b)
  {
    assert a + "/" + b == a + ['/'] + b;
    SplitConcat(a, b, '/');
    TrimmedNamesConcat(Split(a, '/'), Split(b, '/'));
  }

  /** A piece without a separator names exactly its trimmed self. */
  lemma TypeNamesPiece(a: string)
    requires '/' !in a
    ensures TypeNames(a) == {TrimSpace(a)}
  {
    SplitNoSeparator(a, '/');
    assert [a][..0] == [];
    assert TrimmedNames([a]) == TrimmedNames([]) + {TrimSpace(a)};
  }

  /** Repeating a list of types adds no type: "file/file" names what "file" does. */
  lemma TypeNamesRepeat(a: string)
    ensures TypeNames(a + "/" + a) == TypeNames(a)
  {
    TypeNamesConcat(a, a);
  }

  /** Lists whose pieces trim to the same names, place by place, name the
      same types. */
  lemma {:induction false} TrimmedNamesPointwise(p: seq<string>, q: seq<string>)
    requires |p| == |q|
    requires forall k :: 0 <= k < |p| ==> TrimSpace(p[k]) == TrimSpace(q[k])
    ensures TrimmedNames(p) == TrimmedNames(q)
    decreases |p|
  {
    if p != [] {
      var last := |p| - 1;
      assert TrimSpace(p[last]) == TrimSpace(q[last]);
      var p', q' := p[..last], q[..last];
      forall k | 0 <= k < last
        ensures TrimSpace(p'[k]) == TrimSpace(q'[k])
      {
        assert p'[k] == p[k] && q'[k] == q[k];
      }
      TrimmedNamesPointwise(p', q');
    }
  }

  /** Padding one piece with white space on either side keeps the names. */
  lemma TrimmedNamesPadded(pieces: seq<string>, i: int, pre: string, post: string)
    requires 0 <= i < |pieces| && AllSpace(pre) && AllSpace(post)
    ensures TrimmedNames(pieces[i := pre + pieces[i] + post]) == TrimmedNames(pieces)
  {
    TrimSpacePadding(pre, pieces[i], post);
    TrimmedNamesPointwise(pieces[i := pre + pieces[i] + post], pieces);
  }

  /** White space around any piece of a list, on either side and of any
      amount, does not change the names looked up: " file /console" names
      what "file/console" does. */
  lemma TypeNamesPadded(providerTypes: string, i: int, pre: string, post: string)
    requires 0 <= i < |Split(providerTypes, '/')|
    requires AllSpace(pre) && AllSpace(post)
    ensures var parts := Split(providerTypes, '/');
      TypeNames(Join(parts[i := pre + parts[i] + post], '/')) == TypeNames(providerTypes)
  {
    var parts := Split(providerTypes, '/');
    var padded := parts[i := pre + parts[i] + post];
    assert !IsSpace('/');
    assert '/' !in pre && '/' !in post;
    assert '/' !in pre + parts[i] + post;
    assert forall k :: 0 <= k < |padded| ==> '/' !in padded[k];
    SplitJoin(padded, '/');
    TrimmedNamesPadded(parts, i, pre, post);
  }

  /** A list with a repeated name, such as "file/file/console", looks up
      each distinct name once. */
  lemma RepeatedName(a: string, b: string)
    requires '/' !in a && '/' !in b
    ensures TypeNames(a + "/" + a + "/" + b) == {TrimSpace(a), TrimSpace(b)}
  {
    TypeNamesConcat(a + "/" + a, b);
    TypeNamesRepeat(a);
    TypeNamesPiece(a);
    TypeNamesPiece(b);
  }

  // ---------------------------------------------------------------------
  // Run-time level control

  const StatusOK := 200
  const StatusNotModified := 304
  const StatusBadRequest := 400

  /** What a handler writes: the status code (200 when the handler sets
      none) and the body it tries to write. With a 304 net/http refuses that
      body, and the client sees none. */
  datatype Response = Response(status: int, body: string)

  /** One set-level request: the response and the level afterwards. */
  datatype Transition = Transition(response: Response, level: Level)

  /** The set-level handler's decision for a request with form value
      `requested` against the current level. */
  function SetLevelTransition(syn: LevelSyntax, current: Level, requested: string): (t: Transition)
    ensures t.response.status == StatusBadRequest <==> !syn.parse(requested).1
    ensures t.response.status == StatusNotModified <==> syn.parse(requested) == (current, true)
    ensures t.response.status == StatusOK <==> syn.parse(requested).1 && syn.parse(requested).0 != current
    ensures t.response.status == StatusBadRequest ==> t.response.body == "invalid log level: " + requested
    ensures t.response.status != StatusBadRequest ==> t.response.body == syn.show(current)
    ensures t.level != current <==> t.response.status == StatusOK
    ensures t.response.status == StatusOK ==> t.level == syn.parse(requested).0
  {
    var (lv, ok) := syn.parse(requested);
    if !ok then Transition(Response(StatusBadRequest, "invalid log level: " + requested), current)
    else if lv == current then Transition(Response(StatusNotModified, syn.show(current)), current)
    else Transition(Response(StatusOK, syn.show(current)), lv)
  }

  /** `HTTPHandlerSetLevel(l)` serving one request whose `level` form value
      is `requested`. */
  method HandleSetLevel(l: Logger, syn: LevelSyntax, requested: string) returns (resp: Response)
    modifies l`level
    ensures Transition(resp, l.level) == SetLevelTransition(syn, old(l.level), requested)
  {
    var (lv, ok) := syn.parse(requested);
    if !ok {
      resp := Response(StatusBadRequest, "invalid log level: " + requested);
      return;
    }
    var oldLevel := l.GetLevel();
    if lv == oldLevel {
      resp := Response(StatusNotModified, syn.show(oldLevel));
      return;
    }
    l.SetLevel(lv);
    resp := Response(StatusOK, syn.show(oldLevel));
  }

  /** `HTTPHandlerGetLevel(l)` serving one request: the current level's text
      with the default status; nothing changes. */
  method HandleGetLevel(l: Logger, syn: LevelSyntax) returns (resp: Response)
    ensures resp == Response(StatusOK, syn.show(l.level))
  {
    resp := Response(StatusOK, syn.show(l.GetLevel()));
  }

  /** Sending the same request twice: the second changes nothing and answers
      304 (or 400 again for a level that does not parse). */
  lemma SetLevelRepeat(syn: LevelSyntax, current: Level, requested: string)
    ensures var t1 := SetLevelTransition(syn, current, requested);
      var t2 := SetLevelTransition(syn, t1.level, requested);
      t2.level == t1.level
      && t2.response.status == (if syn.parse(requested).1 then StatusNotModified else StatusBadRequest)
  {
  }

  /** With a printer the parser reads back, asking for the current level's
      own name writes status 304 and that name, and changes nothing. */
  lemma SetCurrentLevel(syn: LevelSyntax, current: Level)
    requires ShowParses(syn)
    ensures SetLevelTransition(syn, current, syn.show(current))
         == Transition(Response(StatusNotModified, syn.show(current)), current)
  {
    assert syn.parse(syn.show(current)) == (current, true);
  }

  /** With such a printer, the body of a 200 undoes the change: sending it
      back restores the old level. */
  lemma SetLevelUndo(syn: LevelSyntax, current: Level, requested: string)
    requires ShowParses(syn)
    requires SetLevelTransition(syn, current, requested).response.status == StatusOK
    ensures var t1 := SetLevelTransition(syn, current, requested);
      SetLevelTransition(syn, t1.level, t1.response.body)
        == Transition(Response(StatusOK, syn.show(t1.level)), current)
  {
    assert syn.parse(syn.show(current)) == (current, true);
  }

  /** `SetLevelFromString(l, s)`: sets and returns whatever level the parser
      gives for `s`, whether or not it reports success. */
  method SetLevelFromString(l: Logger, syn: LevelSyntax, s: string) returns (lv: Level)
    modifies l`level
    ensures lv == syn.parse(s).0 && l.level == lv
  {
    var (parsed, _) := syn.parse(s);
    l.SetLevel(parsed);
    lv := parsed;
  }
}
