/** Dry-run mode (shim/dryrun.go): scale-downs and restores are only simulated and counted,
    and the counts travel to the collector in scrapes that reset them
    (shim/container.go, manager/metrics_collector.go, api/shim/v1/config.go). */
module DryRun {
  // ---------------------------------------------------------------- configuration

  function Without(names: seq<string>, name: string): seq<string> {
    if names == [] then []
    else
      var n := |names| - 1;
      if names[n] == name then Without(names[..n], name) else Without(names[..n], name) + [names[n]]
  }

  datatype Config = Config(
    dryRun: bool, name: string, migrate: seq<string>, liveMigrate: string, disableCheckpointing: bool)
  {
    predicate MigrationEnabled() {
      name in migrate && !disableCheckpointing
    }

    predicate LiveMigrationEnabled() {
      liveMigrate == name
    }

    predicate AnyMigrationEnabled() {
      MigrationEnabled() || LiveMigrationEnabled()
    }
  }

  lemma {:induction false} WithoutKeeps(names: seq<string>, name: string, other: string)
    ensures other in Without(names, name) <==> other != name && other in names
  {
    if names != [] {
      WithoutKeeps(names[..|names| - 1], name, other);
      assert names == names[..|names| - 1] + [names[|names| - 1]];
    }
  }

  /** The part of NewConfig that turns migration off in dry-run mode. */
  method NewConfig(dryRun: bool, name: string, migrate: seq<string>, liveMigrate: string, disableCheckpointing: bool)
    returns (cfg: Config)
    ensures cfg.dryRun == dryRun && cfg.name == name && cfg.disableCheckpointing == disableCheckpointing
    ensures !dryRun ==> cfg.migrate == migrate && cfg.liveMigrate == liveMigrate
    ensures dryRun ==> cfg.migrate == Without(migrate, name)
    ensures dryRun ==> (cfg.AnyMigrationEnabled() <==> name == "" && liveMigrate == "")
    ensures forall other :: other != name ==> (other in cfg.migrate <==> other in migrate)
  {
    var live, kept := liveMigrate, migrate;
    if dryRun {
      if name in migrate { kept := DeleteName(migrate, name); } else { WithoutAbsent(migrate, name); }
      WithoutKeeps(migrate, name, name);
      if liveMigrate != "" && liveMigrate == name { live := ""; }
    }
    forall other | other != name ensures other in kept <==> other in migrate { WithoutKeeps(migrate, name, other); }
    cfg := Config(dryRun, name, kept, live, disableCheckpointing);
  }

  lemma {:induction false} WithoutAbsent(names: seq<string>, name: string)
    requires name !in names
    ensures Without(names, name) == names
  {
    if names != [] {
      WithoutAbsent(names[..|names| - 1], name);
      assert names == names[..|names| - 1] + [names[|names| - 1]];
    }
  }

  method DeleteName(names: seq<string>, name: string) returns (kept: seq<string>)
    ensures kept == Without(names, name)
  {
    kept := [];
    var i := 0;
    while i < |names|
      invariant i <= |names| && kept == Without(names[..i], name)
    {
      assert names[..i + 1][..i] == names[..i];
      if names[i] != name { kept := kept + [names[i]]; }
      i := i + 1;
    }
    assert names[..i] == names;
  }

  // ---------------------------------------------------------------- the machine

  /** How often scale-downs and restores were simulated. */
  datatype Counts = Counts(scaleDowns: nat, restores: nat)

  function Add(a: Counts, b: Counts): Counts {
    Counts(a.scaleDowns + b.scaleDowns, a.restores + b.restores)
  }

  datatype State = State(
    scaledDown: bool,      // the real phase
    simulating: bool,      // dryRunScaledDown
    armed: bool,           // the poll timer is pending
    running: nat,          // poll callbacks that have fired and not yet run
    pending: Counts,       // counted since the last scrape
    flying: seq<Counts>,   // scraped, not yet at the collector
    exported: Counts,      // in the collector
    lost: Counts,          // in scrapes that never arrived
    totals: Counts)        // everything ever simulated (history)

  datatype Step =
    | ScaleDown(really: bool)   // the scale-down timer; `really` is whether a real one succeeds
    | PollFires
    | PollRuns(active: bool)    // whether there was activity since the simulated scale-down
    | Exec
    | Evacuate
    | Restore
    | Scrape
    | Deliver
    | Lose

  predicate Enabled(s: State, step: Step) {
    match step
    case PollFires => s.armed
    case PollRuns(active) => s.running > 0
    case Deliver => s.flying != []
    case Lose => s.flying != []
    case _ => true
  }

  function Restored(s: State): State {
    s.(simulating := false, armed := false,
       pending := Add(s.pending, Counts(0, 1)), totals := Add(s.totals, Counts(0, 1)))
  }

  function Simulated(s: State): State {
    if s.simulating then s
    else s.(simulating := true, armed := true,
            pending := Add(s.pending, Counts(1, 0)), totals := Add(s.totals, Counts(1, 0)))
  }

  function Next(s: State, step: Step, cfg: Config): State
    requires Enabled(s, step)
  {
    match step
    case ScaleDown(really) => if cfg.dryRun then Simulated(s) else s.(scaledDown := s.scaledDown || really)
    case PollFires => s.(armed := false, running := s.running + 1)
    case PollRuns(active) =>
      var s' := s.(running := s.running - 1);
      if active then Restored(s') else s'.(armed := true)
    case Exec => if cfg.dryRun && s.simulating then Restored(s) else s
    case Evacuate => s.(scaledDown := s.scaledDown || (cfg.AnyMigrationEnabled() && cfg.LiveMigrationEnabled()))
    case Restore => s.(scaledDown := false)
    case Scrape => s.(flying := s.flying + [s.pending], pending := Counts(0, 0))
    case Deliver =>
      s.(flying := s.flying[1..], exported := if cfg.dryRun then Add(s.exported, s.flying[0]) else s.exported)
    case Lose => s.(flying := s.flying[1..], lost := Add(s.lost, s.flying[0]))
  }

  /** A container starts scaled down only if it is the target of a migration. */
  ghost predicate Initial(s: State, cfg: Config) {
    && (s.scaledDown ==> cfg.AnyMigrationEnabled())
    && s == State(s.scaledDown, false, false, 0, Counts(0, 0), [], Counts(0, 0), Counts(0, 0), Counts(0, 0))
  }

  /** A run. In a quiet one no exec arrives between the firing of the poll timer and the
      run of its callback. */
  ghost predicate IsRun(ss: seq<State>, steps: seq<Step>, cfg: Config) {
    && |ss| == |steps| + 1 && Initial(ss[0], cfg)
    && forall i :: 0 <= i < |steps| ==> Enabled(ss[i], steps[i]) && ss[i + 1] == Next(ss[i], steps[i], cfg)
  }

  ghost predicate Quiet(ss: seq<State>, steps: seq<Step>) {
    |ss| == |steps| + 1 && forall i :: 0 <= i < |steps| && steps[i].Exec? ==> ss[i].running == 0
  }

  // ---------------------------------------------------------------- what is simulated and counted

  /** In every run: a scale-down in dry-run mode starts a simulation and counts it, unless one
      is going on; a poll that finds activity, and an exec during a simulation, end it and
      count a restore; nothing else is counted. Outside dry-run mode a scale-down that succeeds
      is real. */
  lemma SimulationTakesEffect(ss: seq<State>, steps: seq<Step>, cfg: Config, i: nat)
    requires IsRun(ss, steps, cfg) && i < |steps|
    ensures var s, s', step := ss[i], ss[i + 1], steps[i];
      var starts := step.ScaleDown? && cfg.dryRun && !s.simulating;
      var ends := (step.PollRuns? && step.active) || (step.Exec? && cfg.dryRun && s.simulating);
      && s'.totals.scaleDowns == s.totals.scaleDowns + (if starts then 1 else 0)
      && s'.totals.restores == s.totals.restores + (if ends then 1 else 0)
      && (starts ==> s'.simulating && s'.armed)
      && (ends ==> !s'.simulating && !s'.armed)
      && (!starts && !ends ==> s'.simulating == s.simulating)
      && (step.ScaleDown? && !cfg.dryRun && step.really ==> s'.scaledDown)
      && (step.Restore? ==> !s'.scaledDown)
  {
    assert Enabled(ss[i], steps[i]) && ss[i + 1] == Next(ss[i], steps[i], cfg);
  }

  /** A pending poll fires, a fired one runs, and one that finds no activity is pending again. */
  lemma PollsGoOn(ss: seq<State>, steps: seq<Step>, cfg: Config, i: nat)
    requires IsRun(ss, steps, cfg) && i < |steps|
    ensures ss[i].armed ==> Enabled(ss[i], PollFires)
    ensures steps[i].PollFires? ==> forall active :: Enabled(ss[i + 1], PollRuns(active))
    ensures steps[i].PollRuns? && !steps[i].active ==> Enabled(ss[i + 1], PollFires)
  {
    assert Enabled(ss[i], steps[i]) && ss[i + 1] == Next(ss[i], steps[i], cfg);
  }

  /** What is counted since the last scrape leaves with the next one, and in dry-run mode
      arrives at the collector with the delivery of that scrape. */
  lemma ScrapesCarryCounts(ss: seq<State>, steps: seq<Step>, cfg: Config, i: nat)
    requires IsRun(ss, steps, cfg) && i < |steps|
    ensures var s, s' := ss[i], ss[i + 1];
      && (steps[i].Scrape? ==> s'.pending == Counts(0, 0) && s'.flying == s.flying + [s.pending])
      && (steps[i].Deliver? && cfg.dryRun ==> s.flying == [s.flying[0]] + s'.flying)
      && (steps[i].Deliver? && cfg.dryRun ==> s'.exported.scaleDowns == s.exported.scaleDowns + s.flying[0].scaleDowns)
      && (steps[i].Deliver? && cfg.dryRun ==> s'.exported.restores == s.exported.restores + s.flying[0].restores)
  {
    assert Enabled(ss[i], steps[i]) && ss[i + 1] == Next(ss[i], steps[i], cfg);
  }

  // ---------------------------------------------------------------- never scaled down

  /** In dry-run mode the container is never scaled down, unless migration stayed enabled. */
  lemma {:induction false} NeverScaledDown(ss: seq<State>, steps: seq<Step>, cfg: Config, i: nat)
    requires IsRun(ss, steps, cfg) && i < |ss| && cfg.dryRun && !cfg.AnyMigrationEnabled()
    ensures !ss[i].scaledDown
  {
    if i > 0 {
      NeverScaledDown(ss, steps, cfg, i - 1);
      assert ss[i] == Next(ss[i - 1], steps[i - 1], cfg);
    }
  }

  /** With live migration enabled an evacuation scales it down even in dry-run mode. */
  lemma EvacuationScalesDown(s: State, cfg: Config)
    requires cfg.LiveMigrationEnabled()
    ensures Next(s, Evacuate, cfg).scaledDown
  {}

  // ---------------------------------------------------------------- the balance

  predicate Balanced(s: State) {
    s.totals.scaleDowns - s.totals.restores == if s.simulating then 1 else 0
  }

  /** While simulating there is exactly one poll, pending or running; otherwise none. */
  predicate OnePoll(s: State) {
    (if s.armed then 1 else 0) + s.running == if s.simulating then 1 else 0
  }

  /** A step keeps the balance exactly if it is not a poll that restores what is already
      restored. */
  lemma BalanceStep(s: State, step: Step, cfg: Config)
    requires Balanced(s) && Enabled(s, step)
    ensures Balanced(Next(s, step, cfg)) <==> !(step.PollRuns? && step.active && !s.simulating)
  {}

  lemma OnePollKept(s: State, step: Step, cfg: Config)
    requires OnePoll(s) && Enabled(s, step) && (step.Exec? ==> s.running == 0)
    ensures OnePoll(Next(s, step, cfg))
  {}

  /** Simulated scale-downs and restores alternate: they differ by one while simulating and
      not at all otherwise. */
  lemma {:induction false} CountsAlternate(ss: seq<State>, steps: seq<Step>, cfg: Config, i: nat)
    requires IsRun(ss, steps, cfg) && Quiet(ss, steps) && i < |ss|
    ensures Balanced(ss[i]) && OnePoll(ss[i])
  {
    hide Next, Balanced, OnePoll;
    if i == 0 {
      StartBalanced(ss[0], cfg);
    } else {
      CountsAlternate(ss, steps, cfg, i - 1);
      SimulatingIfPolled(ss[i - 1], steps[i - 1]);
      BalanceStep(ss[i - 1], steps[i - 1], cfg);
      OnePollKept(ss[i - 1], steps[i - 1], cfg);
    }
  }

  lemma StartBalanced(s: State, cfg: Config)
    requires Initial(s, cfg)
    ensures Balanced(s) && OnePoll(s)
  {}

  lemma SimulatingIfPolled(s: State, step: Step)
    requires OnePoll(s) && Enabled(s, step)
    ensures step.PollRuns? ==> s.simulating
  {}

  /** An exec between a poll's firing and its callback: both count a restore. */
  lemma ExecRacesPoll(s: State, cfg: Config)
    requires Balanced(s) && OnePoll(s) && s.simulating && s.armed && cfg.dryRun
    ensures var s1 := Next(Next(s, PollFires, cfg), Exec, cfg);
      && Balanced(s1) && Enabled(s1, PollRuns(true))
      && !Balanced(Next(s1, PollRuns(true), cfg))
  {}

  // ---------------------------------------------------------------- conservation

  function Sum(cs: seq<Counts>): Counts {
    if cs == [] then Counts(0, 0) else Add(cs[0], Sum(cs[1..]))
  }

  lemma {:induction false} SumLast(cs: seq<Counts>, c: Counts)
    ensures Sum(cs + [c]) == Add(Sum(cs), c)
  {
    if cs == [] {
      assert cs + [c] == [c] && [c][1..] == [];
    } else {
      SumLast(cs[1..], c);
      assert (cs + [c])[1..] == cs[1..] + [c];
    }
  }

  lemma SumNone()
    ensures Sum([]) == Counts(0, 0)
  {}

  /** Nothing is counted outside dry-run mode, and everything counted is exported, pending, on
      its way or lost with its scrape. */
  predicate Conserved(s: State, cfg: Config) {
    if cfg.dryRun then AddsUp(s.totals, s.exported, s.pending, Sum(s.flying), s.lost)
    else
      && s.totals == Counts(0, 0) && s.pending == Counts(0, 0) && Sum(s.flying) == Counts(0, 0)
      && s.running == 0 && !s.armed && !s.simulating
  }

  predicate AddsUp(total: Counts, a: Counts, b: Counts, c: Counts, d: Counts) {
    && total.scaleDowns == a.scaleDowns + b.scaleDowns + c.scaleDowns + d.scaleDowns
    && total.restores == a.restores + b.restores + c.restores + d.restores
  }

  lemma ScrapeAddsUp(total: Counts, exported: Counts, pending: Counts, flying: seq<Counts>, lost: Counts, none: Counts)
    requires AddsUp(total, exported, pending, Sum(flying), lost) && none.scaleDowns == 0 && none.restores == 0
    ensures AddsUp(total, exported, none, Sum(flying + [pending]), lost)
  {
    hide Sum;
    SumLast(flying, pending);
  }

  lemma SumNothing(flying: seq<Counts>, pending: Counts)
    requires Sum(flying) == Counts(0, 0) && pending == Counts(0, 0)
    ensures Sum(flying + [pending]) == Counts(0, 0)
  {
    hide Sum;
    SumLast(flying, pending);
  }

  lemma ScrapeConserves(s: State, t: State, cfg: Config)
    requires Conserved(s, cfg) && t.flying == s.flying + [s.pending] && t.pending == Counts(0, 0)
    requires t.totals == s.totals && t.exported == s.exported && t.lost == s.lost
    requires t.running == s.running && t.armed == s.armed && t.simulating == s.simulating
    ensures Conserved(t, cfg)
  {
    hide Sum, AddsUp;
    if cfg.dryRun {
      ScrapeAddsUp(s.totals, s.exported, s.pending, s.flying, s.lost, t.pending);
    } else {
      SumNothing(s.flying, s.pending);
    }
  }

  lemma SumSplits(cs: seq<Counts>)
    requires cs != []
    ensures Sum(cs) == Add(cs[0], Sum(cs[1..]))
  {}

  lemma ArrivalConserves(s: State, step: Step, cfg: Config)
    requires Conserved(s, cfg) && Enabled(s, step) && (step.Deliver? || step.Lose?)
    ensures Conserved(Next(s, step, cfg), cfg)
  {
    hide Sum, Simulated, Restored;
    SumSplits(s.flying);
  }

  lemma OthersConserve(s: State, step: Step, cfg: Config)
    requires Conserved(s, cfg) && Enabled(s, step) && !step.Scrape? && !step.Deliver? && !step.Lose?
    ensures Conserved(Next(s, step, cfg), cfg)
  {
    hide Sum;
    assert Next(s, step, cfg).flying == s.flying;
  }

  lemma ConservedKept(s: State, step: Step, cfg: Config)
    requires Conserved(s, cfg) && Enabled(s, step)
    ensures Conserved(Next(s, step, cfg), cfg)
  {
    hide Conserved, Simulated, Restored;
    if step.Scrape? {
      ScrapeConserves(s, Next(s, step, cfg), cfg);
    } else if step.Deliver? || step.Lose? {
      ArrivalConserves(s, step, cfg);
    } else {
      OthersConserve(s, step, cfg);
    }
  }

  lemma ConservedAtFirst(s: State, cfg: Config)
    requires Initial(s, cfg)
    ensures Conserved(s, cfg) && s.lost == Counts(0, 0)
  {}

  lemma {:induction false} CountsAreConserved(ss: seq<State>, steps: seq<Step>, cfg: Config, i: nat)
    requires IsRun(ss, steps, cfg) && i < |ss|
    ensures Conserved(ss[i], cfg)
  {
    hide Next, Enabled, Conserved, Initial;
    if i == 0 {
      ConservedAtFirst(ss[0], cfg);
    } else {
      CountsAreConserved(ss, steps, cfg, i - 1);
      ConservedKept(ss[i - 1], steps[i - 1], cfg);
    }
  }

  /** If every scrape is delivered, exported plus pending are the true totals whenever none is
      on its way. */
  lemma {:induction false} DeliveredScrapesAddUp(ss: seq<State>, steps: seq<Step>, cfg: Config, i: nat)
    requires IsRun(ss, steps, cfg) && i < |ss| && cfg.dryRun
    requires forall k :: 0 <= k < i ==> !steps[k].Lose?
    ensures ss[i].lost == Counts(0, 0)
    ensures ss[i].flying == [] ==> ss[i].totals == Add(ss[i].exported, ss[i].pending)
  {
    hide Sum, Next, Enabled, Initial;
    SumNone();
    CountsAreConserved(ss, steps, cfg, i);
    if i == 0 {
      ConservedAtFirst(ss[0], cfg);
    } else {
      DeliveredScrapesAddUp(ss, steps, cfg, i - 1);
      OnlyLosingLoses(ss[i - 1], steps[i - 1], cfg);
    }
  }

  lemma OnlyLosingLoses(s: State, step: Step, cfg: Config)
    requires Enabled(s, step) && !step.Lose?
    ensures Next(s, step, cfg).lost == s.lost
  {}

  // ---------------------------------------------------------------- the code

  class Container {
    const cfg: Config
    var scaledDown: bool
    var dryRunScaledDown: bool
    var dryRunSince: int
    var pollArmed: bool
    var scaleDowns: nat
    var restores: nat

    ghost predicate Agrees(s: State)
      reads this
    {
      && scaledDown == s.scaledDown && dryRunScaledDown == s.simulating && pollArmed == s.armed
      && Counts(scaleDowns, restores) == s.pending
    }

    /** `scaleDown`, with a real scale-down as outcome `really`. */
    method ScaleDown(now: int, really: bool, ghost s: State)
      requires Agrees(s)
      modifies this
      ensures Agrees(Next(s, Step.ScaleDown(really), cfg))
      ensures dryRunSince == if cfg.dryRun && !s.simulating then now else old(dryRunSince)
      ensures cfg.dryRun ==> dryRunScaledDown && scaledDown == old(scaledDown)
      ensures cfg.dryRun && !old(dryRunScaledDown) ==>
        scaleDowns == old(scaleDowns) + 1 && pollArmed && dryRunSince == now
      ensures cfg.dryRun && old(dryRunScaledDown) ==> unchanged(this)
      ensures !cfg.dryRun ==> scaledDown == (old(scaledDown) || really) && scaleDowns == old(scaleDowns)
    {
      if cfg.dryRun {
        if dryRunScaledDown { return; }
        dryRunScaledDown, dryRunSince, scaleDowns := true, now, scaleDowns + 1;
        pollArmed := true;
        return;
      }
      if scaledDown { return; }
      scaledDown := really;
    }

    /** The callback of the fired poll timer; `last` is the last activity, if it was found. */
    method DryRunRestoreCheck(found: bool, last: int, ghost s: State)
      requires Agrees(s) && s.running > 0
      modifies `dryRunScaledDown, `pollArmed, `restores
      ensures Agrees(Next(s, PollRuns(found && last > dryRunSince), cfg))
      ensures found && last > dryRunSince ==> !dryRunScaledDown && !pollArmed && restores == old(restores) + 1
      ensures !(found && last > dryRunSince) ==>
        dryRunScaledDown == old(dryRunScaledDown) && pollArmed && restores == old(restores)
    {
      if found && last > dryRunSince {
        DryRunRestore();
        return;
      }
      pollArmed := true;
    }

    method DryRunExec(ghost s: State)
      requires Agrees(s)
      modifies `dryRunScaledDown, `pollArmed, `restores
      ensures Agrees(Next(s, Exec, cfg))
      ensures cfg.dryRun && old(dryRunScaledDown) ==>
        !dryRunScaledDown && !pollArmed && restores == old(restores) + 1
      ensures !(cfg.dryRun && old(dryRunScaledDown)) ==> unchanged(this)
    {
      if !cfg.dryRun || !dryRunScaledDown { return; }
      DryRunRestore();
    }

    method DryRunRestore()
      modifies `dryRunScaledDown, `pollArmed, `restores
      ensures restores == old(restores) + 1 && !dryRunScaledDown && !pollArmed
    {
      restores := restores + 1;
      dryRunScaledDown := false;
      pollArmed := false;
    }

    /** `GetMetrics`: hands the counts out and clears them. */
    method GetMetrics(ghost s: State) returns (counts: Counts)
      requires Agrees(s)
      modifies `scaleDowns, `restores
      ensures counts == s.pending && Agrees(Next(s, Scrape, cfg))
      ensures counts == Counts(old(scaleDowns), old(restores)) && scaleDowns == restores == 0
    {
      counts := Counts(scaleDowns, restores);
      scaleDowns, restores := 0, 0;
    }
  }

  /** One container's part of a scrape. */
  datatype Metric = Metric(labels: string, dryRun: bool, counts: Counts)

  /** What a batch of scraped metrics adds to one time series. */
  function Reported(batch: seq<Metric>, labels: string): Counts {
    if batch == [] then Counts(0, 0)
    else
      var m := batch[|batch| - 1];
      Add(Reported(batch[..|batch| - 1], labels), if m.dryRun && m.labels == labels then m.counts else Counts(0, 0))
  }

  /** A dry-run metric reports its counts to its own series, any other metric nothing, and two
      batches what they report together. */
  lemma ReportedIs(m: Metric, labels: string)
    ensures Reported([m], labels) == if m.dryRun && m.labels == labels then m.counts else Counts(0, 0)
  {
    assert [m][..0] == [];
    AddAssoc(m.counts, Counts(0, 0), Counts(0, 0));
  }

  lemma {:induction false} ReportedTogether(a: seq<Metric>, b: seq<Metric>, labels: string)
    ensures Reported(a + b, labels) == Add(Reported(a, labels), Reported(b, labels))
  {
    if b == [] {
      assert a + b == a;
    } else {
      ReportedTogether(a, b[..|b| - 1], labels);
      assert (a + b)[..|a + b| - 1] == a + b[..|b| - 1];
    }
  }

  function ValueOf(exported: map<string, Counts>, labels: string): Counts {
    if labels in exported then exported[labels] else Counts(0, 0)
  }

  function Collected(exported: map<string, Counts>, batch: seq<Metric>): map<string, Counts> {
    if batch == [] then exported
    else
      var m, rest := batch[|batch| - 1], Collected(exported, batch[..|batch| - 1]);
      if m.dryRun then rest[m.labels := Add(ValueOf(rest, m.labels), m.counts)] else rest
  }

  /** Every series grows by exactly what the dry-run metrics of a batch report for it. */
  lemma {:induction false} SeriesGrow(exported: map<string, Counts>, batch: seq<Metric>, labels: string)
    ensures ValueOf(Collected(exported, batch), labels) == Add(ValueOf(exported, labels), Reported(batch, labels))
  {
    hide Add;
    var value := ValueOf(exported, labels);
    if batch == [] {
      AddAssoc(value, Counts(0, 0), Counts(0, 0));
    } else {
      var m, before := batch[|batch| - 1], batch[..|batch| - 1];
      SeriesGrow(exported, before, labels);
      AddAssoc(value, Reported(before, labels), if m.dryRun && m.labels == labels then m.counts else Counts(0, 0));
    }
  }

  lemma AddAssoc(a: Counts, b: Counts, c: Counts)
    ensures Add(Add(a, b), c) == Add(a, Add(b, c))
    ensures Add(a, Counts(0, 0)) == a && Add(Add(a, b), Counts(0, 0)) == Add(a, b)
  {}

  class Collector {
    var exported: map<string, Counts>

    /** The counter additions of `Collect`. */
    method Collect(batch: seq<Metric>)
      modifies this
      ensures exported == Collected(old(exported), batch)
    {
      var i := 0;
      while i < |batch|
        invariant i <= |batch| && exported == Collected(old(exported), batch[..i])
      {
        assert batch[..i + 1][..i] == batch[..i];
        var m := batch[i];
        if m.dryRun { exported := exported[m.labels := Add(ValueOf(exported, m.labels), m.counts)]; }
        i := i + 1;
      }
      assert batch[..i] == batch;
    }
  }
}
