/** The token usage of one run (src/pty-worker/worker-pool-run-token-usage.js).

    The backend reports the usage of the last turn, a cumulative reading, or both.
    Cumulative readings start anew when the run moves to another thread: such a
    stretch is a domain.  The usage of closed domains is kept apart from the
    segment of the current one. */
module RunTokenUsage {
  import opened Options
  import opened TokenUsage

  /** What the run publishes and what it keeps to compute it. */
  datatype State = State(
    lastTokenUsage: Normalized,
    current: Normalized,
    closed: Normalized,
    baseline: Normalized,
    segment: Normalized)

  const NOTHING := State(None, None, None, None, None)

  /** A reported summary, and whether a turn was active when it was applied. */
  datatype Summary = Summary(usage: Option<RawUsage>, totalUsage: Option<RawUsage>)

  function Normalize(u: Option<RawUsage>, synthesizeTotal: bool): Normalized {
    if u.None? then None else NormalizeTokenUsage(u.value, synthesizeTotal)
  }

  function FillMissing(usage: Normalized, fallback: Normalized): Normalized {
    if usage.None? then fallback
    else if fallback.None? then usage
    else
      var u, f := usage.value, fallback.value;
      Proper(Usage(u.input.Or(f.input), u.cached.Or(f.cached), u.output.Or(f.output), u.reasoning.Or(f.reasoning), u.total.Or(f.total)))
  }

  function Publish(s: State, segment: Normalized): State {
    if segment.None? then s
    else s.(segment := segment, current := AddTokenUsage(s.closed, segment))
  }

  function Reset(s: State): State {
    var closed := AddTokenUsage(s.closed, s.segment).Or(s.closed);
    s.(closed := closed, baseline := None, segment := None, current := closed.Or(s.current))
  }

  /** The baseline a domain gets from its first cumulative reading. */
  function FirstBaseline(totalUsage: Normalized, usage: Normalized, turnActive: bool): Normalized {
    if turnActive && usage.Some? then SubtractTokenUsage(totalUsage, usage).Or(totalUsage) else totalUsage
  }

  /** One report, its usages normalised. */
  function Report(s: State, usage: Normalized, totalUsage: Normalized, turnActive: bool): State {
    var s := Publish(s, usage);
    if totalUsage.None? then s
    else
      var s := if s.baseline.None? then s.(baseline := FirstBaseline(totalUsage, usage, turnActive)) else s;
      Publish(s, FillMissing(SubtractTokenUsage(totalUsage, s.baseline), usage))
  }

  function Apply(s: State, summary: Summary, turnActive: bool): State {
    var snapshot := Normalize(summary.usage, true);
    var s := if snapshot.Some? then s.(lastTokenUsage := snapshot) else s;
    Report(s, Normalize(summary.usage, false), Normalize(summary.totalUsage, false), turnActive)
  }

  // ---------------------------------------------------------------------
  // The run state, updated in place
  // ---------------------------------------------------------------------

  class RunUsage {
    var lastTokenUsage: Normalized
    var currentRunTokenUsage: Normalized
    var currentRunClosedTokenUsage: Normalized
    var currentRunCumulativeTokenUsageBaseline: Normalized
    var currentRunCumulativeTokenUsageSegment: Normalized
    var activeTurnId: Option<string>

    function Now(): State
      reads this
    {
      State(lastTokenUsage, currentRunTokenUsage, currentRunClosedTokenUsage,
            currentRunCumulativeTokenUsageBaseline, currentRunCumulativeTokenUsageSegment)
    }

    constructor ()
      ensures Now() == NOTHING && activeTurnId == None
    {
      lastTokenUsage, currentRunTokenUsage, currentRunClosedTokenUsage := None, None, None;
      currentRunCumulativeTokenUsageBaseline, currentRunCumulativeTokenUsageSegment := None, None;
      activeTurnId := None;
    }

    method PublishCurrentSegment(segment: Normalized)
      modifies this`currentRunCumulativeTokenUsageSegment, this`currentRunTokenUsage
      ensures Now() == Publish(old(Now()), segment)
    {
      if segment.None? {
        return;
      }
      currentRunCumulativeTokenUsageSegment := segment;
      currentRunTokenUsage :=
        AddTokenUsage(currentRunClosedTokenUsage, segment).Or(segment).Or(currentRunClosedTokenUsage);
    }

    method ResetRunTokenUsageCumulativeDomain()
      modifies this
      ensures Now() == Reset(old(Now())) && activeTurnId == old(activeTurnId)
    {
      var closed := AddTokenUsage(currentRunClosedTokenUsage, currentRunCumulativeTokenUsageSegment);
      if closed.Some? {
        currentRunClosedTokenUsage := closed;
      }
      currentRunCumulativeTokenUsageBaseline := None;
      currentRunCumulativeTokenUsageSegment := None;
      currentRunTokenUsage := currentRunClosedTokenUsage.Or(currentRunTokenUsage);
    }

    method ApplyRunTokenUsageSummary(summary: Summary)
      modifies this
      ensures Now() == Apply(old(Now()), summary, activeTurnId.Some?) && activeTurnId == old(activeTurnId)
    {
      var usageForSnapshot := Normalize(summary.usage, true);
      var usage := Normalize(summary.usage, false);
      if usageForSnapshot.Some? {
        lastTokenUsage := usageForSnapshot;
      }
      if usage.Some? {
        PublishCurrentSegment(usage);
      }
      var totalUsage := Normalize(summary.totalUsage, false);
      if totalUsage.None? {
        return;
      }
      if currentRunCumulativeTokenUsageBaseline.None? {
        currentRunCumulativeTokenUsageBaseline :=
          if activeTurnId.Some? && usage.Some? then SubtractTokenUsage(totalUsage, usage).Or(totalUsage) else totalUsage;
      }
      var segment := FillMissing(SubtractTokenUsage(totalUsage, currentRunCumulativeTokenUsageBaseline), usage);
      if segment.Some? {
        PublishCurrentSegment(segment);
      }
    }
  }

  // ---------------------------------------------------------------------
  // Conservation over every run
  // ---------------------------------------------------------------------

  datatype Event = Reported(summary: Summary, turnActive: bool) | DomainReset

  function Run(s: State, events: seq<Event>, n: nat): State
    requires n <= |events|
  {
    if n == 0 then s
    else
      match events[n - 1]
      case Reported(summary, turnActive) => Apply(Run(s, events, n - 1), summary, turnActive)
      case DomainReset => Reset(Run(s, events, n - 1))
  }

  ghost predicate Balanced(s: State) {
    s.current == AddTokenUsage(s.closed, s.segment)
  }

  lemma ResetKeepsTheTotal(s: State)
    requires Balanced(s)
    ensures Balanced(Reset(s)) && Reset(s).closed == s.current && Reset(s).current == s.current && Reset(s).segment == None
  {
    hide HasAField, AddFields;
    AdditionLaws(s.closed, s.segment, None);
  }

  lemma ApplyBalances(s: State, summary: Summary, turnActive: bool)
    requires Balanced(s)
    ensures Balanced(Apply(s, summary, turnActive))
  {
    hide HasAField, AddFields, NormalizeTokenUsage, SubtractTokenUsage;
  }

  /** In every reachable state the published usage is that of the closed domains plus
      the current segment; closing a domain moves the segment and changes no total. */
  lemma {:induction false} UsageIsConserved(events: seq<Event>, n: nat)
    requires n <= |events|
    ensures var s := Run(NOTHING, events, n);
            && Balanced(s)
            && Reset(s).current == s.current
            && Reset(s).closed == s.current && Reset(s).segment == None
  {
    if n != 0 {
      UsageIsConserved(events, n - 1);
      if events[n - 1].Reported? {
        ApplyBalances(Run(NOTHING, events, n - 1), events[n - 1].summary, events[n - 1].turnActive);
      }
    }
    ResetKeepsTheTotal(Run(NOTHING, events, n));
  }

  // ---------------------------------------------------------------------
  // Telescoping over the domains
  // ---------------------------------------------------------------------

  /** A report of a domain, normalised. */
  datatype Reading = Reading(usage: Normalized, totalUsage: Normalized, turnActive: bool)

  /** The last cumulative reading of the first n reports. */
  function LastTotal(domain: seq<Reading>, n: nat): Normalized
    requires n <= |domain|
  {
    if n == 0 then None else domain[n - 1].totalUsage.Or(LastTotal(domain, n - 1))
  }

  /** The reading a domain is counted from: the first one, less the usage reported with
      it for a turn that was running, if the reading contains that usage. */
  function Origin(domain: seq<Reading>, n: nat): Normalized
    requires n <= |domain|
  {
    if n == 0 then None
    else if Origin(domain, n - 1).Some? then Origin(domain, n - 1)
    else
      var r := domain[n - 1];
      if r.turnActive && r.usage.Some? && r.totalUsage.Some? then SubtractTokenUsage(r.totalUsage, r.usage).Or(r.totalUsage) else r.totalUsage
  }

  /** Cumulative readings are complete and never go back, and a usage that comes with
      the first one for a running turn is contained in it in all counts or in none. */
  ghost predicate WellReported(domain: seq<Reading>, n: nat)
    requires n <= |domain|
  {
    n == 0 || (
      var r, before := domain[n - 1], LastTotal(domain, n - 1);
      && WellReported(domain, n - 1)
      && (r.totalUsage.Some? ==>
            && Complete(r.totalUsage.value)
            && (before.Some? ==> Complete(before.value) && AtMost(before.value, r.totalUsage.value))
            && (before.None? && r.turnActive && r.usage.Some? ==>
                  var d := SubtractTokenUsage(r.totalUsage, r.usage);
                  d.None? || Complete(d.value))))
  }

  function ReportAll(s: State, domain: seq<Reading>, n: nat): State
    requires n <= |domain|
  {
    if n == 0 then s
    else
      var r := domain[n - 1];
      Report(ReportAll(s, domain, n - 1), r.usage, r.totalUsage, r.turnActive)
  }

  /** The usage of a domain: from its origin to its last reading. */
  function DomainUsage(domain: seq<Reading>, n: nat): Normalized
    requires n <= |domain|
  {
    SubtractTokenUsage(LastTotal(domain, n), Origin(domain, n))
  }

  lemma {:induction false} DomainProgress(s: State, domain: seq<Reading>, n: nat)
    requires n <= |domain| && WellReported(domain, n)
    requires s.baseline == None
    ensures var s' := ReportAll(s, domain, n);
            && s'.closed == s.closed
            && s'.baseline == Origin(domain, n)
            && (Origin(domain, n).Some? <==> LastTotal(domain, n).Some?)
            && (LastTotal(domain, n).Some? ==>
                  && Complete(LastTotal(domain, n).value) && Complete(Origin(domain, n).value)
                  && AtMost(Origin(domain, n).value, LastTotal(domain, n).value))
            && (n > 0 && domain[n - 1].totalUsage.Some? ==>
                  s'.segment == DomainUsage(domain, n) && s'.current == AddTokenUsage(s.closed, s'.segment))
  {
    if n != 0 {
      DomainProgress(s, domain, n - 1);
    }
  }

  /** Each domain ends with a cumulative reading and is then closed. */
  function RunDomains(s: State, domains: seq<seq<Reading>>, k: nat): State
    requires k <= |domains|
  {
    if k == 0 then s else Reset(ReportAll(RunDomains(s, domains, k - 1), domains[k - 1], |domains[k - 1]|))
  }

  function TotalUsage(domains: seq<seq<Reading>>, k: nat): Normalized
    requires k <= |domains|
  {
    if k == 0 then None else AddTokenUsage(TotalUsage(domains, k - 1), DomainUsage(domains[k - 1], |domains[k - 1]|))
  }

  predicate EndsWithAReading(domain: seq<Reading>) {
    domain != [] && domain[|domain| - 1].totalUsage.Some?
  }

  /** The usage of a run telescopes: it is the sum over its domains of the last reading
      less the origin, whatever was reported in between. */
  lemma {:induction false} UsageTelescopes(domains: seq<seq<Reading>>, k: nat)
    requires k <= |domains|
    requires forall i :: 0 <= i < k ==> WellReported(domains[i], |domains[i]|) && EndsWithAReading(domains[i])
    ensures var s := RunDomains(NOTHING, domains, k);
            s.current == TotalUsage(domains, k) && s.closed == s.current && s.baseline == None && s.segment == None
  {
    hide HasAField, AddFields, ReportAll, WellReported, LastTotal, Origin, DomainUsage;
    if k != 0 {
      UsageTelescopes(domains, k - 1);
      var s, domain := RunDomains(NOTHING, domains, k - 1), domains[k - 1];
      DomainProgress(s, domain, |domain|);
      ReadingsAreLast(domain, |domain|);
      ResetKeepsTheTotal(ReportAll(s, domain, |domain|));
    }
  }

  lemma ReadingsAreLast(domain: seq<Reading>, n: nat)
    requires 0 < n <= |domain| && domain[n - 1].totalUsage.Some?
    ensures LastTotal(domain, n) == domain[n - 1].totalUsage
  {
  }

  // ---------------------------------------------------------------------
  // Domains whose origin lacks some counts
  // ---------------------------------------------------------------------

  function Counts(u: Normalized): Usage {
    if u.Some? then u.value else Usage(None, None, None, None, None)
  }

  /** One count of a domain: from its origin to its last reading, or, where the origin
      lacks it, as reported with that reading. */
  function CountOf(last: Option<nat>, origin: Option<nat>, usage: Option<nat>): Option<nat> {
    SubtractField(last, origin).Or(usage)
  }

  function DomainTotal(domain: seq<Reading>): Normalized
    requires EndsWithAReading(domain)
  {
    var n := |domain|;
    var last, origin, usage := Counts(domain[n - 1].totalUsage), Counts(Origin(domain, n)), Counts(domain[n - 1].usage);
    Proper(Usage(CountOf(last.input, origin.input, usage.input), CountOf(last.cached, origin.cached, usage.cached),
                 CountOf(last.output, origin.output, usage.output), CountOf(last.reasoning, origin.reasoning, usage.reasoning),
                 CountOf(last.total, origin.total, usage.total)))
  }

  lemma {:induction false} BaselineIsTheOrigin(s: State, domain: seq<Reading>, n: nat)
    requires n <= |domain| && s.baseline == None
    ensures ReportAll(s, domain, n).baseline == Origin(domain, n) && ReportAll(s, domain, n).closed == s.closed
  {
    hide SubtractTokenUsage, AddTokenUsage, FillMissing;
    if n != 0 {
      BaselineIsTheOrigin(s, domain, n - 1);
    }
  }

  lemma FillIsByCount(last: Normalized, origin: Normalized, usage: Normalized)
    requires last.Some? && origin.Some?
    ensures var l, o, u := Counts(last), Counts(origin), Counts(usage);
      FillMissing(SubtractTokenUsage(last, origin), usage)
      == Proper(Usage(CountOf(l.input, o.input, u.input), CountOf(l.cached, o.cached, u.cached), CountOf(l.output, o.output, u.output),
                      CountOf(l.reasoning, o.reasoning, u.reasoning), CountOf(l.total, o.total, u.total)))
  {
  }

  /** Whatever was reported, a domain that ends with a reading leaves count by count the
      difference to its origin, or what was reported last. */
  lemma DomainEnds(s: State, domain: seq<Reading>)
    requires s.baseline == None && EndsWithAReading(domain) && DomainTotal(domain).Some?
    ensures var s' := ReportAll(s, domain, |domain|);
      s'.closed == s.closed && s'.segment == DomainTotal(domain) && s'.current == AddTokenUsage(s.closed, DomainTotal(domain))
  {
    hide SubtractTokenUsage, AddTokenUsage, FillMissing, CountOf, Counts;
    var n := |domain|;
    BaselineIsTheOrigin(s, domain, n - 1);
    BaselineIsTheOrigin(s, domain, n);
    FillIsByCount(domain[n - 1].totalUsage, Origin(domain, n), domain[n - 1].usage);
  }

  function SumOfTotals(domains: seq<seq<Reading>>, k: nat): Normalized
    requires k <= |domains| && (forall i :: 0 <= i < k ==> EndsWithAReading(domains[i]))
  {
    if k == 0 then None else AddTokenUsage(SumOfTotals(domains, k - 1), DomainTotal(domains[k - 1]))
  }

  /** The usage of a run is the sum over its domains, also where origins lack counts. */
  lemma {:induction false} UsageOfAnyDomains(domains: seq<seq<Reading>>, k: nat)
    requires k <= |domains|
    requires forall i :: 0 <= i < k ==> EndsWithAReading(domains[i]) && DomainTotal(domains[i]).Some?
    ensures var s := RunDomains(NOTHING, domains, k);
      s.current == SumOfTotals(domains, k) && s.closed == s.current && s.baseline == None && s.segment == None
  {
    hide HasAField, AddFields, ReportAll, DomainTotal;
    if k != 0 {
      UsageOfAnyDomains(domains, k - 1);
      var s, domain := RunDomains(NOTHING, domains, k - 1), domains[k - 1];
      DomainEnds(s, domain);
      ResetKeepsTheTotal(ReportAll(s, domain, |domain|));
    }
  }

  // ---------------------------------------------------------------------
  // The law over the events of a run, told by what was reported
  // ---------------------------------------------------------------------

  /** The usage and the reading that an event reports, normalised. */
  function UsageOf(e: Event): Normalized {
    if e.Reported? && e.summary.usage.Some? then NormalizeTokenUsage(e.summary.usage.value, false) else None
  }

  function ReadingOf(e: Event): Normalized {
    if e.Reported? && e.summary.totalUsage.Some? then NormalizeTokenUsage(e.summary.totalUsage.value, false) else None
  }

  /** The last reading since the last reset. */
  function ReadingSince(events: seq<Event>, n: nat): Normalized
    requires n <= |events|
  {
    if n == 0 || events[n - 1].DomainReset? then None else ReadingOf(events[n - 1]).Or(ReadingSince(events, n - 1))
  }

  /** What the readings since the last reset are counted from: the first of them, less the
      usage reported with it if a turn was active, where the reading contains any of it. */
  function OriginSince(events: seq<Event>, n: nat): Normalized
    requires n <= |events|
  {
    if n == 0 || events[n - 1].DomainReset? then None
    else if OriginSince(events, n - 1).Some? then OriginSince(events, n - 1)
    else
      var e := events[n - 1];
      if ReadingOf(e).None? then None
      else if e.turnActive && SubtractTokenUsage(ReadingOf(e), UsageOf(e)).Some? then SubtractTokenUsage(ReadingOf(e), UsageOf(e))
      else ReadingOf(e)
  }

  /** The usage since the last reset: after each reading, count by count, the difference to
      the origin, or what was reported with it; after a usage alone, that usage. */
  function StretchUsage(events: seq<Event>, n: nat): Normalized
    requires n <= |events|
  {
    if n == 0 || events[n - 1].DomainReset? then None
    else
      var last, origin, usage := Counts(ReadingOf(events[n - 1])), Counts(OriginSince(events, n)), Counts(UsageOf(events[n - 1]));
      var counted := if ReadingOf(events[n - 1]).None? then UsageOf(events[n - 1])
        else Proper(Usage(CountOf(last.input, origin.input, usage.input), CountOf(last.cached, origin.cached, usage.cached),
                          CountOf(last.output, origin.output, usage.output), CountOf(last.reasoning, origin.reasoning, usage.reasoning),
                          CountOf(last.total, origin.total, usage.total)));
      counted.Or(StretchUsage(events, n - 1))
  }

  /** The usage of the stretches that resets have ended. */
  function EndedUsage(events: seq<Event>, n: nat): Normalized
    requires n <= |events|
  {
    if n == 0 then None
    else if events[n - 1].DomainReset? then AddTokenUsage(EndedUsage(events, n - 1), StretchUsage(events, n - 1))
    else EndedUsage(events, n - 1)
  }

  /** The last usage reported, its total synthesised from input and output if it has none. */
  function LastSnapshot(events: seq<Event>, n: nat): Normalized
    requires n <= |events|
  {
    if n == 0 then None
    else
      var e := events[n - 1];
      (if e.Reported? && e.summary.usage.Some? then NormalizeTokenUsage(e.summary.usage.value, true) else None).Or(LastSnapshot(events, n - 1))
  }

  lemma ReportedUsage(s: State, e: Event)
    requires e.Reported?
    ensures Apply(s, e.summary, e.turnActive) == Report(s.(lastTokenUsage := Apply(s, e.summary, e.turnActive).lastTokenUsage), UsageOf(e), ReadingOf(e), e.turnActive)
  {
    hide NormalizeTokenUsage, SubtractTokenUsage, AddTokenUsage, FillMissing;
  }

  lemma ReportTells(s: State, e: Event, origin: Normalized)
    requires e.Reported? && Balanced(s)
    requires ReadingOf(e).Some? ==>
      (origin == if s.baseline.Some? then s.baseline
                 else if e.turnActive && SubtractTokenUsage(ReadingOf(e), UsageOf(e)).Some? then SubtractTokenUsage(ReadingOf(e), UsageOf(e))
                 else ReadingOf(e))
    ensures var s' := Report(s, UsageOf(e), ReadingOf(e), e.turnActive);
      var counted := if ReadingOf(e).None? then UsageOf(e) else FillMissing(SubtractTokenUsage(ReadingOf(e), origin), UsageOf(e));
      && s'.closed == s.closed && s'.lastTokenUsage == s.lastTokenUsage
      && s'.baseline == (if ReadingOf(e).None? then s.baseline else origin)
      && s'.segment == counted.Or(s.segment)
  {
    hide NormalizeTokenUsage, AddTokenUsage, AddFields, UsageOf, ReadingOf;
    NothingToSubtract(ReadingOf(e), s.baseline, UsageOf(e));
  }

  /** If a reading leaves nothing to publish, nothing was reported with it either. */
  lemma NothingToSubtract(reading: Normalized, origin: Normalized, usage: Normalized)
    ensures FillMissing(SubtractTokenUsage(reading, origin), usage).None? ==> usage.None?
    ensures usage.None? ==> SubtractTokenUsage(reading, usage).None?
  {
  }

  /** Over every run of raw reports and resets: what is published is the usage of the ended
      stretches plus that of the current one, and the snapshot is the last usage reported. */
  lemma {:induction false} PublishedUsageIsTheReported(events: seq<Event>, n: nat)
    requires n <= |events|
    ensures var s := Run(NOTHING, events, n);
      && s.current == AddTokenUsage(EndedUsage(events, n), StretchUsage(events, n))
      && s.lastTokenUsage == LastSnapshot(events, n)
      && s.closed == EndedUsage(events, n) && s.segment == StretchUsage(events, n) && s.baseline == OriginSince(events, n)
  {
    if n != 0 {
      hide NormalizeTokenUsage, AddTokenUsage, SubtractTokenUsage, FillMissing, UsageOf, ReadingOf, Report, Apply, HasAField, AddFields, CountOf, Counts;
      PublishedUsageIsTheReported(events, n - 1);
      UsageIsConserved(events, n - 1);
      UsageIsConserved(events, n);
      var s, e := Run(NOTHING, events, n - 1), events[n - 1];
      if e.Reported? {
        ReportedUsage(s, e);
        ReportTells(s.(lastTokenUsage := Apply(s, e.summary, e.turnActive).lastTokenUsage), e, OriginSince(events, n));
        if ReadingOf(e).Some? {
          FillIsByCount(ReadingOf(e), OriginSince(events, n), UsageOf(e));
        }
      } else {
        ResetKeepsTheTotal(s);
      }
    }
  }

  /** After a complete reading that has not gone below its complete origin, the usage since
      the last reset is the difference of the two, whatever was reported in between. */
  lemma StretchTelescopes(events: seq<Event>, n: nat)
    requires 0 < n <= |events| && ReadingOf(events[n - 1]).Some? && OriginSince(events, n).Some?
    requires Complete(ReadingOf(events[n - 1]).value) && Complete(OriginSince(events, n).value)
    requires AtMost(OriginSince(events, n).value, ReadingOf(events[n - 1]).value)
    ensures StretchUsage(events, n) == SubtractTokenUsage(ReadingSince(events, n), OriginSince(events, n))
  {
    hide NormalizeTokenUsage, OriginSince, ReadingOf;
  }

  /** Two reports of a running turn: the second reading counts in full. */
  lemma ReadingsCount()
    ensures var usage := (n: nat) => Some(RawUsage(Number(n), Missing, Missing, Missing, Missing, Missing, Missing, Missing, Missing));
      var events := [Reported(Summary(usage(10), usage(1010)), true), Reported(Summary(usage(5), usage(1015)), true)];
      Run(NOTHING, events, 2).current == Some(Usage(Some(15), None, None, None, None))
  {
    var usage := (n: nat) => Some(RawUsage(Number(n), Missing, Missing, Missing, Missing, Missing, Missing, Missing, Missing));
    var events := [Reported(Summary(usage(10), usage(1010)), true), Reported(Summary(usage(5), usage(1015)), true)];
    PublishedUsageIsTheReported(events, 2);
    assert OriginSince(events, 0) == None;
    assert OriginSince(events, 1) == Some(Usage(Some(1000), None, None, None, None));
    assert OriginSince(events, 2) == Some(Usage(Some(1000), None, None, None, None));
    assert EndedUsage(events, 1) == EndedUsage(events, 0) == None;
  }

  /** Reports without a cumulative reading leave no trace after the next reading. */
  lemma {:induction false} UsageOnlyReportsAreForgotten(s: State, between: seq<Reading>, n: nat, next: Reading)
    requires n <= |between| && s.baseline.Some?
    requires forall i :: 0 <= i < n ==> between[i].totalUsage.None?
    requires next.totalUsage.Some? && Complete(next.totalUsage.value)
    requires Complete(s.baseline.value) && AtMost(s.baseline.value, next.totalUsage.value)
    ensures Report(ReportAll(s, between, n), next.usage, next.totalUsage, next.turnActive)
         == Report(s, next.usage, next.totalUsage, next.turnActive)
  {
    if n != 0 {
      UsageOnlyReportsAreForgotten(s, between, n - 1, next);
    }
  }
}
