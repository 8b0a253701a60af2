/** Token usage records and their arithmetic (src/codex-runtime/token-usage.js). */
module TokenUsage {
  import opened Options

  /** A field of a reported usage: absent, a finite number, or something else. */
  datatype Raw = Missing | Number(n: int) | Unusable {
    /** JavaScript's `this ?? other`. */
    function Or(other: Raw): Raw {
      if Missing? then other else this
    }
  }

  /** A usage as reported, under any of the field names the backends use. */
  datatype RawUsage = RawUsage(
    inputTokens: Raw,
    cachedInputTokens: Raw, inputDetailsCached: Raw, promptCacheHit: Raw,
    outputTokens: Raw,
    reasoningOutputTokens: Raw, outputDetailsReasoning: Raw, reasoningTokens: Raw,
    totalTokens: Raw)

  datatype Usage = Usage(input: Option<nat>, cached: Option<nat>, output: Option<nat>, reasoning: Option<nat>, total: Option<nat>)

  predicate HasAField(u: Usage) {
    u.input.Some? || u.cached.Some? || u.output.Some? || u.reasoning.Some? || u.total.Some?
  }

  /** A normalised usage: null, or a record with at least one count. */
  type Normalized = u: Option<Usage> | u.Some? ==> HasAField(u.value) witness None

  function Proper(u: Usage): Normalized {
    if HasAField(u) then Some(u) else None
  }

  function NormalizeUsageCount(value: Raw): Option<nat> {
    if value.Number? && value.n >= 0 then Some(value.n) else None
  }

  function OrZero(n: Option<nat>): nat {
    if n.Some? then n.value else 0
  }

  function NormalizeTokenUsage(u: RawUsage, synthesizeTotal: bool): Normalized {
    var input := NormalizeUsageCount(u.inputTokens);
    var output := NormalizeUsageCount(u.outputTokens);
    var synthesized := if synthesizeTotal && (input.Some? || output.Some?) then Number(OrZero(input) + OrZero(output)) else Missing;
    Proper(Usage(
      input,
      NormalizeUsageCount(u.cachedInputTokens.Or(u.inputDetailsCached).Or(u.promptCacheHit)),
      output,
      NormalizeUsageCount(u.reasoningOutputTokens.Or(u.outputDetailsReasoning).Or(u.reasoningTokens)),
      NormalizeUsageCount(u.totalTokens.Or(synthesized))))
  }

  function AsReported(n: Option<nat>): Raw {
    if n.Some? then Number(n.value) else Missing
  }

  /** A normalised usage read back as a reported one. */
  function Report(u: Usage): RawUsage {
    RawUsage(AsReported(u.input), AsReported(u.cached), Missing, Missing, AsReported(u.output),
             Missing, Missing, AsReported(u.reasoning), AsReported(u.total))
  }

  /** Normalising again changes nothing, except that a missing total may be synthesised. */
  lemma NormalizingIsIdempotent(u: RawUsage, synthesizeTotal: bool)
    requires NormalizeTokenUsage(u, synthesizeTotal).Some?
    ensures var n := NormalizeTokenUsage(u, synthesizeTotal).value;
            && NormalizeTokenUsage(Report(n), false) == Some(n)
            && NormalizeTokenUsage(Report(n), true) ==
               Some(if n.total.None? && (n.input.Some? || n.output.Some?)
                    then n.(total := Some(OrZero(n.input) + OrZero(n.output))) else n)
  {
  }

  function AddField(a: Option<nat>, b: Option<nat>): Option<nat> {
    if a.None? && b.None? then None else Some(OrZero(a) + OrZero(b))
  }

  function AddFields(l: Usage, r: Usage): Usage {
    Usage(AddField(l.input, r.input), AddField(l.cached, r.cached), AddField(l.output, r.output),
          AddField(l.reasoning, r.reasoning), AddField(l.total, r.total))
  }

  function AddTokenUsage(left: Normalized, right: Normalized): Normalized {
    if left.None? then right
    else if right.None? then left
    else Proper(AddFields(left.value, right.value))
  }

  function SubtractField(value: Option<nat>, base: Option<nat>): Option<nat> {
    if value.Some? && base.Some? && value.value >= base.value then Some(value.value - base.value) else None
  }

  function SubtractTokenUsage(usage: Normalized, baseline: Normalized): Normalized {
    if usage.None? || baseline.None? then None
    else
      var u, b := usage.value, baseline.value;
      Proper(Usage(SubtractField(u.input, b.input), SubtractField(u.cached, b.cached), SubtractField(u.output, b.output),
                   SubtractField(u.reasoning, b.reasoning), SubtractField(u.total, b.total)))
  }

  function ComputeNonCachedInputOutputTokenTotal(u: RawUsage): Option<nat> {
    var n := NormalizeTokenUsage(u, true);
    if n.None? || n.value.input.None? || n.value.output.None? then None
    else
      var input, cached := n.value.input.value, OrZero(n.value.cached);
      Some((if input >= cached then input - cached else 0) + n.value.output.value)
  }

  // ---------------------------------------------------------------------
  // The algebra
  // ---------------------------------------------------------------------

  lemma AddFieldsAssociative(a: Usage, b: Usage, c: Usage)
    ensures AddFields(AddFields(a, b), c) == AddFields(a, AddFields(b, c))
  {
  }

  lemma AddFieldsHas(a: Usage, b: Usage)
    ensures HasAField(AddFields(a, b)) <==> HasAField(a) || HasAField(b)
  {
  }

  /** Addition is a commutative monoid with null as its identity. */
  lemma AdditionLaws(a: Normalized, b: Normalized, c: Normalized)
    ensures AddTokenUsage(a, b) == AddTokenUsage(b, a)
    ensures AddTokenUsage(AddTokenUsage(a, b), c) == AddTokenUsage(a, AddTokenUsage(b, c))
    ensures AddTokenUsage(a, None) == a && AddTokenUsage(None, a) == a
    ensures AddTokenUsage(a, b).None? <==> a.None? && b.None?
  {
    hide HasAField, AddField;
    if a.Some? && b.Some? { AddFieldsHas(a.value, b.value); }
    if b.Some? && c.Some? { AddFieldsHas(b.value, c.value); }
    if a.Some? && b.Some? && c.Some? {
      hide AddFields;
      AddFieldsAssociative(a.value, b.value, c.value);
      AddFieldsHas(AddFields(a.value, b.value), c.value);
    }
    AdditionCommutes(a, b);
  }

  lemma AdditionCommutes(a: Normalized, b: Normalized)
    ensures AddTokenUsage(a, b) == AddTokenUsage(b, a)
  {
  }

  predicate Complete(u: Usage) {
    u.input.Some? && u.cached.Some? && u.output.Some? && u.reasoning.Some? && u.total.Some?
  }

  predicate AtMost(a: Usage, b: Usage)
    requires Complete(a) && Complete(b)
  {
    && a.input.value <= b.input.value && a.cached.value <= b.cached.value && a.output.value <= b.output.value
    && a.reasoning.value <= b.reasoning.value && a.total.value <= b.total.value
  }

  /** Between complete readings, subtraction undoes addition. */
  lemma SubtractionUndoesAddition(a: Usage, b: Usage)
    requires Complete(a) && Complete(b)
    ensures SubtractTokenUsage(AddTokenUsage(Some(a), Some(b)), Some(b)) == Some(a)
    ensures AtMost(b, a) ==> AddTokenUsage(SubtractTokenUsage(Some(a), Some(b)), Some(b)) == Some(a)
    ensures AtMost(b, a) <==> SubtractTokenUsage(Some(a), Some(b)).Some? && Complete(SubtractTokenUsage(Some(a), Some(b)).value)
  {
  }

  /** Differences of successive readings add up. */
  lemma DifferencesTelescope(a: Usage, b: Usage, c: Usage)
    requires Complete(a) && Complete(b) && Complete(c) && AtMost(a, b) && AtMost(b, c)
    ensures AddTokenUsage(SubtractTokenUsage(Some(b), Some(a)), SubtractTokenUsage(Some(c), Some(b)))
         == SubtractTokenUsage(Some(c), Some(a))
  {
  }

  /** A count comes from the first of its names that is there at all: if that is no natural
      number, the count is missing, whatever the other names say.  Of the total alone a
      missing one is synthesised, from input and output where at least one is known. */
  lemma CountsComeFromTheFirstName(u: RawUsage, synthesizeTotal: bool)
    ensures var n := NormalizeTokenUsage(u, synthesizeTotal);
      var counts := if n.Some? then n.value else Usage(None, None, None, None, None);
      && (u.inputTokens.Missing? || u.inputTokens.Unusable? ==> counts.input.None?)
      && (u.inputTokens.Number? ==> counts.input == if u.inputTokens.n < 0 then None else Some(u.inputTokens.n))
      && (u.outputTokens.Number? ==> counts.output == if u.outputTokens.n < 0 then None else Some(u.outputTokens.n))
      && (u.outputTokens.Missing? || u.outputTokens.Unusable? ==> counts.output.None?)
      && (u.cachedInputTokens.Unusable? ==> counts.cached.None?)
      && (u.cachedInputTokens.Number? ==> counts.cached == if u.cachedInputTokens.n < 0 then None else Some(u.cachedInputTokens.n))
      && (u.cachedInputTokens.Missing? && u.inputDetailsCached.Number? && u.inputDetailsCached.n >= 0 ==> counts.cached == Some(u.inputDetailsCached.n))
      && (u.cachedInputTokens.Missing? && u.inputDetailsCached.Missing? && u.promptCacheHit.Number? && u.promptCacheHit.n >= 0
          ==> counts.cached == Some(u.promptCacheHit.n))
      && (u.reasoningOutputTokens.Unusable? ==> counts.reasoning.None?)
      && (u.reasoningOutputTokens.Number? ==> counts.reasoning == if u.reasoningOutputTokens.n < 0 then None else Some(u.reasoningOutputTokens.n))
      && (u.reasoningOutputTokens.Missing? && u.outputDetailsReasoning.Number? && u.outputDetailsReasoning.n >= 0
          ==> counts.reasoning == Some(u.outputDetailsReasoning.n))
      && (u.reasoningOutputTokens.Missing? && u.outputDetailsReasoning.Missing? && u.reasoningTokens.Number? && u.reasoningTokens.n >= 0
          ==> counts.reasoning == Some(u.reasoningTokens.n))
      && (u.totalTokens.Unusable? ==> counts.total.None?)
      && (u.totalTokens.Number? ==> counts.total == if u.totalTokens.n < 0 then None else Some(u.totalTokens.n))
      && (u.totalTokens.Missing? ==> (counts.total.Some? <==> synthesizeTotal && (counts.input.Some? || counts.output.Some?)))
      && (u.totalTokens.Missing? && counts.total.Some? ==> counts.total.value == OrZero(counts.input) + OrZero(counts.output))
  {
  }

  /** The total without cached input is known exactly when input and output are, and with
      the cached part of the input it makes up their sum. */
  lemma NonCachedTotalIsTheRest(u: Usage)
    ensures ComputeNonCachedInputOutputTokenTotal(Report(u)).Some? <==> u.input.Some? && u.output.Some?
    ensures u.input.Some? && u.output.Some? ==>
      var cached := if u.cached.None? then 0 else if u.cached.value < u.input.value then u.cached.value else u.input.value;
      ComputeNonCachedInputOutputTokenTotal(Report(u)).value + cached == u.input.value + u.output.value
  {
  }

  /** The total without cached input adds up over usages whose cached input is part of
      their input; in any case the total of a sum is at most the sum of the totals. */
  lemma NonCachedTotalAdds(a: Usage, b: Usage)
    requires a.input.Some? && a.output.Some? && b.input.Some? && b.output.Some?
    ensures var total := (u: Usage) => ComputeNonCachedInputOutputTokenTotal(Report(u));
      && total(a).Some? && total(b).Some? && total(AddFields(a, b)).Some?
      && (OrZero(a.cached) <= a.input.value && OrZero(b.cached) <= b.input.value
          ==> total(AddFields(a, b)).value == total(a).value + total(b).value)
      && total(AddFields(a, b)).value <= total(a).value + total(b).value
  {
  }
}
