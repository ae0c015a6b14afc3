/**
 * The compaction lines (extensions/context-ceiling.ts): which settings are
 * accepted, as an if-and-only-if over all inputs, and that accepted lines are
 * in order and bounded, with no line of the operator's moved.
 */
module ContextCeiling {
  import opened Wrappers

  const RESERVE_TOKENS := 16_384
  const KEEP_RECENT_TOKENS := 20_000
  const HEADROOM_TOKENS := 32_000
  const ROT_CEILING_TOKENS := 300_000
  const FALLBACK_WINDOW_TOKENS := 128_000

  /** A setting after parsing, absolute or relative; a rational takes the place of a floating-point share. */
  datatype TokenSpec = Tokens(count: nat) | Percent(share: real)

  datatype Specs = Specs(notice: TokenSpec, warn: TokenSpec, compact: TokenSpec)

  /** Which lines the operator set. */
  datatype Lines = Lines(notice: bool, warn: bool, compact: bool)

  datatype Line = Notice | Warning | Compact

  predicate Owns(own: Lines, line: Line) {
    match line
    case Notice => own.notice
    case Warning => own.warn
    case Compact => own.compact
  }

  datatype Thresholds = Thresholds(cap: nat, notice: nat, warn: nat, compact: nat, clamped: bool)

  datatype Result = Ok(t: Thresholds) | OutOfOrder(above: Line, below: Line) | OverCap(line: Line) | NothingToCut

  predicate WellFormed(s: TokenSpec) {
    s.Percent? ==> 0.0 <= s.share <= 100.0
  }

  /**
   * The window declared, rounded down, or the fallback where none above zero
   * is; and the ceiling: the table's for its models (`row`), else the rot
   * ceiling, never above that window.
   */
  function EffectiveCeiling(row: Option<nat>, window: Option<real>): (r: (nat, nat))
    ensures if window.Some? && window.value > 0.0 then r.0 as real <= window.value < r.0 as real + 1.0 else r.0 == FALLBACK_WINDOW_TOKENS
    ensures r.1 <= r.0 && (row.Some? ==> r.1 <= row.value) && (row.None? ==> r.1 <= ROT_CEILING_TOKENS)
    ensures r.1 == r.0 || row == Some(r.1) || (row.None? && r.1 == ROT_CEILING_TOKENS)
  {
    var declared := if window.Some? && window.value > 0.0 then window.value.Floor else FALLBACK_WINDOW_TOKENS;
    (declared, if row.Some? then Min(declared, row.value) else if declared > ROT_CEILING_TOKENS then ROT_CEILING_TOKENS else declared)
  }

  function ToTokens(s: TokenSpec, ceiling: nat): nat
    requires WellFormed(s)
  {
    match s
    case Tokens(count) => count
    case Percent(share) =>
      assert share / 100.0 * ceiling as real >= 0.0;
      (share / 100.0 * ceiling as real).Floor
  }

  /** An upper bound for the compact line, which always leaves a place above the kept history. */
  function Cap(ceiling: nat, declared: nat, reserve: nat): (cap: nat)
    ensures cap > KEEP_RECENT_TOKENS
    ensures declared - reserve - HEADROOM_TOKENS > KEEP_RECENT_TOKENS ==> cap <= declared - reserve - HEADROOM_TOKENS
    ensures cap <= ceiling || cap == KEEP_RECENT_TOKENS + 1
  {
    Max(KEEP_RECENT_TOKENS + 1, Min(ceiling, declared - reserve - HEADROOM_TOKENS))
  }

  /** Written in the same unit and out of order, before any rounding. */
  predicate OutOfUnitOrder(a: TokenSpec, b: TokenSpec) {
    (a.Tokens? && b.Tokens? && a.count > b.count) || (a.Percent? && b.Percent? && a.share > b.share)
  }

  /** The order of the lines the operator set, in their own unit. */
  method ValidateSpecs(s: Specs, own: Lines) returns (bad: Option<(Line, Line)>)
    ensures bad.Some? <==> SameUnitOutOfOrder(s, own)
    ensures bad.Some? ==> Owns(own, bad.value.0) && Owns(own, bad.value.1)
  {
    if own.notice && own.warn && OutOfUnitOrder(s.notice, s.warn) { return Some((Notice, Warning)); }
    if own.warn && own.compact && OutOfUnitOrder(s.warn, s.compact) { return Some((Warning, Compact)); }
    if own.notice && own.compact && OutOfUnitOrder(s.notice, s.compact) { return Some((Notice, Compact)); }
    return None;
  }

  predicate SameUnitOutOfOrder(s: Specs, own: Lines) {
    || (own.notice && own.warn && OutOfUnitOrder(s.notice, s.warn))
    || (own.warn && own.compact && OutOfUnitOrder(s.warn, s.compact))
    || (own.notice && own.compact && OutOfUnitOrder(s.notice, s.compact))
  }

  /** The three lines in tokens, before any is moved. */
  datatype Asked = Asked(notice: nat, warn: nat, compact: nat)

  function LineOf(a: Asked, line: Line): nat {
    match line
    case Notice => a.notice
    case Warning => a.warn
    case Compact => a.compact
  }

  function InTokens(s: Specs, ceiling: nat): Asked
    requires WellFormed(s.notice) && WellFormed(s.warn) && WellFormed(s.compact)
  {
    Asked(ToTokens(s.notice, ceiling), ToTokens(s.warn, ceiling), ToTokens(s.compact, ceiling))
  }

  /** Three lines that keep what the operator set and meet every bound. */
  ghost predicate Fits(a: Asked, own: Lines, cap: nat, notice: nat, warn: nat, compact: nat) {
    && notice <= warn <= compact <= cap && compact > KEEP_RECENT_TOKENS
    && (own.notice ==> notice == a.notice) && (own.warn ==> warn == a.warn) && (own.compact ==> compact == a.compact)
  }

  ghost predicate Feasible(a: Asked, own: Lines, cap: nat) {
    exists notice: nat, warn: nat, compact: nat :: Fits(a, own, cap, notice, warn, compact)
  }

  /** A default compact line, with every operator line, at or under the history a compaction keeps: it is refused, not raised. */
  predicate NothingAboveKept(a: Asked, own: Lines) {
    && !own.compact && a.compact <= KEEP_RECENT_TOKENS
    && (own.warn ==> a.warn <= KEEP_RECENT_TOKENS) && (own.notice ==> a.notice <= KEEP_RECENT_TOKENS)
  }

  /** Where the compact line goes by default, between the operator's lower lines and the cap. */
  function FittedCompact(a: Asked, own: Lines, cap: nat): nat {
    if own.compact then a.compact
    else
      var held := Min(a.compact, cap);
      if own.warn then Max(held, a.warn) else if own.notice then Max(held, a.notice) else held
  }

  /** The default warning line: in proportion under the compact line when it was above it, no lower than the operator's notice. */
  function FittedWarn(a: Asked, own: Lines, compact: nat): nat {
    if own.warn then a.warn
    else
      var lowered := if a.warn > compact then compact * 5 / 6 else a.warn;
      if own.notice then Max(lowered, a.notice) else lowered
  }

  function FittedNotice(a: Asked, own: Lines, warn: nat): nat {
    if own.notice || a.notice <= warn then a.notice else warn * 4 / 5
  }

  /** A default lowered keeps the defaults' proportion, 50 to 60 under the compact line and 40 to 50 under the warning, rounded down. */
  lemma LoweredInProportion(a: Asked, own: Lines, compact: nat)
    ensures var warn := FittedWarn(a, own, compact);
            !own.warn && !own.notice && a.warn > compact ==> 60 * warn <= 50 * compact < 60 * (warn + 1)
    ensures forall warn: nat :: !own.notice && a.notice > warn ==>
              50 * FittedNotice(a, own, warn) <= 40 * warn < 50 * (FittedNotice(a, own, warn) + 1)
  {
  }

  /** When three lines can fit: the operator's in order, within the cap, and a compact line of theirs above what is kept. */
  lemma FeasibleWhen(a: Asked, own: Lines, cap: nat)
    requires cap > KEEP_RECENT_TOKENS
    ensures Feasible(a, own, cap) <==>
              && (own.notice && own.warn ==> a.notice <= a.warn)
              && (own.warn && own.compact ==> a.warn <= a.compact)
              && (own.notice && own.compact ==> a.notice <= a.compact)
              && (own.notice ==> a.notice <= cap) && (own.warn ==> a.warn <= cap)
              && (own.compact ==> KEEP_RECENT_TOKENS < a.compact <= cap)
  {
    var notice := if own.notice then a.notice else 0;
    var warn := if own.warn then a.warn else notice;
    var compact := if own.compact then a.compact else cap;
    if notice <= warn <= compact <= cap && compact > KEEP_RECENT_TOKENS {
      assert Fits(a, own, cap, notice, warn, compact);
    }
  }

  /**
   * The three lines resolved, or refused naming only lines the operator set. A refusal is necessary: no three lines would
   * meet the bounds with the operator's kept, but for two cases, lines of one
   * unit whose order only rounding would mend, and a default compact line with
   * nothing above what a compaction keeps.
   */
  method ResolveThresholds(s: Specs, own: Lines, ceiling: nat, declared: nat, reserve: nat) returns (r: Result)
    requires WellFormed(s.notice) && WellFormed(s.warn) && WellFormed(s.compact)
    ensures var a, cap := InTokens(s, ceiling), Cap(ceiling, declared, reserve);
            && (r.Ok? <==> Feasible(a, own, cap) && !SameUnitOutOfOrder(s, own) && !NothingAboveKept(a, own))
            && (r.Ok? ==> Fits(a, own, cap, r.t.notice, r.t.warn, r.t.compact) && r.t.cap == cap)
            && (r.Ok? ==> r.t.compact == FittedCompact(a, own, cap) && r.t.warn == FittedWarn(a, own, r.t.compact)
                          && r.t.notice == FittedNotice(a, own, r.t.warn))
            && (r.OutOfOrder? ==> Owns(own, r.above) && Owns(own, r.below))
            && (r.OverCap? ==> Owns(own, r.line) && LineOf(a, r.line) > cap)
            && (r.Ok? ==> (r.t.clamped <==> Asked(r.t.notice, r.t.warn, r.t.compact) != a))
  {
    var bad := ValidateSpecs(s, own);
    if bad.Some? { return OutOfOrder(bad.value.0, bad.value.1); }
    var cap := Cap(ceiling, declared, reserve);
    var clamped := false;
    var compact, warn, notice := ToTokens(s.compact, ceiling), ToTokens(s.warn, ceiling), ToTokens(s.notice, ceiling);
    ghost var a := InTokens(s, ceiling);
    FeasibleWhen(a, own, cap);

    if own.notice && own.warn && notice > warn { return OutOfOrder(Notice, Warning); }
    if own.warn && own.compact && warn > compact { return OutOfOrder(Warning, Compact); }
    if own.notice && own.compact && notice > compact { return OutOfOrder(Notice, Compact); }

    if compact > cap {
      if own.compact { return OverCap(Compact); }
      compact, clamped := cap, true;
    }
    if !own.compact {
      var fromWarn := own.warn && (!own.notice || warn >= notice);
      if fromWarn || own.notice {
        var below := if fromWarn then warn else notice;
        if below > compact {
          if below > cap { return OverCap(if fromWarn then Warning else Notice); }
          compact, clamped := below, true;
        }
      }
    }
    if compact <= KEEP_RECENT_TOKENS { return NothingToCut; }
    if !own.warn {
      var lowered := if warn > compact then compact * 5 / 6 else warn;
      if own.notice && notice > lowered {
        warn, clamped := notice, true;
      } else if lowered < warn {
        warn, clamped := lowered, true;
      }
    }
    if !own.notice && notice > warn {
      notice, clamped := warn * 4 / 5, true;
    }
    assert Fits(a, own, cap, notice, warn, compact);
    return Ok(Thresholds(cap, notice, warn, compact, clamped));
  }

  // --- the levels ---

  datatype UsageLevel = Unknown | Idle | AtNotice | AtWarning | Forced

  function Rank(l: UsageLevel): int {
    match l
    case Unknown => -1
    case Idle => 0
    case AtNotice => 1
    case AtWarning => 2
    case Forced => 3
  }

  function LevelFor(tokens: Option<nat>, t: Option<Thresholds>): UsageLevel {
    if t.None? || tokens.None? then Unknown
    else if tokens.value >= t.value.compact then Forced
    else if tokens.value >= t.value.warn then AtWarning
    else if tokens.value >= t.value.notice then AtNotice
    else Idle
  }

  /**
   * With lines in order, the level is how many of them the use has reached: it
   * only rises as the use does, and a hand-off is forced exactly from the
   * compact line.
   */
  lemma LevelCountsLines(t: Thresholds, tokens: nat, more: nat)
    requires t.notice <= t.warn <= t.compact && tokens <= more
    ensures Rank(LevelFor(Some(tokens), Some(t))) ==
              (if t.notice <= tokens then 1 else 0) + (if t.warn <= tokens then 1 else 0) + (if t.compact <= tokens then 1 else 0)
    ensures Rank(LevelFor(Some(tokens), Some(t))) <= Rank(LevelFor(Some(more), Some(t)))
  {
  }

  /** Two percentages out of order that round to the same tokens: lines that would fit, refused. */
  lemma RoundingWouldMendTheOrder()
    ensures var s := Specs(Percent(40.0), Percent(50.000001), Percent(50.0));
            var all := Lines(true, true, true);
            && Feasible(InTokens(s, 272_000), all, Cap(272_000, 400_000, RESERVE_TOKENS))
            && SameUnitOutOfOrder(s, all)
  {
    var s := Specs(Percent(40.0), Percent(50.000001), Percent(50.0));
    assert 50.000001 / 100.0 * 272_000.0 == 136_000.00272;
    assert (136_000.00272 as real).Floor == 136_000;
    assert InTokens(s, 272_000) == Asked(108_800, 136_000, 136_000);
    FeasibleWhen(InTokens(s, 272_000), Lines(true, true, true), Cap(272_000, 400_000, RESERVE_TOKENS));
  }

  /** A window whose default compact line holds nothing to cut: refused, though a higher line would fit. */
  lemma SmallWindowIsRefused()
    ensures var a, none := InTokens(Specs(Percent(40.0), Percent(50.0), Percent(60.0)), 33_000), Lines(false, false, false);
            NothingAboveKept(a, none) && Feasible(a, none, Cap(33_000, 33_000, RESERVE_TOKENS))
  {
    var a := InTokens(Specs(Percent(40.0), Percent(50.0), Percent(60.0)), 33_000);
    FeasibleWhen(a, Lines(false, false, false), Cap(33_000, 33_000, RESERVE_TOKENS));
  }
}
