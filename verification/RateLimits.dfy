/**
  Rate limits reported by the usage endpoint. An Entry holds the fields of one JSON entry after their
  conversion to numbers; tag is its type, else its name, in lower case.
 */
module RateLimits {
  import opened Common

  const MIN_VALID_EPOCH_MS: int := 946_684_800_000
  const MAX_VALID_EPOCH_MS: int := 4_102_444_800_000
  const FIRST_MS: int := 1_000_000_000_000

  const I64_MIN: int := -0x8000_0000_0000_0000
  const I64_MAX: int := 0x7fff_ffff_ffff_ffff
  type i64 = x: int | I64_MIN <= x <= I64_MAX

  datatype Entry = Entry(usedPercent: Option<real>, used: Option<real>, remaining: Option<real>, limit: Option<real>,
                         reset: Option<i64>, resetIn: Option<i64>,
                         windowMinutes: Option<i64>, windowSeconds: Option<i64>, limitWindowSeconds: Option<i64>,
                         tag: Option<string>)

  datatype Limit = Limit(percentLeft: real, resetMs: int, windowMinutes: Option<nat>)
  datatype Kind = FiveHour | Weekly

  datatype Error = InvalidTimestamp | TimestampOutOfRange | InvalidLimit | MissingUsage | MissingReset
                 | MissingEntries | MissingData
  datatype Result<+T> = Ok(value: T) | Err(error: Error)

  // ----- one entry -----

  function Saturate(x: int): i64 {
    if x < I64_MIN then I64_MIN else if x > I64_MAX then I64_MAX else x
  }

  /** A timestamp below 10^12 is in seconds. */
  function Normalize(t: i64): (r: Result<int>)
    ensures r.Ok? ==> MIN_VALID_EPOCH_MS <= r.value <= MAX_VALID_EPOCH_MS
  {
    if t <= 0 then Err(InvalidTimestamp)
    else
      var ms := if t >= FIRST_MS then t else t * 1000;
      if ms < MIN_VALID_EPOCH_MS || ms > MAX_VALID_EPOCH_MS then Err(TimestampOutOfRange) else Ok(ms)
  }

  /**
    An instant in the valid range is accepted when given in seconds; given in milliseconds it is accepted,
    as the same instant, exactly when it is not before 10^12 ms (September 2001).
   */
  lemma SecondsAndMilliseconds(ms: i64)
    requires MIN_VALID_EPOCH_MS <= ms <= MAX_VALID_EPOCH_MS
    ensures ms % 1000 == 0 ==> Normalize(ms / 1000) == Ok(ms)
    ensures Normalize(ms) == Ok(ms) <==> ms >= FIRST_MS
    ensures Normalize(ms).Ok? <==> ms >= FIRST_MS
  {
  }

  /** Timestamps from 2000 to 2100 are accepted; which error the others give. */
  lemma EpochRange(t: i64)
    ensures Normalize(t) == Err(InvalidTimestamp) <==> t <= 0
    ensures t >= 1_000_000_000_000 ==> (Normalize(t).Ok? <==> t <= 4_102_444_800_000)
    ensures t < 1_000_000_000_000 ==> (Normalize(t).Ok? <==> 946_684_800 <= t <= 4_102_444_800)
  {
  }

  function PercentLeft(e: Entry): Result<real> {
    if e.usedPercent.Some? then
      var p := e.usedPercent.value;
      Ok(100.0 - if p <= 1.0 && p != p.Floor as real then p * 100.0 else p)
    else if e.remaining.Some? && e.limit.Some? then
      if e.limit.value <= 0.0 then Err(InvalidLimit) else Ok(e.remaining.value / e.limit.value * 100.0)
    else if e.used.Some? && e.limit.Some? then
      if e.limit.value <= 0.0 then Err(InvalidLimit) else Ok(100.0 - e.used.value / e.limit.value * 100.0)
    else Err(MissingUsage)
  }

  function RawReset(e: Entry, now: i64): Option<i64> {
    if e.reset.Some? then e.reset
    else if e.resetIn.Some? then Some(Saturate(now + Saturate(e.resetIn.value * 1000)))
    else None
  }

  /** Integer division that truncates towards zero. */
  function TruncDiv(x: int, d: int): int
    requires d > 0
  {
    if x >= 0 then x / d else -(-x / d)
  }

  function ToU32(x: Option<int>): Option<nat> {
    if x.Some? && 0 <= x.value <= 0xffff_ffff then Some(x.value) else None
  }

  function ToMinutes(seconds: Option<i64>): Option<nat> {
    if seconds.Some? then ToU32(Some(TruncDiv(seconds.value, 60))) else None
  }

  function WindowMinutes(e: Entry): Option<nat> {
    if ToU32(e.windowMinutes).Some? then ToU32(e.windowMinutes)
    else if ToMinutes(e.windowSeconds).Some? then ToMinutes(e.windowSeconds)
    else ToMinutes(e.limitWindowSeconds)
  }

  function Clamp(x: real): real {
    if x < 0.0 then 0.0 else if x > 100.0 then 100.0 else x
  }

  function ParseEntry(e: Entry, now: i64): (r: Result<Limit>)
    ensures r.Ok? ==> 0.0 <= r.value.percentLeft <= 100.0 && MIN_VALID_EPOCH_MS <= r.value.resetMs <= MAX_VALID_EPOCH_MS
  {
    match PercentLeft(e)
    case Err(error) => Err(error)
    case Ok(percent) =>
      match RawReset(e, now)
      case None => Err(MissingReset)
      case Some(raw) =>
        match Normalize(raw)
        case Err(error) => Err(error)
        case Ok(ms) => Ok(Limit(Clamp(percent), ms, WindowMinutes(e)))
  }

  /** A share used and the share remaining of the same positive limit give the same percentage. */
  lemma UsedAndRemainingAgree(e: Entry, used: real, limit: real)
    requires e.usedPercent.None? && limit > 0.0 && e.limit == Some(limit)
    ensures PercentLeft(e.(used := Some(used), remaining := None))
         == PercentLeft(e.(remaining := Some(limit - used)))
  {
    assert (limit - used) / limit == limit / limit - used / limit;
    assert limit / limit == 1.0;
    assert (limit - used) / limit * 100.0 == 100.0 - used / limit * 100.0;
  }

  /**
    A used percentage means the share used: an entry with used_percent p parses as one with used and limit of that
    share. Percentages of at most 1 that are not whole are fractions.
   */
  lemma UsedPercentMeansUsed(e: Entry, p: real, used: real, limit: real, now: i64)
    requires limit > 0.0
    requires used / limit * 100.0 == if p <= 1.0 && p != p.Floor as real then p * 100.0 else p
    ensures ParseEntry(e.(usedPercent := Some(p)), now)
         == ParseEntry(e.(usedPercent := None, used := Some(used), limit := Some(limit), remaining := None), now)
  {
  }

  predicate ResetParses(e: Entry, now: i64) {
    RawReset(e, now).Some? && Normalize(RawReset(e, now).value).Ok?
  }

  lemma Parses(e: Entry, now: i64)
    ensures ParseEntry(e, now).Ok? <==> PercentLeft(e).Ok? && ResetParses(e, now)
    ensures ParseEntry(e, now).Ok? ==> ParseEntry(e, now).value.percentLeft == Clamp(PercentLeft(e).value)
  {
    hide RawReset, Normalize, WindowMinutes, PercentLeft;
  }

  /** The usage fields have no part in the reset. */
  lemma ResetIsShared(e: Entry, now: i64)
    ensures forall p, u, r, l ::
              ResetParses(e.(usedPercent := p, used := u, remaining := r, limit := l), now) == ResetParses(e, now)
    ensures ParseEntry(e.(usedPercent := Some(0.0)), now).Ok? ==> ResetParses(e, now)
  {
  }

  /** What is left as such: all of it of an unused limit, nothing of a used up one, whichever way it is given. */
  lemma NothingUsedLeavesAll(e: Entry, limit: real, now: i64)
    requires limit > 0.0 && ParseEntry(e.(usedPercent := Some(0.0)), now).Ok?
    ensures var left := (x: Entry) => ParseEntry(x, now);
            var given := e.(usedPercent := None, used := None, remaining := None, limit := Some(limit));
            && (forall x | x in [e.(usedPercent := Some(0.0)), given.(used := Some(0.0)), given.(remaining := Some(limit))] ::
                  left(x).Ok? && left(x).value.percentLeft == 100.0)
            && (forall x | x in [e.(usedPercent := Some(100.0)), given.(used := Some(limit)), given.(remaining := Some(0.0))] ::
                  left(x).Ok? && left(x).value.percentLeft == 0.0)
  {
    assert limit / limit == 1.0 && 0.0 / limit == 0.0;
    ResetIsShared(e, now);
    hide RawReset, Normalize, WindowMinutes, ParseEntry;
    var given := e.(usedPercent := None, used := None, remaining := None, limit := Some(limit));
    Parses(e.(usedPercent := Some(0.0)), now);
    Parses(given.(used := Some(0.0)), now);
    Parses(given.(remaining := Some(limit)), now);
    Parses(e.(usedPercent := Some(100.0)), now);
    Parses(given.(used := Some(limit)), now);
    Parses(given.(remaining := Some(0.0)), now);
  }

  /** The more is used, the less is left; the more remains, the more is left. */
  lemma LeftFallsWithUse(e: Entry, a: real, b: real, limit: real, now: i64)
    requires a <= b && limit > 0.0 && ParseEntry(e.(usedPercent := Some(0.0)), now).Ok?
    ensures var given := e.(usedPercent := None, used := None, remaining := None, limit := Some(limit));
            && ParseEntry(given.(used := Some(a)), now).value.percentLeft >= ParseEntry(given.(used := Some(b)), now).value.percentLeft
            && ParseEntry(given.(remaining := Some(a)), now).value.percentLeft
               <= ParseEntry(given.(remaining := Some(b)), now).value.percentLeft
            && (1.0 < a ==> ParseEntry(e.(usedPercent := Some(a)), now).value.percentLeft
                            >= ParseEntry(e.(usedPercent := Some(b)), now).value.percentLeft)
            && (a == b ==> ParseEntry(given.(used := Some(a)), now) == ParseEntry(given.(remaining := Some(limit - a)), now))
  {
    SharesGrow(a, b, limit);
    SharesComplement(a, limit);
    hide RawReset, Normalize, WindowMinutes;
  }

  lemma SharesGrow(a: real, b: real, limit: real)
    requires a <= b && limit > 0.0
    ensures a / limit <= b / limit
  {
    assert b / limit - a / limit == (b - a) / limit;
    assert (b - a) / limit >= 0.0;
  }

  lemma SharesComplement(a: real, limit: real)
    requires limit > 0.0
    ensures (limit - a) / limit * 100.0 == 100.0 - a / limit * 100.0
  {
    assert (limit - a) / limit == limit / limit - a / limit && limit / limit == 1.0;
  }

  /** Which entries tell no usage: those with neither a percentage nor a limit to measure by, and those without a positive one. */
  lemma UsageIsMissing(e: Entry, now: i64)
    ensures ParseEntry(e, now) == Err(MissingUsage) <==>
              e.usedPercent.None? && (e.limit.None? || (e.remaining.None? && e.used.None?))
    ensures ParseEntry(e, now) == Err(InvalidLimit) <==>
              e.usedPercent.None? && (e.remaining.Some? || e.used.Some?) && e.limit.Some? && e.limit.value <= 0.0
  {
  }

  /** A reset is absolute, in seconds or milliseconds, or counts from now; without either the entry fails. */
  lemma ResetMeaning(e: Entry, now: i64)
    requires e.usedPercent.Some?
    ensures e.reset.Some? && 0 < e.reset.value < FIRST_MS && MIN_VALID_EPOCH_MS <= 1000 * e.reset.value <= MAX_VALID_EPOCH_MS ==>
              ParseEntry(e, now).Ok? && ParseEntry(e, now).value.resetMs == 1000 * e.reset.value
    ensures e.reset.Some? && FIRST_MS <= e.reset.value <= MAX_VALID_EPOCH_MS ==>
              ParseEntry(e, now).Ok? && ParseEntry(e, now).value.resetMs == e.reset.value
    ensures e.reset.None? && e.resetIn.Some? && FIRST_MS <= now + 1000 * e.resetIn.value <= MAX_VALID_EPOCH_MS
            && -MAX_VALID_EPOCH_MS <= e.resetIn.value <= MAX_VALID_EPOCH_MS ==>
              ParseEntry(e, now).Ok? && ParseEntry(e, now).value.resetMs == now + 1000 * e.resetIn.value
    ensures e.reset.None? && e.resetIn.None? <==> ParseEntry(e, now) == Err(MissingReset)
  {
  }

  /** The window in minutes: as given, else from the seconds of either field, if it is not negative and fits 32 bits. */
  lemma WindowMeaning(e: Entry, now: i64)
    requires ParseEntry(e, now).Ok?
    ensures var w := ParseEntry(e, now).value.windowMinutes;
            var minutes := e.windowMinutes.Some? && 0 <= e.windowMinutes.value < 0x1_0000_0000;
            var seconds := (s: Option<i64>) => s.Some? && -60 < s.value < 60 * 0x1_0000_0000;
            var told := (s: i64) => if s < 0 then 0 else s / 60;
            w == if minutes then Some(e.windowMinutes.value as nat)
                 else if seconds(e.windowSeconds) then Some(told(e.windowSeconds.value) as nat)
                 else if seconds(e.limitWindowSeconds) then Some(told(e.limitWindowSeconds.value) as nat)
                 else None
  {
  }

  predicate OccursAt(s: string, sub: string, i: nat) {
    i + |sub| <= |s| && s[i..i + |sub|] == sub
  }

  predicate Contains(s: string, sub: string) {
    exists i | 0 <= i <= |s| :: OccursAt(s, sub, i)
  }

  function DetectKind(e: Entry, minutes: Option<nat>): Option<Kind> {
    if e.tag.Some? && Contains(e.tag.value, "week") then Some(Weekly)
    else if e.tag.Some? && (Contains(e.tag.value, "five") || Contains(e.tag.value, "5h") || Contains(e.tag.value, "hour"))
    then Some(FiveHour)
    else if minutes.Some? && minutes.value <= 360 then Some(FiveHour)
    else if minutes.Some? && minutes.value >= 10080 then Some(Weekly)
    else None
  }

  /** An entry whose tag does not tell is judged by its window: up to six hours, or from seven days on. */
  lemma WindowTellsKind(e: Entry, minutes: nat)
    requires e.tag.Some? ==> forall sub | sub in ["week", "five", "5h", "hour"] :: !Contains(e.tag.value, sub)
    ensures DetectKind(e, Some(minutes)) == Some(FiveHour) <==> minutes <= 6 * 60
    ensures DetectKind(e, Some(minutes)) == Some(Weekly) <==> minutes >= 7 * 24 * 60
    ensures DetectKind(e, None) == None
  {
  }

  /** A tag that speaks of a week tells, else one that speaks of five or of hours, whatever the window. */
  lemma TagTellsKind(e: Entry, before: string, word: string, after: string, minutes: Option<nat>)
    requires e.tag == Some(before + word + after)
    ensures word == "week" ==> DetectKind(e, minutes) == Some(Weekly)
    ensures word in {"five", "5h", "hour"} && !Contains(e.tag.value, "week") ==> DetectKind(e, minutes) == Some(FiveHour)
  {
    assert OccursAt(before + word + after, word, |before|);
    assert Contains(before + word + after, word);
  }

  // ----- which entries of a list are the five-hour and the weekly limit -----

  function KindOf(e: Entry): Option<Kind> {
    DetectKind(e, WindowMinutes(e))
  }

  /** Entry i of the first n is the five-hour limit: the last one classified so, else the first unclassified. */
  predicate IsFive(entries: seq<Entry>, n: nat, i: nat)
    requires n <= |entries|
  {
    && i < n
    && if KindOf(entries[i]) == Some(FiveHour)
       then forall j | i < j < n :: KindOf(entries[j]) != Some(FiveHour)
       else KindOf(entries[i]) == None
            && (forall j | 0 <= j < n :: KindOf(entries[j]) != Some(FiveHour))
            && (forall j | 0 <= j < i :: KindOf(entries[j]) != None)
  }

  /** Entry i is unclassified and some earlier entry is not weekly. */
  predicate Spare(entries: seq<Entry>, i: nat)
    requires i < |entries|
  {
    KindOf(entries[i]) == None && exists j | 0 <= j < i :: KindOf(entries[j]) != Some(Weekly)
  }

  /** Entry i of the first n is the weekly limit: the last one classified so, else the first spare one. */
  predicate IsWeekly(entries: seq<Entry>, n: nat, i: nat)
    requires n <= |entries|
  {
    && i < n
    && if KindOf(entries[i]) == Some(Weekly)
       then forall j | i < j < n :: KindOf(entries[j]) != Some(Weekly)
       else Spare(entries, i)
            && (forall j | 0 <= j < n :: KindOf(entries[j]) != Some(Weekly))
            && (forall j | 0 <= j < i :: !Spare(entries, j))
  }

  predicate AllParse(entries: seq<Entry>, now: i64) {
    forall i | 0 <= i < |entries| :: ParseEntry(entries[i], now).Ok?
  }

  ghost predicate HasFive(entries: seq<Entry>) { exists i: nat :: IsFive(entries, |entries|, i) }

  ghost predicate HasWeekly(entries: seq<Entry>) { exists i: nat :: IsWeekly(entries, |entries|, i) }

  /** An entry that does not parse fails the whole list, with its own error if it is the first. */
  ghost predicate FirstFailure(entries: seq<Entry>, now: i64, error: Error) {
    exists i | 0 <= i < |entries| :: ParseEntry(entries[i], now) == Err(error) && AllParse(entries[..i], now)
  }

  /** What a list of limits means, without the loop. */
  ghost predicate Means(entries: seq<Entry>, now: i64, r: Result<(Limit, Limit)>) {
    && (r.Ok? <==> AllParse(entries, now) && HasFive(entries) && HasWeekly(entries))
    && (r.Ok? ==> exists i: nat, j: nat ::
          IsFive(entries, |entries|, i) && IsWeekly(entries, |entries|, j)
          && Ok(r.value.0) == ParseEntry(entries[i], now) && Ok(r.value.1) == ParseEntry(entries[j], now))
    && (r.Err? ==> FirstFailure(entries, now, r.error) || (AllParse(entries, now) && r.error == MissingData))
  }

  /** Entries f and w are chosen from the first n. */
  ghost predicate Scanned(entries: seq<Entry>, n: nat, now: i64, five: Option<Limit>, weekly: Option<Limit>, f: nat, w: nat)
    requires n <= |entries|
  {
    && (forall i | 0 <= i < n :: ParseEntry(entries[i], now).Ok?)
    && (five.None? ==> forall i | 0 <= i < n :: KindOf(entries[i]) == Some(Weekly))
    && (weekly.None? ==> forall i | 0 <= i < n :: KindOf(entries[i]) != Some(Weekly) && !Spare(entries, i))
    && (five.Some? ==> IsFive(entries, n, f) && Ok(five.value) == ParseEntry(entries[f], now))
    && (weekly.Some? ==> IsWeekly(entries, n, w) && Ok(weekly.value) == ParseEntry(entries[w], now))
  }

  lemma ScanNext(entries: seq<Entry>, n: nat, now: i64, five: Option<Limit>, weekly: Option<Limit>, f: nat, w: nat, p: Limit)
    requires n < |entries| && Scanned(entries, n, now, five, weekly, f, w) && ParseEntry(entries[n], now) == Ok(p)
    ensures var kind := KindOf(entries[n]);
            if kind == Some(FiveHour) || (kind.None? && five.None?) then Scanned(entries, n + 1, now, Some(p), weekly, n, w)
            else if kind == Some(Weekly) || weekly.None? then Scanned(entries, n + 1, now, five, Some(p), f, n)
            else Scanned(entries, n + 1, now, five, weekly, f, w)
  {
    hide KindOf, ParseEntry;
    if five.Some? {
      assert KindOf(entries[f]) != Some(Weekly);
      assert KindOf(entries[n]) == Some(FiveHour) || IsFive(entries, n + 1, f);
      assert KindOf(entries[n]) == None ==> Spare(entries, n);
    }
    match KindOf(entries[n])
    case Some(FiveHour) =>
    case Some(Weekly) =>
    case None =>
  }

  lemma ScannedMeans(entries: seq<Entry>, now: i64, five: Option<Limit>, weekly: Option<Limit>, f: nat, w: nat)
    requires Scanned(entries, |entries|, now, five, weekly, f, w)
    ensures Means(entries, now, if five.Some? && weekly.Some? then Ok((five.value, weekly.value)) else Err(MissingData))
  {
    hide KindOf, ParseEntry;
  }

  /** The loop over a list of limits. */
  method ParseList(entries: seq<Entry>, now: i64) returns (r: Result<(Limit, Limit)>)
    ensures Means(entries, now, r)
  {
    var five: Option<Limit> := None;
    var weekly: Option<Limit> := None;
    ghost var f: nat, w: nat := 0, 0;
    for n := 0 to |entries|
      invariant Scanned(entries, n, now, five, weekly, f, w)
    {
      hide DetectKind, ParseEntry, WindowMinutes, IsFive, IsWeekly;
      var entry := entries[n];
      match ParseEntry(entry, now) {
        case Err(error) =>
          assert AllParse(entries[..n], now);
          assert FirstFailure(entries, now, error);
          return Err(error);
        case Ok(parsed) =>
          assert parsed.windowMinutes == WindowMinutes(entry) by { ParsedWindow(entry, now); }
          ScanNext(entries, n, now, five, weekly, f, w, parsed);
          hide Scanned;
          match DetectKind(entry, parsed.windowMinutes) {
            case Some(FiveHour) => five, f := Some(parsed), n;
            case Some(Weekly) => weekly, w := Some(parsed), n;
            case None =>
              if five.None? {
                five, f := Some(parsed), n;
              } else if weekly.None? {
                weekly, w := Some(parsed), n;
              }
          }
      }
    }
    ScannedMeans(entries, now, five, weekly, f, w);
    hide Scanned, Means;
    if five.Some? && weekly.Some? {
      return Ok((five.value, weekly.value));
    }
    return Err(MissingData);
  }

  lemma ParsedWindow(e: Entry, now: i64)
    ensures ParseEntry(e, now).Ok? ==> ParseEntry(e, now).value.windowMinutes == WindowMinutes(e)
  {
  }

  /** The five-hour and the weekly limit of a list are determined, and never the same entry. */
  lemma ChoiceIsUnique(entries: seq<Entry>, i: nat, j: nat, k: nat, l: nat)
    requires IsFive(entries, |entries|, i) && IsFive(entries, |entries|, j)
    requires IsWeekly(entries, |entries|, k) && IsWeekly(entries, |entries|, l)
    ensures i == j && k == l && i != k
  {
    hide DetectKind, WindowMinutes;
    if i == k {
      var m :| 0 <= m < i && KindOf(entries[m]) != Some(Weekly);
      match KindOf(entries[m]) {
        case None =>
        case Some(FiveHour) =>
        case Some(Weekly) =>
      }
    }
  }

  /** The document: the two named pairs take precedence over a list. */
  datatype Document = Document(primary: Option<Entry>, secondary: Option<Entry>,
                               primaryWindow: Option<Entry>, secondaryWindow: Option<Entry>, limits: Option<seq<Entry>>)

  method ParseRateLimits(doc: Document, now: i64) returns (r: Result<(Limit, Limit)>)
    ensures doc.primary.Some? && doc.secondary.Some? ==>
              r == Both(ParseEntry(doc.primary.value, now), ParseEntry(doc.secondary.value, now))
    ensures (doc.primary.None? || doc.secondary.None?) && doc.primaryWindow.Some? && doc.secondaryWindow.Some? ==>
              r == Both(ParseEntry(doc.primaryWindow.value, now), ParseEntry(doc.secondaryWindow.value, now))
    ensures r.Ok? ==> forall l | l in [r.value.0, r.value.1] ::
              0.0 <= l.percentLeft <= 100.0 && MIN_VALID_EPOCH_MS <= l.resetMs <= MAX_VALID_EPOCH_MS
    ensures (doc.primary.None? || doc.secondary.None?) && (doc.primaryWindow.None? || doc.secondaryWindow.None?) ==>
              if doc.limits.None? then r == Err(MissingEntries) else Means(doc.limits.value, now, r)
  {
    if doc.primary.Some? && doc.secondary.Some? {
      return Both(ParseEntry(doc.primary.value, now), ParseEntry(doc.secondary.value, now));
    }
    if doc.primaryWindow.Some? && doc.secondaryWindow.Some? {
      return Both(ParseEntry(doc.primaryWindow.value, now), ParseEntry(doc.secondaryWindow.value, now));
    }
    if doc.limits.None? {
      return Err(MissingEntries);
    }
    hide IsFive, IsWeekly, ParseEntry;
    r := ParseList(doc.limits.value, now);
  }

  function Both(a: Result<Limit>, b: Result<Limit>): Result<(Limit, Limit)> {
    if a.Err? then Err(a.error) else if b.Err? then Err(b.error) else Ok((a.value, b.value))
  }
}
