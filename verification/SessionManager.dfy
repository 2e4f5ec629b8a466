/**
  Usage sessions. SessionManager decides poll by poll; Expected segments a whole poll history at once.
  The store is the sequence of calls made to it, each with its outcome; session ids are supplied from outside.
 */
module Sessions {

  datatype Poll = Poll(values: seq<real>, now: int, id: string, createOk: bool, closeOk: bool)

  datatype Call =
    | Create(id: string, start: int, sub: real, search: real, tool: real, ok: bool)
    | Increment(id: string)
    | UpdateMax(id: string, sub: real, search: real, tool: real)
    | Close(id: string, end: int, ok: bool)

  datatype Tracker = Tracker(sessionID: string, lastActivity: int, prevValues: seq<real>, hasPrev: bool, calls: seq<Call>)

  const INITIAL := Tracker("", 0, [], false, [])

  /** The i-th column reported, 0 when there are fewer. */
  function Column(values: seq<real>, i: nat): real {
    if i < |values| then values[i] else 0.0
  }

  function Created(id: string, now: int, before: seq<real>, ok: bool): Call {
    Create(id, now, Column(before, 0), Column(before, 1), Column(before, 2), ok)
  }

  function Counted(id: string, values: seq<real>): seq<Call> {
    [Increment(id), UpdateMax(id, Column(values, 0), Column(values, 1), Column(values, 2))]
  }

  // ----- one poll at a time -----

  function Report(t: Tracker, idle: int, p: Poll): Tracker {
    var changed := p.values != t.prevValues;
    var t' := t.(prevValues := p.values, hasPrev := true);
    if !t.hasPrev then t'
    else if changed && t.sessionID == "" then
      var created := t'.(calls := t.calls + [Created(p.id, p.now, t.prevValues, p.createOk)], lastActivity := p.now);
      if p.createOk then created.(sessionID := p.id, calls := created.calls + Counted(p.id, p.values)) else created
    else if changed then t'.(lastActivity := p.now, calls := t.calls + Counted(t.sessionID, p.values))
    else if t.sessionID == "" then t'
    else if p.now - t.lastActivity > idle then t'.(sessionID := "", calls := t.calls + [Close(t.sessionID, p.now, p.closeOk)])
    else t'.(calls := t.calls + Counted(t.sessionID, p.values))
  }

  function Feed(t: Tracker, idle: int, polls: seq<Poll>): Tracker
    decreases |polls|
  {
    if polls == [] then t else Feed(Report(t, idle, polls[0]), idle, polls[1..])
  }

  // ----- the whole history at once -----

  predicate Changed(h: seq<Poll>, i: nat)
    requires i < |h|
  {
    i > 0 && h[i].values != h[i - 1].values
  }

  /** The poll that closes a session last active at time last: the first unchanged one after the idle timeout. */
  function EndOf(h: seq<Poll>, idle: int, i: nat, last: int): (end: nat)
    requires i <= |h|
    ensures i <= end <= |h|
    decreases |h| - i
  {
    if i == |h| then i
    else if Changed(h, i) then EndOf(h, idle, i + 1, h[i].now)
    else if h[i].now - last > idle then i
    else EndOf(h, idle, i + 1, last)
  }

  /** One increment and one maximum for each poll of [i, end). */
  function Increments(h: seq<Poll>, id: string, i: nat, end: nat): seq<Call>
    requires i <= end <= |h|
    decreases end - i
  {
    if i == end then [] else Counted(id, h[i].values) + Increments(h, id, i + 1, end)
  }

  /** The calls of polls i, i+1, ... of history h when no session is open before poll i. */
  function Expected(h: seq<Poll>, idle: int, i: nat): seq<Call>
    requires i <= |h|
    decreases |h| - i
  {
    if i == |h| then []
    else if !Changed(h, i) then Expected(h, idle, i + 1)
    else
      var create := [Created(h[i].id, h[i].now, h[i - 1].values, h[i].createOk)];
      if !h[i].createOk then create + Expected(h, idle, i + 1)
      else create + Counted(h[i].id, h[i].values) + Session(h, idle, h[i].id, i + 1, h[i].now)
  }

  /** The calls of polls i, i+1, ... when session id is open and was last active at time last. */
  function Session(h: seq<Poll>, idle: int, id: string, i: nat, last: int): seq<Call>
    requires i <= |h|
    decreases |h| - i, 1
  {
    var end := EndOf(h, idle, i, last);
    Increments(h, id, i, end) + if end == |h| then [] else [Close(id, h[end].now, h[end].closeOk)] + Expected(h, idle, end + 1)
  }

  predicate NamesGiven(h: seq<Poll>) {
    forall i | 0 <= i < |h| :: h[i].id != ""
  }

  /** The tracker remembers poll i-1. */
  predicate At(t: Tracker, h: seq<Poll>, i: nat) {
    i <= |h| && t.hasPrev == (i > 0) && (i > 0 ==> t.prevValues == h[i - 1].values)
  }

  lemma {:induction false} FeedClosed(t: Tracker, h: seq<Poll>, idle: int, i: nat)
    requires NamesGiven(h) && At(t, h, i) && t.sessionID == ""
    ensures Feed(t, idle, h[i..]).calls == t.calls + Expected(h, idle, i)
    decreases |h| - i
  {
    hide Session, Counted, Created;
    if i < |h| {
      assert h[i..][1..] == h[i + 1..];
      var t' := Report(t, idle, h[i]);
      if t'.sessionID == "" {
        FeedClosed(t', h, idle, i + 1);
      } else {
        FeedOpen(t', h, idle, i + 1);
      }
    }
  }

  lemma SessionUnrolls(h: seq<Poll>, idle: int, id: string, i: nat, last: int)
    requires i < |h| && (Changed(h, i) || h[i].now - last <= idle)
    ensures Session(h, idle, id, i, last)
         == Counted(id, h[i].values) + Session(h, idle, id, i + 1, if Changed(h, i) then h[i].now else last)
  {
    hide Expected;
    var next := if Changed(h, i) then h[i].now else last;
    var end := EndOf(h, idle, i + 1, next);
    assert EndOf(h, idle, i, last) == end;
    assert Increments(h, id, i, end) == Counted(id, h[i].values) + Increments(h, id, i + 1, end);
  }

  lemma {:induction false} FeedOpen(t: Tracker, h: seq<Poll>, idle: int, i: nat)
    requires NamesGiven(h) && At(t, h, i) && i > 0 && t.sessionID != ""
    ensures Feed(t, idle, h[i..]).calls == t.calls + Session(h, idle, t.sessionID, i, t.lastActivity)
    decreases |h| - i
  {
    if i < |h| {
      assert h[i..][1..] == h[i + 1..];
      var t' := Report(t, idle, h[i]);
      if !Changed(h, i) && h[i].now - t.lastActivity > idle {
        FeedClosed(t', h, idle, i + 1);
        assert EndOf(h, idle, i, t.lastActivity) == i;
      } else {
        hide Session;
        SessionUnrolls(h, idle, t.sessionID, i, t.lastActivity);
        FeedOpen(t', h, idle, i + 1);
      }
    }
  }

  /** Deciding poll by poll makes exactly the calls of the segmented history. */
  lemma OnlineMatchesSegmentation(h: seq<Poll>, idle: int)
    requires NamesGiven(h)
    ensures Feed(INITIAL, idle, h).calls == Expected(h, idle, 0)
  {
    FeedClosed(INITIAL, h, idle, 0);
    assert h[0..] == h;
  }

  // ----- what the segmentation means -----

  /**
    Calls alternate properly: one session open at a time, every call names it, and times never decrease.
    This is about the calls made; a close that fails leaves its session open in the store.
   */
  predicate Orderly(calls: seq<Call>, open: string, t: int)
    decreases |calls|
  {
    calls == [] ||
    match calls[0]
    case Create(id, start, _, _, _, ok) => open == "" && id != "" && start >= t && Orderly(calls[1..], if ok then id else "", start)
    case Increment(id) => open != "" && id == open && Orderly(calls[1..], open, t)
    case UpdateMax(id, _, _, _) => open != "" && id == open && Orderly(calls[1..], open, t)
    case Close(id, end, _) => open != "" && id == open && end >= t && Orderly(calls[1..], "", end)
  }

  predicate ClockRuns(h: seq<Poll>) {
    forall i, j | 0 <= i <= j < |h| :: h[i].now <= h[j].now
  }

  lemma {:induction false} OrderlyCounted(h: seq<Poll>, id: string, i: nat, end: nat, rest: seq<Call>, t: int)
    requires i <= end <= |h| && id != "" && Orderly(rest, id, t)
    ensures Orderly(Increments(h, id, i, end) + rest, id, t)
    decreases end - i
  {
    var calls := Increments(h, id, i, end) + rest;
    if i < end {
      OrderlyCounted(h, id, i + 1, end, rest, t);
      var tail := Increments(h, id, i + 1, end) + rest;
      assert calls[1..] == [Counted(id, h[i].values)[1]] + tail;
      assert calls[1..][1..] == tail;
    } else {
      assert calls == rest;
    }
  }

  lemma {:induction false} ExpectedOrderly(h: seq<Poll>, idle: int, i: nat, t: int)
    requires NamesGiven(h) && ClockRuns(h) && i <= |h|
    requires i < |h| ==> t <= h[i].now
    ensures Orderly(Expected(h, idle, i), "", t)
    decreases |h| - i
  {
    if i < |h| {
      var calls := Expected(h, idle, i);
      if !Changed(h, i) {
        ExpectedOrderly(h, idle, i + 1, t);
      } else if !h[i].createOk {
        ExpectedOrderly(h, idle, i + 1, h[i].now);
        assert calls[1..] == Expected(h, idle, i + 1);
      } else {
        SessionOrderly(h, idle, h[i].id, i + 1, h[i].now, h[i].now);
        var session := Session(h, idle, h[i].id, i + 1, h[i].now);
        assert calls[1..] == Counted(h[i].id, h[i].values) + session;
        assert calls[1..][1..] == [Counted(h[i].id, h[i].values)[1]] + session;
        assert calls[1..][1..][1..] == session;
      }
    }
  }

  lemma {:induction false} SessionOrderly(h: seq<Poll>, idle: int, id: string, i: nat, last: int, t: int)
    requires NamesGiven(h) && ClockRuns(h) && i <= |h| && id != ""
    requires forall k | i <= k < |h| :: t <= h[k].now
    ensures Orderly(Session(h, idle, id, i, last), id, t)
    decreases |h| - i, 1
  {
    var end := EndOf(h, idle, i, last);
    var rest := if end == |h| then [] else [Close(id, h[end].now, h[end].closeOk)] + Expected(h, idle, end + 1);
    if end < |h| {
      ExpectedOrderly(h, idle, end + 1, h[end].now);
      assert rest[1..] == Expected(h, idle, end + 1);
    }
    OrderlyCounted(h, id, i, end, rest, t);
  }

  /** Between the creations i and j session i was closed, within its lifetime and with success. */
  predicate ClosedBetween(calls: seq<Call>, i: nat, j: nat)
    requires i < j < |calls| && calls[i].Create? && calls[j].Create?
  {
    exists k | i < k < j ::
      calls[k].Close? && calls[k].ok && calls[k].id == calls[i].id && calls[i].start <= calls[k].end <= calls[j].start
  }

  predicate ClosesSucceed(calls: seq<Call>) {
    forall k | 0 <= k < |calls| && calls[k].Close? :: calls[k].ok
  }

  lemma {:induction false} OpenIsClosed(calls: seq<Call>, open: string, t: int, j: nat) returns (k: nat)
    requires Orderly(calls, open, t) && open != "" && j < |calls| && calls[j].Create?
    ensures k < j && calls[k].Close? && calls[k].id == open && t <= calls[k].end <= calls[j].start
    decreases |calls|
  {
    if calls[0].Close? {
      k := 0;
      StartsAfter(calls[1..], "", calls[0].end, j - 1);
    } else {
      k := OpenIsClosed(calls[1..], open, t, j - 1);
      k := k + 1;
    }
  }

  lemma {:induction false} StartsAfter(calls: seq<Call>, open: string, t: int, j: nat)
    requires Orderly(calls, open, t) && j < |calls| && calls[j].Create?
    ensures t <= calls[j].start
    decreases |calls|
  {
    if j > 0 {
      match calls[0]
      case Create(id, start, _, _, _, ok) => StartsAfter(calls[1..], if ok then id else "", start, j - 1);
      case Increment(_) => StartsAfter(calls[1..], open, t, j - 1);
      case UpdateMax(_, _, _, _) => StartsAfter(calls[1..], open, t, j - 1);
      case Close(_, end, _) => StartsAfter(calls[1..], "", end, j - 1);
    }
  }

  lemma {:induction false} CreatedIsClosed(calls: seq<Call>, open: string, t: int, i: nat, j: nat)
    requires Orderly(calls, open, t) && i < j < |calls| && calls[i].Create? && calls[i].ok && calls[j].Create?
    requires ClosesSucceed(calls)
    ensures ClosedBetween(calls, i, j)
    decreases |calls|
  {
    if i == 0 {
      var k := OpenIsClosed(calls[1..], calls[0].id, calls[0].start, j - 1);
      assert calls[k + 1].Close?;
    } else {
      match calls[0]
      case Create(id, start, _, _, _, ok) => CreatedIsClosed(calls[1..], if ok then id else "", start, i - 1, j - 1);
      case Increment(_) => CreatedIsClosed(calls[1..], open, t, i - 1, j - 1);
      case UpdateMax(_, _, _, _) => CreatedIsClosed(calls[1..], open, t, i - 1, j - 1);
      case Close(_, end, _) => CreatedIsClosed(calls[1..], "", end, i - 1, j - 1);
      var k :| i - 1 < k < j - 1 && calls[1..][k].Close? && calls[1..][k].ok && calls[1..][k].id == calls[i].id
               && calls[i].start <= calls[1..][k].end <= calls[j].start;
      assert calls[k + 1].Close?;
    }
  }

  lemma {:induction false} FeedClosesSucceed(t: Tracker, idle: int, h: seq<Poll>)
    requires ClosesSucceed(t.calls) && forall i | 0 <= i < |h| :: h[i].closeOk
    ensures ClosesSucceed(Feed(t, idle, h).calls)
    decreases |h|
  {
    if h != [] {
      FeedClosesSucceed(Report(t, idle, h[0]), idle, h[1..]);
    }
  }

  /**
    With a clock that never runs backwards only the open session is counted, and it is closed before the next
    one is created. If closes succeed, the stored sessions are therefore disjoint intervals.
   */
  lemma SessionsDoNotOverlap(h: seq<Poll>, idle: int, t: int)
    requires NamesGiven(h) && ClockRuns(h) && (h != [] ==> t <= h[0].now)
    ensures var calls := Feed(INITIAL, idle, h).calls;
            && Orderly(calls, "", t)
            && ((forall i | 0 <= i < |h| :: h[i].closeOk) ==>
                  forall i, j | 0 <= i < j < |calls| && calls[i].Create? && calls[i].ok && calls[j].Create? ::
                    ClosedBetween(calls, i, j))
  {
    OnlineMatchesSegmentation(h, idle);
    ExpectedOrderly(h, idle, 0, t);
    if forall i | 0 <= i < |h| :: h[i].closeOk {
      FeedClosesSucceed(INITIAL, idle, h);
      var calls := Feed(INITIAL, idle, h).calls;
      forall i, j | 0 <= i < j < |calls| && calls[i].Create? && calls[i].ok && calls[j].Create?
        ensures ClosedBetween(calls, i, j)
      {
        CreatedIsClosed(calls, "", t, i, j);
      }
    }
  }

  /** The latest change in (o, k], or o if there is none. */
  function LastChange(h: seq<Poll>, o: nat, k: nat): (j: nat)
    requires o <= k < |h|
    ensures o <= j <= k && (j == o || Changed(h, j)) && forall m | j < m <= k :: !Changed(h, m)
    decreases k
  {
    if k == o || Changed(h, k) then k else LastChange(h, o, k - 1)
  }

  /** A session opened at o ends at the first unchanged poll more than the idle timeout after the latest change. */
  lemma {:induction false} EndIsFirstIdle(h: seq<Poll>, idle: int, o: nat, i: nat)
    requires o < i <= |h|
    ensures var end := EndOf(h, idle, i, h[LastChange(h, o, i - 1)].now);
            && (forall k | i <= k < end :: Changed(h, k) || h[k].now - h[LastChange(h, o, k)].now <= idle)
            && (end < |h| ==> !Changed(h, end) && h[end].now - h[LastChange(h, o, end)].now > idle)
    decreases |h| - i
  {
    if i < |h| {
      EndIsFirstIdle(h, idle, o, i + 1);
    }
  }

  function CountIncrements(calls: seq<Call>, id: string): nat {
    if calls == [] then 0
    else CountIncrements(calls[..|calls| - 1], id) + if calls[|calls| - 1] == Increment(id) then 1 else 0
  }

  /** A poll increments the session that is open when it ends, once, and no other; the first poll increments none. */
  lemma PollIncrements(t: Tracker, idle: int, p: Poll, id: string)
    requires p.id != "" && id != ""
    ensures CountIncrements(Report(t, idle, p).calls, id)
         == CountIncrements(t.calls, id) + if t.hasPrev && Report(t, idle, p).sessionID == id then 1 else 0
  {
    var t' := Report(t, idle, p);
    var n := |t.calls|;
    CountSnoc(t.calls, Created(p.id, p.now, t.prevValues, p.createOk), id);
    CountSnoc(t.calls, Close(t.sessionID, p.now, p.closeOk), id);
    CountCounted(t.calls + [Created(p.id, p.now, t.prevValues, p.createOk)], p.id, p.values, id);
    CountCounted(t.calls, t.sessionID, p.values, id);
    hide CountIncrements, Counted;
  }

  lemma CountSnoc(calls: seq<Call>, c: Call, id: string)
    ensures CountIncrements(calls + [c], id) == CountIncrements(calls, id) + if c == Increment(id) then 1 else 0
  {
    assert (calls + [c])[..|calls|] == calls;
  }

  lemma CountCounted(calls: seq<Call>, open: string, values: seq<real>, id: string)
    ensures CountIncrements(calls + Counted(open, values), id) == CountIncrements(calls, id) + if open == id then 1 else 0
  {
    var c := Counted(open, values);
    assert calls + c == calls + [c[0]] + [c[1]];
    CountSnoc(calls, c[0], id);
    CountSnoc(calls + [c[0]], c[1], id);
  }

  lemma {:induction false} FeedSnoc(t: Tracker, idle: int, h: seq<Poll>, p: Poll)
    ensures Feed(t, idle, h + [p]) == Report(Feed(t, idle, h), idle, p)
    decreases |h|
  {
    if h == [] {
      assert [] + [p] == [p];
      assert Feed(Report(t, idle, p), idle, []) == Report(t, idle, p);
    } else {
      assert (h + [p])[1..] == h[1..] + [p];
      FeedSnoc(Report(t, idle, h[0]), idle, h[1..], p);
    }
  }

  function StateAfter(h: seq<Poll>, idle: int, k: nat): Tracker
    requires k <= |h|
  {
    Feed(INITIAL, idle, h[..k])
  }

  /** The session open when poll k of a history ends. */
  function OpenAfter(h: seq<Poll>, idle: int, k: nat): string
    requires k < |h|
  {
    StateAfter(h, idle, k + 1).sessionID
  }

  lemma AfterPoll(h: seq<Poll>, idle: int, k: nat)
    requires k < |h|
    ensures StateAfter(h, idle, k + 1) == Report(StateAfter(h, idle, k), idle, h[k])
  {
    assert h[..k + 1] == h[..k] + [h[k]];
    FeedSnoc(INITIAL, idle, h[..k], h[k]);
  }

  lemma {:induction false} Remembers(h: seq<Poll>, idle: int, k: nat)
    requires k <= |h|
    ensures At(StateAfter(h, idle, k), h, k)
  {
    if k > 0 {
      Remembers(h, idle, k - 1);
      AfterPoll(h, idle, k - 1);
      hide StateAfter;
    }
  }

  /** The polls of the first n that end with the session open. */
  function PollsOf(h: seq<Poll>, idle: int, id: string, n: nat): set<nat>
    requires n <= |h|
  {
    set k: nat | 1 <= k < n && OpenAfter(h, idle, k) == id
  }

  lemma NextIncrements(h: seq<Poll>, idle: int, id: string, k: nat)
    requires NamesGiven(h) && id != "" && k < |h|
    ensures CountIncrements(StateAfter(h, idle, k + 1).calls, id)
         == CountIncrements(StateAfter(h, idle, k).calls, id) + if k >= 1 && OpenAfter(h, idle, k) == id then 1 else 0
  {
    AfterPoll(h, idle, k);
    Remembers(h, idle, k);
    PollIncrements(StateAfter(h, idle, k), idle, h[k], id);
    hide StateAfter, Report, CountIncrements;
  }

  lemma {:induction false} CountsPollsOf(h: seq<Poll>, idle: int, id: string, n: nat)
    requires NamesGiven(h) && id != "" && n <= |h|
    ensures CountIncrements(StateAfter(h, idle, n).calls, id) == |PollsOf(h, idle, id, n)|
  {
    if n == 0 {
      assert PollsOf(h, idle, id, 0) == {};
    } else {
      var k: nat := n - 1;
      CountsPollsOf(h, idle, id, k);
      NextIncrements(h, idle, id, k);
      hide StateAfter, CountIncrements, OpenAfter;
      assert k !in PollsOf(h, idle, id, k);
      assert PollsOf(h, idle, id, n)
          == PollsOf(h, idle, id, k) + if k >= 1 && OpenAfter(h, idle, k) == id then {k} else {};
    }
  }

  /** Every poll but the first increments the session open at its end once: a session's count is the number of its polls. */
  lemma OneIncrementPerPoll(h: seq<Poll>, idle: int, id: string)
    requires NamesGiven(h) && id != ""
    ensures CountIncrements(Feed(INITIAL, idle, h).calls, id) == |PollsOf(h, idle, id, |h|)|
  {
    CountsPollsOf(h, idle, id, |h|);
    assert h[..|h|] == h;
  }

  // ----- what the calls carry -----

  /** The first three values, 0 where a column is missing. */
  predicate Carries(sub: real, search: real, tool: real, values: seq<real>) {
    && sub == (if |values| >= 1 then values[0] else 0.0)
    && search == (if |values| >= 2 then values[1] else 0.0)
    && tool == (if |values| >= 3 then values[2] else 0.0)
  }

  /** Call number c of a log, made by poll i of a history. */
  predicate MadeBy(h: seq<Poll>, idle: int, i: nat, log: seq<Call>, c: nat)
    requires i < |h| && c < |log|
  {
    match log[c]
    case Create(id, start, sub, search, tool, ok) =>
      && i > 0 && h[i].values != h[i - 1].values && OpenAfter(h, idle, i - 1) == ""
      && id == h[i].id && start == h[i].now && ok == h[i].createOk
      && Carries(sub, search, tool, h[i - 1].values)
    case Increment(id) =>
      id == OpenAfter(h, idle, i) && c + 1 < |log| && log[c + 1].UpdateMax? && log[c + 1].id == id
    case UpdateMax(id, sub, search, tool) =>
      c > 0 && log[c - 1] == Increment(id) && Carries(sub, search, tool, h[i].values)
    case Close(id, end, ok) =>
      && i > 0 && h[i].values == h[i - 1].values && id == OpenAfter(h, idle, i - 1) && OpenAfter(h, idle, i) == ""
      && end == h[i].now && ok == h[i].closeOk
  }

  /**
    The calls a poll makes: a session is created with the values of the poll before the change, each increment goes with
    the values of its own poll, and a close carries the time of the unchanged poll that makes it.
   */
  lemma PollCallsCarry(h: seq<Poll>, idle: int, i: nat, c: nat)
    requires NamesGiven(h) && i < |h|
    requires |StateAfter(h, idle, i).calls| <= c < |StateAfter(h, idle, i + 1).calls|
    ensures MadeBy(h, idle, i, StateAfter(h, idle, i + 1).calls, c)
  {
    AfterPoll(h, idle, i);
    Remembers(h, idle, i);
    if i > 0 { assert OpenAfter(h, idle, i - 1) == StateAfter(h, idle, i).sessionID by { assert i - 1 + 1 == i; } }
    hide StateAfter;
    var (t, p) := (StateAfter(h, idle, i), h[i]);
    var created := [Created(p.id, p.now, t.prevValues, p.createOk)];
    assert (t.calls + created + Counted(p.id, p.values))[|t.calls|..] == created + Counted(p.id, p.values);
  }

  lemma {:induction false} CallsGrow(t: Tracker, idle: int, h: seq<Poll>)
    ensures t.calls <= Feed(t, idle, h).calls
    decreases |h|
  {
    if h != [] { CallsGrow(Report(t, idle, h[0]), idle, h[1..]); }
  }

  /** Each call of a history is made by one of its polls, and is as that poll makes it. */
  lemma {:induction false} EveryCallHasItsPoll(h: seq<Poll>, idle: int, n: nat, c: nat) returns (i: nat)
    requires NamesGiven(h) && n <= |h| && c < |StateAfter(h, idle, n).calls|
    ensures i < n && |StateAfter(h, idle, i).calls| <= c < |StateAfter(h, idle, i + 1).calls|
    ensures StateAfter(h, idle, i + 1).calls <= StateAfter(h, idle, n).calls
    ensures MadeBy(h, idle, i, StateAfter(h, idle, i + 1).calls, c)
  {
    assert StateAfter(h, idle, 0).calls == [];
    AfterPoll(h, idle, n - 1);
    if c >= |StateAfter(h, idle, n - 1).calls| {
      i := n - 1;
      PollCallsCarry(h, idle, i, c);
    } else {
      i := EveryCallHasItsPoll(h, idle, n - 1, c);
      CallsGrow(StateAfter(h, idle, n - 1), idle, [h[n - 1]]);
      assert [h[n - 1]][1..] == [];
      assert Feed(StateAfter(h, idle, n - 1), idle, [h[n - 1]]) == StateAfter(h, idle, n);
    }
  }

  predicate DistinctNames(h: seq<Poll>) {
    forall i, j | 0 <= i < j < |h| :: h[i].id != h[j].id
  }

  /** Poll o opens a session. */
  predicate Opens(h: seq<Poll>, idle: int, o: nat) {
    o < |h| && Changed(h, o) && h[o].createOk && StateAfter(h, idle, o).sessionID == ""
  }

  /** A session's end as EndOf gives it, once poll o has opened it. */
  function SessionEnd(h: seq<Poll>, idle: int, o: nat): (end: nat)
    requires o < |h|
    ensures o < end <= |h|
  {
    EndOf(h, idle, o + 1, h[o].now)
  }

  lemma {:induction false} OpenThroughout(h: seq<Poll>, idle: int, o: nat, k: nat)
    requires NamesGiven(h) && Opens(h, idle, o) && o <= k < SessionEnd(h, idle, o)
    ensures OpenAfter(h, idle, k) == h[o].id
    ensures StateAfter(h, idle, k + 1).lastActivity == h[LastChange(h, o, k)].now
    decreases k
  {
    AfterPoll(h, idle, k);
    Remembers(h, idle, k);
    if k > o {
      OpenThroughout(h, idle, o, k - 1);
      EndIsFirstIdle(h, idle, o, o + 1);
      assert StateAfter(h, idle, k - 1 + 1) == StateAfter(h, idle, k);
      assert Changed(h, k) || h[k].now - h[LastChange(h, o, k)].now <= idle;
    } else {
      assert StateAfter(h, idle, o).sessionID == "";
      assert StateAfter(h, idle, o).prevValues == h[o - 1].values;
    }
    hide StateAfter, EndOf;
  }

  lemma ClosedAtEnd(h: seq<Poll>, idle: int, o: nat)
    requires NamesGiven(h) && Opens(h, idle, o) && SessionEnd(h, idle, o) < |h|
    ensures OpenAfter(h, idle, SessionEnd(h, idle, o)) == ""
  {
    var end := SessionEnd(h, idle, o);
    OpenThroughout(h, idle, o, end - 1);
    EndIsFirstIdle(h, idle, o, o + 1);
    AfterPoll(h, idle, end);
    Remembers(h, idle, end);
    hide StateAfter, EndOf;
  }

  /** A session that is open after poll k, and was not opened by it, was open before. */
  lemma OpenBefore(h: seq<Poll>, idle: int, o: nat, k: nat)
    requires DistinctNames(h) && NamesGiven(h) && o < |h| && k < |h| && k != o && OpenAfter(h, idle, k) == h[o].id
    ensures k > 0 && OpenAfter(h, idle, k - 1) == h[o].id
  {
    AfterPoll(h, idle, k);
    Remembers(h, idle, k);
    assert StateAfter(h, idle, 0) == INITIAL;
    hide StateAfter;
  }

  lemma {:induction false} OnlyWithin(h: seq<Poll>, idle: int, o: nat, k: nat)
    requires DistinctNames(h) && NamesGiven(h) && Opens(h, idle, o) && k < |h| && OpenAfter(h, idle, k) == h[o].id
    ensures o <= k < SessionEnd(h, idle, o)
    decreases k
  {
    hide OpenAfter, EndOf;
    if k == SessionEnd(h, idle, o) {
      ClosedAtEnd(h, idle, o);
    } else if k != o {
      OpenBefore(h, idle, o, k);
      OnlyWithin(h, idle, o, k - 1);
    }
  }

  lemma {:induction false} IntervalSize(s: set<nat>, a: nat, b: nat)
    requires a <= b && forall k: nat :: k in s <==> a <= k < b
    ensures |s| == b - a
    decreases b
  {
    if a < b {
      IntervalSize(s - {b - 1}, a, b - 1);
    } else {
      assert s == {};
    }
  }

  /** With distinct ids, the session opened by poll o is incremented once for each poll from o up to its end. */
  lemma SessionCount(h: seq<Poll>, idle: int, o: nat)
    requires DistinctNames(h) && NamesGiven(h) && Opens(h, idle, o)
    ensures CountIncrements(Feed(INITIAL, idle, h).calls, h[o].id) == SessionEnd(h, idle, o) - o
  {
    OneIncrementPerPoll(h, idle, h[o].id);
    var s := PollsOf(h, idle, h[o].id, |h|);
    forall k: nat ensures k in s <==> o <= k < SessionEnd(h, idle, o) {
      if k in s { OnlyWithin(h, idle, o, k); }
      if o <= k < SessionEnd(h, idle, o) { OpenThroughout(h, idle, o, k); }
    }
    IntervalSize(s, o, SessionEnd(h, idle, o));
  }
}

/** The session manager with its fields. */
module SessionManagerClass {
  import opened Sessions

  class SessionManager {
    const idleTimeout: int
    var sessionID: string
    var lastActivityTime: int
    var prevValues: seq<real>
    var hasPrev: bool
    ghost var calls: seq<Call>

    ghost function State(): Tracker
      reads this
    {
      Tracker(sessionID, lastActivityTime, prevValues, hasPrev, calls)
    }

    constructor (idleTimeout: int)
      ensures this.idleTimeout == idleTimeout && State() == INITIAL
    {
      this.idleTimeout := idleTimeout;
      sessionID, lastActivityTime, prevValues, hasPrev, calls := "", 0, [], false, [];
    }

    method HasChanged(values: seq<real>) returns (changed: bool)
      ensures changed <==> hasPrev && values != prevValues
    {
      if !hasPrev {
        return false;
      }
      if |values| != |prevValues| {
        return true;
      }
      for i := 0 to |values|
        invariant values[..i] == prevValues[..i]
      {
        if values[i] != prevValues[i] {
          return true;
        }
      }
      assert values[..|values|] == values && prevValues[..|values|] == prevValues;
      return false;
    }

    method IncrementAndUpdate(values: seq<real>)
      modifies this`calls
      ensures calls == old(calls) + Counted(sessionID, values)
    {
      calls := calls + [Increment(sessionID)];
      var sub, search, tool := 0.0, 0.0, 0.0;
      if |values| > 0 { sub := values[0]; }
      if |values| > 1 { search := values[1]; }
      if |values| > 2 { tool := values[2]; }
      calls := calls + [UpdateMax(sessionID, sub, search, tool)];
    }

    method CloseSession(endTime: int, closeOk: bool)
      modifies this
      ensures State() == old(State()).(sessionID := "", calls := old(calls) + [Close(old(sessionID), endTime, closeOk)])
    {
      calls := calls + [Close(sessionID, endTime, closeOk)];
      sessionID := "";
    }

    method ReportPoll(p: Poll) returns (changed: bool)
      requires p.id != ""
      modifies this
      ensures State() == Report(old(State()), idleTimeout, p)
      ensures changed == (old(hasPrev) && p.values != old(prevValues))
    {
      var now := p.now;
      changed := HasChanged(p.values);
      var oldPrev := prevValues;
      prevValues := p.values;
      if !hasPrev {
        hasPrev := true;
        return changed;
      }
      if changed {
        if sessionID == "" {
          sessionID := p.id;
          lastActivityTime := now;
          var startSub, startSearch, startTool := 0.0, 0.0, 0.0;
          if |oldPrev| > 0 { startSub := oldPrev[0]; }
          if |oldPrev| > 1 { startSearch := oldPrev[1]; }
          if |oldPrev| > 2 { startTool := oldPrev[2]; }
          calls := calls + [Create(sessionID, now, startSub, startSearch, startTool, p.createOk)];
          if !p.createOk {
            sessionID := "";
            return true;
          }
        }
        lastActivityTime := now;
        IncrementAndUpdate(p.values);
        return true;
      }
      if sessionID != "" {
        if now - lastActivityTime > idleTimeout {
          CloseSession(now, p.closeOk);
        } else {
          IncrementAndUpdate(p.values);
        }
      }
      return false;
    }

    /** Closes the open session, if any, on shutdown. */
    method Shutdown(now: int, closeOk: bool)
      modifies this
      ensures sessionID == ""
      ensures calls == old(calls) + if old(sessionID) == "" then [] else [Close(old(sessionID), now, closeOk)]
    {
      if sessionID == "" {
        return;
      }
      CloseSession(now, closeOk);
    }
  }

  /** Feeding a whole history to a fresh manager makes the calls of its segmentation. */
  method ReportAll(h: seq<Poll>, idle: int) returns (sm: SessionManager)
    requires NamesGiven(h)
    ensures sm.calls == Expected(h, idle, 0)
  {
    sm := new SessionManager(idle);
    for i := 0 to |h|
      invariant fresh(sm) && sm.idleTimeout == idle
      invariant Feed(sm.State(), idle, h[i..]) == Feed(INITIAL, idle, h)
    {
      assert h[i..][1..] == h[i + 1..];
      var _ := sm.ReportPoll(h[i]);
    }
    OnlineMatchesSegmentation(h, idle);
  }
}
