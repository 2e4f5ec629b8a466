/** Session files bound to accounts: exclusive between accounts, sorted and bounded within one. */
module Bindings {
  import opened Common
  import opened Strings

  const MAX_ENTRIES: nat := 200

  datatype Binding = Binding(sessionId: string, createdAt: string, filePath: string, boundAt: string)

  type Store = map<string, seq<Binding>>

  // ----- the order of entries: by createdAt, then boundAt, both compared as strings -----

  predicate Leq(a: Binding, b: Binding) {
    StrLeq(a.createdAt, b.createdAt) && (a.createdAt == b.createdAt ==> StrLeq(a.boundAt, b.boundAt))
  }

  lemma LeqTotal(a: Binding, b: Binding)
    ensures Leq(a, b) || Leq(b, a)
  {
    StrTotal(a.createdAt, b.createdAt);
    StrTotal(a.boundAt, b.boundAt);
  }

  lemma LeqTransitive(a: Binding, b: Binding, c: Binding)
    requires Leq(a, b) && Leq(b, c)
    ensures Leq(a, c)
  {
    StrTransitive(a.createdAt, b.createdAt, c.createdAt);
    StrTotal(a.createdAt, b.createdAt);
    StrTotal(b.createdAt, c.createdAt);
    if a.createdAt == b.createdAt == c.createdAt {
      StrTransitive(a.boundAt, b.boundAt, c.boundAt);
    }
    if a.createdAt == c.createdAt { StrTotal(a.createdAt, b.createdAt); }
  }

  predicate Sorted(s: seq<Binding>) {
    forall i, j | 0 <= i < j < |s| :: Leq(s[i], s[j])
  }

  // ----- the library's stable sort -----

  /** Puts x before the first entry that is not less than it. */
  function Insert(x: Binding, s: seq<Binding>): seq<Binding> {
    if s == [] || Leq(x, s[0]) then [x] + s else [s[0]] + Insert(x, s[1..])
  }

  function StableSort(s: seq<Binding>): seq<Binding> {
    if s == [] then [] else Insert(s[0], StableSort(s[1..]))
  }

  lemma {:induction false} InsertMultiset(x: Binding, s: seq<Binding>)
    ensures multiset(Insert(x, s)) == multiset{x} + multiset(s) && |Insert(x, s)| == |s| + 1
  {
    if s != [] {
      assert s == [s[0]] + s[1..];
      InsertMultiset(x, s[1..]);
    }
  }

  lemma {:induction false} InsertSorted(x: Binding, s: seq<Binding>)
    requires Sorted(s)
    ensures Sorted(Insert(x, s))
  {
    if s == [] {
    } else if Leq(x, s[0]) {
      forall i | 0 <= i < |s| ensures Leq(x, s[i]) { if i > 0 { LeqTransitive(x, s[0], s[i]); } }
    } else {
      LeqTotal(x, s[0]);
      InsertSorted(x, s[1..]);
      InsertMultiset(x, s[1..]);
      forall y | y in Insert(x, s[1..]) ensures Leq(s[0], y) {
        assert y in multiset(Insert(x, s[1..]));
        assert y == x || y in s[1..];
      }
    }
  }

  lemma {:induction false} SortSorts(s: seq<Binding>)
    ensures Sorted(StableSort(s)) && multiset(StableSort(s)) == multiset(s) && |StableSort(s)| == |s|
  {
    if s != [] {
      SortSorts(s[1..]);
      InsertSorted(s[0], StableSort(s[1..]));
      InsertMultiset(s[0], StableSort(s[1..]));
      assert s == [s[0]] + s[1..];
    }
  }

  /** The entry appended last sorts first exactly when every other entry is strictly greater. */
  lemma {:induction false} LastSortsFirst(s: seq<Binding>, b: Binding)
    requires b !in s
    ensures StableSort(s + [b])[..1] == [b] <==> forall x | x in s :: !Leq(x, b)
  {
    if s == [] {
      assert StableSort([b]) == [b];
    } else {
      assert (s + [b])[1..] == s[1..] + [b];
      LastSortsFirst(s[1..], b);
      SortSorts(s[1..] + [b]);
      var rest := StableSort(s[1..] + [b]);
      if rest[..1] == [b] {
        assert rest[0] == b;
      } else {
        assert rest[0] in multiset(rest);
      }
      assert s == [s[0]] + s[1..];
    }
  }

  // ----- binding a session -----

  function IndexOf(entries: seq<Binding>, id: string): Option<nat> {
    if entries == [] then None
    else if entries[0].sessionId == id then Some(0)
    else match IndexOf(entries[1..], id) case None => None case Some(i) => Some(i + 1)
  }

  /** The new binding replaces the first one with its session id, or is appended. */
  function Put(entries: seq<Binding>, b: Binding): seq<Binding> {
    match IndexOf(entries, b.sessionId)
    case Some(i) => if i < |entries| then entries[i := b] else entries
    case None => entries + [b]
  }

  function Bound(entries: seq<Binding>, b: Binding): seq<Binding> {
    var s := StableSort(Put(entries, b));
    if |s| > MAX_ENTRIES then s[|s| - MAX_ENTRIES..] else s
  }

  function EntriesOf(store: Store, account: string): seq<Binding> {
    if account in store then store[account] else []
  }

  predicate Holds(entries: seq<Binding>, b: Binding) {
    exists e | e in entries :: e.sessionId == b.sessionId || e.filePath == b.filePath
  }

  /** Another account already holds the session or the file. */
  predicate Conflict(store: Store, account: string, b: Binding) {
    exists other | other in store && other != account :: Holds(store[other], b)
  }

  function Bind(store: Store, account: string, b: Binding): Store {
    if Conflict(store, account, b) then store else store[account := Bound(EntriesOf(store, account), b)]
  }

  // ----- what binding keeps -----

  predicate DistinctSessions(entries: seq<Binding>) {
    forall i, j | 0 <= i < j < |entries| :: entries[i].sessionId != entries[j].sessionId
  }

  predicate Exclusive(store: Store) {
    forall a1, a2 | a1 in store && a2 in store && a1 != a2 ::
      forall x, y | x in store[a1] && y in store[a2] :: x.sessionId != y.sessionId && x.filePath != y.filePath
  }

  predicate WellKept(entries: seq<Binding>) {
    DistinctSessions(entries) && Sorted(entries) && |entries| <= MAX_ENTRIES
  }

  predicate Valid(store: Store) {
    Exclusive(store) && forall a | a in store :: WellKept(store[a])
  }

  lemma {:induction false} IndexOfFinds(entries: seq<Binding>, id: string)
    ensures match IndexOf(entries, id)
            case None => forall e | e in entries :: e.sessionId != id
            case Some(i) => i < |entries| && entries[i].sessionId == id && forall j | 0 <= j < i :: entries[j].sessionId != id
  {
    if entries != [] && entries[0].sessionId != id {
      IndexOfFinds(entries[1..], id);
      assert entries == [entries[0]] + entries[1..];
    }
  }

  lemma PutKeepsDistinct(entries: seq<Binding>, b: Binding)
    requires DistinctSessions(entries)
    ensures DistinctSessions(Put(entries, b))
    ensures forall e :: e in Put(entries, b) <==> e == b || (e in entries && e.sessionId != b.sessionId)
    ensures |Put(entries, b)| == |entries| + if IndexOf(entries, b.sessionId).None? then 1 else 0
  {
    IndexOfFinds(entries, b.sessionId);
    var put := Put(entries, b);
    match IndexOf(entries, b.sessionId)
    case None =>
    case Some(i) =>
      assert put[i] == b;
      forall e | e in entries && e.sessionId != b.sessionId ensures e in put {
        var j :| 0 <= j < |entries| && entries[j] == e;
        assert put[j] == e;
      }
  }

  lemma CountsTwice(t: seq<Binding>, i: nat, j: nat)
    requires i < j < |t| && t[i] == t[j]
    ensures multiset(t)[t[i]] >= 2
  {
    assert t == t[..j] + [t[j]] + t[j + 1..];
    assert t[i] in t[..j];
  }

  lemma CountsOnce(s: seq<Binding>, k: nat)
    requires DistinctSessions(s) && k < |s|
    ensures multiset(s)[s[k]] == 1
  {
    assert s == s[..k] + [s[k]] + s[k + 1..];
    assert s[k] !in s[..k] && s[k] !in s[k + 1..];
  }

  /** Distinct session ids survive reordering. */
  lemma PermutedDistinct(s: seq<Binding>, t: seq<Binding>)
    requires DistinctSessions(s) && multiset(s) == multiset(t)
    ensures DistinctSessions(t)
  {
    forall i, j | 0 <= i < j < |t| ensures t[i].sessionId != t[j].sessionId {
      assert t[i] in multiset(s) && t[j] in multiset(s);
      var k :| 0 <= k < |s| && s[k] == t[i];
      var l :| 0 <= l < |s| && s[l] == t[j];
      if k == l {
        CountsTwice(t, i, j);
        CountsOnce(s, k);
      }
    }
  }

  lemma SplitSorted(s: seq<Binding>, start: nat)
    requires Sorted(s) && DistinctSessions(s) && start <= |s|
    ensures Sorted(s[start..]) && DistinctSessions(s[start..])
    ensures forall x, y | x in s[..start] && y in s[start..] :: Leq(x, y)
    ensures multiset(s[..start]) + multiset(s[start..]) == multiset(s)
  {
    hide Leq;
    assert s == s[..start] + s[start..];
    forall x, y | x in s[..start] && y in s[start..] ensures Leq(x, y) {
      var i :| 0 <= i < start && s[i] == x;
      var j :| start <= j < |s| && s[j] == y;
    }
  }

  /** An account's entries stay well kept, and what is dropped is ordered no later than what stays. */
  lemma BoundKeeps(entries: seq<Binding>, b: Binding) returns (evicted: seq<Binding>)
    requires WellKept(entries)
    ensures var kept := Bound(entries, b);
            && WellKept(kept)
            && multiset(evicted) + multiset(kept) == multiset(Put(entries, b))
            && (forall x, y | x in evicted && y in kept :: Leq(x, y))
            && |kept| <= 200 && (evicted != [] ==> |evicted| == 1 && |kept| == 200)
            && (forall e | e in kept :: e == b || (e in entries && e.sessionId != b.sessionId))
  {
    var put := Put(entries, b);
    var s := StableSort(put);
    PutKeepsDistinct(entries, b);
    SortSorts(put);
    PermutedDistinct(put, s);
    var start := if |s| > MAX_ENTRIES then |s| - MAX_ENTRIES else 0;
    SplitSorted(s, start);
    hide StableSort, Put, Leq, Sorted, DistinctSessions;
    evicted := s[..start];
    var kept := Bound(entries, b);
    assert kept == s[start..];
    forall e | e in kept ensures e == b || (e in entries && e.sessionId != b.sessionId) {
      assert e in multiset(kept);
      assert e in multiset(put);
      assert e in put;
    }
  }

  /** A bind keeps the store valid, changes at most the given account, and a refused bind changes nothing. */
  lemma BindKeepsValid(store: Store, account: string, b: Binding)
    requires Valid(store)
    ensures Valid(Bind(store, account, b))
    ensures Conflict(store, account, b) ==> Bind(store, account, b) == store
    ensures forall a | a in store && a != account :: a in Bind(store, account, b) && Bind(store, account, b)[a] == store[a]
  {
    if !Conflict(store, account, b) {
      var entries := EntriesOf(store, account);
      var evicted := BoundKeeps(entries, b);
      var store' := Bind(store, account, b);
      hide Bound, Conflict, WellKept;
      forall a | a in store' && a != account
        ensures forall x: Binding, y: Binding | x in store'[a] && y in store'[account] :: x.sessionId != y.sessionId && x.filePath != y.filePath
      {
        NoConflictWith(store, account, b, a);
      }
    }
  }

  /** A bind is refused, and changes nothing, exactly if another account holds the session or the file; else it is made. */
  lemma BindIsRefused(store: Store, account: string, b: Binding)
    ensures var taken := exists other, e | other in store && other != account && e in store[other] ::
                           e.sessionId == b.sessionId || e.filePath == b.filePath;
            var entries := if account in store then store[account] else [];
            Bind(store, account, b) == if taken then store else store[account := Bound(entries, b)]
  {
    hide Bound;
    if Conflict(store, account, b) {
      var other :| other in store && other != account && Holds(store[other], b);
      var e :| e in store[other] && (e.sessionId == b.sessionId || e.filePath == b.filePath);
    }
  }

  /** The entries with the given dates, in their order. */
  function Dated(s: seq<Binding>, createdAt: string, boundAt: string): seq<Binding> {
    if s == [] then []
    else (if s[0].createdAt == createdAt && s[0].boundAt == boundAt then [s[0]] else []) + Dated(s[1..], createdAt, boundAt)
  }

  lemma {:induction false} InsertKeepsDated(x: Binding, s: seq<Binding>, createdAt: string, boundAt: string)
    ensures Dated(Insert(x, s), createdAt, boundAt) == Dated([x] + s, createdAt, boundAt)
  {
    assert ([x] + s)[1..] == s;
    if s != [] && !Leq(x, s[0]) {
      assert ([s[0]] + Insert(x, s[1..]))[1..] == Insert(x, s[1..]);
      InsertKeepsDated(x, s[1..], createdAt, boundAt);
      assert ([x] + s[1..])[1..] == s[1..];
      LeqTotal(x, x);
      if x.createdAt == s[0].createdAt && x.boundAt == s[0].boundAt {
        SameDates(x, s[0]);
      }
    }
  }

  lemma SameDates(x: Binding, y: Binding)
    requires x.createdAt == y.createdAt && x.boundAt == y.boundAt
    ensures Leq(x, y)
  {
    StrTotal(x.createdAt, x.createdAt);
    StrTotal(x.boundAt, x.boundAt);
  }

  /** Entries of the same dates keep their order. */
  lemma {:induction false} SortIsStable(s: seq<Binding>, createdAt: string, boundAt: string)
    ensures Dated(StableSort(s), createdAt, boundAt) == Dated(s, createdAt, boundAt)
  {
    if s != [] {
      SortIsStable(s[1..], createdAt, boundAt);
      InsertKeepsDated(s[0], StableSort(s[1..]), createdAt, boundAt);
      assert ([s[0]] + StableSort(s[1..]))[1..] == StableSort(s[1..]);
    }
  }

  /** Entries are ordered by the date of their session, then by the date of binding, as strings. */
  lemma OrderMeaning(a: Binding, b: Binding)
    ensures Leq(a, b) <==>
              || (a.createdAt != b.createdAt && StrLeq(a.createdAt, b.createdAt))
              || (a.createdAt == b.createdAt && StrLeq(a.boundAt, b.boundAt))
  {
    StrTotal(a.createdAt, a.createdAt);
  }

  lemma NoConflictWith(store: Store, account: string, b: Binding, other: string)
    requires !Conflict(store, account, b) && other in store && other != account
    ensures forall e | e in store[other] :: e.sessionId != b.sessionId && e.filePath != b.filePath
  {
  }

  function BindAll(store: Store, requests: seq<(string, Binding)>): Store
    decreases |requests|
  {
    if requests == [] then store
    else BindAll(Bind(store, requests[0].0, requests[0].1), requests[1..])
  }

  /** Whatever is bound in whatever order, starting from no bindings, the store stays valid. */
  lemma {:induction false} EveryHistoryIsValid(store: Store, requests: seq<(string, Binding)>)
    requires Valid(store)
    ensures Valid(BindAll(store, requests))
    decreases |requests|
  {
    hide Valid, Bind;
    if requests != [] {
      BindKeepsValid(store, requests[0].0, requests[0].1);
      EveryHistoryIsValid(Bind(store, requests[0].0, requests[0].1), requests[1..]);
    }
  }

  /**
    An accepted bind is stored, except in one case: the account is full, the session is new to it, and
    every one of its 200 entries is strictly later. Then the new binding itself is evicted.
   */
  lemma AcceptedBindingIsStored(entries: seq<Binding>, b: Binding)
    requires WellKept(entries)
    ensures b in Bound(entries, b) <==>
            !(|entries| == MAX_ENTRIES && (forall e | e in entries :: e.sessionId != b.sessionId && !Leq(e, b)))
  {
    var put := Put(entries, b);
    var s := StableSort(put);
    IndexOfFinds(entries, b.sessionId);
    PutKeepsDistinct(entries, b);
    SortSorts(put);
    PermutedDistinct(put, s);
    assert b in multiset(put) && b in multiset(s) && b in s;
    if |s| > MAX_ENTRIES {
      assert put == entries + [b] && b !in entries;
      LastSortsFirst(entries, b);
      assert s[..1] == [s[0]];
      assert s == [s[0]] + s[1..];
      if s[0] == b {
        assert b !in s[1..] by { assert forall j | 1 <= j < |s| :: s[j].sessionId != b.sessionId; }
      }
    }
  }

  function Name(n: nat): string {
    seq(n, _ => 'x')
  }

  /** A full account whose entries are all later than a new binding, which is accepted and evicted at once. */
  lemma AcceptedBindingIsEvicted()
    ensures exists entries, b :: WellKept(entries) && |entries| == MAX_ENTRIES && b !in Bound(entries, b)
  {
    var entries := seq(MAX_ENTRIES, i requires 0 <= i < MAX_ENTRIES => Binding(Name(i), "b", Name(i), "b"));
    var b := Binding("new", "a", "new", "a");
    StrTotal("b", "b");
    forall i, j | 0 <= i < j < |entries| ensures entries[i].sessionId != entries[j].sessionId && Leq(entries[i], entries[j]) {
      assert |entries[i].sessionId| == i && |entries[j].sessionId| == j;
    }
    forall e | e in entries ensures e.sessionId != b.sessionId && !Leq(e, b) {
      assert e.createdAt == "b" && !StrLeq("b", "a");
      assert |e.sessionId| > 0 ==> e.sessionId[0] == 'x';
    }
    hide Leq, StableSort;
    AcceptedBindingIsStored(entries, b);
  }
}

/** The bindings file, updated in place. */
module UsageBindingsClass {
  import opened Common
  import opened B = Bindings

  class UsageBindings {
    var bindings: map<string, seq<Binding>>

    constructor ()
      ensures bindings == map[]
    {
      bindings := map[];
    }

    static method Shares(entries: seq<Binding>, b: Binding) returns (found: bool)
      ensures found <==> Holds(entries, b)
    {
      for i := 0 to |entries|
        invariant forall j | 0 <= j < i :: entries[j].sessionId != b.sessionId && entries[j].filePath != b.filePath
      {
        if entries[i].sessionId == b.sessionId || entries[i].filePath == b.filePath {
          return true;
        }
      }
      return false;
    }

    static method FindSession(entries: seq<Binding>, id: string) returns (index: Option<nat>)
      ensures index == IndexOf(entries, id)
    {
      assert entries[0..] == entries;
      for i := 0 to |entries|
        invariant IndexOf(entries, id) ==
                  match IndexOf(entries[i..], id) case None => None case Some(j) => Some(i + j)
      {
        assert entries[i..][1..] == entries[i + 1..];
        if entries[i].sessionId == id {
          return Some(i);
        }
      }
      return None;
    }

    /** Binds a session file to an account. The result is false when it is bound to another one. */
    method Update(account: string, b: Binding) returns (ok: bool)
      modifies this
      ensures bindings == Bind(old(bindings), account, b)
      ensures ok <==> !Conflict(old(bindings), account, b)
      ensures Valid(old(bindings)) ==> Valid(bindings)
    {
      if Valid(bindings) { BindKeepsValid(bindings, account, b); }
      hide Valid, Bound, Holds;
      var left := bindings.Keys;
      while left != {}
        invariant bindings == old(bindings) && left <= bindings.Keys
        invariant forall other | other in bindings && other != account && other !in left :: !Holds(bindings[other], b)
        decreases |left|
      {
        var other :| other in left;
        left := left - {other};
        if other != account {
          var shared := Shares(bindings[other], b);
          if shared {
            return false;
          }
        }
      }
      var entries := PutSorted(EntriesOf(bindings, account), b);
      bindings := bindings[account := entries];
      return true;
    }

    static method PutSorted(given: seq<Binding>, b: Binding) returns (entries: seq<Binding>)
      ensures entries == Bound(given, b)
    {
      entries := given;
      var existing := FindSession(entries, b.sessionId);
      IndexOfFinds(entries, b.sessionId);
      if existing.Some? {
        entries := entries[existing.value := b];
      } else {
        entries := entries + [b];
      }
      entries := StableSort(entries);
      if |entries| > MAX_ENTRIES {
        entries := entries[|entries| - MAX_ENTRIES..];
      }
    }
  }
}
