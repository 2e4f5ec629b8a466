/**
  The desktop client's account store: matching an identity against the stored accounts, and the
  operations that add, update, remove and activate accounts. Identity fields are normalised: absent or nonempty.
 */
module Accounts {
  import opened Common
  import opened Strings

  datatype Identity = Identity(accountId: Option<string>, userId: Option<string>, email: Option<string>)
  datatype Provider = Codex | Claude | Gemini

  /** details stands for the fields that take no part in matching. */
  datatype Info = Info(identity: Identity, details: string)
  datatype Account = Account(id: string, provider: Provider, info: Info, isActive: bool, updatedAt: string)

  predicate Same(a: Option<string>, b: Option<string>) {
    a.Some? && a == b
  }

  function MatchRank(a: Identity, b: Identity): nat {
    if a.accountId.Some? && b.accountId.Some? && a.accountId != b.accountId then 0
    else if Same(a.accountId, b.accountId) && Same(a.userId, b.userId) then 5
    else if Same(a.accountId, b.accountId) && Same(a.email, b.email) then 4
    else if Same(a.userId, b.userId) then 3
    else if Same(a.email, b.email) then 2
    else if Same(a.accountId, b.accountId) then 1
    else 0
  }

  function ProviderMatchRank(p: Provider, a: Identity, b: Identity): nat {
    if p.Codex? then MatchRank(a, b)
    else if Same(a.userId, b.userId) then 4
    else if Same(a.email, b.email) then 3
    else if Same(a.accountId, b.accountId) then 2
    else 0
  }

  /** The rank of an account; with a provider given, accounts of other providers have none. */
  function RankOf(account: Account, only: Option<Provider>, identity: Identity): nat {
    match only
    case None => MatchRank(account.info.identity, identity)
    case Some(p) => if account.provider != p then 0 else ProviderMatchRank(p, account.info.identity, identity)
  }

  predicate Empty(identity: Identity) {
    identity.userId.None? && identity.email.None? && identity.accountId.None?
  }

  predicate Insufficient(identity: Identity) {
    identity.userId.None? && identity.email.None?
  }

  // ----- the best match -----

  predicate Later(a: string, b: string) {
    !StrLeq(a, b)
  }

  datatype Match = Match(index: nat, rank: nat, count: nat)

  /** One pass over the accounts, keeping the best rank, the greatest date of its accounts, and their number. */
  function Best(accounts: seq<Account>, only: Option<Provider>, identity: Identity): (m: Match)
    ensures m.rank > 0 ==> m.index < |accounts|
  {
    if accounts == [] then Match(0, 0, 0)
    else
      var n := |accounts| - 1;
      var m := Best(accounts[..n], only, identity);
      var rank := RankOf(accounts[n], only, identity);
      if rank == 0 then m
      else if rank > m.rank then Match(n, rank, 1)
      else if rank < m.rank then m
      else
        var held := accounts[m.index].updatedAt;
        Match(if held == "" || Later(accounts[n].updatedAt, held) then n else m.index, rank, m.count + 1)
  }

  /** The accounts of the given rank. */
  function Ranked(accounts: seq<Account>, only: Option<Provider>, identity: Identity, rank: nat): set<nat> {
    set i: nat | i < |accounts| && RankOf(accounts[i], only, identity) == rank
  }

  /**
    Account i has the highest rank and the greatest updatedAt string of that rank. The first of several
    with the same date wins, but the last of several without one.
   */
  predicate IsChosen(accounts: seq<Account>, only: Option<Provider>, identity: Identity, i: nat) {
    && i < |accounts| && RankOf(accounts[i], only, identity) > 0
    && forall j | 0 <= j < |accounts| && j != i ::
         var (rank, top) := (RankOf(accounts[j], only, identity), RankOf(accounts[i], only, identity));
         rank < top || (rank == top && Precedes(accounts[j].updatedAt, j, accounts[i].updatedAt, i))
  }

  predicate Precedes(a: string, j: nat, b: string, i: nat) {
    StrLeq(a, b) && (a == b ==> (j < i <==> b == ""))
  }

  lemma {:induction false} BestIsChosen(accounts: seq<Account>, only: Option<Provider>, identity: Identity)
    ensures var m := Best(accounts, only, identity);
            m.rank > 0 ==> IsChosen(accounts, only, identity, m.index)
  {
    hide RankOf, StrLeq, IsChosen;
    if accounts != [] {
      var n: nat := |accounts| - 1;
      assert accounts == accounts[..n] + [accounts[n]];
      BestIsChosen(accounts[..n], only, identity);
      BestTops(accounts[..n], only, identity);
      NextIsChosen(accounts[..n], accounts[n], only, identity);
    }
  }

  /** How a new last account changes the choice. */
  lemma NextIsChosen(accounts: seq<Account>, last: Account, only: Option<Provider>, identity: Identity)
    requires var m := Best(accounts, only, identity); m.rank > 0 ==> IsChosen(accounts, only, identity, m.index)
    ensures var m := Best(accounts + [last], only, identity); m.rank > 0 ==> IsChosen(accounts + [last], only, identity, m.index)
  {
    assert (accounts + [last])[..|accounts|] == accounts;
    BestTops(accounts, only, identity);
    var m := Best(accounts, only, identity);
    var rank := RankOf(last, only, identity);
    if rank == m.rank > 0 {
      var held := accounts[m.index].updatedAt;
      if held == "" || Later(last.updatedAt, held) {
        HeldPrecedes(held, m.index, last.updatedAt, |accounts|);
        LastWins(accounts, last, only, identity, m.index);
      } else {
        LastPrecedes(last.updatedAt, |accounts|, held, m.index);
        HeldWins(accounts, last, only, identity, m.index);
      }
    } else if rank < m.rank {
      HeldWins(accounts, last, only, identity, m.index);
    } else if rank > m.rank {
      RankWins(accounts, last, only, identity);
    }
    hide RankOf, StrLeq, Precedes, IsChosen;
  }

  lemma HeldWins(accounts: seq<Account>, last: Account, only: Option<Provider>, identity: Identity, i: nat)
    requires IsChosen(accounts, only, identity, i)
    requires var (rank, top) := (RankOf(last, only, identity), RankOf(accounts[i], only, identity));
             rank < top || (rank == top && Precedes(last.updatedAt, |accounts|, accounts[i].updatedAt, i))
    ensures IsChosen(accounts + [last], only, identity, i)
  {
    hide RankOf, StrLeq, Precedes;
  }

  lemma RankWins(accounts: seq<Account>, last: Account, only: Option<Provider>, identity: Identity)
    requires forall j | 0 <= j < |accounts| :: RankOf(accounts[j], only, identity) < RankOf(last, only, identity)
    requires RankOf(last, only, identity) > 0
    ensures IsChosen(accounts + [last], only, identity, |accounts|)
  {
    hide RankOf, StrLeq, Precedes;
  }

  lemma LastWins(accounts: seq<Account>, last: Account, only: Option<Provider>, identity: Identity, i: nat)
    requires IsChosen(accounts, only, identity, i) && RankOf(last, only, identity) == RankOf(accounts[i], only, identity)
    requires accounts[i].updatedAt == "" || Later(last.updatedAt, accounts[i].updatedAt)
    requires Precedes(accounts[i].updatedAt, i, last.updatedAt, |accounts|)
    ensures IsChosen(accounts + [last], only, identity, |accounts|)
  {
    hide RankOf, StrLeq, Precedes;
    forall j | 0 <= j < |accounts| && j != i && Precedes(accounts[j].updatedAt, j, accounts[i].updatedAt, i)
      ensures Precedes(accounts[j].updatedAt, j, last.updatedAt, |accounts|)
    {
      ChosenStays(accounts[j].updatedAt, j, accounts[i].updatedAt, i, last.updatedAt, |accounts|);
    }
  }

  lemma HeldPrecedes(held: string, i: nat, last: string, n: nat)
    requires i < n && (held == "" || Later(last, held))
    ensures Precedes(held, i, last, n)
  {
    EmptyFirst(last);
    StrTotal(last, held);
    hide StrLeq;
  }

  lemma LastPrecedes(last: string, n: nat, held: string, i: nat)
    requires i < n && held != "" && !Later(last, held)
    ensures Precedes(last, n, held, i)
  {
  }

  lemma EmptyFirst(a: string)
    ensures StrLeq("", a) && (StrLeq(a, "") ==> a == "")
  {
  }

  lemma ChosenStays(a: string, j: nat, held: string, i: nat, last: string, n: nat)
    requires Precedes(a, j, held, i) && j < n && i < n && (held == "" || Later(last, held))
    ensures Precedes(a, j, last, n)
  {
    EmptyFirst(a);
    EmptyFirst(last);
    if held != "" { LaterThan(last, held, a); }
    StrTotal(last, last);
    hide StrLeq;
  }

  lemma ChosenIsBest(accounts: seq<Account>, only: Option<Provider>, identity: Identity, i: nat)
    requires IsChosen(accounts, only, identity, i)
    ensures Best(accounts, only, identity).index == i
    ensures Best(accounts, only, identity).rank == RankOf(accounts[i], only, identity)
  {
    hide RankOf, StrLeq;
    BestTops(accounts, only, identity);
    BestIsChosen(accounts, only, identity);
    var m := Best(accounts, only, identity);
    if m.index != i { StrTotal(accounts[i].updatedAt, accounts[m.index].updatedAt); }
  }

  /** The match has the highest rank, counts exactly the accounts that share it, and has the greatest date string of them. */
  lemma BestIsMaximal(accounts: seq<Account>, only: Option<Provider>, identity: Identity)
    ensures var m := Best(accounts, only, identity);
            && (forall i | 0 <= i < |accounts| :: RankOf(accounts[i], only, identity) <= m.rank)
            && (m.rank > 0 ==>
                  && m.index in Ranked(accounts, only, identity, m.rank)
                  && m.count == |Ranked(accounts, only, identity, m.rank)|
                  && (forall i | i in Ranked(accounts, only, identity, m.rank) ::
                        StrLeq(accounts[i].updatedAt, accounts[m.index].updatedAt)))
  {
    hide RankOf, StrLeq;
    BestTops(accounts, only, identity);
    BestCounts(accounts, only, identity);
    BestIsLatest(accounts, only, identity);
  }

  lemma {:induction false} BestTops(accounts: seq<Account>, only: Option<Provider>, identity: Identity)
    ensures var m := Best(accounts, only, identity);
            && (forall i | 0 <= i < |accounts| :: RankOf(accounts[i], only, identity) <= m.rank)
            && (m.rank > 0 ==> RankOf(accounts[m.index], only, identity) == m.rank)
  {
    hide RankOf, StrLeq;
    if accounts != [] {
      BestTops(accounts[..|accounts| - 1], only, identity);
    }
  }

  lemma BestOfNone(only: Option<Provider>, identity: Identity)
    ensures Best([], only, identity).rank == 0
  {
  }

  lemma BestSnoc(accounts: seq<Account>, n: nat, only: Option<Provider>, identity: Identity)
    requires n < |accounts|
    ensures var (m, r) := (Best(accounts[..n], only, identity), RankOf(accounts[n], only, identity));
            && Best(accounts[..n + 1], only, identity).rank == (if r > m.rank then r else m.rank)
            && forall i | 0 <= i < n :: RankOf(accounts[i], only, identity) <= m.rank
  {
    hide RankOf, StrLeq;
    assert accounts[..n + 1][..n] == accounts[..n];
    BestTops(accounts[..n], only, identity);
    assert forall i | 0 <= i < n :: accounts[..n][i] == accounts[i];
  }

  lemma {:induction false} BestCounts(accounts: seq<Account>, only: Option<Provider>, identity: Identity)
    ensures var m := Best(accounts, only, identity);
            m.rank > 0 ==> m.count == |Ranked(accounts, only, identity, m.rank)|
  {
    hide RankOf, StrLeq;
    if accounts != [] {
      var n: nat := |accounts| - 1;
      BestCounts(accounts[..n], only, identity);
      BestTops(accounts[..n], only, identity);
      var m := Best(accounts, only, identity);
      RankedSnoc(accounts, only, identity, m.rank);
      if m.rank > Best(accounts[..n], only, identity).rank {
        assert Ranked(accounts[..n], only, identity, m.rank) == {};
      } else {
        assert n !in Ranked(accounts[..n], only, identity, m.rank);
      }
    }
  }

  lemma {:induction false} BestIsLatest(accounts: seq<Account>, only: Option<Provider>, identity: Identity)
    ensures var m := Best(accounts, only, identity);
            m.rank > 0 ==> forall i | 0 <= i < |accounts| && RankOf(accounts[i], only, identity) == m.rank ::
              StrLeq(accounts[i].updatedAt, accounts[m.index].updatedAt)
  {
    hide RankOf;
    if accounts != [] {
      var n: nat := |accounts| - 1;
      BestIsLatest(accounts[..n], only, identity);
      BestTops(accounts[..n], only, identity);
      var before := Best(accounts[..n], only, identity);
      var last := accounts[n].updatedAt;
      StrTotal(last, last);
      if before.rank > 0 {
        var held := accounts[before.index].updatedAt;
        StrTotal(last, held);
        forall i | 0 <= i < n && StrLeq(accounts[i].updatedAt, held) && StrLeq(held, last)
          ensures StrLeq(accounts[i].updatedAt, last)
        {
          StrTransitive(accounts[i].updatedAt, held, last);
        }
      }
    }
  }

  lemma RankedSnoc(accounts: seq<Account>, only: Option<Provider>, identity: Identity, rank: nat)
    requires accounts != []
    ensures var n: nat := |accounts| - 1;
            Ranked(accounts, only, identity, rank)
            == Ranked(accounts[..n], only, identity, rank)
               + if RankOf(accounts[n], only, identity) == rank then {n} else {}
  {
    hide RankOf;
  }

  // ----- the operations -----

  /** An auth to add: its parsed account info, or the fallback when parsing failed. */
  datatype Auth = Auth(info: Info, parsed: bool)

  datatype Request =
    | Add(auth: Auth, allowMissing: bool, id: string, now: string, details: string)
    | Upsert(provider: Provider, info: Info, id: string, now: string)
    | Remove(id: string)
    | UpdateUsage(id: string, now: string)
    | SetActive(id: string)
    | TraySwitch(id: string, now: string, authWritten: bool)
    | Sync(current: Option<Identity>)

  predicate Accepted(a: Auth, allowMissing: bool) {
    allowMissing || (a.parsed && !Insufficient(a.info.identity))
  }

  /** details: the details after workspace metadata were merged in. */
  function AddAccount(accounts: seq<Account>, info: Info, id: string, now: string, details: string): seq<Account> {
    var m := Best(accounts, None, info.identity);
    if m.rank >= 2
    then accounts[m.index := accounts[m.index].(info := info.(details := details), updatedAt := now)]
    else accounts + [Account(id, Codex, info.(details := details), accounts == [], now)]
  }

  function UpsertAccount(accounts: seq<Account>, p: Provider, info: Info, id: string, now: string): seq<Account> {
    var m := Best(accounts, Some(p), info.identity);
    if m.rank >= 2
    then accounts[m.index := accounts[m.index].(provider := p, info := info, updatedAt := now)]
    else accounts + [Account(id, p, info, false, now)]
  }

  function RemoveAccount(accounts: seq<Account>, id: string): seq<Account> {
    if accounts == [] then []
    else RemoveAccount(accounts[..|accounts| - 1], id)
         + if accounts[|accounts| - 1].id == id then [] else [accounts[|accounts| - 1]]
  }

  /** The index of the first account with the given id, or |accounts|. */
  function Find(accounts: seq<Account>, id: string): (i: nat)
    ensures i <= |accounts|
  {
    if accounts == [] then 0 else if accounts[0].id == id then 0 else 1 + Find(accounts[1..], id)
  }

  function Touch(accounts: seq<Account>, id: string, now: string): seq<Account> {
    var i := Find(accounts, id);
    if i < |accounts| then accounts[i := accounts[i].(updatedAt := now)] else accounts
  }

  function Activate(accounts: seq<Account>, id: string): seq<Account> {
    seq(|accounts|, i requires 0 <= i < |accounts| => accounts[i].(isActive := accounts[i].id == id))
  }

  /** Switching from the tray refuses other providers' accounts, unknown accounts, and an auth that cannot be written. */
  function SwitchFromTray(accounts: seq<Account>, id: string, now: string, authWritten: bool): seq<Account> {
    var i := Find(accounts, id);
    if !authWritten || i == |accounts| || !accounts[i].provider.Codex? then accounts
    else seq(|accounts|, j requires 0 <= j < |accounts| =>
               accounts[j].(isActive := accounts[j].id == id,
                            updatedAt := if accounts[j].id == id then now else accounts[j].updatedAt))
  }

  /** Makes the account at the given index the active one; |accounts| clears all. */
  function ActivateOnly(accounts: seq<Account>, index: nat): seq<Account> {
    seq(|accounts|, i requires 0 <= i < |accounts| => accounts[i].(isActive := i == index))
  }

  /** The highest rank any account reaches. */
  function TopRank(accounts: seq<Account>, identity: Identity): nat {
    Best(accounts, None, identity).rank
  }

  /** Of the first n accounts, the one to activate: the first active one of the given rank, else the first of greatest date. */
  function Target(accounts: seq<Account>, identity: Identity, rank: nat, n: nat): (t: Option<nat>)
    requires n <= |accounts|
    ensures t.Some? ==> t.value < n && RankOf(accounts[t.value], None, identity) == rank
  {
    if n == 0 then None
    else
      var t := Target(accounts, identity, rank, n - 1);
      if RankOf(accounts[n - 1], None, identity) != rank then t
      else if t.None? then Some(n - 1)
      else if accounts[t.value].isActive then t
      else if accounts[n - 1].isActive || Later(accounts[n - 1].updatedAt, accounts[t.value].updatedAt) then Some(n - 1)
      else t
  }

  function SyncTarget(accounts: seq<Account>, current: Option<Identity>): Option<nat> {
    if current.None? || Empty(current.value) || TopRank(accounts, current.value) == 0 then None
    else Target(accounts, current.value, TopRank(accounts, current.value), |accounts|)
  }

  function SyncAccounts(accounts: seq<Account>, current: Option<Identity>): seq<Account> {
    match SyncTarget(accounts, current)
    case None => ActivateOnly(accounts, |accounts|)
    case Some(t) => ActivateOnly(accounts, t)
  }

  function Serve(accounts: seq<Account>, r: Request): seq<Account> {
    match r
    case Add(auth, allowMissing, id, now, details) =>
      if Accepted(auth, allowMissing) then AddAccount(accounts, auth.info, id, now, details) else accounts
    case Upsert(p, info, id, now) => UpsertAccount(accounts, p, info, id, now)
    case Remove(id) => RemoveAccount(accounts, id)
    case UpdateUsage(id, now) => Touch(accounts, id, now)
    case SetActive(id) => Activate(accounts, id)
    case TraySwitch(id, now, authWritten) => SwitchFromTray(accounts, id, now, authWritten)
    case Sync(current) => SyncAccounts(accounts, current)
  }

  // ----- what every history of requests keeps -----

  predicate DistinctIds(accounts: seq<Account>) {
    forall i, j | 0 <= i < j < |accounts| :: accounts[i].id != accounts[j].id
  }

  predicate AtMostOneActive(accounts: seq<Account>) {
    forall i, j | 0 <= i < j < |accounts| :: !(accounts[i].isActive && accounts[j].isActive)
  }

  predicate Valid(accounts: seq<Account>) {
    DistinctIds(accounts) && AtMostOneActive(accounts)
  }

  /** A generated id is not in use. */
  predicate FreshId(accounts: seq<Account>, r: Request) {
    (r.Add? || r.Upsert?) ==> forall a | a in accounts :: a.id != r.id
  }

  lemma {:induction false} RemoveKeeps(accounts: seq<Account>, id: string)
    requires Valid(accounts)
    ensures Valid(RemoveAccount(accounts, id))
    ensures forall a :: a in RemoveAccount(accounts, id) <==> a in accounts && a.id != id
  {
    if accounts != [] {
      var n := |accounts| - 1;
      var before, last := accounts[..n], accounts[n];
      assert accounts == before + [last];
      RemoveKeeps(before, id);
      var kept := RemoveAccount(before, id);
      assert RemoveAccount(accounts, id) == kept + if last.id == id then [] else [last];
      hide RemoveAccount;
      forall i | 0 <= i < |kept| ensures kept[i].id != last.id && !(kept[i].isActive && last.isActive) {
        assert kept[i] in before;
        var j :| 0 <= j < n && accounts[j] == kept[i];
      }
    }
  }

  lemma UpdateKeeps(accounts: seq<Account>, i: nat, account: Account)
    requires Valid(accounts) && i < |accounts| && account.id == accounts[i].id && account.isActive == accounts[i].isActive
    ensures Valid(accounts[i := account])
  {
  }

  lemma AppendKeeps(accounts: seq<Account>, account: Account)
    requires Valid(accounts) && (account.isActive ==> accounts == []) && forall a | a in accounts :: a.id != account.id
    ensures Valid(accounts + [account])
  {
  }

  lemma ServeKeepsValid(accounts: seq<Account>, r: Request)
    requires Valid(accounts) && FreshId(accounts, r)
    ensures Valid(Serve(accounts, r))
  {
    hide Best, Target, RankOf, Find, StrLeq;
    match r
    case Add(auth, allowMissing, id, now, details) =>
      var m := Best(accounts, None, auth.info.identity);
      if m.rank >= 2 {
        UpdateKeeps(accounts, m.index, accounts[m.index].(info := auth.info.(details := details), updatedAt := now));
      } else {
        AppendKeeps(accounts, Account(id, Codex, auth.info.(details := details), accounts == [], now));
      }
    case Upsert(p, info, id, now) =>
      var m := Best(accounts, Some(p), info.identity);
      if m.rank >= 2 {
        UpdateKeeps(accounts, m.index, accounts[m.index].(provider := p, info := info, updatedAt := now));
      } else {
        AppendKeeps(accounts, Account(id, p, info, false, now));
      }
    case Remove(id) => RemoveKeeps(accounts, id);
    case UpdateUsage(id, now) =>
      var i := Find(accounts, id);
      if i < |accounts| { UpdateKeeps(accounts, i, accounts[i].(updatedAt := now)); }
    case SetActive(_) =>
    case TraySwitch(_, _, _) =>
    case Sync(_) =>
  }

  function ServeAll(accounts: seq<Account>, requests: seq<Request>): seq<Account>
    decreases |requests|
  {
    if requests == [] then accounts else ServeAll(Serve(accounts, requests[0]), requests[1..])
  }

  predicate FreshIds(accounts: seq<Account>, requests: seq<Request>)
    decreases |requests|
  {
    requests == [] || (FreshId(accounts, requests[0]) && FreshIds(Serve(accounts, requests[0]), requests[1..]))
  }

  /** Whatever the client and the tray do, ids stay distinct and at most one account is active. */
  lemma {:induction false} EveryHistoryIsValid(accounts: seq<Account>, requests: seq<Request>)
    requires Valid(accounts) && FreshIds(accounts, requests)
    ensures Valid(ServeAll(accounts, requests))
    decreases |requests|
  {
    hide Valid, Serve, FreshId;
    if requests != [] {
      ServeKeepsValid(accounts, requests[0]);
      EveryHistoryIsValid(Serve(accounts, requests[0]), requests[1..]);
    }
  }

  // ----- which account is meant -----

  predicate Shares(a: Option<string>, b: Option<string>) {
    a.Some? && b.Some? && a.value == b.value
  }

  /**
    The criteria in their order. Codex: account and user id, account id and email, user id, email, account id, but
    none if the account ids differ. The other providers: user id, email, account id.
   */
  predicate Meets(only: Option<Provider>, k: nat, account: Account, identity: Identity) {
    var a := account.info.identity;
    var (acc, user, email) :=
      (Shares(a.accountId, identity.accountId), Shares(a.userId, identity.userId), Shares(a.email, identity.email));
    if only.Some? && account.provider != only.value then false
    else if only in {None, Some(Codex)} then
      && !(a.accountId.Some? && identity.accountId.Some? && a.accountId.value != identity.accountId.value)
      && ((k == 1 && acc && user) || (k == 2 && acc && email) || (k == 3 && user) || (k == 4 && email) || (k == 5 && acc))
    else (k == 1 && user) || (k == 2 && email) || (k == 3 && acc)
  }

  /** The account meets a criterion that the other one, and every earlier one, fails. */
  predicate Outranks(only: Option<Provider>, a: Account, b: Account, identity: Identity) {
    exists k | 1 <= k <= 5 :: Meets(only, k, a, identity) && forall j | 1 <= j <= k :: !Meets(only, j, b, identity)
  }

  /** The ranks compare accounts by the first criterion that they meet. */
  lemma RanksFollowCriteria(only: Option<Provider>, a: Account, b: Account, identity: Identity)
    ensures RankOf(a, only, identity) > RankOf(b, only, identity) <==> Outranks(only, a, b, identity)
    ensures RankOf(a, only, identity) > 0 <==> exists k | 1 <= k <= 5 :: Meets(only, k, a, identity)
  {
    FirstCriterion(only, a, identity);
    FirstCriterion(only, b, identity);
    hide RankOf, Meets;
    if RankOf(a, only, identity) > RankOf(b, only, identity) {
      var k := CriterionOf(only, RankOf(a, only, identity));
      assert Meets(only, k, a, identity);
    }
  }

  function CriterionOf(only: Option<Provider>, rank: nat): nat {
    if only in {None, Some(Codex)} then if rank <= 5 then 6 - rank else 0 else if rank <= 4 then 5 - rank else 0
  }

  lemma FirstCriterion(only: Option<Provider>, a: Account, identity: Identity)
    ensures var (rank, k) := (RankOf(a, only, identity), CriterionOf(only, RankOf(a, only, identity)));
            && rank <= 5 && (only !in {None, Some(Codex)} ==> rank <= 4 && rank != 1)
            && (rank > 0 ==> 1 <= k <= 5 && Meets(only, k, a, identity))
            && (forall j | 1 <= j <= 5 && Meets(only, j, a, identity) :: rank > 0 && k <= j)
  {
  }

  /** The match meets the earliest criterion that any account meets; there is none only if no account meets any. */
  lemma MatchMeetsEarliest(accounts: seq<Account>, only: Option<Provider>, identity: Identity)
    ensures var m := Best(accounts, only, identity);
            && (m.rank > 0 <==> exists j, k | 0 <= j < |accounts| && 1 <= k <= 5 :: Meets(only, k, accounts[j], identity))
            && (m.rank > 0 ==> forall j | 0 <= j < |accounts| :: !Outranks(only, accounts[j], accounts[m.index], identity))
  {
    hide RankOf, StrLeq, Meets, Outranks, Best;
    BestTops(accounts, only, identity);
    var m := Best(accounts, only, identity);
    forall j | 0 <= j < |accounts|
      ensures RankOf(accounts[j], only, identity) > 0 <==> exists k | 1 <= k <= 5 :: Meets(only, k, accounts[j], identity)
      ensures m.rank > 0 ==> !Outranks(only, accounts[j], accounts[m.index], identity)
    {
      RanksFollowCriteria(only, accounts[j], accounts[j], identity);
      if m.rank > 0 { RanksFollowCriteria(only, accounts[j], accounts[m.index], identity); }
    }
  }

  /**
    An add overwrites the account that meets the earliest criterion, if that is one of the first four, and keeps its
    id, provider and flag; else it appends a Codex account, active only in an empty store.
   */
  lemma AddOverwritesEarliest(accounts: seq<Account>, info: Info, id: string, now: string, details: string)
    ensures var (after, stored) := (AddAccount(accounts, info, id, now, details), info.(details := details));
            if exists j, k | 0 <= j < |accounts| && 1 <= k <= 4 :: Meets(None, k, accounts[j], info.identity)
            then exists i | 0 <= i < |accounts| ::
                   && (forall j | 0 <= j < |accounts| :: !Outranks(None, accounts[j], accounts[i], info.identity))
                   && after == accounts[i := Account(accounts[i].id, accounts[i].provider, stored, accounts[i].isActive, now)]
            else after == accounts + [Account(id, Codex, stored, |accounts| == 0, now)]
  {
    var m := Best(accounts, None, info.identity);
    MatchMeetsEarliest(accounts, None, info.identity);
    BestTops(accounts, None, info.identity);
    forall j | 0 <= j < |accounts|
      ensures RankOf(accounts[j], None, info.identity) >= 2 <==>
                exists k | 1 <= k <= 4 :: Meets(None, k, accounts[j], info.identity)
    {
      FourCriteria(accounts[j], info.identity);
    }
    hide RankOf, Meets, Outranks, Best;
  }

  lemma FourCriteria(a: Account, identity: Identity)
    ensures RankOf(a, None, identity) >= 2 <==> exists k | 1 <= k <= 4 :: Meets(None, k, a, identity)
  {
    FirstCriterion(None, a, identity);
    hide RankOf, Meets;
    if RankOf(a, None, identity) >= 2 { assert Meets(None, CriterionOf(None, RankOf(a, None, identity)), a, identity); }
  }

  /** An upsert overwrites the account of its provider that meets the earliest criterion, in the same way, else it appends. */
  lemma UpsertOverwritesEarliest(accounts: seq<Account>, p: Provider, info: Info, id: string, now: string)
    ensures var after := UpsertAccount(accounts, p, info, id, now);
            var last := if p == Codex then 4 else 3;
            if exists j, k | 0 <= j < |accounts| && 1 <= k <= last :: Meets(Some(p), k, accounts[j], info.identity)
            then exists i | 0 <= i < |accounts| ::
                   && accounts[i].provider == p
                   && (forall j | 0 <= j < |accounts| :: !Outranks(Some(p), accounts[j], accounts[i], info.identity))
                   && after == accounts[i := Account(accounts[i].id, p, info, accounts[i].isActive, now)]
            else after == accounts + [Account(id, p, info, false, now)]
  {
    var m := Best(accounts, Some(p), info.identity);
    MatchMeetsEarliest(accounts, Some(p), info.identity);
    BestTops(accounts, Some(p), info.identity);
    assert m.rank > 0 ==> accounts[m.index].provider == p;
    forall j | 0 <= j < |accounts|
      ensures RankOf(accounts[j], Some(p), info.identity) >= 2 <==>
                exists k | 1 <= k <= (if p == Codex then 4 else 3) :: Meets(Some(p), k, accounts[j], info.identity)
    {
      FirstCriterion(Some(p), accounts[j], info.identity);
      var k := CriterionOf(Some(p), RankOf(accounts[j], Some(p), info.identity));
      assert RankOf(accounts[j], Some(p), info.identity) >= 2 ==> Meets(Some(p), k, accounts[j], info.identity);
    }
    hide RankOf, Meets, Outranks, Best;
  }

  /** A sync activates an account that meets the earliest criterion, and none only if no account meets any. */
  lemma SyncActivatesEarliest(accounts: seq<Account>, identity: Identity)
    requires !Empty(identity)
    ensures var after := SyncAccounts(accounts, Some(identity));
            && |after| == |accounts|
            && (forall i | 0 <= i < |after| :: after[i] == accounts[i].(isActive := after[i].isActive))
            && ((exists i :: 0 <= i < |after| && after[i].isActive) <==>
                  exists j, k | 0 <= j < |accounts| && 1 <= k <= 5 :: Meets(None, k, accounts[j], identity))
            && (forall i, j | 0 <= i < |after| && 0 <= j < |after| && after[i].isActive ::
                  !Outranks(None, accounts[j], accounts[i], identity))
  {
    MatchMeetsEarliest(accounts, None, identity);
    BestTops(accounts, None, identity);
    TopRankHasTarget(accounts, identity);
    hide RankOf, Meets, Outranks, Best, StrLeq;
    var top := TopRank(accounts, identity);
    var t := Target(accounts, identity, top, |accounts|);
    if top > 0 {
      assert SyncAccounts(accounts, Some(identity))[t.value].isActive;
      forall j | 0 <= j < |accounts| ensures !Outranks(None, accounts[j], accounts[t.value], identity) {
        RanksFollowCriteria(None, accounts[j], accounts[t.value], identity);
      }
    }
  }

  // ----- what the other operations change -----

  /** Without the permission, an auth is refused exactly if it could not be parsed or has neither user id nor email. */
  lemma AddIsRefused(accounts: seq<Account>, auth: Auth, allowMissing: bool, id: string, now: string, details: string)
    requires forall a | a in accounts :: a.updatedAt != now
    ensures Serve(accounts, Add(auth, allowMissing, id, now, details)) == accounts <==>
            !allowMissing && (!auth.parsed || (auth.info.identity.userId.None? && auth.info.identity.email.None?))
  {
    AddChangesOneEntry(accounts, auth.info, id, now, details);
    hide AddAccount;
  }

  /** Activating an account makes it active, whatever its provider, and every other one inactive, and changes nothing else. */
  lemma SetActiveChangesFlags(accounts: seq<Account>, id: string)
    ensures var after := Serve(accounts, SetActive(id));
            && |after| == |accounts|
            && forall i | 0 <= i < |accounts| :: after[i] == accounts[i].(isActive := accounts[i].id == id)
  {
  }

  /** A tray switch succeeds exactly for a known Codex account whose auth can be written; it activates it and dates it. */
  lemma TraySwitchChanges(accounts: seq<Account>, id: string, now: string, authWritten: bool)
    requires DistinctIds(accounts)
    ensures var after := Serve(accounts, TraySwitch(id, now, authWritten));
            if authWritten && exists i :: 0 <= i < |accounts| && accounts[i].id == id && accounts[i].provider == Codex
            then && |after| == |accounts|
                 && forall i | 0 <= i < |accounts| ::
                      after[i] == if accounts[i].id == id then accounts[i].(isActive := true, updatedAt := now)
                                  else accounts[i].(isActive := false)
            else after == accounts
  {
    FindMeaning(accounts, id);
  }

  /** Recording usage dates the account and changes nothing else. */
  lemma UsageChangesDate(accounts: seq<Account>, id: string, now: string)
    requires DistinctIds(accounts)
    ensures var after := Serve(accounts, UpdateUsage(id, now));
            && |after| == |accounts|
            && forall i | 0 <= i < |accounts| ::
                 after[i] == if accounts[i].id == id then accounts[i].(updatedAt := now) else accounts[i]
  {
    FindMeaning(accounts, id);
  }

  /** Removing keeps all other accounts, in their order. */
  lemma {:induction false} RemoveKeepsOrder(accounts: seq<Account>, id: string, i: nat)
    requires i < |accounts|
    ensures RemoveAccount(accounts, id)
         == RemoveAccount(accounts[..i], id) + (if accounts[i].id == id then [] else [accounts[i]])
            + RemoveAccount(accounts[i + 1..], id)
    decreases |accounts|
  {
    var n := |accounts| - 1;
    if i == n {
      assert accounts[i + 1..] == [];
    } else {
      RemoveKeepsOrder(accounts[..n], id, i);
      assert accounts[..n][..i] == accounts[..i] && accounts[..n][i + 1..] == accounts[i + 1..n];
      var rest := accounts[i + 1..];
      assert rest[..|rest| - 1] == accounts[i + 1..n] && rest[|rest| - 1] == accounts[n];
    }
  }

  // ----- operations that overlap -----

  // The client loads the store, awaits other calls, and saves what it made of the store it had loaded.

  datatype Access = Load(r: Request) | Save(k: nat, saves: bool)

  /** loaded: the requests in progress, each with the store as it was loaded. */
  datatype Shared = Shared(file: seq<Account>, loaded: seq<(Request, seq<Account>)>)

  function NextAccess(s: Shared, a: Access): Shared {
    match a
    case Load(r) => s.(loaded := s.loaded + [(r, s.file)])
    case Save(k, saves) =>
      if k >= |s.loaded| then s
      else Shared(if saves then Serve(s.loaded[k].1, s.loaded[k].0) else s.file, s.loaded[..k] + s.loaded[k + 1..])
  }

  function RunAccesses(s: Shared, accesses: seq<Access>): Shared
    decreases |accesses|
  {
    if accesses == [] then s else RunAccesses(NextAccess(s, accesses[0]), accesses[1..])
  }

  /** Each request generates its id afresh. */
  predicate FreshLoads(s: Shared, accesses: seq<Access>)
    decreases |accesses|
  {
    accesses == [] ||
    ((accesses[0].Load? ==> FreshId(s.file, accesses[0].r)) && FreshLoads(NextAccess(s, accesses[0]), accesses[1..]))
  }

  predicate ValidShared(s: Shared) {
    Valid(s.file) && forall p | p in s.loaded :: Valid(p.1) && FreshId(p.1, p.0)
  }

  /** However loads and saves overlap, ids stay distinct and at most one account is active. */
  lemma {:induction false} OverlappingHistoryIsValid(s: Shared, accesses: seq<Access>)
    requires ValidShared(s) && FreshLoads(s, accesses)
    ensures ValidShared(RunAccesses(s, accesses))
    decreases |accesses|
  {
    hide Valid, FreshId, Serve;
    if accesses != [] {
      if accesses[0].Save? && accesses[0].k < |s.loaded| {
        var p := s.loaded[accesses[0].k];
        assert p in s.loaded;
        ServeKeepsValid(p.1, p.0);
      }
      OverlappingHistoryIsValid(NextAccess(s, accesses[0]), accesses[1..]);
    }
  }

  /** But updates get lost: of two overlapping operations the later save leaves nothing of the earlier one. */
  lemma OverlapLosesUpdate(file: seq<Account>, first: Request, second: Request)
    ensures RunAccesses(Shared(file, []), [Load(first), Load(second), Save(0, true), Save(0, true)])
         == Shared(Serve(file, second), [])
  {
    hide Serve;
    var accesses := [Load(first), Load(second), Save(0, true), Save(0, true)];
    var s1 := NextAccess(Shared(file, []), accesses[0]);
    assert s1.loaded == [(first, file)];
    var s2 := NextAccess(s1, accesses[1]);
    assert s2 == Shared(file, [(first, file), (second, file)]);
    var s3 := NextAccess(s2, accesses[2]);
    assert s3 == Shared(Serve(file, first), [(second, file)]);
    var s4 := NextAccess(s3, accesses[3]);
    assert s4 == Shared(Serve(file, second), []);
    hide NextAccess;
    assert RunAccesses(s3, accesses[3..]) == s4 by { assert accesses[3..][1..] == []; }
    assert RunAccesses(s2, accesses[2..]) == s4 by { assert accesses[2..][1..] == accesses[3..]; }
    assert RunAccesses(s1, accesses[1..]) == s4 by { assert accesses[1..][1..] == accesses[2..]; }
  }

  // ----- adding an auth -----

  lemma RankMeaning(a: Identity, b: Identity)
    ensures MatchRank(a, b) >= 2 <==>
              !(a.accountId.Some? && b.accountId.Some? && a.accountId != b.accountId)
              && (Same(a.userId, b.userId) || Same(a.email, b.email))
    ensures MatchRank(a, a) >= 2 <==> !Insufficient(a)
  {
  }

  /** Adding changes at most one entry, and never one with another nonempty account id. */
  lemma AddChangesOneEntry(accounts: seq<Account>, info: Info, id: string, now: string, details: string)
    ensures var after := AddAccount(accounts, info, id, now, details);
            && |accounts| <= |after| <= |accounts| + 1
            && (|after| > |accounts| ==> after[..|accounts|] == accounts)
            && (forall i, j | 0 <= i < j < |accounts| :: after[i] == accounts[i] || after[j] == accounts[j])
            && (forall i | 0 <= i < |accounts| && after[i] != accounts[i] ::
                  !(accounts[i].info.identity.accountId.Some? && info.identity.accountId.Some?
                    && accounts[i].info.identity.accountId != info.identity.accountId))
            && (exists i :: 0 <= i < |after| && after[i].info == info.(details := details) && after[i].updatedAt == now)
  {
    var m := Best(accounts, None, info.identity);
    BestIsMaximal(accounts, None, info.identity);
    var after := AddAccount(accounts, info, id, now, details);
    if m.rank >= 2 {
      RankMeaning(accounts[m.index].info.identity, info.identity);
      assert after[m.index].info == info.(details := details);
    } else {
      assert after[|accounts|].info == info.(details := details);
    }
  }

  /** Adding an auth again creates no second entry exactly when it has a user id or an email. */
  lemma AddTwice(accounts: seq<Account>, info: Info, id: string, now: string, details: string,
                 id2: string, now2: string, details2: string)
    ensures var once := AddAccount(accounts, info, id, now, details);
            |AddAccount(once, info, id2, now2, details2)| == |once| <==> !Insufficient(info.identity)
  {
    var once := AddAccount(accounts, info, id, now, details);
    AddChangesOneEntry(accounts, info, id, now, details);
    BestIsMaximal(once, None, info.identity);
    var i :| 0 <= i < |once| && once[i].info == info.(details := details);
    RankMeaning(info.identity, info.identity);
    assert RankOf(once[i], None, info.identity) == MatchRank(info.identity, info.identity);
    var m := Best(once, None, info.identity);
    if m.rank >= 2 { RankMeaning(once[m.index].info.identity, info.identity); }
  }

  /**
    Upserting stores the info under its provider, touches no account of another provider and no id or active flag,
    and changes at most one entry.
   */
  lemma UpsertStaysWithProvider(accounts: seq<Account>, p: Provider, info: Info, id: string, now: string)
    ensures var after := UpsertAccount(accounts, p, info, id, now);
            && |accounts| <= |after| <= |accounts| + 1
            && (forall i, j | 0 <= i < j < |accounts| :: after[i] == accounts[i] || after[j] == accounts[j])
            && (forall i | 0 <= i < |accounts| :: after[i].id == accounts[i].id && after[i].isActive == accounts[i].isActive)
            && (forall i | 0 <= i < |accounts| && accounts[i].provider != p :: after[i] == accounts[i])
            && (forall i | |accounts| <= i < |after| :: !after[i].isActive)
            && (exists i :: 0 <= i < |after| && after[i].provider == p && after[i].info == info && after[i].updatedAt == now)
  {
    var after := UpsertAccount(accounts, p, info, id, now);
    var m := Best(accounts, Some(p), info.identity);
    BestTops(accounts, Some(p), info.identity);
    hide Best, StrLeq;
    var i := if m.rank >= 2 then m.index else |accounts|;
    assert after[i].provider == p && after[i].info == info && after[i].updatedAt == now;
  }

  /** Upserting again creates no second entry exactly when the identity suffices for the provider. */
  lemma UpsertTwice(accounts: seq<Account>, p: Provider, info: Info, id: string, now: string, id2: string, now2: string)
    ensures var once := UpsertAccount(accounts, p, info, id, now);
            |UpsertAccount(once, p, info, id2, now2)| == |once| <==>
              if p.Codex? then !Insufficient(info.identity) else !Empty(info.identity)
  {
    var after := UpsertAccount(accounts, p, info, id, now);
    UpsertStaysWithProvider(accounts, p, info, id, now);
    BestTops(after, Some(p), info.identity);
    var i :| 0 <= i < |after| && after[i].provider == p && after[i].info == info && after[i].updatedAt == now;
    assert RankOf(after[i], Some(p), info.identity) == ProviderMatchRank(p, info.identity, info.identity);
    hide Best;
    var again := Best(after, Some(p), info.identity);
    if again.rank >= 2 {
      ProviderRankMeaning(p, after[again.index].info.identity, info.identity);
    }
    ProviderRankMeaning(p, info.identity, info.identity);
  }

  lemma ProviderRankMeaning(p: Provider, a: Identity, b: Identity)
    ensures ProviderMatchRank(p, a, b) >= 2 ==> if p.Codex? then !Insufficient(b) else !Empty(b)
    ensures ProviderMatchRank(p, b, b) >= 2 <==> if p.Codex? then !Insufficient(b) else !Empty(b)
  {
  }

  /**
    The entries an add changes: the chosen one if its rank is at least 2. Matching ignores the provider, so the
    add overwrites an account of another provider exactly when such an account is the chosen one.
   */
  lemma AddOverwritesChosen(accounts: seq<Account>, info: Info, id: string, now: string, details: string)
    ensures var after := AddAccount(accounts, info, id, now, details);
            && (forall i | 0 <= i < |accounts| :: after[i] != accounts[i] <==>
                  IsChosen(accounts, None, info.identity, i) && RankOf(accounts[i], None, info.identity) >= 2
                  && accounts[i] != accounts[i].(info := info.(details := details), updatedAt := now))
            && ((exists i :: 0 <= i < |accounts| && accounts[i].provider != Codex && after[i] != accounts[i]) <==>
                  exists i :: 0 <= i < |accounts| && accounts[i].provider != Codex
                              && IsChosen(accounts, None, info.identity, i) && RankOf(accounts[i], None, info.identity) >= 2
                              && accounts[i] != accounts[i].(info := info.(details := details), updatedAt := now))
  {
    hide RankOf, StrLeq, IsChosen;
    var m := Best(accounts, None, info.identity);
    if m.rank >= 2 {
      BestTops(accounts, None, info.identity);
      BestIsChosen(accounts, None, info.identity);
    }
    forall i: nat | i < |accounts| && IsChosen(accounts, None, info.identity, i) ensures i == m.index && m.rank == RankOf(accounts[i], None, info.identity) {
      ChosenIsBest(accounts, None, info.identity, i);
    }
  }

  /** Sharing neither user id nor email with it, an account is safe from an add. */
  lemma AddSparesStrangers(accounts: seq<Account>, info: Info, id: string, now: string, details: string, i: nat)
    requires i < |accounts| && AddAccount(accounts, info, id, now, details)[i] != accounts[i]
    ensures Same(accounts[i].info.identity.userId, info.identity.userId) || Same(accounts[i].info.identity.email, info.identity.email)
  {
    AddOverwritesChosen(accounts, info, id, now, details);
    RankMeaning(accounts[i].info.identity, info.identity);
  }

  /** Matching an added auth ignores the provider, so a Codex auth without account id can overwrite a Claude account. */
  lemma AddMayOverwriteAnotherProvider()
    ensures exists accounts: seq<Account>, info ::
              Valid(accounts) && accounts != [] && accounts[0].provider == Claude
              && AddAccount(accounts, info, "n", "t", "d")[0].info == info.(details := "d") != accounts[0].info
  {
    var claude := Account("c", Claude, Info(Identity(Some("u"), Some("u"), Some("me@x")), ""), false, "s");
    var info := Info(Identity(None, None, Some("me@x")), "");
    assert [claude][..0] == [] && Best([], None, info.identity) == Match(0, 0, 0);
    assert Best([claude], None, info.identity) == Match(0, 2, 1);
    assert AddAccount([claude], info, "n", "t", "d")[0].info == info.(details := "d");
  }

  // ----- dates -----

  // updatedAt is compared as a string. The client writes ISO dates, the tray milliseconds since the epoch.

  predicate Digit(c: char) { '0' <= c <= '9' }

  /** The same format: digits at the same places, and the same characters between them. */
  predicate SameShape(a: string, b: string) {
    |a| == |b| && forall k | 0 <= k < |a| :: if Digit(a[k]) then Digit(b[k]) else a[k] == b[k]
  }

  function Pow10(n: nat): nat {
    if n == 0 then 1 else 10 * Pow10(n - 1)
  }

  function Digits(s: string): nat {
    if s == "" then 0 else Digits(s[1..]) + if Digit(s[0]) then 1 else 0
  }

  /** The number that the digits of a date form. */
  function Number(s: string): (n: nat)
    ensures n < Pow10(Digits(s))
  {
    if s == "" then 0
    else if !Digit(s[0]) then Number(s[1..])
    else
      Weighs((s[0] - '0') as nat, Pow10(Digits(s[1..])));
      (s[0] - '0') as nat * Pow10(Digits(s[1..])) + Number(s[1..])
  }

  lemma Weighs(d: nat, p: nat)
    requires d <= 9
    ensures d * p + p <= 10 * p
  {
  }

  lemma Outweighs(d: nat, e: nat, p: nat)
    requires d < e
    ensures d * p + p <= e * p
  {
    assert e * p == d * p + p + (e - d - 1) * p;
  }

  /** Within one format the order of strings is the order of the numbers, that is of time. */
  lemma {:induction false} OneFormatOrdersByTime(a: string, b: string)
    requires SameShape(a, b)
    ensures Digits(a) == Digits(b) && (StrLeq(a, b) <==> Number(a) <= Number(b))
  {
    if a != "" {
      assert SameShape(a[1..], b[1..]);
      OneFormatOrdersByTime(a[1..], b[1..]);
      if Digit(a[0]) && a[0] != b[0] {
        var (d, e, p) := ((a[0] - '0') as nat, (b[0] - '0') as nat, Pow10(Digits(a[1..])));
        if d < e { Outweighs(d, e, p); } else { Outweighs(e, d, p); }
      }
    }
  }

  /** The accounts among which the date decides. */
  function BestRanked(accounts: seq<Account>, only: Option<Provider>, identity: Identity): set<nat> {
    Ranked(accounts, only, identity, Best(accounts, only, identity).rank)
  }

  /** If the dates of the best-ranked accounts have one format, the match is the latest updated of them. */
  lemma MatchIsLatestInOneFormat(accounts: seq<Account>, only: Option<Provider>, identity: Identity, i: nat)
    requires var best := BestRanked(accounts, only, identity);
             i in best && forall k, l | k in best && l in best :: SameShape(accounts[k].updatedAt, accounts[l].updatedAt)
    requires Best(accounts, only, identity).rank > 0
    ensures Number(accounts[i].updatedAt) <= Number(accounts[Best(accounts, only, identity).index].updatedAt)
  {
    var m := Best(accounts, only, identity);
    BestTops(accounts, only, identity);
    BestIsLatest(accounts, only, identity);
    hide StrLeq, RankOf, Number;
    assert m.index in BestRanked(accounts, only, identity);
    OneFormatOrdersByTime(accounts[i].updatedAt, accounts[m.index].updatedAt);
  }

  /** Milliseconds since the epoch, from 2001 to 2033, and ISO dates of this millennium. */
  predicate TrayDate(s: string) { s != "" && s[0] == '1' }

  predicate IsoDate(s: string) { s != "" && s[0] == '2' }

  /** The best-ranked accounts are dated by the tray or by the client, each in its one format. */
  predicate TwoFormats(accounts: seq<Account>, best: set<nat>)
    requires forall i | i in best :: i < |accounts|
  {
    && (forall i | i in best :: TrayDate(accounts[i].updatedAt) || IsoDate(accounts[i].updatedAt))
    && (forall i, j | i in best && j in best && TrayDate(accounts[i].updatedAt) == TrayDate(accounts[j].updatedAt) ::
          SameShape(accounts[i].updatedAt, accounts[j].updatedAt))
  }

  /** A reading of dates as points in time: within one format it follows the digits. */
  predicate Tells(time: string -> int, accounts: seq<Account>, best: set<nat>)
    requires forall i | i in best :: i < |accounts|
  {
    forall i, j | i in best && j in best && SameShape(accounts[i].updatedAt, accounts[j].updatedAt) ::
      time(accounts[i].updatedAt) <= time(accounts[j].updatedAt) <==> Number(accounts[i].updatedAt) <= Number(accounts[j].updatedAt)
  }

  /**
    With both formats the match is the latest updated of the best-ranked accounts exactly if the tray dated all of
    them, or each one dated by the tray is no later than some ISO-dated one.
   */
  lemma MatchIsLatest(accounts: seq<Account>, only: Option<Provider>, identity: Identity, time: string -> int)
    requires Best(accounts, only, identity).rank > 0
    requires TwoFormats(accounts, BestRanked(accounts, only, identity))
    requires Tells(time, accounts, BestRanked(accounts, only, identity))
    ensures var best := BestRanked(accounts, only, identity);
            var latest := time(accounts[Best(accounts, only, identity).index].updatedAt);
            (forall i | i in best :: time(accounts[i].updatedAt) <= latest) <==>
            || (forall i | i in best :: TrayDate(accounts[i].updatedAt))
            || (forall i | i in best && TrayDate(accounts[i].updatedAt) ::
                  exists j :: j in best && IsoDate(accounts[j].updatedAt) && time(accounts[i].updatedAt) <= time(accounts[j].updatedAt))
  {
    var best := BestRanked(accounts, only, identity);
    var m := Best(accounts, only, identity).index;
    BestTops(accounts, only, identity);
    BestIsLatest(accounts, only, identity);
    assert m in best by { hide StrLeq, RankOf; }
    forall i | i in best ensures TrayDate(accounts[m].updatedAt) ==> TrayDate(accounts[i].updatedAt) {
      assert StrLeq(accounts[i].updatedAt, accounts[m].updatedAt);
    }
    hide StrLeq, RankOf, Best, Ranked, Number;
    forall i | i in best && TrayDate(accounts[i].updatedAt) == TrayDate(accounts[m].updatedAt)
      ensures time(accounts[i].updatedAt) <= time(accounts[m].updatedAt)
    {
      MatchedOfFormat(accounts, only, identity, i);
    }
  }

  /** Of the best-ranked accounts of its own format the match has the greatest number. */
  lemma MatchedOfFormat(accounts: seq<Account>, only: Option<Provider>, identity: Identity, i: nat)
    requires Best(accounts, only, identity).rank > 0 && i in BestRanked(accounts, only, identity)
    requires SameShape(accounts[i].updatedAt, accounts[Best(accounts, only, identity).index].updatedAt)
    ensures Number(accounts[i].updatedAt) <= Number(accounts[Best(accounts, only, identity).index].updatedAt)
  {
    BestIsLatest(accounts, only, identity);
    OneFormatOrdersByTime(accounts[i].updatedAt, accounts[Best(accounts, only, identity).index].updatedAt);
    hide StrLeq, RankOf, Number;
  }

  /**
    With mixed formats it need not be: an account the tray has just switched to, dated in milliseconds (1...),
    loses to every equally ranked account with an ISO date of this millennium (2...), however old.
   */
  lemma TrayDateLoses(tray: Account, iso: Account, only: Option<Provider>, identity: Identity)
    requires RankOf(tray, only, identity) == RankOf(iso, only, identity) > 0
    requires TrayDate(tray.updatedAt) && IsoDate(iso.updatedAt)
    ensures Best([tray, iso], only, identity).index == 1 && Best([iso, tray], only, identity).index == 0
  {
    hide RankOf;
    assert !StrLeq(iso.updatedAt, tray.updatedAt);
    ChosenIsBest([tray, iso], only, identity, 1);
    ChosenIsBest([iso, tray], only, identity, 0);
  }

  // ----- following the current login -----

  /** t is the account to activate among the first n: the first active one of the rank, else the first with the greatest date. */
  predicate IsTarget(accounts: seq<Account>, identity: Identity, rank: nat, n: nat, t: nat)
    requires n <= |accounts|
  {
    && t < n && RankOf(accounts[t], None, identity) == rank
    && forall i | 0 <= i < n && RankOf(accounts[i], None, identity) == rank ::
         if accounts[t].isActive then accounts[i].isActive ==> t <= i
         else !accounts[i].isActive && StrLeq(accounts[i].updatedAt, accounts[t].updatedAt)
              && (i < t ==> Later(accounts[t].updatedAt, accounts[i].updatedAt))
  }

  lemma {:induction false} TargetMeaning(accounts: seq<Account>, identity: Identity, rank: nat, n: nat)
    requires n <= |accounts|
    ensures var t := Target(accounts, identity, rank, n);
            && (t.None? ==> forall i | 0 <= i < n :: RankOf(accounts[i], None, identity) != rank)
            && (t.Some? ==> IsTarget(accounts, identity, rank, n, t.value))
  {
    hide RankOf, StrLeq;
    if n > 0 {
      TargetMeaning(accounts, identity, rank, n - 1);
      var before := Target(accounts, identity, rank, n - 1);
      var last := accounts[n - 1].updatedAt;
      StrTotal(last, last);
      if before.Some? {
        var held := accounts[before.value].updatedAt;
        StrTotal(last, held);
        forall i | 0 <= i < n - 1 && StrLeq(accounts[i].updatedAt, held) && Later(last, held)
          ensures StrLeq(accounts[i].updatedAt, last) && Later(last, accounts[i].updatedAt)
        {
          LaterThan(last, held, accounts[i].updatedAt);
        }
      }
    }
  }

  lemma LaterThan(a: string, b: string, c: string)
    requires Later(a, b) && StrLeq(c, b)
    ensures Later(a, c) && StrLeq(c, a)
  {
    StrTotal(a, b);
    StrTransitive(c, b, a);
    if StrLeq(a, c) { StrTransitive(a, c, b); }
  }

  lemma TargetIsUnique(accounts: seq<Account>, identity: Identity, rank: nat, t: nat)
    requires IsTarget(accounts, identity, rank, |accounts|, t)
    ensures Target(accounts, identity, rank, |accounts|) == Some(t)
  {
    hide RankOf, StrLeq;
    TargetMeaning(accounts, identity, rank, |accounts|);
  }

  lemma {:induction false} FindMeaning(accounts: seq<Account>, id: string)
    ensures var i := Find(accounts, id);
            (i < |accounts| ==> accounts[i].id == id) && forall j | 0 <= j < i :: accounts[j].id != id
  {
    if accounts != [] && accounts[0].id != id {
      FindMeaning(accounts[1..], id);
      assert forall j | 0 < j < |accounts| :: accounts[j] == accounts[1..][j - 1];
    }
  }

  /**
    After a sync the active accounts are exactly one best-ranked account, or none if no account matches.
    An active best-ranked account stays; otherwise it is the one with the greatest updatedAt string.
   */
  lemma SyncActivatesBest(accounts: seq<Account>, identity: Identity)
    requires !Empty(identity) && AtMostOneActive(accounts)
    ensures var after := SyncAccounts(accounts, Some(identity));
            var top := TopRank(accounts, identity);
            && |after| == |accounts|
            && (top == 0 ==> forall i | 0 <= i < |after| :: !after[i].isActive)
            && (top > 0 ==> exists t: nat ::
                  && t < |accounts| && RankOf(accounts[t], None, identity) == top
                  && (forall i | 0 <= i < |after| :: after[i].isActive <==> i == t)
                  && (forall i | 0 <= i < |accounts| && RankOf(accounts[i], None, identity) == top ::
                        if accounts[i].isActive then i == t
                        else accounts[t].isActive || StrLeq(accounts[i].updatedAt, accounts[t].updatedAt)))
  {
    BestIsMaximal(accounts, None, identity);
    var top := TopRank(accounts, identity);
    TargetMeaning(accounts, identity, top, |accounts|);
    if top > 0 {
      var t := Target(accounts, identity, top, |accounts|);
      assert RankOf(accounts[Best(accounts, None, identity).index], None, identity) == top;
      assert t.Some?;
    }
  }

  /**
    A sync ignores the provider as an add does: it activates an account of another provider exactly when that is
    the target among the best-ranked ones.
   */
  lemma SyncActivatesTarget(accounts: seq<Account>, identity: Identity)
    requires !Empty(identity)
    ensures var (after, top) := (SyncAccounts(accounts, Some(identity)), TopRank(accounts, identity));
            (exists i :: 0 <= i < |after| && after[i].isActive && after[i].provider != Codex) <==>
            top > 0 && exists t: nat :: IsTarget(accounts, identity, top, |accounts|, t) && accounts[t].provider != Codex
  {
    hide RankOf, StrLeq, Best, IsTarget;
    var (after, top) := (SyncAccounts(accounts, Some(identity)), TopRank(accounts, identity));
    TargetMeaning(accounts, identity, top, |accounts|);
    TopRankHasTarget(accounts, identity);
    forall t: nat | IsTarget(accounts, identity, top, |accounts|, t)
      ensures t < |accounts| && Target(accounts, identity, top, |accounts|) == Some(t)
    {
      TargetIsUnique(accounts, identity, top, t);
      TargetInRange(accounts, identity, top, t);
    }
    if top > 0 {
      var t := Target(accounts, identity, top, |accounts|).value;
      assert after == ActivateOnly(accounts, t);
      assert after[t].isActive && after[t].provider == accounts[t].provider;
    }
  }

  lemma TargetInRange(accounts: seq<Account>, identity: Identity, rank: nat, t: nat)
    requires IsTarget(accounts, identity, rank, |accounts|, t)
    ensures t < |accounts|
  {
  }

  /** A Codex login without account id activates a Claude account of the same email. */
  lemma SyncMayActivateAnotherProvider()
    ensures exists accounts: seq<Account>, identity ::
              Valid(accounts) && accounts != [] && accounts[0].provider == Claude
              && SyncAccounts(accounts, Some(identity))[0].isActive
  {
    var claude := Account("c", Claude, Info(Identity(Some("u"), Some("u"), Some("me@x")), ""), false, "s");
    var identity := Identity(None, None, Some("me@x"));
    assert [claude][..0] == [] && Best([], None, identity) == Match(0, 0, 0);
    assert Best([claude], None, identity) == Match(0, 2, 1);
    assert Target([claude], identity, 2, 0) == None;
    assert Target([claude], identity, 2, 1) == Some(0);
    assert SyncAccounts([claude], Some(identity)) == ActivateOnly([claude], 0);
  }

  lemma {:induction false} BestIgnoresActive(accounts: seq<Account>, index: nat, only: Option<Provider>, identity: Identity)
    ensures Best(ActivateOnly(accounts, index), only, identity) == Best(accounts, only, identity)
  {
    if accounts != [] {
      var n := |accounts| - 1;
      BestIgnoresActive(accounts[..n], index, only, identity);
      assert ActivateOnly(accounts, index)[..n] == ActivateOnly(accounts[..n], index);
    }
  }

  lemma {:induction false} TargetStays(accounts: seq<Account>, identity: Identity, rank: nat, t: nat, n: nat)
    requires t < n <= |accounts| && RankOf(accounts[t], None, identity) == rank
    ensures Target(ActivateOnly(accounts, t), identity, rank, n) == Some(t)
  {
    if t < n - 1 {
      TargetStays(accounts, identity, rank, t, n - 1);
    }
  }

  /** Syncing again with the same auth changes nothing. */
  lemma SyncIsIdempotent(accounts: seq<Account>, current: Option<Identity>)
    ensures SyncAccounts(SyncAccounts(accounts, current), current) == SyncAccounts(accounts, current)
  {
    match SyncTarget(accounts, current)
    case None =>
      if current.Some? { BestIgnoresActive(accounts, |accounts|, None, current.value); }
      NoTarget(accounts, current);
    case Some(t) =>
      BestIgnoresActive(accounts, t, None, current.value);
      TargetStays(accounts, current.value, TopRank(accounts, current.value), t, |accounts|);
  }

  lemma NoTarget(accounts: seq<Account>, current: Option<Identity>)
    requires SyncTarget(accounts, current).None?
    ensures SyncTarget(ActivateOnly(accounts, |accounts|), current).None?
  {
    if current.Some? {
      TopRankHasTarget(accounts, current.value);
      BestIgnoresActive(accounts, |accounts|, None, current.value);
    }
  }

  lemma TopRankHasTarget(accounts: seq<Account>, identity: Identity)
    ensures TopRank(accounts, identity) > 0 ==> Target(accounts, identity, TopRank(accounts, identity), |accounts|).Some?
  {
    BestTops(accounts, None, identity);
    TargetMeaning(accounts, identity, TopRank(accounts, identity), |accounts|);
    var m := Best(accounts, None, identity);
    assert m.rank > 0 ==> RankOf(accounts[m.index], None, identity) == TopRank(accounts, identity);
  }
}

/** The account store, with the loops of the client. */
module AccountStoreClass {
  import opened Common
  import opened Strings
  import opened A = Accounts

  class AccountStore {
    var accounts: seq<Account>

    constructor ()
      ensures accounts == []
    {
      accounts := [];
    }

    /** findBestMatch (no provider given) and findBestProviderMatch. The index is -1 when nothing matches. */
    method FindBestMatch(only: Option<Provider>, identity: Identity) returns (index: int, rank: nat, count: nat)
      ensures rank == Best(accounts, only, identity).rank && count == Best(accounts, only, identity).count
      ensures index == if rank == 0 then -1 else Best(accounts, only, identity).index
    {
      hide RankOf, StrLeq;
      index, rank, count := -1, 0, 0;
      var latest := "";
      for i := 0 to |accounts|
        invariant rank == Best(accounts[..i], only, identity).rank && count == Best(accounts[..i], only, identity).count
        invariant rank == 0 ==> index == -1
        invariant rank > 0 ==> index == Best(accounts[..i], only, identity).index && latest == accounts[index].updatedAt
      {
        assert accounts[..i + 1][..i] == accounts[..i];
        var r := RankOf(accounts[i], only, identity);
        if r != 0 {
          if r > rank {
            index, rank, count, latest := i, r, 1, accounts[i].updatedAt;
          } else if r == rank {
            count := count + 1;
            if latest == "" || Later(accounts[i].updatedAt, latest) {
              index, latest := i, accounts[i].updatedAt;
            }
          }
        }
      }
      assert accounts[..|accounts|] == accounts;
    }

    /** The result is false when the auth lacks an identity and that is not allowed. */
    method AddAccount(auth: Auth, allowMissing: bool, id: string, now: string, details: string) returns (ok: bool)
      modifies this
      ensures ok == Accepted(auth, allowMissing)
      ensures accounts == Serve(old(accounts), Add(auth, allowMissing, id, now, details))
    {
      hide Best;
      if !allowMissing && (!auth.parsed || Insufficient(auth.info.identity)) {
        return false;
      }
      var index, rank, count := FindBestMatch(None, auth.info.identity);
      var info := auth.info.(details := details);
      if rank >= 2 {
        accounts := accounts[index := accounts[index].(info := info, updatedAt := now)];
      } else {
        accounts := accounts + [Account(id, Codex, info, accounts == [], now)];
      }
      return true;
    }

    method UpsertProviderAccount(p: Provider, info: Info, id: string, now: string)
      modifies this
      ensures accounts == Serve(old(accounts), Upsert(p, info, id, now))
    {
      hide Best;
      var index, rank, count := FindBestMatch(Some(p), info.identity);
      if rank >= 2 {
        accounts := accounts[index := accounts[index].(provider := p, info := info, updatedAt := now)];
      } else {
        accounts := accounts + [Account(id, p, info, false, now)];
      }
    }

    method RemoveAccount(id: string)
      modifies this
      ensures accounts == Serve(old(accounts), Remove(id))
    {
      var kept: seq<Account> := [];
      for i := 0 to |accounts|
        invariant accounts == old(accounts) && kept == A.RemoveAccount(accounts[..i], id)
      {
        assert accounts[..i + 1][..i] == accounts[..i];
        if accounts[i].id != id {
          kept := kept + [accounts[i]];
        }
      }
      assert accounts[..|accounts|] == accounts;
      accounts := kept;
    }

    method SetActiveAccount(id: string)
      modifies this
      ensures accounts == Serve(old(accounts), SetActive(id))
    {
      for i := 0 to |accounts|
        invariant |accounts| == |old(accounts)|
        invariant forall j | 0 <= j < i :: accounts[j] == old(accounts)[j].(isActive := old(accounts)[j].id == id)
        invariant forall j | i <= j < |accounts| :: accounts[j] == old(accounts)[j]
      {
        accounts := accounts[i := accounts[i].(isActive := accounts[i].id == id)];
      }
    }

    /** switch_account_from_tray; the result is false when it fails, and then nothing was saved. */
    method SwitchFromTray(id: string, now: string, authWritten: bool) returns (ok: bool)
      modifies this
      ensures accounts == Serve(old(accounts), TraySwitch(id, now, authWritten))
      ensures ok ==> exists i :: 0 <= i < |accounts| && accounts[i].id == id && accounts[i].isActive
      ensures !ok ==> accounts == old(accounts)
    {
      var found := Find(accounts, id);
      FindMeaning(accounts, id);
      if found < |accounts| && !accounts[found].provider.Codex? {
        return false;
      }
      if !authWritten {
        return false;
      }
      var store := accounts;
      var matched := false;
      for i := 0 to |store|
        invariant accounts == old(accounts) && |store| == |accounts|
        invariant matched <==> exists j :: 0 <= j < i && accounts[j].id == id
        invariant forall j | 0 <= j < i ::
                    store[j] == accounts[j].(isActive := accounts[j].id == id,
                                             updatedAt := if accounts[j].id == id then now else accounts[j].updatedAt)
        invariant forall j | i <= j < |store| :: store[j] == accounts[j]
      {
        var isTarget := store[i].id == id;
        if isTarget {
          matched := true;
          store := store[i := store[i].(updatedAt := now)];
        }
        store := store[i := store[i].(isActive := isTarget)];
      }
      if !matched {
        return false;
      }
      accounts := store;
      return true;
    }

    /** Sets the active flag of exactly the account at the index, if it is one. */
    method ActivateIndex(index: int)
      modifies this
      ensures accounts == ActivateOnly(old(accounts), if 0 <= index < |old(accounts)| then index else |old(accounts)|)
    {
      for i := 0 to |accounts|
        invariant |accounts| == |old(accounts)|
        invariant forall j | 0 <= j < i :: accounts[j] == old(accounts)[j].(isActive := j == index)
        invariant forall j | i <= j < |accounts| :: accounts[j] == old(accounts)[j]
      {
        accounts := accounts[i := accounts[i].(isActive := i == index)];
      }
    }

    /** The indexes of the best-ranked accounts, in order. */
    method BestIndexes(identity: Identity) returns (rank: nat, indexes: seq<nat>)
      ensures rank == TopRank(accounts, identity)
      ensures forall k | 0 <= k < |indexes| :: indexes[k] < |accounts| && RankOf(accounts[indexes[k]], None, identity) == rank
      ensures forall k, l | 0 <= k < l < |indexes| :: indexes[k] < indexes[l]
      ensures rank > 0 ==> forall i | 0 <= i < |accounts| && RankOf(accounts[i], None, identity) == rank :: i in indexes
    {
      hide RankOf, StrLeq, Best;
      BestOfNone(None, identity);
      rank, indexes := 0, [];
      for i := 0 to |accounts|
        invariant rank == Best(accounts[..i], None, identity).rank
        invariant forall k | 0 <= k < |indexes| :: indexes[k] < i && RankOf(accounts[indexes[k]], None, identity) == rank
        invariant forall k, l | 0 <= k < l < |indexes| :: indexes[k] < indexes[l]
        invariant rank > 0 ==> forall j | 0 <= j < i && RankOf(accounts[j], None, identity) == rank :: j in indexes
      {
        BestSnoc(accounts, i, None, identity);
        var r := RankOf(accounts[i], None, identity);
        if r != 0 {
          if r > rank {
            rank, indexes := r, [i];
          } else if r == rank {
            indexes := indexes + [i];
          }
        }
      }
      assert accounts[..|accounts|] == accounts;
    }

    /** Follows the auth file: None when it cannot be read. */
    method SyncCurrentAccount(current: Option<Identity>) returns (matched: Option<string>)
      modifies this
      ensures accounts == Serve(old(accounts), Sync(current))
      ensures matched == match SyncTarget(old(accounts), current) case None => None case Some(t) => Some(old(accounts)[t].id)
    {
      hide RankOf, StrLeq, Best, Target;
      if current.None? || Empty(current.value) {
        ActivateIndex(-1);
        return None;
      }
      var rank, indexes := BestIndexes(current.value);
      if rank == 0 {
        ActivateIndex(-1);
        return None;
      }
      var target := PickTarget(current.value, rank, indexes);
      matched := Some(accounts[target].id);
      ActivateIndex(target);
    }

    /** The first active one of the best-ranked accounts, else the first one with the greatest date. */
    method PickTarget(identity: Identity, rank: nat, indexes: seq<nat>) returns (target: nat)
      requires rank > 0 && rank == TopRank(accounts, identity)
      requires forall k | 0 <= k < |indexes| :: indexes[k] < |accounts| && RankOf(accounts[indexes[k]], None, identity) == rank
      requires forall k, l | 0 <= k < l < |indexes| :: indexes[k] < indexes[l]
      requires forall i | 0 <= i < |accounts| && RankOf(accounts[i], None, identity) == rank :: i in indexes
      ensures target < |accounts| && Target(accounts, identity, rank, |accounts|) == Some(target)
    {
      hide RankOf, Best, StrLeq;
      BestTops(accounts, None, identity);
      assert indexes != [] by { assert Best(accounts, None, identity).index in indexes; }
      for k := 0 to |indexes|
        invariant forall l | 0 <= l < k :: !accounts[indexes[l]].isActive
      {
        if accounts[indexes[k]].isActive {
          TargetIsUnique(accounts, identity, rank, indexes[k]);
          return indexes[k];
        }
      }
      ghost var at := 0;
      target := indexes[0];
      StrTotal(accounts[target].updatedAt, accounts[target].updatedAt);
      for k := 1 to |indexes|
        invariant 0 <= at < k && target == indexes[at]
        invariant forall l | 0 <= l < at :: Later(accounts[target].updatedAt, accounts[indexes[l]].updatedAt)
        invariant forall l | 0 <= l < k :: StrLeq(accounts[indexes[l]].updatedAt, accounts[target].updatedAt)
      {
        var updatedAt := accounts[indexes[k]].updatedAt;
        StrTotal(updatedAt, accounts[target].updatedAt);
        StrTotal(updatedAt, updatedAt);
        if Later(updatedAt, accounts[target].updatedAt) {
          forall l | 0 <= l < k
            ensures Later(updatedAt, accounts[indexes[l]].updatedAt) && StrLeq(accounts[indexes[l]].updatedAt, updatedAt)
          {
            LaterThan(updatedAt, accounts[target].updatedAt, accounts[indexes[l]].updatedAt);
          }
          target, at := indexes[k], k;
        }
      }
      TargetIsUnique(accounts, identity, rank, target);
    }
  }
}
