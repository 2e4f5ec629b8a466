/** Grouping the models of a MiniMax snapshot by the quota pool they share. Times are nanoseconds since the epoch. */
module MiniMaxPools {
  import opened Common
  import opened Strings

  const SECOND: int := 1_000_000_000

  datatype Model = Model(name: string, total: int, remain: int, used: int, resetAt: Option<int>)
  datatype PoolKey = PoolKey(total: int, used: int, remain: int, resetSecond: int)
  datatype Group = Group(quota: Model, names: seq<string>)

  function KeyOf(m: Model): PoolKey {
    PoolKey(m.total, m.used, m.remain, if m.resetAt.Some? then m.resetAt.value / SECOND else 0)
  }

  predicate Active(m: Model) {
    m.total != 0 || m.used != 0
  }

  // ----- the pools of a snapshot -----

  /** The distinct keys of the active models, in the order they first appear. */
  function Keys(models: seq<Model>): seq<PoolKey> {
    if models == [] then []
    else
      var n := |models| - 1;
      var keys := Keys(models[..n]);
      if Active(models[n]) && KeyOf(models[n]) !in keys then keys + [KeyOf(models[n])] else keys
  }

  /** The active models with the given key, in order. */
  function Members(models: seq<Model>, k: PoolKey): seq<Model> {
    if models == [] then []
    else
      var n := |models| - 1;
      Members(models[..n], k) + if Active(models[n]) && KeyOf(models[n]) == k then [models[n]] else []
  }

  function Names(models: seq<Model>): (names: seq<string>)
    ensures |names| == |models| && forall i | 0 <= i < |models| :: names[i] == models[i].name
  {
    seq(|models|, i requires 0 <= i < |models| => models[i].name)
  }

  predicate SortedNames(s: seq<string>) {
    forall i, j | 0 <= i < j < |s| :: StrLeq(s[i], s[j])
  }

  function InsertName(x: string, s: seq<string>): seq<string> {
    if s == [] || StrLeq(x, s[0]) then [x] + s else [s[0]] + InsertName(x, s[1..])
  }

  function SortNames(s: seq<string>): seq<string> {
    if s == [] then [] else InsertName(s[0], SortNames(s[1..]))
  }

  lemma {:induction false} InsertNameSorts(x: string, s: seq<string>)
    requires SortedNames(s)
    ensures SortedNames(InsertName(x, s)) && multiset(InsertName(x, s)) == multiset{x} + multiset(s)
  {
    if s == [] {
    } else if StrLeq(x, s[0]) {
      forall i | 0 < i < |s| ensures StrLeq(x, s[i]) { StrTransitive(x, s[0], s[i]); }
    } else {
      StrTotal(x, s[0]);
      InsertNameSorts(x, s[1..]);
      assert s == [s[0]] + s[1..];
      forall y | y in InsertName(x, s[1..]) ensures StrLeq(s[0], y) {
        assert y in multiset(InsertName(x, s[1..]));
        assert y == x || y in s[1..];
      }
    }
  }

  lemma {:induction false} SortNamesSorts(s: seq<string>)
    ensures SortedNames(SortNames(s)) && multiset(SortNames(s)) == multiset(s)
  {
    if s != [] {
      SortNamesSorts(s[1..]);
      InsertNameSorts(s[0], SortNames(s[1..]));
      assert s == [s[0]] + s[1..];
    }
  }

  lemma {:induction false} KeysMeaning(models: seq<Model>)
    ensures forall k :: k in Keys(models) <==> exists i :: 0 <= i < |models| && Active(models[i]) && KeyOf(models[i]) == k
    ensures forall i, j | 0 <= i < j < |Keys(models)| :: Keys(models)[i] != Keys(models)[j]
    ensures forall k :: k in Keys(models) <==> Members(models, k) != []
  {
    if models != [] {
      KeysMeaning(models[..|models| - 1]);
    }
  }

  lemma {:induction false} MembersMeaning(models: seq<Model>, k: PoolKey)
    ensures forall m :: m in Members(models, k) <==> m in models && Active(m) && KeyOf(m) == k
  {
    if models != [] {
      var n := |models| - 1;
      MembersMeaning(models[..n], k);
      assert models == models[..n] + [models[n]];
    }
  }

  // ----- the loop -----

  function ActiveNames(models: seq<Model>): seq<string> {
    if models == [] then []
    else ActiveNames(models[..|models| - 1]) + if Active(models[|models| - 1]) then [models[|models| - 1].name] else []
  }

  /** The group of key k: its first model represents it, and it lists the names of all its models in order. */
  predicate IsGroupOf(models: seq<Model>, k: PoolKey, g: Group) {
    var members := Members(models, k);
    members != [] && g.quota == members[0] && SortedNames(g.names) && multiset(g.names) == multiset(Names(members))
  }

  /** What the loop has gathered from the models so far. */
  ghost predicate Gathered(models: seq<Model>, keys: seq<PoolKey>, groups: map<PoolKey, Group>) {
    && keys == Keys(models)
    && (forall k :: k in groups <==> |Members(models, k)| > 0)
    && (forall k | k in groups :: groups[k] == Group(Members(models, k)[0], Names(Members(models, k))))
  }

  lemma GatheredKeys(models: seq<Model>, keys: seq<PoolKey>, groups: map<PoolKey, Group>)
    requires Gathered(models, keys, groups)
    ensures keys == Keys(models)
  {
  }

  lemma MembersSnoc(models: seq<Model>, m: Model, k: PoolKey)
    ensures Members(models + [m], k) == Members(models, k) + if Active(m) && KeyOf(m) == k then [m] else []
  {
    assert (models + [m])[..|models|] == models;
  }

  lemma KeysSnoc(models: seq<Model>, m: Model)
    ensures Keys(models + [m]) == if Active(m) && KeyOf(m) !in Keys(models) then Keys(models) + [KeyOf(m)] else Keys(models)
    ensures forall k :: k in Keys(models) <==> |Members(models, k)| > 0
  {
    assert (models + [m])[..|models|] == models;
    KeysMeaning(models);
  }

  lemma GatherInactive(models: seq<Model>, m: Model, keys: seq<PoolKey>, groups: map<PoolKey, Group>)
    requires Gathered(models, keys, groups) && !Active(m)
    ensures Gathered(models + [m], keys, groups)
  {
    KeysSnoc(models, m);
    forall k ensures Members(models + [m], k) == Members(models, k) { MembersSnoc(models, m, k); }
    hide Members, Keys, Active, KeyOf;
  }

  lemma MembersSnocActive(models: seq<Model>, m: Model)
    requires Active(m)
    ensures forall l :: Members(models + [m], l) == if l == KeyOf(m) then Members(models, l) + [m] else Members(models, l)
  {
    forall l ensures Members(models + [m], l) == if l == KeyOf(m) then Members(models, l) + [m] else Members(models, l) {
      MembersSnoc(models, m, l);
    }
  }

  lemma GatherKnown(models: seq<Model>, m: Model, keys: seq<PoolKey>, groups: map<PoolKey, Group>)
    requires Gathered(models, keys, groups) && Active(m) && KeyOf(m) in groups
    ensures var k := KeyOf(m);
            Gathered(models + [m], keys, groups[k := groups[k].(names := groups[k].names + [m.name])])
  {
    hide Members, Keys, Active, KeyOf, Names;
    KeysSnoc(models, m);
    MembersSnocActive(models, m);
    NamesSnoc(Members(models, KeyOf(m)), m);
  }

  lemma GatherNew(models: seq<Model>, m: Model, keys: seq<PoolKey>, groups: map<PoolKey, Group>)
    requires Gathered(models, keys, groups) && Active(m) && KeyOf(m) !in groups
    ensures Gathered(models + [m], keys + [KeyOf(m)], groups[KeyOf(m) := Group(m, [m.name])])
  {
    var k := KeyOf(m);
    assert Names([m]) == [m.name];
    hide Members, Keys, Active, KeyOf, Names;
    KeysSnoc(models, m);
    MembersSnocActive(models, m);
    assert Members(models, k) == [];
    assert [] + [m] == [m];
    assert Members(models + [m], k) == [m];
    var groups' := groups[k := Group(m, [m.name])];
    forall l ensures l in groups' <==> |Members(models + [m], l)| > 0 {
      assert l in groups <==> |Members(models, l)| > 0;
    }
    forall l | l in groups' ensures groups'[l] == Group(Members(models + [m], l)[0], Names(Members(models + [m], l))) {
      assert l != k ==> l in groups;
    }
  }

  method GroupByPool(models: seq<Model>) returns (result: seq<Group>)
    ensures |result| == |Keys(models)|
    ensures forall i | 0 <= i < |result| :: IsGroupOf(models, Keys(models)[i], result[i])
  {
    var keys: seq<PoolKey> := [];
    var groups: map<PoolKey, Group> := map[];
    assert Gathered(models[..0], keys, groups);
    hide Gathered, Members, Keys, Active, KeyOf, Names;
    for i := 0 to |models|
      invariant Gathered(models[..i], keys, groups)
    {
      var m := models[i];
      assert models[..i + 1] == models[..i] + [m];
      if !Active(m) {
        GatherInactive(models[..i], m, keys, groups);
      } else {
        var k := KeyOf(m);
        if k in groups {
          GatherKnown(models[..i], m, keys, groups);
          groups := groups[k := groups[k].(names := groups[k].names + [m.name])];
        } else {
          GatherNew(models[..i], m, keys, groups);
          keys := keys + [k];
          groups := groups[k := Group(m, [m.name])];
        }
      }
    }
    assert models[..|models|] == models;
    GatheredKeys(models, keys, groups);
    result := SortGroups(models, keys, groups);
  }

  /** A gathered group with its names sorted is the group of its key. */
  lemma GatheredGroup(models: seq<Model>, keys: seq<PoolKey>, groups: map<PoolKey, Group>, k: PoolKey)
    requires Gathered(models, keys, groups) && k in keys
    ensures k in groups && IsGroupOf(models, k, groups[k].(names := SortNames(groups[k].names)))
  {
    KeysMeaning(models);
    SortNamesSorts(groups[k].names);
    hide Keys, Members, SortNames, StrLeq;
  }

  /** The groups in the order of their keys, each with its names in order. */
  method SortGroups(models: seq<Model>, keys: seq<PoolKey>, groups: map<PoolKey, Group>) returns (result: seq<Group>)
    requires Gathered(models, keys, groups)
    ensures |result| == |keys|
    ensures forall i | 0 <= i < |result| :: IsGroupOf(models, keys[i], result[i])
  {
    hide Gathered, IsGroupOf, SortNames;
    result := [];
    for i := 0 to |keys|
      invariant |result| == i
      invariant forall j | 0 <= j < i :: IsGroupOf(models, keys[j], result[j])
    {
      GatheredGroup(models, keys, groups, keys[i]);
      var g := groups[keys[i]];
      result := result + [g.(names := SortNames(g.names))];
    }
  }

  lemma NamesSnoc(members: seq<Model>, m: Model)
    ensures Names(members + [m]) == Names(members) + [m.name]
  {
  }

  function AllNames(groups: seq<Group>): multiset<string> {
    if groups == [] then multiset{} else AllNames(groups[..|groups| - 1]) + multiset(groups[|groups| - 1].names)
  }

  /** The names of the members of the first n keys. */
  function NamesUnder(models: seq<Model>, keys: seq<PoolKey>): multiset<string> {
    if keys == [] then multiset{}
    else NamesUnder(models, keys[..|keys| - 1]) + multiset(Names(Members(models, keys[|keys| - 1])))
  }

  lemma {:induction false} NamesUnderSnoc(models: seq<Model>, m: Model, keys: seq<PoolKey>)
    requires forall i, j | 0 <= i < j < |keys| :: keys[i] != keys[j]
    ensures NamesUnder(models + [m], keys)
         == NamesUnder(models, keys) + if Active(m) && KeyOf(m) in keys then multiset{m.name} else multiset{}
  {
    hide Members, KeyOf, Active, Names;
    if keys != [] {
      var n := |keys| - 1;
      NamesUnderSnoc(models, m, keys[..n]);
      MembersSnoc(models, m, keys[n]);
      NamesSnoc(Members(models, keys[n]), m);
      assert keys == keys[..n] + [keys[n]];
      if Active(m) && KeyOf(m) == keys[n] {
        assert KeyOf(m) !in keys[..n];
        var names := Names(Members(models, keys[n]));
        assert multiset(names + [m.name]) == multiset(names) + multiset{m.name};
      } else {
        assert KeyOf(m) in keys <==> KeyOf(m) in keys[..n] || KeyOf(m) == keys[n];
        assert Members(models + [m], keys[n]) == Members(models, keys[n]);
      }
    }
  }

  lemma OneName(m: Model)
    ensures Names([m]) == [m.name]
  {
  }

  lemma ActiveNamesSnoc(models: seq<Model>, m: Model)
    ensures ActiveNames(models + [m]) == ActiveNames(models) + if Active(m) then [m.name] else []
  {
    assert (models + [m])[..|models|] == models;
  }

  lemma {:induction false} KeysCoverNames(models: seq<Model>)
    ensures NamesUnder(models, Keys(models)) == multiset(ActiveNames(models))
  {
    if models != [] {
      var n := |models| - 1;
      assert models == models[..n] + [models[n]];
      KeysCoverNames(models[..n]);
      CoverNamesSnoc(models[..n], models[n]);
    }
  }

  lemma NamesUnderOneMore(models: seq<Model>, keys: seq<PoolKey>, k: PoolKey)
    ensures NamesUnder(models, keys + [k]) == NamesUnder(models, keys) + multiset(Names(Members(models, k)))
  {
    assert (keys + [k])[..|keys|] == keys;
  }

  lemma CoverNamesSnoc(before: seq<Model>, m: Model)
    requires NamesUnder(before, Keys(before)) == multiset(ActiveNames(before))
    ensures NamesUnder(before + [m], Keys(before + [m])) == multiset(ActiveNames(before + [m]))
  {
    KeysMeaning(before);
    hide Members, Keys, Active, KeyOf, Names, ActiveNames, NamesUnder;
    NamesUnderSnoc(before, m, Keys(before));
    KeysSnoc(before, m);
    ActiveNamesSnoc(before, m);
    if Active(m) && KeyOf(m) !in Keys(before) {
      NewKeyNames(before, m);
    }
  }

  /** A model of a new key adds its one name. */
  lemma NewKeyNames(before: seq<Model>, m: Model)
    requires Active(m) && Members(before, KeyOf(m)) == []
    ensures NamesUnder(before + [m], Keys(before) + [KeyOf(m)])
         == NamesUnder(before + [m], Keys(before)) + multiset{m.name}
  {
    hide Members, Keys, Active, KeyOf, Names, NamesUnder;
    MembersSnoc(before, m, KeyOf(m));
    assert [] + [m] == [m];
    OneName(m);
    NamesUnderOneMore(before + [m], Keys(before), KeyOf(m));
  }

  lemma {:induction false} GroupsCoverNames(models: seq<Model>, keys: seq<PoolKey>, groups: seq<Group>)
    requires |groups| == |keys| && forall i | 0 <= i < |groups| :: IsGroupOf(models, keys[i], groups[i])
    ensures AllNames(groups) == NamesUnder(models, keys)
  {
    if groups != [] {
      GroupsCoverNames(models, keys[..|keys| - 1], groups[..|groups| - 1]);
    }
  }

  /** Grouping partitions: no active model's name is lost or doubled, and distinct groups have distinct pools. */
  lemma GroupsPartition(models: seq<Model>, groups: seq<Group>)
    requires |groups| == |Keys(models)| && forall i | 0 <= i < |groups| :: IsGroupOf(models, Keys(models)[i], groups[i])
    ensures AllNames(groups) == multiset(ActiveNames(models))
    ensures forall i, j | 0 <= i < j < |groups| :: KeyOf(groups[i].quota) != KeyOf(groups[j].quota)
  {
    GroupsCoverNames(models, Keys(models), groups);
    KeysCoverNames(models);
    KeysMeaning(models);
    forall i | 0 <= i < |groups| ensures KeyOf(groups[i].quota) == Keys(models)[i] {
      MembersMeaning(models, Keys(models)[i]);
    }
  }

  /** The second a model's reset falls in, 0 without a reset. */
  function ResetSecond(m: Model): int {
    match m.resetAt case None => 0 case Some(t) => t / 1_000_000_000
  }

  /** Two models are grouped together exactly if both report a total or a use, and they agree on all four numbers. */
  lemma GroupedTogether(models: seq<Model>, a: Model, b: Model)
    requires a in models && b in models
    ensures (exists g :: 0 <= g < |Keys(models)| && a in Members(models, Keys(models)[g]) && b in Members(models, Keys(models)[g])) <==>
            && (a.total != 0 || a.used != 0) && (b.total != 0 || b.used != 0)
            && a.total == b.total && a.used == b.used && a.remain == b.remain && ResetSecond(a) == ResetSecond(b)
  {
    KeysMeaning(models);
    forall k ensures a in Members(models, k) <==> Active(a) && KeyOf(a) == k { MembersMeaning(models, k); }
    forall k ensures b in Members(models, k) <==> Active(b) && KeyOf(b) == k { MembersMeaning(models, k); }
    hide Keys, Members;
    if Active(a) {
      var i :| 0 <= i < |models| && models[i] == a;
      assert KeyOf(a) in Keys(models);
      var g :| 0 <= g < |Keys(models)| && Keys(models)[g] == KeyOf(a);
    }
  }

  /** The first active model of the snapshot with the key. */
  predicate FirstOf(models: seq<Model>, k: PoolKey, i: nat) {
    && i < |models| && Active(models[i]) && KeyOf(models[i]) == k
    && forall j | 0 <= j < i :: !(Active(models[j]) && KeyOf(models[j]) == k)
  }

  /** A group is represented by the first of its models, and the groups come in the order of those. */
  lemma {:induction false} FirstAppearance(models: seq<Model>, g: nat) returns (i: nat)
    requires g < |Keys(models)|
    ensures FirstOf(models, Keys(models)[g], i) && Members(models, Keys(models)[g]) != []
    ensures Members(models, Keys(models)[g])[0] == models[i]
  {
    var n := |models| - 1;
    var before := models[..n];
    KeysMeaning(before);
    KeysMeaning(models);
    if g < |Keys(before)| {
      i := FirstAppearance(before, g);
    } else {
      i := n;
      MembersMeaning(before, KeyOf(models[n]));
      assert Members(before, KeyOf(models[n])) == [];
    }
  }

  lemma {:induction false} GroupsInOrder(models: seq<Model>, g: nat, h: nat, i: nat, j: nat)
    requires g < h < |Keys(models)| && FirstOf(models, Keys(models)[g], i) && FirstOf(models, Keys(models)[h], j)
    ensures i < j
  {
    var n := |models| - 1;
    var before := models[..n];
    KeysMeaning(before);
    if h < |Keys(before)| {
      assert Keys(models)[g] == Keys(before)[g] && Keys(models)[h] == Keys(before)[h];
      var a := FirstAppearance(before, g);
      var b := FirstAppearance(before, h);
      assert before[a] == models[a] && before[b] == models[b];
      GroupsInOrder(before, g, h, i, j);
    } else {
      var a := FirstAppearance(before, g);
      assert before[a] == models[a];
      assert Keys(models)[h] == KeyOf(models[n]) && KeyOf(models[n]) !in Keys(before);
      assert forall k | 0 <= k < n && Active(models[k]) :: before[k] == models[k] && KeyOf(models[k]) in Keys(before);
    }
  }

  // ----- one pool -----

  /** Two models report the same pool; reset times may differ by up to a second. */
  predicate SamePool(a: Model, b: Model) {
    && a.total == b.total && a.used == b.used && a.remain == b.remain
    && (a.resetAt.Some? <==> b.resetAt.Some?)
    && (a.resetAt.Some? ==> -SECOND <= a.resetAt.value - b.resetAt.value <= SECOND)
  }

  method IsSharedQuota(models: seq<Model>) returns (shared: bool)
    ensures shared <==> |models| > 1 && forall i | 0 <= i < |models| :: SamePool(models[0], models[i])
  {
    if |models| <= 1 {
      return false;
    }
    var first := models[0];
    for i := 1 to |models|
      invariant forall j | 0 <= j < i :: SamePool(first, models[j])
    {
      var m := models[i];
      if m.total != first.total || m.used != first.used || m.remain != first.remain {
        return false;
      }
      if first.resetAt.Some? || m.resetAt.Some? {
        if first.resetAt.None? || m.resetAt.None? {
          return false;
        }
        var d := first.resetAt.value - m.resetAt.value;
        if (if d < 0 then -d else d) > SECOND {
          return false;
        }
      }
    }
    return true;
  }

  /** Models of one key differ at most in having a reset time. */
  lemma SameKey(a: Model, b: Model)
    requires KeyOf(a) == KeyOf(b)
    ensures SamePool(a, b) <==> a.resetAt.Some? == b.resetAt.Some?
    ensures a.resetAt.Some? && a.resetAt.value / SECOND != 0 ==> b.resetAt.Some?
  {
  }

  /** An inactive model never shares a pool with an active one. */
  lemma ActivityDiffers(a: Model, b: Model)
    requires Active(a) != Active(b)
    ensures !SamePool(a, b)
  {
  }

  /**
    When the active ones of two or more models fall in one group, the quota is shared exactly when all models are
    active, and all or none of them have a reset time. A reset in the first second of the epoch is what can mix the two.
   */
  lemma OneGroupIsShared(models: seq<Model>)
    requires |models| > 1 && |Keys(models)| == 1
    ensures (forall i | 0 <= i < |models| :: SamePool(models[0], models[i])) <==>
            forall i | 0 <= i < |models| :: Active(models[i]) && models[i].resetAt.Some? == models[0].resetAt.Some?
    ensures (forall m | m in models :: Active(m) && (m.resetAt.Some? ==> m.resetAt.value / SECOND != 0))
            ==> forall i | 0 <= i < |models| :: SamePool(models[0], models[i])
  {
    KeysMeaning(models);
    var k := Keys(models)[0];
    assert k in Keys(models);
    var a :| 0 <= a < |models| && Active(models[a]) && KeyOf(models[a]) == k;
    hide Keys, KeyOf, SamePool, Members;
    forall i | 0 <= i < |models| && Active(models[i])
      ensures KeyOf(models[i]) == k
    {
      assert KeyOf(models[i]) in Keys(models);
    }
    forall i | 0 <= i < |models| && Active(models[0]) && Active(models[i])
      ensures SamePool(models[0], models[i]) <==> models[i].resetAt.Some? == models[0].resetAt.Some?
      ensures models[0].resetAt.Some? && models[0].resetAt.value / SECOND != 0 ==> models[i].resetAt.Some?
      ensures models[i].resetAt.Some? && models[i].resetAt.value / SECOND != 0 ==> models[0].resetAt.Some?
    {
      SameKey(models[0], models[i]);
      SameKey(models[i], models[0]);
    }
    forall i | 0 <= i < |models| && Active(models[0]) != Active(models[i]) ensures !SamePool(models[0], models[i]) {
      ActivityDiffers(models[0], models[i]);
    }
    assert models[0] in models && models[a] in models;
  }

  /** A model without reset time and one that resets in the first second of the epoch: one group, no shared quota. */
  lemma MixedGroup()
    ensures exists models: seq<Model> ::
              && |models| == 2 && |Keys(models)| == 1 && (forall m | m in models :: Active(m))
              && !SamePool(models[0], models[1])
  {
    var a, b := Model("a", 1, 1, 0, None), Model("b", 1, 1, 0, Some(0));
    assert [a][..0] == [] && [a, b][..1] == [a];
    assert Keys([a]) == [KeyOf(a)];
    assert Keys([a, b]) == [KeyOf(a)];
    assert [a, b][0] == a && [a, b][1] == b;
  }
}
