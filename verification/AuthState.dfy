/** The effective-state reader and the paged look-ups of auth_service.py. */
module AuthState {
  import opened Text
  import opened Provisioning
  import opened Cognito
  import opened Executor
  import opened ExecutorInvariant
  import opened ExecutorTheorems
  import ExecutorCalls

  // ------------------------------------------------ reader of the effective record

  /** The profile fields the reader may replace; `rest` is everything else. */
  datatype Profile = Profile(
    status: string, issuer: string, hostedUiDomain: string, clientId: string, audiences: seq<string>,
    jwksUrl: string, userPoolId: string, rest: map<string, string>)

  function TrimSlashes(s: string): string {
    if s != "" && s[|s| - 1] == '/' then TrimSlashes(s[..|s| - 1]) else s
  }

  function JwksUrl(issuer: string): string { TrimSlashes(issuer) + "/.well-known/jwks.json" }

  /** `_profile_with_effective_auth_state`, for a plan that could be computed. */
  function ProfileWithEffectiveState(profile: Profile, configHash: string, state: Effective): Profile {
    if state.Unset? || state.auth.configHash != configHash then profile
    else
      var clientId, issuer, domain :=
        Strip(state.auth.clientId), Strip(state.auth.issuer), Strip(state.auth.hostedUiDomain);
      if clientId == "" || issuer == "" || domain == "" then profile
      else Profile("active", issuer, domain, clientId, [clientId], JwksUrl(issuer), Strip(state.auth.userPoolId),
        profile.rest)
  }

  lemma PoolUrlPresent(plan: Plan, poolId: string)
    requires Present(poolId)
    ensures Present(PoolUrl(plan, poolId))
  {
    var u := PoolUrl(plan, poolId);
    assert u[0] == 'h';
    assert u[|u| - 1] == poolId[|poolId| - 1];
  }

  /** The profile with the plan's pool, client and domain in place of its own. */
  function Overlaid(plan: Plan, profile: Profile, pool: string, client: string): Profile {
    profile.(
      status := "active", issuer := PoolUrl(plan, pool), hostedUiDomain := DomainUrl(plan), clientId := client,
      audiences := [client], jwksUrl := JwksUrl(PoolUrl(plan, pool)), userPoolId := pool)
  }

  lemma OverlayOf(plan: Plan, profile: Profile, pool: string, client: string)
    requires Present(pool) && Present(client)
    ensures ProfileWithEffectiveState(profile, plan.configHash, Set(Activated(plan, pool, client)))
      == Overlaid(plan, profile, pool, client)
  {
    hide PoolUrl, DomainUrl, JwksUrl, IsSpace, Strip;
    PoolUrlPresent(plan, pool);
    ExecutorCalls.DomainUrlTrimmed(plan);
  }

  /**
   * A reader sees the plan's own pool, client and domain when a record is there and its configuration is the
   * applied one, and its own profile otherwise.
   */
  lemma ReaderSeesOurResources(plan: Plan, ops: seq<Op>, s: State, profile: Profile, configHash: string)
    requires Reachable(plan, ops, s)
    ensures
      var seen := ProfileWithEffectiveState(profile, configHash, s.effective);
      if s.effective.Set? && configHash == plan.configHash then
        var pool, client := s.effective.auth.userPoolId, s.effective.auth.clientId;
        && OurPool(plan, s.directory, pool) && OurClient(plan, s.directory, client)
        && s.directory.clients[client].poolId == pool && seen == Overlaid(plan, profile, pool, client)
      else seen == profile
  {
    hide Reachable, Overlaid, Mine, MyClient, Present, Strip, PoolUrl, DomainUrl;
    if s.effective.Set? {
      EffectiveIsOurs(plan, ops, s);
      OverlayOf(plan, profile, s.effective.auth.userPoolId, s.effective.auth.clientId);
    }
  }

  /** With acknowledged final puts, these are the pool and the client that the succeeded operations recorded. */
  lemma ReaderSeesRecordedResources(plan: Plan, ops: seq<Op>, s: State, profile: Profile)
    requires ReachableInOrder(plan, ops, s) && s.effective.Set?
    ensures forall op | op in ops :: Finished(s.table, op)
    ensures ProfileWithEffectiveState(profile, plan.configHash, s.effective)
      == Overlaid(plan, profile, PoolOf(s.table), ClientOf(s.table))
  {
    ReachableInOrderKeeps(plan, ops, s);
    hide Reachable, ReachableInOrder, Inv, ProfileWithEffectiveState, PoolOf, ClientOf, OurPool, OurClient, PoolUrl;
    ReaderSeesOurResources(plan, ops, s, profile, plan.configHash);
    EffectiveIsRecorded(plan, ops, s);
  }

  // ------------------------------------------------------------- paged listings

  datatype Listed = Listed(name: string, id: string)
  datatype Search = Missing | One(id: string) | Many | NotOurs

  /** All entries of all pages. */
  function Flatten<T>(pages: seq<seq<T>>): seq<T> {
    if pages == [] then [] else pages[0] + Flatten(pages[1..])
  }

  /** The ids of the entries of a name that have one, in listing order. */
  function IdsNamed(entries: seq<Listed>, name: string): seq<string> {
    if entries == [] then []
    else
      var head := if entries[0].name == name && Strip(entries[0].id) != "" then [Strip(entries[0].id)] else [];
      head + IdsNamed(entries[1..], name)
  }

  lemma {:induction false} IdsNamedAppend(xs: seq<Listed>, ys: seq<Listed>, name: string)
    ensures IdsNamed(xs + ys, name) == IdsNamed(xs, name) + IdsNamed(ys, name)
  {
    hide Strip;
    if xs == [] {
      assert xs + ys == ys;
    } else {
      assert (xs + ys)[1..] == xs[1..] + ys;
      IdsNamedAppend(xs[1..], ys, name);
    }
  }

  lemma {:induction false} FlattenTake<T>(pages: seq<seq<T>>, n: nat)
    requires n < |pages|
    ensures Flatten(pages[..n + 1]) == Flatten(pages[..n]) + pages[n]
  {
    if n == 0 {
      assert pages[..1] == [pages[0]];
      assert pages[..1][1..] == [];
    } else {
      FlattenTake(pages[1..], n - 1);
      assert pages[..n + 1][1..] == pages[1..][..n];
      assert pages[..n][1..] == pages[1..][..n - 1];
    }
  }

  /** One page of the listing. */
  method MatchesOnPage(page: seq<Listed>, name: string, before: seq<string>) returns (matches: seq<string>)
    ensures matches == before + IdsNamed(page, name)
  {
    hide Strip;
    matches := before;
    for i := 0 to |page|
      invariant matches == before + IdsNamed(page[..i], name)
    {
      assert page[..i + 1] == page[..i] + [page[i]];
      IdsNamedAppend(page[..i], [page[i]], name);
      if page[i].name == name && Strip(page[i].id) != "" {
        matches := matches + [Strip(page[i].id)];
      }
    }
    assert page[..|page|] == page;
  }

  /** `_find_cognito_user_pool_client_by_name`: however the listing is cut into pages, the answer is about all of it. */
  method FindByName(pages: seq<seq<Listed>>, name: string) returns (found: Search)
    ensures
      var ids := IdsNamed(Flatten(pages), name);
      found == if |ids| > 1 then Many else if ids == [] then Missing else One(ids[0])
  {
    var matches: seq<string> := [];
    var n := 0;
    while n < |pages|
      invariant n <= |pages|
      invariant matches == IdsNamed(Flatten(pages[..n]), name)
    {
      matches := MatchesOnPage(pages[n], name, matches);
      FlattenTake(pages, n);
      IdsNamedAppend(Flatten(pages[..n]), pages[n], name);
      n := n + 1;
    }
    assert pages[..n] == pages;
    if |matches| > 1 {
      return Many;
    }
    found := if matches == [] then Missing else One(matches[0]);
  }

  /**
   * `_find_cognito_user_pool_by_name`: a single match must carry the plan's four tags. `tags` holds the tags
   * of the pools that can be described with an ARN.
   */
  method FindUserPool(pages: seq<seq<Listed>>, name: string, tags: map<string, Tags>, expected: Tags)
      returns (found: Search)
    ensures
      var ids := IdsNamed(Flatten(pages), name);
      found ==
        if |ids| > 1 then Many
        else if ids == [] then Missing
        else if ids[0] in tags && tags[ids[0]] == expected then One(ids[0]) else NotOurs
  {
    found := FindByName(pages, name);
    if found.One? && !(found.id in tags && tags[found.id] == expected) {
      found := NotOurs;
    }
  }

  /** The pages of a listing of all pools of a directory, in any order: each pool is listed once. */
  ghost predicate ListsPools(c: Directory, entries: seq<Listed>) {
    && (forall e | e in entries :: Present(e.id) && e.id in c.pools && c.pools[e.id].name == e.name)
    && (forall p | p in c.pools :: exists e | e in entries :: e.id == p)
    && (forall i, j | 0 <= i < j < |entries| :: entries[i].id != entries[j].id)
  }

  lemma {:induction false} IdsNamedMembers(entries: seq<Listed>, name: string, id: string)
    requires forall e | e in entries :: Present(e.id)
    ensures id in IdsNamed(entries, name) <==> exists e | e in entries :: e.id == id && e.name == name
  {
    hide Strip, Present;
    if entries != [] {
      assert Strip(entries[0].id) == entries[0].id != "" by { PresentStripped(entries[0].id); }
      IdsNamedMembers(entries[1..], name, id);
      assert forall e :: e in entries <==> e == entries[0] || e in entries[1..];
    }
  }

  lemma PresentStripped(s: string)
    requires Present(s)
    ensures Strip(s) == s != ""
  {
  }

  lemma {:induction false} IdsNamedDistinct(entries: seq<Listed>, name: string)
    requires forall e | e in entries :: Present(e.id)
    requires forall i, j | 0 <= i < j < |entries| :: entries[i].id != entries[j].id
    ensures |IdsNamed(entries, name)| == |set id | id in IdsNamed(entries, name)|
  {
    hide Strip, Present;
    if entries != [] {
      var rest := IdsNamed(entries[1..], name);
      IdsNamedDistinct(entries[1..], name);
      PresentStripped(entries[0].id);
      var all := set id | id in IdsNamed(entries, name);
      if entries[0].name == name {
        IdsNamedMembers(entries[1..], name, entries[0].id);
        assert IdsNamed(entries, name) == [entries[0].id] + rest;
        assert all == {entries[0].id} + set id | id in rest;
      } else {
        assert IdsNamed(entries, name) == rest;
      }
    }
  }

  /** The paged search finds exactly the directory's pools of that name. */
  lemma SearchFindsPools(c: Directory, entries: seq<Listed>, name: string)
    requires ListsPools(c, entries)
    ensures (set id | id in IdsNamed(entries, name) :: id) == PoolsNamed(c, name)
    ensures |IdsNamed(entries, name)| == |PoolsNamed(c, name)|
  {
    hide IdsNamed, Present;
    IdsNamedDistinct(entries, name);
    forall id ensures id in IdsNamed(entries, name) <==> id in PoolsNamed(c, name) {
      IdsNamedMembers(entries, name, id);
    }
    assert (set id | id in IdsNamed(entries, name)) == PoolsNamed(c, name);
  }

  /** What the executor's single search step makes of the ids found. */
  lemma SearchDecides(plan: Plan, c: Directory, ids: seq<string>)
    requires plan.expectedPoolId == "" && (set id | id in ids :: id) == PoolsNamed(c, plan.poolName)
    requires |ids| == |PoolsNamed(c, plan.poolName)|
    ensures
      CallUserPool(plan, map[], Begin, c, "") == Reply(c,
        if |ids| > 1 then Raise
        else if ids == [] then Continue(Create)
        else if c.pools[ids[0]].tags == plan.tags then Return(PoolOutputs(plan, ids[0])) else Raise)
  {
    hide PoolOutputs, NewPool, Strip, PoolsNamed;
    var matches := PoolsNamed(c, plan.poolName);
    if |ids| == 1 {
      assert ids[0] in set id | id in ids :: id;
      SingletonIsUnique(matches);
    }
  }

  lemma NamedArePools(c: Directory, name: string, ids: seq<string>)
    requires (set id | id in ids :: id) == PoolsNamed(c, name)
    ensures forall id | id in ids :: id in c.pools
  {
    forall id | id in ids ensures id in c.pools { assert id in PoolsNamed(c, name); }
  }

  /** So the loop over pages decides exactly what the executor's single search step decides. */
  method SearchForPool(plan: Plan, c: Directory, pages: seq<seq<Listed>>) returns (found: Search)
    requires ListsPools(c, Flatten(pages)) && plan.expectedPoolId == ""
    ensures
      CallUserPool(plan, map[], Begin, c, "") == Reply(c,
        match found
        case Missing => Continue(Create)
        case One(p) => Return(PoolOutputs(plan, p))
        case _ => Raise)
  {
    hide ListsPools, PoolOutputs, NewPool, CallUserPool, IdsNamed, PoolsNamed, Flatten;
    ghost var ids := IdsNamed(Flatten(pages), plan.poolName);
    SearchFindsPools(c, Flatten(pages), plan.poolName);
    NamedArePools(c, plan.poolName, ids);
    SearchDecides(plan, c, ids);
    found := FindUserPool(pages, plan.poolName, map p | p in c.pools :: c.pools[p].tags, plan.tags);
  }

  // -------------------------------------------------------------------- groups

  /** The names of `desired` outside `existing`, in order and with repetitions. */
  function Absent(desired: seq<string>, existing: set<string>): seq<string> {
    if desired == [] then []
    else (if desired[0] in existing then [] else [desired[0]]) + Absent(desired[1..], existing)
  }

  lemma {:induction false} AbsentAppend(xs: seq<string>, g: string, existing: set<string>)
    ensures Absent(xs + [g], existing) == Absent(xs, existing) + (if g in existing then [] else [g])
  {
    if xs == [] {
      assert xs + [g] == [g];
    } else {
      assert (xs + [g])[1..] == xs[1..] + [g];
      AbsentAppend(xs[1..], g, existing);
    }
  }

  /** The missing names that are wanted more than once. */
  function Repeated(desired: seq<string>, existing: set<string>): set<string> {
    set i, j | 0 <= i < j < |desired| && desired[i] == desired[j] && desired[i] !in existing :: desired[i]
  }

  /** Among the first `n` names none that is missing comes twice. */
  predicate Unrepeated(desired: seq<string>, existing: set<string>, n: nat)
    requires n <= |desired|
  {
    forall a, b | 0 <= a < b < n :: desired[a] == desired[b] ==> desired[a] in existing
  }

  /** The loop gets exactly this far. */
  predicate StopsAt(desired: seq<string>, existing: set<string>, stop: nat, raised: bool)
    requires stop <= |desired|
  {
    && Unrepeated(desired, existing, stop) && raised == (stop < |desired|)
    && (raised ==> !Unrepeated(desired, existing, stop + 1))
  }

  /** Stopping before a name that was created above leaves fewer repeated names. */
  lemma Stops(desired: seq<string>, existing: set<string>, i: nat)
    requires i < |desired| && Unrepeated(desired, existing, i) && desired[i] !in existing && desired[i] in desired[..i]
    ensures !Unrepeated(desired, existing, i + 1)
    ensures desired[i] in Repeated(desired, existing)
    ensures Repeated(desired, existing + set g | g in desired[..i]) < Repeated(desired, existing)
  {
    var a :| 0 <= a < i && desired[..i][a] == desired[i];
    assert desired[a] == desired[i];
    var more := existing + set g | g in desired[..i];
    assert desired[i] !in Repeated(desired, more);
    assert Repeated(desired, more) <= Repeated(desired, existing);
  }

  /** One user pool's groups, as the group operation changes them. */
  class GroupDirectory {
    var groups: set<string>

    constructor (groups: set<string>)
      ensures this.groups == groups
    {
      this.groups := groups;
    }

    /** `create_group` refuses a name that exists. */
    method CreateGroup(name: string) returns (created: bool)
      modifies this
      ensures created == (name !in old(groups)) && groups == old(groups) + {name}
    {
      created := name !in groups;
      groups := groups + {name};
    }

    /**
     * `_ensure_cognito_user_groups`: it stops before the first name that it has created itself, so it raises
     * exactly when a missing group is wanted twice. What it created until then stays, so every retry finds
     * fewer such names.
     */
    method EnsureUserGroups(desired: seq<string>) returns (raised: bool, created: seq<string>)
      modifies this
      ensures exists stop | 0 <= stop <= |desired| ::
        StopsAt(desired, old(groups), stop, raised) && created == Absent(desired[..stop], old(groups))
        && groups == old(groups) + (set g | g in desired[..stop])
      ensures raised <==> Repeated(desired, old(groups)) != {}
      ensures raised ==> Repeated(desired, groups) < Repeated(desired, old(groups))
      ensures !raised ==> created == Absent(desired, old(groups)) && groups == old(groups) + set g | g in desired
    {
      var existing := groups;
      created := [];
      assert Absent(desired[..0], existing) == [];
      hide Absent;
      for i := 0 to |desired|
        invariant groups == existing + set g | g in desired[..i]
        invariant created == Absent(desired[..i], existing)
        invariant Unrepeated(desired, existing, i)
      {
        var name := desired[i];
        assert desired[..i + 1] == desired[..i] + [name];
        AbsentAppend(desired[..i], name, existing);
        if name !in existing {
          var isNew := CreateGroup(name);
          if !isNew {
            Stops(desired, existing, i);
            assert StopsAt(desired, existing, i, true);
            return true, created;
          }
          created := created + [name];
        }
      }
      assert desired[..|desired|] == desired;
      assert StopsAt(desired, existing, |desired|, false);
      raised := false;
    }
  }
}
