/** The part of Amazon Cognito the executor changes, and the operations of auth_service.py as API calls. */
module Cognito {
  import opened Text
  import opened Provisioning

  /** A user pool; `attributes` holds schema names as Cognito reports them. */
  datatype Pool = Pool(
    name: string, tags: Tags, attributes: set<string>, mfa: string, totp: bool,
    groups: set<string>, identityProviders: set<string>)

  datatype Client = Client(poolId: string, name: string, hasSecret: bool, identityProviders: seq<string>)

  datatype Directory = Directory(
    pools: map<string, Pool>, clients: map<string, Client>, domains: map<string, string>)

  // ------------------------------------------------------------ listings

  /** The pools a name search finds. */
  function PoolsNamed(c: Directory, name: string): set<string> {
    set p | p in c.pools && c.pools[p].name == name
  }

  /** The clients of one pool a name search finds. */
  function ClientsNamed(c: Directory, poolId: string, name: string): set<string> {
    set i | i in c.clients && c.clients[i].poolId == poolId && c.clients[i].name == name
  }

  // ------------------------------------------------- one API call at a time

  /** Where inside an operation its executor stands between two API calls. */
  datatype Phase =
    | Begin
    | Create                                                          // the look-up found nothing
    | GroupLoop(existing: set<string>, created: seq<string>, next: nat)
    | ProviderLoop(names: seq<string>, next: nat)

  datatype Outcome = Continue(phase: Phase) | Return(outputs: Outputs) | Raise

  datatype Reply = Reply(directory: Directory, outcome: Outcome)

  function TextOf(outputs: Outputs, k: Key): (r: string)
    ensures r == "" || Present(r)
  {
    if k in outputs && outputs[k].Text? then Strip(outputs[k].text) else ""
  }

  /** Some required output of `op` is missing or blank. */
  predicate Lacks(op: Op, outputs: Outputs) {
    exists k | k in Reads(op) :: TextOf(outputs, k) == ""
  }

  function PoolUrl(plan: Plan, poolId: string): string {
    "https://cognito-idp." + plan.region + ".amazonaws.com/" + poolId
  }

  function DomainUrl(plan: Plan): string {
    "https://" + plan.domainPrefix + ".auth." + plan.region + ".amazoncognito.com"
  }

  function MfaSetting(mode: string): string {
    if mode == "optional" then "OPTIONAL" else if mode == "required" then "ON" else "OFF"
  }

  function PoolOutputs(plan: Plan, poolId: string): Outputs {
    map[UserPoolId := Text(poolId), Issuer := Text(PoolUrl(plan, poolId))]
  }

  function DomainOutputs(plan: Plan): Outputs {
    map[HostedUiDomainPrefix := Text(plan.domainPrefix), HostedUiDomainUrl := Text(DomainUrl(plan))]
  }

  function ClientOutputs(clientId: string): Outputs {
    map[UserPoolClientId := Text(clientId), ClientId := Text(clientId)]
  }

  function ActivationOutputs(plan: Plan, poolId: string, clientId: string, domain: string): Outputs {
    map[Activation := Record(map[
      ActivationStatus := Text("active"), Issuer := Text(PoolUrl(plan, poolId)),
      ClientId := Text(clientId), HostedUiDomainUrl := Text(domain)])]
  }

  function SocialNames(providers: seq<Provider>): seq<string> {
    if providers == [] then []
    else (if providers[0].enabled then [providers[0].name] else []) + SocialNames(providers[1..])
  }

  function NewPool(plan: Plan): Pool {
    Pool(plan.poolName, plan.tags,
      if plan.environmentAttribute == "" then {} else {"custom:" + plan.environmentAttribute}, "OFF", false, {}, {})
  }

  function NewClient(plan: Plan, poolId: string): Client {
    Client(poolId, plan.clientName, false, ["COGNITO"])
  }

  /** `_update_cognito_public_client`; it raises when the client is unknown in that pool. */
  function UpdateClient(c: Directory, poolId: string, clientId: string, providers: seq<string>, done: Outputs): Reply {
    if clientId in c.clients && c.clients[clientId].poolId == poolId then
      Reply(c.(clients := c.clients[clientId := c.clients[clientId].(identityProviders := providers)]), Return(done))
    else Reply(c, Raise)
  }

  function CallUserPool(plan: Plan, outputs: Outputs, phase: Phase, c: Directory, freshId: string): Reply {
    var known := if TextOf(outputs, UserPoolId) != "" then TextOf(outputs, UserPoolId) else plan.expectedPoolId;
    if phase == Create then
      Reply(c.(pools := c.pools[freshId := NewPool(plan)]), Return(PoolOutputs(plan, freshId)))
    else if known != "" then
      Reply(c, if known in c.pools then Return(map[UserPoolId := Text(known)]) else Raise)
    else
      var matches := PoolsNamed(c, plan.poolName);
      if |matches| > 1 then Reply(c, Raise)
      else if matches == {} then Reply(c, Continue(Create))
      else
        SingletonIsUnique(matches);
        var p :| p in matches;
        Reply(c, if c.pools[p].tags == plan.tags then Return(PoolOutputs(plan, p)) else Raise)
  }

  lemma SingletonIsUnique<T>(s: set<T>)
    requires s != {} && |s| <= 1
    ensures exists x | x in s :: s == {x}
    ensures forall x, y | x in s && y in s :: x == y
  {
    var x :| x in s;
    assert |s - {x}| == 0;
    assert s == {x};
  }

  function CallEnvironmentAttribute(plan: Plan, poolId: string, phase: Phase, c: Directory): Reply {
    var name := plan.environmentAttribute;
    var done := map[UserEnvironmentAttribute := Text(name)];
    if name == "" then Reply(c, Return(map[]))
    else if poolId !in c.pools then Reply(c, Raise)
    else if phase == Create then
      var pool := c.pools[poolId];
      Reply(c.(pools := c.pools[poolId := pool.(attributes := pool.attributes + {"custom:" + name})]), Return(done))
    else if name in c.pools[poolId].attributes || "custom:" + name in c.pools[poolId].attributes then
      Reply(c, Return(done))
    else Reply(c, Continue(Create))
  }

  function CallMfaConfig(plan: Plan, poolId: string, c: Directory): Reply {
    if poolId !in c.pools then Reply(c, Raise)
    else
      var pool := c.pools[poolId].(mfa := MfaSetting(plan.mfaMode), totp := plan.totpEnabled);
      Reply(c.(pools := c.pools[poolId := pool]),
        Return(map[MfaConfiguration := Text(MfaSetting(plan.mfaMode)),
          SoftwareTokenMfaEnabled := Flag(plan.totpEnabled)]))
  }

  function CallHostedUiDomain(plan: Plan, poolId: string, phase: Phase, c: Directory): Reply {
    var prefix := plan.domainPrefix;
    if prefix == "" then Reply(c, Raise)
    else if phase == Create then
      if prefix in c.domains then Reply(c, Raise)
      else Reply(c.(domains := c.domains[prefix := poolId]), Return(DomainOutputs(plan)))
    else if prefix !in c.domains then Reply(c, Continue(Create))
    else Reply(c, if c.domains[prefix] == poolId then Return(DomainOutputs(plan)) else Raise)
  }

  function CallPublicClient(
      plan: Plan, outputs: Outputs, poolId: string, phase: Phase, c: Directory, freshId: string): Reply {
    var known := TextOf(outputs, UserPoolClientId);
    var matches := ClientsNamed(c, poolId, plan.clientName);
    if phase == Create then
      Reply(c.(clients := c.clients[freshId := NewClient(plan, poolId)]), Return(ClientOutputs(freshId)))
    else if known == "" && poolId !in c.pools then Reply(c, Raise)
    else if known == "" && |matches| > 1 then Reply(c, Raise)
    else if known == "" && matches == {} then Reply(c, Continue(Create))
    else
      var id := if known != "" then known else (SingletonIsUnique(matches); var m :| m in matches; m);
      if id !in c.clients || c.clients[id].hasSecret then Reply(c, Raise)
      else UpdateClient(c, poolId, id, ["COGNITO"], ClientOutputs(id))
  }

  function CallUserGroups(plan: Plan, poolId: string, phase: Phase, c: Directory): Reply {
    if poolId !in c.pools then Reply(c, Raise)
    else if !phase.GroupLoop? then Reply(c, Continue(GroupLoop(c.pools[poolId].groups, [], 0)))
    else if phase.next >= |plan.groups| then
      Reply(c, Return(map[Groups := Texts(plan.groups), CreatedGroups := Texts(phase.created)]))
    else
      var g, pool := plan.groups[phase.next], c.pools[poolId];
      if g in phase.existing then Reply(c, Continue(GroupLoop(phase.existing, phase.created, phase.next + 1)))
      else if g in pool.groups then Reply(c, Raise)
      else Reply(c.(pools := c.pools[poolId := pool.(groups := pool.groups + {g})]),
        Continue(GroupLoop(phase.existing, phase.created + [g], phase.next + 1)))
  }

  function CallSocialProviders(plan: Plan, poolId: string, clientId: string, phase: Phase, c: Directory): Reply {
    if poolId !in c.pools then Reply(c, Raise)
    else if !phase.ProviderLoop? then Reply(c, Continue(ProviderLoop([], 0)))
    else if phase.next >= |plan.providers| then
      UpdateClient(c, poolId, clientId, ["COGNITO"] + SocialNames(plan.providers),
        map[IdentityProviders := Texts(phase.names)])
    else
      var p, pool := plan.providers[phase.next], c.pools[poolId];
      if !p.enabled then Reply(c, Continue(ProviderLoop(phase.names, phase.next + 1)))
      else Reply(c.(pools := c.pools[poolId := pool.(identityProviders := pool.identityProviders + {p.name})]),
        Continue(ProviderLoop(phase.names + [p.name], phase.next + 1)))
  }

  /** One API call of `_execute_cognito_operation`; `freshId` is the id a create would return. */
  function Call(plan: Plan, op: Op, outputs: Outputs, phase: Phase, c: Directory, freshId: string): Reply {
    var poolId := TextOf(outputs, UserPoolId);
    if op == EnvironmentAttribute && plan.environmentAttribute == "" then Reply(c, Return(map[]))
    else if Lacks(op, outputs) then Reply(c, Raise)
    else
      match op
      case UserPool => CallUserPool(plan, outputs, phase, c, freshId)
      case EnvironmentAttribute => CallEnvironmentAttribute(plan, poolId, phase, c)
      case MfaConfig => CallMfaConfig(plan, poolId, c)
      case HostedUiDomain => CallHostedUiDomain(plan, poolId, phase, c)
      case PublicClient => CallPublicClient(plan, outputs, poolId, phase, c, freshId)
      case UserGroups => CallUserGroups(plan, poolId, phase, c)
      case SocialProviders => CallSocialProviders(plan, poolId, TextOf(outputs, UserPoolClientId), phase, c)
      case Finalize => Reply(c, Return(ActivationOutputs(
          plan, poolId, TextOf(outputs, UserPoolClientId), TextOf(outputs, HostedUiDomainUrl))))
  }

  /** `freshId` can be the id of a new resource. */
  predicate Fresh(c: Directory, freshId: string) {
    Present(freshId) && freshId !in c.pools && freshId !in c.clients
  }

}
