/** What one API call of a lock holder does to the directory, and what it hands back. */
module ExecutorCalls {
  import opened Text
  import opened Provisioning
  import opened Cognito
  import opened Executor
  import opened ExecutorInvariant

  lemma DomainUrlTrimmed(plan: Plan)
    ensures Present(DomainUrl(plan))
  {
    var u := DomainUrl(plan);
    assert u[0] == 'h';
    assert u[|u| - 1] == 'm';
  }

  /** A required output that is there is the plan's own. */
  lemma ReadsRight(plan: Plan, c: Directory, outputs: Outputs)
    requires AllRight(plan, c, outputs)
    ensures UserPoolId in outputs ==> OurPool(plan, c, TextOf(outputs, UserPoolId))
    ensures UserPoolClientId in outputs ==> OurClient(plan, c, TextOf(outputs, UserPoolClientId))
    ensures HostedUiDomainUrl in outputs ==> TextOf(outputs, HostedUiDomainUrl) == DomainUrl(plan) != ""
    ensures UserPoolId !in outputs ==> TextOf(outputs, UserPoolId) == ""
    ensures UserPoolClientId !in outputs ==> TextOf(outputs, UserPoolClientId) == ""
  {
    DomainUrlTrimmed(plan);
    hide DomainUrl, Mine, MyClient, IsSpace;
    if UserPoolId in outputs { assert Right(plan, c, UserPoolId, outputs[UserPoolId]); }
    if UserPoolClientId in outputs { assert Right(plan, c, UserPoolClientId, outputs[UserPoolClientId]); }
    if HostedUiDomainUrl in outputs { assert Right(plan, c, HostedUiDomainUrl, outputs[HostedUiDomainUrl]); }
  }

  /** What must hold after one call of a holder of `op`. */
  ghost predicate CallOk(plan: Plan, op: Op, c: Directory, reply: Reply) {
    && Tidy(plan, reply.directory) && Keeps(plan, c, reply.directory)
    && (op != UserPool ==> PoolsNamed(reply.directory, plan.poolName) == PoolsNamed(c, plan.poolName))
    && (op != PublicClient ==> forall i :: MyClient(plan, reply.directory, i) <==> MyClient(plan, c, i))
    && match reply.outcome
       case Return(o) => AllRight(plan, reply.directory, o) && Provides(op, o)
       case Continue(next) => Seen(plan, op, next, reply.directory)
       case Raise => true
  }

  // ------------------------------------------------- directories that agree

  /** The directories agree on everything but attributes, groups, settings and provider lists. */
  predicate SameIdentities(c: Directory, d: Directory) {
    && c.pools.Keys == d.pools.Keys && c.clients.Keys == d.clients.Keys && c.domains == d.domains
    && (forall p | p in c.pools :: c.pools[p].name == d.pools[p].name && c.pools[p].tags == d.pools[p].tags)
    && (forall i | i in c.clients :: c.clients[i].(identityProviders := []) == d.clients[i].(identityProviders := []))
  }

  /** What two directories must agree on for the plan to see no difference. */
  ghost predicate Alike(plan: Plan, c: Directory, d: Directory) {
    && Tidy(plan, d) && Keeps(plan, c, d)
    && PoolsNamed(d, plan.poolName) == PoolsNamed(c, plan.poolName)
    && (forall i :: MyClient(plan, d, i) <==> MyClient(plan, c, i))
  }

  lemma SameIdentitiesAlike(plan: Plan, c: Directory, d: Directory)
    requires SameIdentities(c, d) && Tidy(plan, c)
    ensures Alike(plan, c, d)
  {
    hide Present;
    forall i ensures MyClient(plan, c, i) <==> MyClient(plan, d, i) {
      if i in c.clients { assert c.clients[i].(identityProviders := []) == d.clients[i].(identityProviders := []); }
    }
    forall i | MyClient(plan, d, i)
      ensures !d.clients[i].hasSecret && d.clients[i].poolId == c.clients[i].poolId
    {
      assert MyClient(plan, c, i);
      assert c.clients[i].(identityProviders := []) == d.clients[i].(identityProviders := []);
    }
    assert forall p :: OurPool(plan, c, p) <==> OurPool(plan, d, p);
  }

  lemma PoolUpdated(plan: Plan, c: Directory, p: string, pool: Pool)
    requires Tidy(plan, c) && p in c.pools && pool.name == c.pools[p].name && pool.tags == c.pools[p].tags
    ensures Alike(plan, c, c.(pools := c.pools[p := pool]))
  {
    hide Tidy;
    SameIdentitiesAlike(plan, c, c.(pools := c.pools[p := pool]));
  }

  lemma ClientUpdated(plan: Plan, c: Directory, poolId: string, i: string, providers: seq<string>, done: Outputs)
    requires Tidy(plan, c)
    ensures Alike(plan, c, UpdateClient(c, poolId, i, providers, done).directory)
  {
    hide Tidy;
    SameIdentitiesAlike(plan, c, UpdateClient(c, poolId, i, providers, done).directory);
  }

  lemma NothingChanged(plan: Plan, c: Directory)
    requires Tidy(plan, c)
    ensures Alike(plan, c, c)
  {
    hide Tidy, OurPool, OurClient;
  }

  /** A call that leaves the plan's resources alone and reports nothing that later operations rely on. */
  lemma AlikeIsOk(plan: Plan, op: Op, c: Directory, reply: Reply)
    requires Alike(plan, c, reply.directory)
    requires op in {EnvironmentAttribute, MfaConfig, UserGroups, SocialProviders}
    requires reply.outcome.Return? ==> forall k | k in reply.outcome.outputs :: Owner(k) == op
    ensures CallOk(plan, op, c, reply)
  {
    hide Tidy, Keeps, MyClient, PoolsNamed;
  }

  lemma RaiseIsOk(plan: Plan, op: Op, c: Directory)
    requires Tidy(plan, c)
    ensures CallOk(plan, op, c, Reply(c, Raise))
  {
    NothingChanged(plan, c);
    hide Tidy, Keeps, MyClient, PoolsNamed;
  }

  // ------------------------------------------------------------- user pool

  lemma UserPoolCall(plan: Plan, outputs: Outputs, phase: Phase, c: Directory, id: string)
    requires Tidy(plan, c) && AllRight(plan, c, outputs) && Seen(plan, UserPool, phase, c) && Fresh(c, id)
    ensures CallOk(plan, UserPool, c, CallUserPool(plan, outputs, phase, c, id))
  {
    ReadsRight(plan, c, outputs);
    if phase == Create {
      PoolCreated(plan, c, id);
    } else {
      hide Tidy, AllRight, OurPool, OurClient;
      var p := PoolLookup(plan, outputs, phase, c, id);
      PoolFound(plan, c, CallUserPool(plan, outputs, phase, c, id), p);
    }
  }

  lemma PoolCreated(plan: Plan, c: Directory, id: string)
    requires Tidy(plan, c) && Fresh(c, id) && plan.expectedPoolId == "" && PoolsNamed(c, plan.poolName) == {}
    ensures CallOk(plan, UserPool, c, Reply(c.(pools := c.pools[id := NewPool(plan)]), Return(PoolOutputs(plan, id))))
  {
    var d := c.(pools := c.pools[id := NewPool(plan)]);
    forall p | p in d.pools && d.pools[p].name == plan.poolName ensures p == id {
      assert p != id ==> p in PoolsNamed(c, plan.poolName);
    }
    assert forall p | p in c.pools :: d.pools[p] == c.pools[p];
    assert forall i :: MyClient(plan, c, i) <==> MyClient(plan, d, i);
    assert OurPool(plan, d, id);
    assert Tidy(plan, d);
    hide PoolUrl, Tidy;
  }

  /** The name search of the pool operation, apart from what it means for the directory. */
  ghost predicate PoolReply(plan: Plan, c: Directory, reply: Reply, p: string) {
    || reply == Reply(c, Raise)
    || (reply == Reply(c, Continue(Create)) && plan.expectedPoolId == "" && PoolsNamed(c, plan.poolName) == {})
    || (p in PoolsNamed(c, plan.poolName) && plan.expectedPoolId == ""
      && reply == Reply(c, Return(PoolOutputs(plan, p))))
    || (OurPool(plan, c, p) && reply == Reply(c, Return(map[UserPoolId := Text(p)])))
  }

  lemma PoolLookup(plan: Plan, outputs: Outputs, phase: Phase, c: Directory, id: string) returns (p: string)
    requires phase != Create && (plan.expectedPoolId == "" || Present(plan.expectedPoolId))
    requires TextOf(outputs, UserPoolId) == "" || OurPool(plan, c, TextOf(outputs, UserPoolId))
    ensures PoolReply(plan, c, CallUserPool(plan, outputs, phase, c, id), p)
  {
    hide TextOf, NewPool, PoolOutputs, Present;
    p := if TextOf(outputs, UserPoolId) != "" then TextOf(outputs, UserPoolId) else plan.expectedPoolId;
    var matches := PoolsNamed(c, plan.poolName);
    if p == "" && matches != {} && |matches| <= 1 {
      SingletonIsUnique(matches);
      p :| p in matches;
    }
  }

  lemma PoolFound(plan: Plan, c: Directory, reply: Reply, p: string)
    requires Tidy(plan, c) && PoolReply(plan, c, reply, p)
    ensures CallOk(plan, UserPool, c, reply)
  {
    NothingChanged(plan, c);
    if reply.outcome.Return? { assert OurPool(plan, c, p); }
    hide Tidy, Keeps, OurPool, OurClient, PoolUrl, MyClient;
  }

  // ---------------------------------------------------------- public client

  lemma PublicClientCall(plan: Plan, outputs: Outputs, poolId: string, phase: Phase, c: Directory, id: string)
    requires Tidy(plan, c) && AllRight(plan, c, outputs) && Seen(plan, PublicClient, phase, c) && Fresh(c, id)
    requires OurPool(plan, c, poolId)
    ensures CallOk(plan, PublicClient, c, CallPublicClient(plan, outputs, poolId, phase, c, id))
  {
    ReadsRight(plan, c, outputs);
    if phase == Create {
      ClientCreated(plan, c, poolId, id);
      ClientCreateReply(plan, outputs, poolId, c, id);
    } else {
      hide Tidy, AllRight, OurPool, OurClient, CallPublicClient;
      var m := ClientLookup(plan, outputs, poolId, phase, c, id);
      ClientFound(plan, c, poolId, CallPublicClient(plan, outputs, poolId, phase, c, id), m);
    }
  }

  lemma ClientCreateReply(plan: Plan, outputs: Outputs, poolId: string, c: Directory, id: string)
    ensures CallPublicClient(plan, outputs, poolId, Create, c, id)
      == Reply(c.(clients := c.clients[id := NewClient(plan, poolId)]), Return(ClientOutputs(id)))
  {
    hide ClientsNamed, NewClient, ClientOutputs, TextOf;
  }

  lemma ClientCreated(plan: Plan, c: Directory, poolId: string, id: string)
    requires Tidy(plan, c) && Fresh(c, id) && OurPool(plan, c, poolId) && forall i :: !MyClient(plan, c, i)
    ensures CallOk(plan, PublicClient, c,
      Reply(c.(clients := c.clients[id := NewClient(plan, poolId)]), Return(ClientOutputs(id))))
  {
    var d := c.(clients := c.clients[id := NewClient(plan, poolId)]);
    forall i | MyClient(plan, d, i) ensures i == id {
      assert i != id ==> MyClient(plan, c, i);
    }
    assert forall p :: OurPool(plan, c, p) <==> OurPool(plan, d, p);
    assert OurClient(plan, d, id);
    assert Tidy(plan, d);
    hide Tidy;
  }

  /** The name search of the client operation, apart from what it means for the directory. */
  ghost predicate ClientReply(plan: Plan, c: Directory, poolId: string, reply: Reply, m: string) {
    || reply == Reply(c, Raise)
    || (reply == Reply(c, Continue(Create)) && ClientsNamed(c, poolId, plan.clientName) == {})
    || (MyClient(plan, c, m) && reply == UpdateClient(c, poolId, m, ["COGNITO"], ClientOutputs(m)))
  }

  lemma ClientLookup(plan: Plan, outputs: Outputs, poolId: string, phase: Phase, c: Directory, id: string)
      returns (m: string)
    requires phase != Create
    requires TextOf(outputs, UserPoolClientId) == "" || OurClient(plan, c, TextOf(outputs, UserPoolClientId))
    ensures ClientReply(plan, c, poolId, CallPublicClient(plan, outputs, poolId, phase, c, id), m)
  {
    hide TextOf, UpdateClient, NewClient, ClientOutputs, Present;
    m := TextOf(outputs, UserPoolClientId);
    var matches := ClientsNamed(c, poolId, plan.clientName);
    if m == "" && matches != {} && |matches| <= 1 {
      SingletonIsUnique(matches);
      m :| m in matches;
    }
  }

  lemma ClientFound(plan: Plan, c: Directory, poolId: string, reply: Reply, m: string)
    requires Tidy(plan, c) && OurPool(plan, c, poolId) && ClientReply(plan, c, poolId, reply, m)
    ensures CallOk(plan, PublicClient, c, reply)
  {
    if reply == Reply(c, Raise) {
      RaiseIsOk(plan, PublicClient, c);
    } else if reply == Reply(c, Continue(Create)) {
      NothingChanged(plan, c);
      NoClientFound(plan, c, poolId);
      hide Tidy, Keeps, ClientsNamed;
    } else {
      assert Present(m);
      ClientUpdated(plan, c, poolId, m, ["COGNITO"], ClientOutputs(m));
      hide Tidy, Keeps, Present, PoolsNamed;
    }
  }

  lemma ClientInOurPool(plan: Plan, c: Directory, poolId: string, i: string)
    requires Tidy(plan, c) && OurPool(plan, c, poolId) && MyClient(plan, c, i)
    ensures i in ClientsNamed(c, poolId, plan.clientName)
  {
    hide Present;
    OnePool(plan, c, c.clients[i].poolId, poolId);
  }

  /** Every planned client is in our pool, so a search there that finds none has seen them all. */
  lemma NoClientFound(plan: Plan, c: Directory, poolId: string)
    requires Tidy(plan, c) && OurPool(plan, c, poolId) && ClientsNamed(c, poolId, plan.clientName) == {}
    ensures forall i :: !MyClient(plan, c, i)
  {
    hide Tidy, OurPool, ClientsNamed;
    forall i ensures !MyClient(plan, c, i) {
      if MyClient(plan, c, i) { ClientInOurPool(plan, c, poolId, i); }
    }
  }

  // --------------------------------------------------------- the other calls

  lemma HostedUiDomainCall(plan: Plan, poolId: string, phase: Phase, c: Directory)
    requires Tidy(plan, c) && OurPool(plan, c, poolId)
    ensures CallOk(plan, HostedUiDomain, c, CallHostedUiDomain(plan, poolId, phase, c))
  {
    DomainAdded(plan, c, poolId);
    NothingChanged(plan, c);
    DomainRight(plan, c);
    DomainRight(plan, c.(domains := c.domains[plan.domainPrefix := poolId]));
    hide Tidy, Keeps, OurPool, DomainOutputs, PoolsNamed, AllRight;
  }

  lemma DomainAdded(plan: Plan, c: Directory, poolId: string)
    requires Tidy(plan, c) && OurPool(plan, c, poolId)
    ensures Alike(plan, c, c.(domains := c.domains[plan.domainPrefix := poolId]))
  {
    var d := c.(domains := c.domains[plan.domainPrefix := poolId]);
    hide Present;
    assert forall i :: MyClient(plan, c, i) <==> MyClient(plan, d, i);
    assert forall p :: OurPool(plan, c, p) <==> OurPool(plan, d, p);
  }

  lemma DomainRight(plan: Plan, c: Directory)
    ensures AllRight(plan, c, DomainOutputs(plan)) && Provides(HostedUiDomain, DomainOutputs(plan))
  {
    hide DomainUrl;
  }

  lemma EnvironmentAttributeCall(plan: Plan, poolId: string, phase: Phase, c: Directory)
    requires Tidy(plan, c)
    ensures CallOk(plan, EnvironmentAttribute, c, CallEnvironmentAttribute(plan, poolId, phase, c))
  {
    NothingChanged(plan, c);
    hide Tidy, Alike;
    if poolId in c.pools {
      var pool := c.pools[poolId];
      PoolUpdated(plan, c, poolId, pool.(attributes := pool.attributes + {"custom:" + plan.environmentAttribute}));
    }
    hide CallOk;
    AlikeIsOk(plan, EnvironmentAttribute, c, CallEnvironmentAttribute(plan, poolId, phase, c));
  }

  lemma MfaConfigCall(plan: Plan, poolId: string, c: Directory)
    requires Tidy(plan, c)
    ensures CallOk(plan, MfaConfig, c, CallMfaConfig(plan, poolId, c))
  {
    NothingChanged(plan, c);
    hide Tidy, Alike, MfaSetting;
    if poolId in c.pools {
      PoolUpdated(plan, c, poolId, c.pools[poolId].(mfa := MfaSetting(plan.mfaMode), totp := plan.totpEnabled));
    }
    hide CallOk;
    AlikeIsOk(plan, MfaConfig, c, CallMfaConfig(plan, poolId, c));
  }

  lemma UserGroupsCall(plan: Plan, poolId: string, phase: Phase, c: Directory)
    requires Tidy(plan, c)
    ensures CallOk(plan, UserGroups, c, CallUserGroups(plan, poolId, phase, c))
  {
    NothingChanged(plan, c);
    hide Tidy, Alike;
    if poolId in c.pools && phase.GroupLoop? && phase.next < |plan.groups| {
      var pool := c.pools[poolId];
      PoolUpdated(plan, c, poolId, pool.(groups := pool.groups + {plan.groups[phase.next]}));
    }
    hide CallOk;
    AlikeIsOk(plan, UserGroups, c, CallUserGroups(plan, poolId, phase, c));
  }

  lemma SocialProvidersCall(plan: Plan, poolId: string, clientId: string, phase: Phase, c: Directory)
    requires Tidy(plan, c)
    ensures CallOk(plan, SocialProviders, c, CallSocialProviders(plan, poolId, clientId, phase, c))
  {
    NothingChanged(plan, c);
    hide Tidy, Alike, SocialNames;
    if poolId in c.pools && phase.ProviderLoop? {
      var pool := c.pools[poolId];
      if phase.next < |plan.providers| {
        PoolUpdated(plan, c, poolId,
          pool.(identityProviders := pool.identityProviders + {plan.providers[phase.next].name}));
      } else {
        ClientUpdated(plan, c, poolId, clientId, ["COGNITO"] + SocialNames(plan.providers),
          map[IdentityProviders := Texts(phase.names)]);
      }
    }
    hide CallOk;
    AlikeIsOk(plan, SocialProviders, c, CallSocialProviders(plan, poolId, clientId, phase, c));
  }

  lemma FinalizeCall(plan: Plan, poolId: string, clientId: string, c: Directory)
    requires Tidy(plan, c) && OurPool(plan, c, poolId) && OurClient(plan, c, clientId)
    ensures CallOk(plan, Finalize, c, Reply(c, Return(ActivationOutputs(plan, poolId, clientId, DomainUrl(plan)))))
  {
    NothingChanged(plan, c);
    hide Tidy, OurPool, OurClient, Keeps, DomainUrl, PoolUrl, SanitizeValue;
    var o := ActivationOutputs(plan, poolId, clientId, DomainUrl(plan));
    assert IsActivation(plan, c, poolId, clientId, o[Activation]);
  }

  // ------------------------------------------------------------ the dispatcher

  /** Some call of `_execute_cognito_operation`: it stops at a missing output, or its inputs are the plan's own. */
  lemma HolderCall(plan: Plan, op: Op, outputs: Outputs, phase: Phase, c: Directory, id: string)
    requires Tidy(plan, c) && AllRight(plan, c, outputs) && Seen(plan, op, phase, c) && Fresh(c, id)
    ensures CallOk(plan, op, c, Call(plan, op, outputs, phase, c, id))
  {
    var poolId, clientId := TextOf(outputs, UserPoolId), TextOf(outputs, UserPoolClientId);
    ReadsRight(plan, c, outputs);
    RaiseIsOk(plan, op, c);
    if op == EnvironmentAttribute && plan.environmentAttribute == "" {
      EnvironmentAttributeCall(plan, poolId, phase, c);
    }
    Required(op, outputs);
    hide Tidy, AllRight, Seen, Fresh, CallOk, OurPool, OurClient, Lacks, TextOf, DomainUrl;
    if !Lacks(op, outputs) {
      match op
      case UserPool => UserPoolCall(plan, outputs, phase, c, id);
      case PublicClient => PublicClientCall(plan, outputs, poolId, phase, c, id);
      case HostedUiDomain => HostedUiDomainCall(plan, poolId, phase, c);
      case UserGroups => UserGroupsCall(plan, poolId, phase, c);
      case SocialProviders => SocialProvidersCall(plan, poolId, clientId, phase, c);
      case MfaConfig => MfaConfigCall(plan, poolId, c);
      case EnvironmentAttribute => EnvironmentAttributeCall(plan, poolId, phase, c);
      case Finalize => FinalizeCall(plan, poolId, clientId, c);
    }
    hide CallUserPool, CallPublicClient, CallHostedUiDomain, CallUserGroups, CallSocialProviders, CallMfaConfig;
    hide CallEnvironmentAttribute, ActivationOutputs;
  }

  lemma Required(op: Op, outputs: Outputs)
    ensures !Lacks(op, outputs) ==> forall k | k in Reads(op) :: k in outputs && TextOf(outputs, k) != ""
  {
    hide Strip;
  }
}
