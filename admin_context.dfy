/** The admin provider: two independently sequenced list resources (user pay
    configurations and system configurations) and the mutation wrappers that
    refetch after a successful create, update or delete. The transport calls
    are not modelled; their outcomes are the arguments of the methods that
    deliver them. */
module AdminContext {
  import opened Wrappers
  import opened ListController

  /** Message of the `Error` made when loading user pay configurations fails
      with a value that is not an `Error`. */
  const UserPayLoadFailed: string := "加载支付配置失败"

  /** The same for system configurations. */
  const SystemLoadFailed: string := "加载系统配置失败"

  /** One list resource with its own request counter. `refetch` is split
      into `Refetch`, which issues the request and returns its id, and
      `Resolve` / `Reject`, which deliver its response later. */
  class ListResource<T> {
    var items: seq<T>
    var loading: bool
    var error: Option<Error>
    /** The request-id ref, bumped by every refetch. */
    var requestId: nat
    /** Ids of the requests whose response has not arrived yet. */
    ghost var pending: set<nat>
    /** Message of the `Error` recorded for a non-`Error` rejection. */
    const fallback: string

    ghost function State(): ListState<T>
      reads this
    {
      ListState(items, loading, error, requestId, pending)
    }

    constructor(fallback: string)
      ensures State() == Initial()
      ensures this.fallback == fallback
    {
      items := [];
      loading := false;
      error := None;
      requestId := 0;
      pending := {};
      this.fallback := fallback;
    }

    /** The first half of `refetch`: take the next id, mark loading and
      clear the error. The id is the token its response will carry. */
    method Refetch() returns (id: nat)
      modifies this
      ensures State() == Issue(old(State()))
      ensures id == requestId
    {
      requestId := requestId + 1;
      id := requestId;
      loading := true;
      error := None;
      pending := pending + {id};
    }

    /** The list request `id` answered with `data`. */
    method Resolve(id: nat, data: seq<T>)
      requires id in pending
      modifies this
      ensures State() == Settle(old(State()), fallback, id, Loaded(data))
    {
      pending := pending - {id};
      if id != requestId {
        return;
      }
      items := data;
      loading := false;
    }

    /** The list request `id` was rejected with `thrown`; `isCancel` is what
      `isCancelError` says of it. */
    method Reject(id: nat, isCancel: bool, thrown: Thrown)
      requires id in pending
      modifies this
      ensures State() == Settle(old(State()), fallback, id, Failed(isCancel, thrown))
    {
      pending := pending - {id};
      if id != requestId {
        return;
      }
      if !isCancel {
        error := Some(Recorded(thrown, fallback));
      }
      loading := false;
    }

    /** A create, update or delete wrapper: after the transport call settles
      with `m`, either a refetch is issued (its id returned) or the state is
      left alone, and the wrapper settles as `policy` dictates. */
    method MutateThenRefetch(policy: CatchPolicy, m: MutationOutcome) returns (settlement: Settlement, id: Option<nat>)
      modifies this
      ensures settlement == MutationThenRefetch(policy, m).settlement
      ensures MutationThenRefetch(policy, m).refetch ==>
        (id == Some(requestId) && State() == Issue(old(State())))
      ensures !MutationThenRefetch(policy, m).refetch ==>
        (id == None && State() == old(State()))
    {
      match m
      case Mutated =>
        var t := Refetch();
        settlement, id := Resolved, Some(t);
      case MutationFailed(isCancel, thrown) =>
        if policy == SwallowCancel && isCancel {
          settlement, id := Resolved, None;
        } else {
          settlement, id := Threw(thrown), None;
        }
    }
  }

  /** The provider. Each resource has its own counter, so a request for one
      never invalidates the other's, and no operation on one touches the
      other's list, `loading` or `error`. */
  class AdminProvider<U, S> {
    const userPayConfigs: ListResource<U>
    const systemConfigs: ListResource<S>

    ghost predicate Valid()
      reads this
    {
      && userPayConfigs as object != systemConfigs as object
      && userPayConfigs.fallback == UserPayLoadFailed
      && systemConfigs.fallback == SystemLoadFailed
    }

    constructor()
      ensures Valid() && fresh(userPayConfigs) && fresh(systemConfigs)
      ensures userPayConfigs.State() == Initial() && userPayConfigs.fallback == UserPayLoadFailed
      ensures systemConfigs.State() == Initial() && systemConfigs.fallback == SystemLoadFailed
    {
      userPayConfigs := new ListResource(UserPayLoadFailed);
      systemConfigs := new ListResource(SystemLoadFailed);
    }

    method RefetchUserPayConfigs() returns (id: nat)
      requires Valid()
      modifies userPayConfigs
      ensures userPayConfigs.State() == Issue(old(userPayConfigs.State()))
      ensures id == userPayConfigs.requestId
      ensures systemConfigs.State() == old(systemConfigs.State())
    {
      id := userPayConfigs.Refetch();
    }

    method ResolveUserPayConfigs(id: nat, data: seq<U>)
      requires Valid() && id in userPayConfigs.pending
      modifies userPayConfigs
      ensures userPayConfigs.State() ==
        Settle(old(userPayConfigs.State()), UserPayLoadFailed, id, Loaded(data))
      ensures systemConfigs.State() == old(systemConfigs.State())
    {
      userPayConfigs.Resolve(id, data);
    }

    method RejectUserPayConfigs(id: nat, isCancel: bool, thrown: Thrown)
      requires Valid() && id in userPayConfigs.pending
      modifies userPayConfigs
      ensures userPayConfigs.State() ==
        Settle(old(userPayConfigs.State()), UserPayLoadFailed, id, Failed(isCancel, thrown))
      ensures systemConfigs.State() == old(systemConfigs.State())
    {
      userPayConfigs.Reject(id, isCancel, thrown);
    }

    method CreateUserPayConfig(m: MutationOutcome) returns (settlement: Settlement, id: Option<nat>)
      requires Valid()
      modifies userPayConfigs
      ensures settlement == MutationThenRefetch(PropagateAll, m).settlement
      ensures m.Mutated? ==> (id == Some(userPayConfigs.requestId) &&
        userPayConfigs.State() == Issue(old(userPayConfigs.State())))
      ensures m.MutationFailed? ==> (id == None && settlement == Threw(m.thrown) &&
        userPayConfigs.State() == old(userPayConfigs.State()))
      ensures systemConfigs.State() == old(systemConfigs.State())
    {
      settlement, id := userPayConfigs.MutateThenRefetch(PropagateAll, m);
    }

    method UpdateUserPayConfig(m: MutationOutcome) returns (settlement: Settlement, id: Option<nat>)
      requires Valid()
      modifies userPayConfigs
      ensures settlement == MutationThenRefetch(SwallowCancel, m).settlement
      ensures m.Mutated? ==> (id == Some(userPayConfigs.requestId) &&
        userPayConfigs.State() == Issue(old(userPayConfigs.State())))
      ensures m.MutationFailed? ==> (id == None &&
        settlement == (if m.isCancel then Resolved else Threw(m.thrown)) &&
        userPayConfigs.State() == old(userPayConfigs.State()))
      ensures systemConfigs.State() == old(systemConfigs.State())
    {
      settlement, id := userPayConfigs.MutateThenRefetch(SwallowCancel, m);
    }

    method DeleteUserPayConfig(m: MutationOutcome) returns (settlement: Settlement, id: Option<nat>)
      requires Valid()
      modifies userPayConfigs
      ensures settlement == MutationThenRefetch(PropagateAll, m).settlement
      ensures m.Mutated? ==> (id == Some(userPayConfigs.requestId) &&
        userPayConfigs.State() == Issue(old(userPayConfigs.State())))
      ensures m.MutationFailed? ==> (id == None && settlement == Threw(m.thrown) &&
        userPayConfigs.State() == old(userPayConfigs.State()))
      ensures systemConfigs.State() == old(systemConfigs.State())
    {
      settlement, id := userPayConfigs.MutateThenRefetch(PropagateAll, m);
    }

    method RefetchSystemConfigs() returns (id: nat)
      requires Valid()
      modifies systemConfigs
      ensures systemConfigs.State() == Issue(old(systemConfigs.State()))
      ensures id == systemConfigs.requestId
      ensures userPayConfigs.State() == old(userPayConfigs.State())
    {
      id := systemConfigs.Refetch();
    }

    method ResolveSystemConfigs(id: nat, data: seq<S>)
      requires Valid() && id in systemConfigs.pending
      modifies systemConfigs
      ensures systemConfigs.State() ==
        Settle(old(systemConfigs.State()), SystemLoadFailed, id, Loaded(data))
      ensures userPayConfigs.State() == old(userPayConfigs.State())
    {
      systemConfigs.Resolve(id, data);
    }

    method RejectSystemConfigs(id: nat, isCancel: bool, thrown: Thrown)
      requires Valid() && id in systemConfigs.pending
      modifies systemConfigs
      ensures systemConfigs.State() ==
        Settle(old(systemConfigs.State()), SystemLoadFailed, id, Failed(isCancel, thrown))
      ensures userPayConfigs.State() == old(userPayConfigs.State())
    {
      systemConfigs.Reject(id, isCancel, thrown);
    }

    method UpdateSystemConfig(m: MutationOutcome) returns (settlement: Settlement, id: Option<nat>)
      requires Valid()
      modifies systemConfigs
      ensures settlement == MutationThenRefetch(SwallowCancel, m).settlement
      ensures m.Mutated? ==> (id == Some(systemConfigs.requestId) &&
        systemConfigs.State() == Issue(old(systemConfigs.State())))
      ensures m.MutationFailed? ==> (id == None &&
        settlement == (if m.isCancel then Resolved else Threw(m.thrown)) &&
        systemConfigs.State() == old(systemConfigs.State()))
      ensures userPayConfigs.State() == old(userPayConfigs.State())
    {
      settlement, id := systemConfigs.MutateThenRefetch(SwallowCancel, m);
    }

    method DeleteSystemConfig(m: MutationOutcome) returns (settlement: Settlement, id: Option<nat>)
      requires Valid()
      modifies systemConfigs
      ensures settlement == MutationThenRefetch(PropagateAll, m).settlement
      ensures m.Mutated? ==> (id == Some(systemConfigs.requestId) &&
        systemConfigs.State() == Issue(old(systemConfigs.State())))
      ensures m.MutationFailed? ==> (id == None && settlement == Threw(m.thrown) &&
        systemConfigs.State() == old(systemConfigs.State()))
      ensures userPayConfigs.State() == old(userPayConfigs.State())
    {
      settlement, id := systemConfigs.MutateThenRefetch(PropagateAll, m);
    }
  }

  /** Two overlapping refetches of user pay configurations whose responses
      arrive in reverse order: the older, late response is dropped, the list
      is the newer one's, and the system configurations are untouched. */
  method SupersededResponseDropped<U, S>(p: AdminProvider<U, S>, older: seq<U>, newer: seq<U>)
    requires p.Valid()
    modifies p.userPayConfigs
    ensures p.userPayConfigs.items == newer
    ensures !p.userPayConfigs.loading && p.userPayConfigs.error == None
    ensures p.systemConfigs.State() == old(p.systemConfigs.State())
  {
    var first := p.RefetchUserPayConfigs();
    var second := p.RefetchUserPayConfigs();
    p.ResolveUserPayConfigs(second, newer);
    p.ResolveUserPayConfigs(first, older);
  }
}
