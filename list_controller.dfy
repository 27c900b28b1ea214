/** The request-sequenced list load that the admin context runs once for the
    user pay configurations and once for the system configurations, as pure
    state transitions. An async refetch is split in two: the moment it is
    issued (the counter is bumped, `loading` set, `error` cleared) and the
    moment its response settles (applied only if its id is still current). */
module ListController {
  import opened Wrappers

  /** A JavaScript `Error` object, known by its message. */
  datatype Error = Error(message: string)

  /** The value a failed transport call rejects with: an `Error` instance
      (`error instanceof Error`) or any other thrown value. */
  datatype Thrown = ErrorObject(error: Error) | NonError

  /** How a list request settles. `isCancel` is the verdict of the transport's
      `isCancelError` on the rejection. */
  datatype Outcome<T> = Loaded(data: seq<T>) | Failed(isCancel: bool, thrown: Thrown)

  /** One resource's state: the list, its `loading` and `error` flags, the
      request-id counter, and the ids of the requests issued whose response
      has not arrived yet (each promise settles exactly once). */
  datatype ListState<T> = ListState(
    items: seq<T>,
    loading: bool,
    error: Option<Error>,
    requestId: nat,
    pending: set<nat>)

  /** What the presentation layer can observe of a resource. */
  datatype View<T> = View(items: seq<T>, loading: bool, error: Option<Error>)

  function ViewOf<T>(s: ListState<T>): View<T> {
    View(s.items, s.loading, s.error)
  }

  /** The state invariant: every pending id was issued; `loading` holds
      exactly while the latest request is still awaited; and no error is
      shown while loading. */
  predicate Valid<T>(s: ListState<T>) {
    && (forall t :: t in s.pending ==> 1 <= t <= s.requestId)
    && (s.loading <==> s.requestId in s.pending)
    && (s.loading ==> s.error == None)
  }

  /** The state a provider starts in: an empty list, not loading, no error,
      and a counter at zero. */
  function Initial<T>(): (s: ListState<T>)
    ensures Valid(s)
    ensures s.items == [] && !s.loading && s.error == None
    ensures s.requestId == 0 && s.pending == {}
  {
    ListState([], false, None, 0, {})
  }

  /** Issuing a refetch: the counter goes up by exactly one and the new id is
      the request's token; `loading` is set and `error` cleared at once,
      whatever later becomes of the request; the list is kept. */
  function Issue<T>(s: ListState<T>): (r: ListState<T>)
    ensures r.requestId == s.requestId + 1
    ensures r.pending == s.pending + {r.requestId}
    ensures Valid(s) ==> r.requestId !in s.pending
    ensures r.loading && r.error == None
    ensures r.items == s.items
    ensures Valid(s) ==> Valid(r)
  {
    var id := s.requestId + 1;
    s.(requestId := id, loading := true, error := None, pending := s.pending + {id})
  }

  /** The error a substantive failure records: an `Error` instance as it is,
      any other value replaced by a new `Error` with the resource's fixed
      message. */
  function Recorded(thrown: Thrown, fallback: string): (e: Error)
    ensures thrown.ErrorObject? ==> e == thrown.error
    ensures thrown.NonError? ==> e.message == fallback
  {
    match thrown
    case ErrorObject(err) => err
    case NonError => Error(fallback)
  }

  /** A response settling for request `token`. If `token` is no longer the
      current id nothing observable changes. Otherwise `loading` is cleared;
      a success replaces the list wholesale; a failure keeps the list and is
      recorded in `error` unless it is a cancellation. */
  function Settle<T>(s: ListState<T>, fallback: string, token: nat, o: Outcome<T>): (r: ListState<T>)
    requires token in s.pending
    ensures r.requestId == s.requestId && r.pending == s.pending - {token}
    ensures token != s.requestId ==> ViewOf(r) == ViewOf(s)
    ensures token == s.requestId ==> !r.loading
    ensures token == s.requestId && o.Loaded? ==> r.items == o.data && r.error == s.error
    ensures token == s.requestId && o.Failed? ==>
      r.items == s.items &&
      r.error == (if o.isCancel then s.error else Some(Recorded(o.thrown, fallback)))
    ensures Valid(s) ==> Valid(r)
  {
    var s' := s.(pending := s.pending - {token});
    if token != s.requestId then s'
    else
      match o
      case Loaded(data) => s'.(items := data, loading := false)
      case Failed(isCancel, thrown) =>
        if isCancel then s'.(loading := false)
        else s'.(error := Some(Recorded(thrown, fallback)), loading := false)
  }

  /** What a resource shows once its latest request has settled with `o`,
      given the list it held when that request was issued. */
  function Resolution<T>(items: seq<T>, fallback: string, o: Outcome<T>): View<T> {
    match o
    case Loaded(data) => View(data, false, None)
    case Failed(isCancel, thrown) =>
      View(items, false, if isCancel then None else Some(Recorded(thrown, fallback)))
  }

  // ---------------------------------------------------------------------
  // Traces: any interleaving of issued requests and settling responses.

  datatype Event<T> = Issued | Settled(token: nat, outcome: Outcome<T>)

  /** A response can only arrive for a request that is still awaited. */
  predicate Enabled<T>(s: ListState<T>, e: Event<T>) {
    e.Settled? ==> e.token in s.pending
  }

  function Step<T>(s: ListState<T>, fallback: string, e: Event<T>): ListState<T>
    requires Enabled(s, e)
  {
    match e
    case Issued => Issue(s)
    case Settled(token, o) => Settle(s, fallback, token, o)
  }

  /** Every event of `evs` can happen, in order, from `s`. */
  predicate Feasible<T>(s: ListState<T>, fallback: string, evs: seq<Event<T>>)
    decreases |evs|
  {
    evs == [] || (Enabled(s, evs[0]) && Feasible(Step(s, fallback, evs[0]), fallback, evs[1..]))
  }

  function Run<T>(s: ListState<T>, fallback: string, evs: seq<Event<T>>): ListState<T>
    requires Feasible(s, fallback, evs)
    decreases |evs|
  {
    if evs == [] then s else Run(Step(s, fallback, evs[0]), fallback, evs[1..])
  }

  function Issues<T>(evs: seq<Event<T>>): nat {
    if evs == [] then 0 else (if evs[0].Issued? then 1 else 0) + Issues(evs[1..])
  }

  predicate NoIssue<T>(evs: seq<Event<T>>) {
    forall i :: 0 <= i < |evs| ==> evs[i].Settled?
  }

  /** The outcome with which request `token` first settles in `evs`, if it does. */
  function SettlementOf<T>(evs: seq<Event<T>>, token: nat): Option<Outcome<T>> {
    if evs == [] then None
    else if evs[0].Settled? && evs[0].token == token then Some(evs[0].outcome)
    else SettlementOf(evs[1..], token)
  }

  predicate OnlyCancellations<T>(evs: seq<Event<T>>) {
    forall i :: 0 <= i < |evs| && evs[i].Settled? && evs[i].outcome.Failed? ==> evs[i].outcome.isCancel
  }

  /** The invariant holds along every feasible trace. */
  lemma {:induction false} RunPreservesValid<T>(s: ListState<T>, fallback: string, evs: seq<Event<T>>)
    requires Valid(s) && Feasible(s, fallback, evs)
    ensures Valid(Run(s, fallback, evs))
    decreases |evs|
  {
    if evs != [] {
      RunPreservesValid(Step(s, fallback, evs[0]), fallback, evs[1..]);
    }
  }

  /** Ids strictly increase: after any trace the counter has moved by exactly
      the number of refetches issued, and by nothing else. */
  lemma {:induction false} RunCountsIssues<T>(s: ListState<T>, fallback: string, evs: seq<Event<T>>)
    requires Feasible(s, fallback, evs)
    ensures Run(s, fallback, evs).requestId == s.requestId + Issues(evs)
    decreases |evs|
  {
    if evs != [] {
      RunCountsIssues(Step(s, fallback, evs[0]), fallback, evs[1..]);
    }
  }

  /** Running two traces one after the other is running their concatenation. */
  lemma {:induction false} RunAppend<T>(s: ListState<T>, fallback: string, a: seq<Event<T>>, b: seq<Event<T>>)
    ensures Feasible(s, fallback, a + b) <==>
      Feasible(s, fallback, a) && Feasible(Run(s, fallback, a), fallback, b)
    ensures Feasible(s, fallback, a + b) ==>
      Run(s, fallback, a + b) == Run(Run(s, fallback, a), fallback, b)
    decreases |a|
  {
    if a == [] {
      assert a + b == b;
    } else {
      assert (a + b)[0] == a[0];
      assert (a + b)[1..] == a[1..] + b;
      if Enabled(s, a[0]) {
        RunAppend(Step(s, fallback, a[0]), fallback, a[1..], b);
      }
    }
  }

  /** Once the latest request has settled, and while no new one is issued,
      late responses of superseded requests change nothing observable. */
  lemma {:induction false} StaleResponsesInert<T>(s: ListState<T>, fallback: string, evs: seq<Event<T>>)
    requires Valid(s) && !s.loading
    requires NoIssue(evs) && Feasible(s, fallback, evs)
    ensures Run(s, fallback, evs).requestId == s.requestId
    ensures ViewOf(Run(s, fallback, evs)) == ViewOf(s)
    decreases |evs|
  {
    if evs != [] {
      var s' := Step(s, fallback, evs[0]);
      assert evs[0].Settled? && evs[0].token != s.requestId;
      assert NoIssue(evs[1..]) by {
        forall i | 0 <= i < |evs[1..]| ensures evs[1..][i].Settled? {
          assert evs[1..][i] == evs[i + 1];
        }
      }
      StaleResponsesInert(s', fallback, evs[1..]);
    }
  }

  /** While the latest request is awaited and no newer one is issued, the
      view stays as the refetch left it (loading, no error, list kept) until
      that request's own response arrives; from then on the view is that
      response's resolution, whatever other responses arrive and in
      whatever order. */
  lemma {:induction false} LatestRequestDecides<T>(s: ListState<T>, fallback: string, evs: seq<Event<T>>)
    requires Valid(s) && s.loading
    requires NoIssue(evs) && Feasible(s, fallback, evs)
    ensures Run(s, fallback, evs).requestId == s.requestId
    ensures ViewOf(Run(s, fallback, evs)) ==
      match SettlementOf(evs, s.requestId)
      case None => View(s.items, true, None)
      case Some(o) => Resolution(s.items, fallback, o)
    decreases |evs|
  {
    if evs != [] {
      var s' := Step(s, fallback, evs[0]);
      assert NoIssue(evs[1..]) by {
        forall i | 0 <= i < |evs[1..]| ensures evs[1..][i].Settled? {
          assert evs[1..][i] == evs[i + 1];
        }
      }
      assert evs[0].Settled?;
      if evs[0].token == s.requestId {
        StaleResponsesInert(s', fallback, evs[1..]);
      } else {
        LatestRequestDecides(s', fallback, evs[1..]);
      }
    }
  }

  /** Last issued wins. After any feasible history `pre`, a refetch is issued
      and then responses arrive in any order with no further refetch: the
      final list, `loading` and `error` depend only on the list held when the
      last refetch was issued and on how that last request settled. */
  lemma LastIssuedWins<T>(s: ListState<T>, fallback: string, pre: seq<Event<T>>, post: seq<Event<T>>)
    requires Valid(s)
    requires Feasible(s, fallback, pre) && Feasible(s, fallback, pre + [Issued] + post)
    requires NoIssue(post)
    ensures
      var m := Run(s, fallback, pre);
      var r := Run(s, fallback, pre + [Issued] + post);
      r.requestId == m.requestId + 1 &&
      ViewOf(r) ==
        match SettlementOf(post, m.requestId + 1)
        case None => View(m.items, true, None)
        case Some(o) => Resolution(m.items, fallback, o)
  {
    RunAppend(s, fallback, pre + [Issued], post);
    RunAppend(s, fallback, pre, [Issued]);
    var m := Run(s, fallback, pre);
    RunPreservesValid(s, fallback, pre);
    assert Run(m, fallback, [Issued]) == Issue(m);
    LatestRequestDecides(Issue(m), fallback, post);
  }

  /** The order in which the responses arrive after the last refetch does not
      matter: two such orderings in which the last request settles the same
      way end in the same view. */
  lemma ArrivalOrderIrrelevant<T>(s: ListState<T>, fallback: string, pre: seq<Event<T>>,
                                  post1: seq<Event<T>>, post2: seq<Event<T>>)
    requires Valid(s)
    requires Feasible(s, fallback, pre + [Issued] + post1) && NoIssue(post1)
    requires Feasible(s, fallback, pre + [Issued] + post2) && NoIssue(post2)
    requires Feasible(s, fallback, pre) &&
      SettlementOf(post1, Run(s, fallback, pre).requestId + 1) ==
      SettlementOf(post2, Run(s, fallback, pre).requestId + 1)
    ensures ViewOf(Run(s, fallback, pre + [Issued] + post1)) ==
      ViewOf(Run(s, fallback, pre + [Issued] + post2))
  {
    LastIssuedWins(s, fallback, pre, post1);
    LastIssuedWins(s, fallback, pre, post2);
  }

  /** Cancellations are never surfaced: along a trace in which every failure
      is a cancellation, an empty `error` stays empty. */
  lemma {:induction false} CancellationsNeverRecorded<T>(s: ListState<T>, fallback: string, evs: seq<Event<T>>)
    requires s.error == None
    requires Feasible(s, fallback, evs) && OnlyCancellations(evs)
    ensures Run(s, fallback, evs).error == None
    decreases |evs|
  {
    if evs != [] {
      assert OnlyCancellations(evs[1..]) by {
        forall i | 0 <= i < |evs[1..]| && evs[1..][i].Settled? && evs[1..][i].outcome.Failed?
          ensures evs[1..][i].outcome.isCancel
        {
          assert evs[1..][i] == evs[i + 1];
        }
      }
      CancellationsNeverRecorded(Step(s, fallback, evs[0]), fallback, evs[1..]);
    }
  }

  // ---------------------------------------------------------------------
  // Mutations: create, update and delete await the transport call, then
  // refetch.

  /** How the transport's create/update/delete call settles. */
  datatype MutationOutcome = Mutated | MutationFailed(isCancel: bool, thrown: Thrown)

  /** `update*` catches a cancellation and returns; `create*` and `delete*`
      have no catch at all. */
  datatype CatchPolicy = PropagateAll | SwallowCancel

  /** How the wrapper's own promise settles. */
  datatype Settlement = Resolved | Threw(thrown: Thrown)

  /** Whether the wrapper goes on to issue a refetch, and how it settles.
      The refetch itself never throws, so only the mutation can fail it. */
  datatype MutationEffect = MutationEffect(refetch: bool, settlement: Settlement)

  function MutationThenRefetch(policy: CatchPolicy, m: MutationOutcome): (r: MutationEffect)
    ensures r.refetch <==> m.Mutated?
    ensures r.settlement.Threw? <==> m.MutationFailed? && !(policy == SwallowCancel && m.isCancel)
    ensures r.settlement.Threw? ==> m.MutationFailed? && r.settlement.thrown == m.thrown
  {
    match m
    case Mutated => MutationEffect(true, Resolved)
    case MutationFailed(isCancel, thrown) =>
      if policy == SwallowCancel && isCancel then MutationEffect(false, Resolved)
      else MutationEffect(false, Threw(thrown))
  }

  /** The two policies differ on exactly one kind of outcome: a cancelled
      mutation, which `update*` absorbs and `create*`/`delete*` rethrow. */
  lemma PoliciesDifferOnlyOnCancel(m: MutationOutcome)
    ensures MutationThenRefetch(PropagateAll, m) != MutationThenRefetch(SwallowCancel, m) <==>
      m.MutationFailed? && m.isCancel
  {
  }
}
