/**
 The credential proxy's route table (desktop/cred_proxy.go:30-96, 166-244, desktop/cred_proxy_revocation.go:7-18,
 desktop/remote_model_ownership.go:74-165): requests hold the route object they were admitted on, routes are
 registered, retired and revoked while requests run. Every section under the route mutex is one step; a
 credential resolution keeps the update mutex from its start until its route is set.
 */
module CredentialRoutes {
  import opened Common

  type Token = string
  type RouteId = nat

  /** Everything frozen when a route is created. */
  datatype Upstream = Upstream(url: string, apiKey: string, provider: string, apiKeyEnv: string, scope: string, revision: string)

  /** resolvedAt is the logical time at which the resolution behind this route started. */
  datatype Route = Route(token: Token, upstream: Upstream, resolvedAt: nat, active: nat, retired: bool, holds: set<string>)

  datatype InFlight = InFlight(token: Token, route: RouteId)

  datatype Resolution = Resolution(thread: nat, token: Token, upstream: Upstream, offer: string, startedAt: nat)

  datatype Status = Status(owned: set<string>, unversioned: bool)

  datatype Ownership = Ownership(incarnation: string, seqNo: nat, latest: Status, pending: map<string, string>)

  datatype State = State(
    clock: nat,
    nextId: nat,
    routes: map<Token, RouteId>,
    objects: map<RouteId, Route>,
    requests: map<nat, InFlight>,
    update: Option<Resolution>,
    ownership: map<string, Ownership>)

  const INITIAL := State(0, 0, map[], map[], map[], None, map[])

  datatype Event =
    | BeginRequest(request: nat, token: Token)
    | EndRequest(request: nat)
    | StartResolve(thread: nat, token: Token, upstream: Upstream, offer: string)
    | FailResolve(thread: nat)
    | SetRoute(thread: nat)
    | Revoke(matching: Upstream -> bool)
    | ReserveInstall(scope: string, offer: string, revision: string, incarnation: string)
    | Pin(scope: string, incarnation: string)
    | Reconcile(version: nat, scope: string, incarnation: string, seqNo: nat, status: Status, offers: set<string>)

  function AfterBegin(s: State, request: nat, token: Token): State {
    if request in s.requests || token !in s.routes || s.routes[token] !in s.objects || s.objects[s.routes[token]].retired then s
    else
      var id := s.routes[token];
      s.(objects := s.objects[id := s.objects[id].(active := s.objects[id].active + 1)],
         requests := s.requests[request := InFlight(token, id)])
  }

  function AfterEnd(s: State, request: nat): State {
    if request !in s.requests || s.requests[request].route !in s.objects || s.objects[s.requests[request].route].active == 0 then s
    else
      var InFlight(token, id) := s.requests[request];
      var route := s.objects[id].(active := s.objects[id].active - 1);
      var gone := route.retired && route.active == 0 && token in s.routes && s.routes[token] == id;
      s.(objects := s.objects[id := route], requests := s.requests - {request},
         routes := if gone then s.routes - {token} else s.routes)
  }

  /** Re-registering a token never replaces its route; it can only add an offer's hold and lift retirement. */
  function AfterSet(s: State, thread: nat): State {
    if s.update.None? || s.update.value.thread != thread then s
    else
      var r := s.update.value;
      var s := s.(update := None);
      if r.token in s.routes && s.routes[r.token] in s.objects then
        var id := s.routes[r.token];
        if r.offer == "" then s
        else s.(objects := s.objects[id := s.objects[id].(holds := s.objects[id].holds + {r.offer}, retired := false)])
      else
        var holds := if r.offer == "" then {} else {r.offer};
        s.(nextId := s.nextId + 1,
           objects := s.objects[s.nextId := Route(r.token, r.upstream, r.startedAt, 0, false, holds)],
           routes := s.routes[r.token := s.nextId])
  }

  function AfterRevoke(s: State, matching: Upstream -> bool): State {
    if s.update.Some? then s
    else s.(routes := map t | t in s.routes && !(s.routes[t] in s.objects && matching(s.objects[s.routes[t]].upstream)) :: s.routes[t])
  }

  /** A new incarnation releases every reservation the previous one made in its scope. */
  function AfterPin(s: State, scope: string, incarnation: string): State {
    if s.update.Some? || (scope in s.ownership && s.ownership[scope].incarnation == incarnation) then s
    else
      var owner := Ownership(incarnation, 0, Status({}, false), map[]);
      var cleared := scope in s.ownership;
      s.(ownership := s.ownership[scope := owner],
         objects := map id | id in s.objects ::
           if cleared && InTable(s, id) && s.objects[id].upstream.scope == scope then s.objects[id].(holds := {}) else s.objects[id])
  }

  predicate InTable(s: State, id: RouteId)
    requires id in s.objects
  {
    s.objects[id].token in s.routes && s.routes[s.objects[id].token] == id
  }

  function AfterReserve(s: State, scope: string, offer: string, revision: string, incarnation: string): State {
    if scope !in s.ownership || s.ownership[scope].incarnation != incarnation then s
    else
      var owner := s.ownership[scope];
      s.(ownership := s.ownership[scope := owner.(pending := owner.pending[offer := revision])])
  }

  /** The offers a receipt settles: those it names and those pending for a revision it owns. */
  function Settled(owner: Ownership, status: Status, offers: set<string>): set<string> {
    offers + set o | o in owner.pending && owner.pending[o] in status.owned
  }

  predicate StillNeeded(route: Route, status: Status, offers: set<string>) {
    status.unversioned || route.upstream.revision in status.owned || route.holds - offers != {}
  }

  function Retired(route: Route, status: Status, offers: set<string>): Route {
    route.(holds := route.holds - offers, retired := route.retired || !StillNeeded(route, status, offers))
  }

  /** Retires the routes of a scope that the newest ownership receipt no longer names and no offer holds. */
  function AfterReconcile(s: State, version: nat, scope: string, incarnation: string, seqNo: nat, status: Status, offers: set<string>): State {
    if version != 1 || s.update.Some? || scope !in s.ownership || s.ownership[scope].incarnation != incarnation then s
    else
      var owner := s.ownership[scope];
      var accepted := seqNo > owner.seqNo;
      if !accepted && offers == {} then s
      else
        var newest := if accepted then status else owner.latest;
        var settled := Settled(owner, newest, offers);
        var owner' := Ownership(incarnation, if accepted then seqNo else owner.seqNo, newest, owner.pending - settled);
        RetireScope(s.(ownership := s.ownership[scope := owner']), scope, newest, settled)
  }

  function RetireScope(s: State, scope: string, status: Status, offers: set<string>): State {
    s.(objects := map id | id in s.objects ::
         if InTable(s, id) && s.objects[id].upstream.scope == scope then Retired(s.objects[id], status, offers) else s.objects[id],
       routes := map t | t in s.routes && !(s.routes[t] in s.objects && Leaves(s.objects[s.routes[t]], scope, status, offers)) :: s.routes[t])
  }

  predicate Leaves(route: Route, scope: string, status: Status, offers: set<string>) {
    route.upstream.scope == scope && !StillNeeded(route, status, offers) && route.active == 0
  }

  function Effect(s: State, e: Event): State {
    match e
    case BeginRequest(request, token) => AfterBegin(s, request, token)
    case EndRequest(request) => AfterEnd(s, request)
    case StartResolve(thread, token, upstream, offer) =>
      if s.update.Some? then s else s.(update := Some(Resolution(thread, token, upstream, offer, s.clock)))
    case FailResolve(thread) => if s.update.Some? && s.update.value.thread == thread then s.(update := None) else s
    case SetRoute(thread) => AfterSet(s, thread)
    case Revoke(matching) => AfterRevoke(s, matching)
    case ReserveInstall(scope, offer, revision, incarnation) => AfterReserve(s, scope, offer, revision, incarnation)
    case Pin(scope, incarnation) => AfterPin(s, scope, incarnation)
    case Reconcile(version, scope, incarnation, seqNo, status, offers) =>
      AfterReconcile(s, version, scope, incarnation, seqNo, status, offers)
  }

  function Step(s: State, e: Event): State { Effect(s, e).(clock := s.clock + 1) }

  function Run(s: State, events: seq<Event>): State {
    if events == [] then s else Step(Run(s, events[..|events| - 1]), events[|events| - 1])
  }

  // ---- The table itself ----

  class Proxy {
    var nextId: nat
    var routes: map<Token, RouteId>
    var objects: map<RouteId, Route>
    var requests: map<nat, InFlight>
    var update: Option<Resolution>
    var ownership: map<string, Ownership>
    ghost var clock: nat

    ghost function Abs(): State
      reads this
    {
      State(clock, nextId, routes, objects, requests, update, ownership)
    }

    constructor ()
      ensures Abs() == INITIAL
    {
      nextId, routes, objects, requests, update, ownership, clock := 0, map[], map[], map[], None, map[], 0;
    }

    /** Admits a request on the live route of its token; a missing or retired route rejects it. */
    method Begin(request: nat, token: Token) returns (admitted: bool)
      requires TableSound(Abs()) && request !in requests
      modifies this
      ensures Abs() == AfterBegin(old(Abs()), request, token)
      ensures admitted <==> token in old(routes) && !old(objects)[old(routes)[token]].retired
    {
      if token !in routes {
        return false;
      }
      var id := routes[token];
      if objects[id].retired {
        return false;
      }
      objects := objects[id := objects[id].(active := objects[id].active + 1)];
      requests := requests[request := InFlight(token, id)];
      return true;
    }

    method End(request: nat)
      requires Inv(Abs()) && request in requests
      modifies this
      ensures Abs() == AfterEnd(old(Abs()), request)
    {
      var InFlight(token, id) := requests[request];
      assert request in Holding(requests, id);
      objects := objects[id := objects[id].(active := objects[id].active - 1)];
      requests := requests - {request};
      if objects[id].retired && objects[id].active == 0 && token in routes && routes[token] == id {
        routes := routes - {token};
      }
    }

    method SetRouteLocked(thread: nat)
      requires TableSound(Abs()) && update.Some? && update.value.thread == thread
      modifies this
      ensures Abs() == AfterSet(old(Abs()), thread)
    {
      var r := update.value;
      update := None;
      if r.token in routes {
        var id := routes[r.token];
        if r.offer != "" {
          objects := objects[id := objects[id].(holds := objects[id].holds + {r.offer}, retired := false)];
        }
        return;
      }
      var holds: set<string> := {};
      if r.offer != "" {
        holds := {r.offer};
      }
      objects := objects[nextId := Route(r.token, r.upstream, r.startedAt, 0, false, holds)];
      routes := routes[r.token := nextId];
      nextId := nextId + 1;
    }

    method RevokeRoutes(matching: Upstream -> bool)
      requires TableSound(Abs()) && update.None?
      modifies this`routes
      ensures Abs() == AfterRevoke(old(Abs()), matching)
    {
      var rest := routes.Keys;
      while rest != {}
        invariant rest <= routes.Keys
        invariant forall t :: t in routes <==> t in old(routes) && (t in rest || !matching(objects[old(routes)[t]].upstream))
        invariant forall t :: t in routes ==> routes[t] == old(routes)[t]
        decreases rest
      {
        var token :| token in rest;
        rest := rest - {token};
        if matching(objects[routes[token]].upstream) {
          routes := routes - {token};
        }
      }
    }
  }

  // ---- Invariant ----

  function Holding(requests: map<nat, InFlight>, id: RouteId): set<nat> {
    set q | q in requests && requests[q].route == id
  }

  ghost predicate TableSound(s: State) {
    && (forall id :: id in s.objects ==> id < s.nextId)
    && (forall t :: t in s.routes ==> s.routes[t] in s.objects && s.objects[s.routes[t]].token == t)
  }

  ghost predicate RequestsSound(s: State) {
    forall q :: q in s.requests ==> s.requests[q].route in s.objects && s.objects[s.requests[q].route].token == s.requests[q].token
  }

  /** Every route object counts exactly the requests admitted on it that have not ended. */
  ghost predicate CountsExact(s: State) {
    forall id :: id in s.objects ==> s.objects[id].active == |Holding(s.requests, id)|
  }

  /** A retired route is in the table only while requests still run on it. */
  ghost predicate RetiredBusy(s: State) {
    forall t :: t in s.routes && s.routes[t] in s.objects && s.objects[s.routes[t]].retired ==> s.objects[s.routes[t]].active > 0
  }

  ghost predicate Inv(s: State) { TableSound(s) && RequestsSound(s) && CountsExact(s) && RetiredBusy(s) }

  lemma BeginKeepsInv(s: State, request: nat, token: Token)
    requires Inv(s)
    ensures Inv(AfterBegin(s, request, token))
  {
    var s' := AfterBegin(s, request, token);
    if s' != s {
      var id := s.routes[token];
      assert Holding(s'.requests, id) == Holding(s.requests, id) + {request};
      forall other | other in s.objects && other != id
        ensures Holding(s'.requests, other) == Holding(s.requests, other)
      {
      }
    }
  }

  lemma EndKeepsInv(s: State, request: nat)
    requires Inv(s)
    ensures Inv(AfterEnd(s, request))
  {
    var s' := AfterEnd(s, request);
    if s' != s {
      var id := s.requests[request].route;
      assert Holding(s'.requests, id) == Holding(s.requests, id) - {request};
      forall other | other in s.objects && other != id
        ensures Holding(s'.requests, other) == Holding(s.requests, other)
      {
      }
    }
  }

  lemma NewRouteKeepsInv(s: State, r: Resolution, holds: set<string>)
    requires Inv(s) && r.token !in s.routes
    ensures Inv(s.(nextId := s.nextId + 1,
                   objects := s.objects[s.nextId := Route(r.token, r.upstream, r.startedAt, 0, false, holds)],
                   routes := s.routes[r.token := s.nextId]))
  {
    assert s.nextId !in s.objects;
    assert Holding(s.requests, s.nextId) == {};
  }

  lemma SetKeepsInv(s: State, thread: nat)
    requires Inv(s)
    ensures Inv(AfterSet(s, thread))
  {
    if s.update.Some? && s.update.value.thread == thread {
      var r := s.update.value;
      if r.token !in s.routes {
        NewRouteKeepsInv(s.(update := None), r, if r.offer == "" then {} else {r.offer});
      } else {
        var id := s.routes[r.token];
        assert forall other :: other in s.objects && other != id ==> AfterSet(s, thread).objects[other] == s.objects[other];
      }
    }
  }

  lemma PinKeepsInv(s: State, scope: string, incarnation: string)
    requires Inv(s)
    ensures Inv(AfterPin(s, scope, incarnation))
  {
  }

  lemma RetireKeepsInv(s: State, scope: string, status: Status, offers: set<string>)
    requires Inv(s)
    ensures Inv(RetireScope(s, scope, status, offers))
  {
    var s' := RetireScope(s, scope, status, offers);
    forall t | t in s'.routes && s'.objects[s'.routes[t]].retired
      ensures s'.objects[s'.routes[t]].active > 0
    {
      assert InTable(s, s.routes[t]);
    }
  }

  lemma StepKeepsInv(s: State, e: Event)
    requires Inv(s)
    ensures Inv(Step(s, e))
  {
    EffectKeepsInv(s, e);
  }

  lemma EffectKeepsInv(s: State, e: Event)
    requires Inv(s)
    ensures Inv(Effect(s, e))
  {
    match e
    case BeginRequest(request, token) => BeginKeepsInv(s, request, token);
    case EndRequest(request) => EndKeepsInv(s, request);
    case SetRoute(thread) => SetKeepsInv(s, thread);
    case Pin(scope, incarnation) => PinKeepsInv(s, scope, incarnation);
    case Reconcile(version, scope, incarnation, seqNo, status, offers) =>
      ReconcileKeepsInv(s, version, scope, incarnation, seqNo, status, offers);
    case Revoke(matching) => RevokeKeepsInv(s, matching);
    case _ =>
  }

  lemma RevokeKeepsInv(s: State, matching: Upstream -> bool)
    requires Inv(s)
    ensures Inv(AfterRevoke(s, matching))
  {
  }

  lemma ReconcileKeepsInv(s: State, version: nat, scope: string, incarnation: string, seqNo: nat, status: Status, offers: set<string>)
    requires Inv(s)
    ensures Inv(AfterReconcile(s, version, scope, incarnation, seqNo, status, offers))
  {
    forall ownership: map<string, Ownership>, newest, settled
      ensures Inv(RetireScope(s.(ownership := ownership), scope, newest, settled))
    {
      RetireKeepsInv(s.(ownership := ownership), scope, newest, settled);
    }
  }

  lemma {:induction false} EveryRunKeepsInv(events: seq<Event>)
    ensures Inv(Run(INITIAL, events))
  {
    if events != [] {
      EveryRunKeepsInv(events[..|events| - 1]);
      StepKeepsInv(Run(INITIAL, events[..|events| - 1]), events[|events| - 1]);
    }
  }

  // ---- What a request and a token can rely on ----

  /** Route objects keep what they were created with, and tokens still listed keep their object. */
  ghost predicate Frozen(s: State, s': State) {
    && (forall id :: id in s.objects ==>
          id in s'.objects && s'.objects[id].upstream == s.objects[id].upstream && s'.objects[id].token == s.objects[id].token)
    && (forall t :: t in s.routes && t in s'.routes ==> s'.routes[t] == s.routes[t])
  }

  lemma SetFreezes(s: State, thread: nat)
    requires TableSound(s)
    ensures Frozen(s, AfterSet(s, thread)) && AfterSet(s, thread).requests == s.requests
  {
    if s.update.Some? {
      assert s.nextId !in s.objects;
    }
  }

  lemma RetireFreezes(s: State, scope: string, status: Status, offers: set<string>)
    ensures Frozen(s, RetireScope(s, scope, status, offers))
  {
  }

  lemma ReconcileFreezes(s: State, version: nat, scope: string, incarnation: string, seqNo: nat, status: Status, offers: set<string>)
    ensures
      var s' := AfterReconcile(s, version, scope, incarnation, seqNo, status, offers);
      Frozen(s, s') && s'.requests == s.requests
  {
    forall ownership: map<string, Ownership>, newest, settled
      ensures Frozen(s, RetireScope(s.(ownership := ownership), scope, newest, settled))
    {
      RetireFreezes(s.(ownership := ownership), scope, newest, settled);
    }
  }

  ghost predicate RequestsKept(s: State, s': State, e: Event) {
    forall q :: q in s.requests && e != EndRequest(q) ==> q in s'.requests && s'.requests[q] == s.requests[q]
  }

  lemma BeginFreezes(s: State, request: nat, token: Token)
    ensures Frozen(s, AfterBegin(s, request, token)) && RequestsKept(s, AfterBegin(s, request, token), BeginRequest(request, token))
  {
  }

  lemma EndFreezes(s: State, request: nat)
    ensures Frozen(s, AfterEnd(s, request)) && RequestsKept(s, AfterEnd(s, request), EndRequest(request))
  {
  }

  lemma RevokeFreezes(s: State, matching: Upstream -> bool)
    ensures Frozen(s, AfterRevoke(s, matching)) && AfterRevoke(s, matching).requests == s.requests
  {
  }

  lemma PinFreezes(s: State, scope: string, incarnation: string)
    ensures Frozen(s, AfterPin(s, scope, incarnation)) && AfterPin(s, scope, incarnation).requests == s.requests
  {
  }

  lemma EffectFreezes(s: State, e: Event)
    requires TableSound(s)
    ensures Frozen(s, Effect(s, e)) && RequestsKept(s, Effect(s, e), e)
  {
    match e
    case BeginRequest(request, token) => BeginFreezes(s, request, token);
    case EndRequest(request) => EndFreezes(s, request);
    case SetRoute(thread) => SetFreezes(s, thread);
    case Revoke(matching) => RevokeFreezes(s, matching);
    case Pin(scope, incarnation) => PinFreezes(s, scope, incarnation);
    case Reconcile(version, scope, incarnation, seqNo, status, offers) =>
      ReconcileFreezes(s, version, scope, incarnation, seqNo, status, offers);
    case _ =>
  }

  /** A step never rewrites what a route was created with, nor gives a listed token another route. */
  lemma UpstreamNeverChanges(s: State, e: Event)
    requires TableSound(s)
    ensures Frozen(s, Step(s, e)) && RequestsKept(s, Step(s, e), e)
  {
    EffectFreezes(s, e);
  }

  /** A token that stays listed through a whole run keeps its route object, and that object its upstream. */
  lemma {:induction false} ListedTokenKeepsUpstream(s: State, events: seq<Event>, t: Token)
    requires Inv(s) && t in s.routes
    requires forall i :: 0 <= i <= |events| ==> t in Run(s, events[..i]).routes
    ensures
      var s' := Run(s, events);
      && Inv(s') && t in s'.routes && s'.routes[t] == s.routes[t]
      && s.routes[t] in s.objects && s.routes[t] in s'.objects
      && s'.objects[s.routes[t]].upstream == s.objects[s.routes[t]].upstream
  {
    assert events[..|events|] == events;
    if events != [] {
      var rest := events[..|events| - 1];
      forall i | 0 <= i <= |rest| ensures t in Run(s, rest[..i]).routes {
        assert rest[..i] == events[..i];
      }
      ListedTokenKeepsUpstream(s, rest, t);
      StepKeepsInv(Run(s, rest), events[|events| - 1]);
      UpstreamNeverChanges(Run(s, rest), events[|events| - 1]);
    }
  }

  /** A request keeps the route object it was admitted on, with its upstream, until it ends, even after a revocation. */
  lemma {:induction false} RequestKeepsItsRoute(s: State, events: seq<Event>, request: nat)
    requires Inv(s) && request in s.requests
    requires forall i :: 0 <= i < |events| ==> events[i] != EndRequest(request)
    ensures
      var s' := Run(s, events);
      var id := s.requests[request].route;
      && Inv(s') && request in s'.requests && s'.requests[request] == s.requests[request]
      && id in s'.objects && s'.objects[id].upstream == s.objects[id].upstream && s'.objects[id].active > 0
  {
    if events != [] {
      var before := Run(s, events[..|events| - 1]);
      RequestKeepsItsRoute(s, events[..|events| - 1], request);
      StepKeepsInv(before, events[|events| - 1]);
      UpstreamNeverChanges(before, events[|events| - 1]);
    }
    assert request in Holding(Run(s, events).requests, s.requests[request].route);
  }

  /** The last request of a retired route takes it out of the table, and touches no other token. */
  lemma RetiredRouteLeavesWithLastRequest(s: State, request: nat)
    requires Inv(s) && request in s.requests
    ensures
      var InFlight(token, id) := s.requests[request];
      var s' := AfterEnd(s, request);
      && (forall t :: t != token ==> (t in s'.routes <==> t in s.routes))
      && (token in s.routes && s.routes[token] != id ==> token in s'.routes && s'.routes[token] == s.routes[token])
      && (token in s.routes && s.routes[token] == id ==>
            (token !in s'.routes <==> s.objects[id].retired && Holding(s.requests, id) == {request}))
  {
    var InFlight(token, id) := s.requests[request];
    assert request in Holding(s.requests, id);
    if Holding(s.requests, id) != {request} {
      assert Holding(s.requests, id) == (Holding(s.requests, id) - {request}) + {request};
    }
  }

  /** A receipt that is not newer than the last accepted one cannot retire anything by what it claims. */
  lemma StaleReceiptIsIgnored(s: State, scope: string, incarnation: string, seqNo: nat, a: Status, b: Status, offers: set<string>)
    requires scope in s.ownership && seqNo <= s.ownership[scope].seqNo
    ensures AfterReconcile(s, 1, scope, incarnation, seqNo, a, offers) == AfterReconcile(s, 1, scope, incarnation, seqNo, b, offers)
    ensures offers == {} ==> AfterReconcile(s, 1, scope, incarnation, seqNo, a, offers) == s
  {
  }

  /** A route the newest receipt owns, or that an unsettled offer still holds, is neither retired nor removed. */
  lemma OwnedRouteSurvivesReconcile(s: State, e: Event, t: Token)
    requires Inv(s) && e.Reconcile? && t in s.routes && e.scope in s.ownership
    ensures
      var owner := s.ownership[e.scope];
      var newest := if e.seqNo > owner.seqNo then e.status else owner.latest;
      var route := s.objects[s.routes[t]];
      route.upstream.revision in newest.owned || route.holds - Settled(owner, newest, e.offers) != {} ==>
        t in Step(s, e).routes && Step(s, e).routes[t] == s.routes[t]
        && Step(s, e).objects[s.routes[t]].retired == route.retired
  {
    assert InTable(s, s.routes[t]);
  }

  // ---- What each step does, told from the table ----

  /** The receipt is one this incarnation of the scope can act on, newer than the last one or settling offers. */
  predicate Applies(s: State, e: Event)
    requires e.Reconcile?
  {
    && e.version == 1 && s.update.None? && e.scope in s.ownership && s.ownership[e.scope].incarnation == e.incarnation
    && (e.seqNo > s.ownership[e.scope].seqNo || e.offers != {})
  }

  function Newest(s: State, e: Event): Status
    requires e.Reconcile? && e.scope in s.ownership
  {
    if e.seqNo > s.ownership[e.scope].seqNo then e.status else s.ownership[e.scope].latest
  }

  /** The receipt settles the offer: it names it, or the revision pending for it is owned. */
  predicate Settles(s: State, e: Event, offer: string)
    requires e.Reconcile? && e.scope in s.ownership
  {
    var pending := s.ownership[e.scope].pending;
    offer in e.offers || (offer in pending && pending[offer] in Newest(s, e).owned)
  }

  /** The newest receipt says nothing of the route's revision and no unsettled offer holds it. */
  predicate Superfluous(s: State, e: Event, route: Route)
    requires e.Reconcile? && e.scope in s.ownership
  {
    && route.upstream.scope == e.scope && !Newest(s, e).unversioned && route.upstream.revision !in Newest(s, e).owned
    && forall o :: o in route.holds ==> Settles(s, e, o)
  }

  lemma SuperfluousExactly(s: State, e: Event, route: Route)
    requires e.Reconcile? && e.scope in s.ownership && route.upstream.scope == e.scope
    ensures
      Superfluous(s, e, route) <==> !StillNeeded(route, Newest(s, e), Settled(s.ownership[e.scope], Newest(s, e), e.offers))
  {
    var settled := Settled(s.ownership[e.scope], Newest(s, e), e.offers);
    SettledExactly(s, e);
    if route.holds - settled != {} {
      var o :| o in route.holds - settled;
      assert o in route.holds && !Settles(s, e, o);
    } else {
      assert forall o :: o in route.holds ==> o in settled || o in route.holds - settled;
    }
  }

  /**
   A listed token leaves the table exactly with the last request on its retired route, with a revocation that matches
   what it was resolved to, or with a receipt that makes it superfluous while no request runs on it.
   */
  lemma TokenLeavesExactly(s: State, e: Event, t: Token)
    requires Inv(s) && t in s.routes
    ensures
      var (id, route) := (s.routes[t], s.objects[s.routes[t]]);
      t !in Step(s, e).routes <==>
        match e
        case EndRequest(q) => q in s.requests && s.requests[q].route == id && route.retired && Holding(s.requests, id) == {q}
        case Revoke(matching) => s.update.None? && matching(route.upstream)
        case Reconcile(_, _, _, _, _, _) => Applies(s, e) && Superfluous(s, e, route) && Holding(s.requests, id) == {}
        case _ => false
  {
    var (id, route) := (s.routes[t], s.objects[s.routes[t]]);
    match e
    case EndRequest(q) =>
      if q in s.requests {
        RetiredRouteLeavesWithLastRequest(s, q);
      }
    case Reconcile(_, scope, _, _, _, _) =>
      assert route.active == 0 <==> Holding(s.requests, id) == {};
      if scope in s.ownership && route.upstream.scope == scope {
        SuperfluousExactly(s, e, route);
      }
    case _ =>
  }

  /** A token enters the table exactly when the resolution in progress sets it, with a fresh route to what was resolved. */
  lemma TokenEntersExactly(s: State, e: Event, t: Token)
    requires Inv(s) && t !in s.routes
    ensures t in Step(s, e).routes <==> e.SetRoute? && s.update.Some? && s.update.value.thread == e.thread && s.update.value.token == t
    ensures t in Step(s, e).routes ==>
      var (s', r) := (Step(s, e), s.update.value);
      && s'.routes[t] !in s.objects && s'.routes[t] in s'.objects && s'.update.None?
      && s'.objects[s'.routes[t]] == Route(t, r.upstream, r.startedAt, 0, false, if r.offer == "" then {} else {r.offer})
  {
  }

  /** A request is admitted exactly on a listed route that is not retired, and counted there. */
  lemma AdmittedExactly(s: State, request: nat, token: Token)
    requires Inv(s) && request !in s.requests
    ensures
      var s' := Step(s, BeginRequest(request, token));
      && (request in s'.requests <==> token in s.routes && !s.objects[s.routes[token]].retired)
      && (request in s'.requests ==> s'.requests == s.requests[request := InFlight(token, s.routes[token])])
      && (request !in s'.requests ==> s'.requests == s.requests)
  {
  }

  /** What a receipt does to a listed route of its scope. */
  lemma ReceiptTreats(s: State, e: Event, id: RouteId)
    requires Inv(s) && id in s.objects && e.Reconcile?
    ensures
      var settled := if Applies(s, e) then Settled(s.ownership[e.scope], Newest(s, e), e.offers) else {};
      var s' := Effect(s, e);
      && id in s'.objects
      && s'.objects[id] ==
           if Applies(s, e) && InTable(s, id) && s.objects[id].upstream.scope == e.scope
           then Retired(s.objects[id], Newest(s, e), settled) else s.objects[id]
  {
  }

  lemma SettledExactly(s: State, e: Event)
    requires e.Reconcile? && e.scope in s.ownership
    ensures forall o :: o in Settled(s.ownership[e.scope], Newest(s, e), e.offers) <==> Settles(s, e, o)
  {
  }

  /** The resolution that is set now brings this offer for the route's token, and the route is listed. */
  predicate Offers(s: State, e: Event, id: RouteId, offer: string)
    requires id in s.objects
  {
    e.SetRoute? && InTable(s, id) && offer != ""
    && s.update.Some? && s.update.value.thread == e.thread && s.update.value.token == s.objects[id].token && s.update.value.offer == offer
  }

  /** A new incarnation of the route's scope is pinned. */
  predicate Repins(s: State, e: Event, id: RouteId)
    requires id in s.objects
  {
    && e.Pin? && InTable(s, id) && s.objects[id].upstream.scope == e.scope
    && s.update.None? && e.scope in s.ownership && s.ownership[e.scope].incarnation != e.incarnation
  }

  /** A route is retired exactly by a receipt that makes it superfluous; a new offer for a listed token lifts retirement. */
  lemma RetiredExactly(s: State, e: Event, id: RouteId)
    requires Inv(s) && id in s.objects
    ensures id in Effect(s, e).objects
    ensures
      Effect(s, e).objects[id].retired <==>
        || (s.objects[id].retired && !(s.update.Some? && Offers(s, e, id, s.update.value.offer)))
        || (e.Reconcile? && Applies(s, e) && InTable(s, id) && Superfluous(s, e, s.objects[id]))
  {
    if e.Reconcile? {
      ReceiptTreats(s, e, id);
      if Applies(s, e) && s.objects[id].upstream.scope == e.scope {
        SuperfluousExactly(s, e, s.objects[id]);
      }
    }
  }

  /** Which offers hold a route: a new offer adds itself, a receipt takes those it settles, a new incarnation takes all. */
  lemma HoldsExactly(s: State, e: Event, id: RouteId, offer: string)
    requires Inv(s) && id in s.objects
    ensures id in Effect(s, e).objects
    ensures
      offer in Effect(s, e).objects[id].holds <==>
        || Offers(s, e, id, offer)
        || (&& offer in s.objects[id].holds && !Repins(s, e, id)
            && !(e.Reconcile? && Applies(s, e) && InTable(s, id) && s.objects[id].upstream.scope == e.scope && Settles(s, e, offer)))
  {
    if e.Reconcile? {
      ReceiptTreats(s, e, id);
      if Applies(s, e) {
        SettledExactly(s, e);
      }
    }
  }

  /** Within an incarnation the receipt number only rises, exactly with a newer receipt, whose status is then the newest. */
  lemma ReceiptsAreOrdered(s: State, e: Event, scope: string)
    requires scope in s.ownership
    ensures scope in Step(s, e).ownership
    ensures
      var (owner, owner') := (s.ownership[scope], Step(s, e).ownership[scope]);
      var newer := e.Reconcile? && e.scope == scope && Applies(s, e) && e.seqNo > owner.seqNo;
      if e.Pin? && e.scope == scope && s.update.None? && e.incarnation != owner.incarnation
      then owner' == Ownership(e.incarnation, 0, Status({}, false), map[])
      else owner'.incarnation == owner.incarnation && owner'.seqNo == (if newer then e.seqNo else owner.seqNo)
           && owner'.latest == (if newer then e.status else owner.latest)
  {
  }

  /** An offer is pending from its reservation by the pinned incarnation until a receipt settles it or another is pinned. */
  lemma PendingExactly(s: State, e: Event, scope: string, offer: string)
    requires scope in s.ownership && scope in Step(s, e).ownership
    ensures
      var (owner, pending') := (s.ownership[scope], Step(s, e).ownership[scope].pending);
      var reserved := e.ReserveInstall? && e.scope == scope && e.offer == offer && e.incarnation == owner.incarnation;
      var dropped := match e
                     case Pin(scope', incarnation) => scope' == scope && s.update.None? && incarnation != owner.incarnation
                     case Reconcile(_, scope', _, _, _, _) => scope' == scope && Applies(s, e) && Settles(s, e, offer)
                     case _ => false;
      && (offer in pending' <==> reserved || (offer in owner.pending && !dropped))
      && (offer in pending' ==> pending'[offer] == if reserved then e.revision else owner.pending[offer])
  {
    if e.Reconcile? && e.scope == scope {
      SettledExactly(s, e);
    }
  }

  /** A scope becomes known by pinning, and at most one resolution is open: from its start until it is set or fails. */
  lemma ResolutionExactly(s: State, e: Event)
    ensures Step(s, e).ownership.Keys == s.ownership.Keys + (if e.Pin? && s.update.None? then {e.scope} else {})
    ensures
      Step(s, e).update ==
        match e
        case StartResolve(thread, token, upstream, offer) =>
          if s.update.None? then Some(Resolution(thread, token, upstream, offer, s.clock)) else s.update
        case SetRoute(thread) => if s.update.Some? && s.update.value.thread == thread then None else s.update
        case FailResolve(thread) => if s.update.Some? && s.update.value.thread == thread then None else s.update
        case _ => s.update
  {
  }

  // ---- Revocation ----

  /** Nothing that matches and was resolved before time since is listed or about to be. */
  ghost predicate Purged(s: State, matching: Upstream -> bool, since: nat) {
    && since <= s.clock
    && (s.update.Some? && matching(s.update.value.upstream) ==> s.update.value.startedAt >= since)
    && (forall t :: t in s.routes && s.routes[t] in s.objects && matching(s.objects[s.routes[t]].upstream)
          ==> s.objects[s.routes[t]].resolvedAt >= since)
  }

  /** No route is listed anew, and none listed changes what it was resolved to. */
  ghost predicate ListsNothingNew(s: State, s': State) {
    && (forall t :: t in s'.routes ==> t in s.routes && s'.routes[t] == s.routes[t])
    && (forall id :: id in s.objects && id in s'.objects ==>
          s'.objects[id].upstream == s.objects[id].upstream && s'.objects[id].resolvedAt == s.objects[id].resolvedAt)
    && s'.objects.Keys == s.objects.Keys && s'.update == s.update && s'.clock == s.clock
  }

  lemma ListedPersists(s: State, s': State, matching: Upstream -> bool, since: nat)
    requires Purged(s, matching, since) && ListsNothingNew(s, s')
    ensures Purged(s', matching, since)
  {
  }

  lemma QuietEffects(s: State, e: Event)
    requires e.BeginRequest? || e.EndRequest? || e.Revoke? || e.ReserveInstall? || e.Pin?
    ensures ListsNothingNew(s, Effect(s, e))
  {
  }

  lemma RetireListsNothingNew(s: State, scope: string, status: Status, offers: set<string>)
    ensures ListsNothingNew(s, RetireScope(s, scope, status, offers))
  {
  }

  lemma ReconcileListsNothingNew(s: State, version: nat, scope: string, incarnation: string, seqNo: nat, status: Status, offers: set<string>)
    ensures ListsNothingNew(s, AfterReconcile(s, version, scope, incarnation, seqNo, status, offers))
  {
    forall ownership: map<string, Ownership>, newest, settled
      ensures ListsNothingNew(s, RetireScope(s.(ownership := ownership), scope, newest, settled))
    {
      RetireListsNothingNew(s.(ownership := ownership), scope, newest, settled);
    }
  }

  lemma SetPersists(s: State, thread: nat, matching: Upstream -> bool, since: nat)
    requires TableSound(s) && Purged(s, matching, since)
    ensures Purged(AfterSet(s, thread), matching, since)
  {
  }

  lemma PurgedPersists(s: State, e: Event, matching: Upstream -> bool, since: nat)
    requires Inv(s) && Purged(s, matching, since)
    ensures Purged(Step(s, e), matching, since)
  {
    match e
    case SetRoute(thread) => SetPersists(s, thread, matching, since);
    case Reconcile(version, scope, incarnation, seqNo, status, offers) =>
      ReconcileListsNothingNew(s, version, scope, incarnation, seqNo, status, offers);
      ListedPersists(s, Effect(s, e), matching, since);
    case StartResolve(_, _, _, _) =>
    case FailResolve(_) =>
    case _ =>
      QuietEffects(s, e);
      ListedPersists(s, Effect(s, e), matching, since);
  }

  /**
   After a revocation returns, no matching route that was resolved before it is ever listed again: a
   resolution that had already started was waited for, and its route was removed with the others.
   */
  lemma {:induction false} RevocationIsFinal(s: State, matching: Upstream -> bool, later: seq<Event>)
    requires Inv(s) && s.update.None?
    ensures
      var revoked := Step(s, Revoke(matching));
      Inv(Run(revoked, later)) && Purged(Run(revoked, later), matching, revoked.clock)
  {
    if later == [] {
      StepKeepsInv(s, Revoke(matching));
    } else {
      var before := Run(Step(s, Revoke(matching)), later[..|later| - 1]);
      RevocationIsFinal(s, matching, later[..|later| - 1]);
      StepKeepsInv(before, later[|later| - 1]);
      PurgedPersists(before, later[|later| - 1], matching, Step(s, Revoke(matching)).clock);
    }
  }
}
