/** The history router: the route table (every route behind `protect`), the
    inline `GET /:id` handler, and the dispatch of one request. `protect`
    itself is not part of this model; it is a parameter that turns the
    request's token into the authenticated user id or a rejection message. */
module HistoryRoutes {
  import opened Wrappers
  import opened UserModel
  import opened HistoryStore
  import PyStr

  datatype Verb = GET | POST | DELETE

  datatype Middleware = Protect

  datatype Handler = AddHistoryHandler | GetHistoryHandler | DeleteHistoryHandler | GetHistoryItemHandler

  /** One `router.<verb>(path, ...middleware, handler)` registration. */
  datatype RouteDecl = RouteDecl(verb: Verb, path: string, middleware: seq<Middleware>, handler: Handler)

  /** The registrations, in the order Express tries them. */
  const Routes: seq<RouteDecl> := [
    RouteDecl(POST, "/", [Protect], AddHistoryHandler),
    RouteDecl(GET, "/", [Protect], GetHistoryHandler),
    RouteDecl(DELETE, "/:historyId", [Protect], DeleteHistoryHandler),
    RouteDecl(GET, "/:id", [Protect], GetHistoryItemHandler)
  ]

  /** Every registered route runs `protect`, and runs it first. */
  lemma EveryRouteProtected()
    ensures forall i :: 0 <= i < |Routes| ==> |Routes[i].middleware| >= 1 && Routes[i].middleware[0] == Protect
  {
  }

  /** The value of a one-segment pattern such as "/:id" in `path` (the part
      of the URL after the router's mount point): a non-empty segment with
      no '/', optionally followed by one trailing '/'. */
  function ParamOf(path: string): (r: Option<string>)
    ensures r.Some? ==> r.value != [] && '/' !in r.value
                        && (path == "/" + r.value || path == "/" + r.value + "/")
  {
    var seg := if |path| >= 2 && path[|path| - 1] == '/' then path[1..|path| - 1] else if path != [] then path[1..] else [];
    if path != [] && path[0] == '/' && seg != [] && '/' !in seg then Some(seg) else None
  }

  /** Whether a registered pattern matches `path`; a parameter pattern
      yields the segment it captured. */
  function MatchPath(pattern: string, path: string): Option<Option<string>> {
    if pattern == "/" then (if path == "/" then Some(None) else None)
    else
      var p := ParamOf(path);
      if p.Some? then Some(Some(p.value)) else None
  }

  /** A request that reached a route: the route's index and captured
      parameter (empty for the parameterless routes). */
  datatype Match = Match(index: nat, param: string)

  /** Express's routing: the first registration whose verb and pattern
      match. */
  function Resolve(verb: Verb, path: string): (r: Option<Match>)
    ensures r.Some? ==> r.value.index < |Routes| && Routes[r.value.index].verb == verb
                        && MatchPath(Routes[r.value.index].path, path).Some?
    ensures r.Some? ==> forall i :: 0 <= i < r.value.index ==>
                          Routes[i].verb != verb || MatchPath(Routes[i].path, path).None?
    ensures r.None? ==> forall i :: 0 <= i < |Routes| ==>
                          Routes[i].verb != verb || MatchPath(Routes[i].path, path).None?
  {
    ResolveFrom(verb, path, 0)
  }

  function ResolveFrom(verb: Verb, path: string, from: nat): (r: Option<Match>)
    requires from <= |Routes|
    ensures r.Some? ==> from <= r.value.index < |Routes| && Routes[r.value.index].verb == verb
                        && MatchPath(Routes[r.value.index].path, path).Some?
    ensures r.Some? ==> forall i :: from <= i < r.value.index ==>
                          Routes[i].verb != verb || MatchPath(Routes[i].path, path).None?
    ensures r.None? ==> forall i :: from <= i < |Routes| ==>
                          Routes[i].verb != verb || MatchPath(Routes[i].path, path).None?
    decreases |Routes| - from
  {
    if from == |Routes| then None
    else
      var m := MatchPath(Routes[from].path, path);
      if Routes[from].verb == verb && m.Some? then Some(Match(from, m.value.GetOr("")))
      else ResolveFrom(verb, path, from + 1)
  }

  /** `GET /` reaches `getHistory`, never the `/:id` handler, and `GET /x`
      reaches the `/:id` handler with `x`. */
  lemma ListAndItemRoutesDisjoint(x: string)
    requires x != [] && '/' !in x
    ensures Resolve(GET, "/") == Some(Match(1, ""))
    ensures Resolve(GET, "/" + x) == Some(Match(3, x))
  {
    assert ParamOf("/" + x) == Some(x) by {
      var p := "/" + x;
      assert x[|x| - 1] in x;
      assert p[|p| - 1] == x[|x| - 1];
      assert p[1..] == x;
    }
  }

  /** The inline `GET /:id` handler: it looks the id up in the requesting
      user's own array only. 200 with the stored entry; 404 "User not found"
      or 404 "History item not found"; any thrown error gives 500 with the
      fixed message "Server error". Nothing is written. */
  function GetHistoryItem(users: map<UserId, UserRecord>, uid: UserId, id: string, findFault: Option<string>): (res: Response)
    ensures findFault.Some? ==> res == Response(500, Message("Server error"))
    ensures findFault.None? && uid !in users ==> res == UserNotFound
    ensures findFault.None? && uid in users ==>
              (res.status == 200 || res == Response(404, Message("History item not found")))
    ensures res.status == 200 ==>
              uid in users && res.body.Item? && res.body.entry in users[uid].searchHistory
              && IdText(res.body.entry) == id
    ensures findFault.None? && uid in users ==>
              (res.status == 404 <==> forall e :: e in users[uid].searchHistory ==> IdText(e) != id)
  {
    if findFault.Some? then Response(500, Message("Server error"))
    else if uid !in users then UserNotFound
    else
      var item := FindById(users[uid].searchHistory, id);
      if item.None? then Response(404, Message("History item not found"))
      else Response(200, Item(item.value))
  }

  /** Another user's documents play no part in the answer to `GET /:id`. */
  lemma GetHistoryItemOwnerOnly(users1: map<UserId, UserRecord>, users2: map<UserId, UserRecord>, uid: UserId, id: string, fault: Option<string>)
    requires uid in users1 <==> uid in users2
    requires uid in users1 ==> users1[uid] == users2[uid]
    ensures GetHistoryItem(users1, uid, id, fault) == GetHistoryItem(users2, uid, id, fault)
  {
  }

  /** Append then get by the new id returns the entry: the body's fields,
      the generated id and the timestamp. */
  lemma AddThenGetItem(users: map<UserId, UserRecord>, next: ObjectId, uid: UserId, e: Entry)
    requires StoreInvariant(users, next) && uid in users && e.id == next
    ensures GetHistoryItem(Appended(users, uid, e), uid, IdText(e), None) == Response(200, Item(e))
  {
    FindAppended(users[uid].searchHistory, e);
  }

  /** After a delete, getting the deleted id answers 404. */
  lemma DeleteThenGetItem(users: map<UserId, UserRecord>, uid: UserId, x: string)
    requires uid in users
    ensures GetHistoryItem(Deleted(users, uid, x), uid, x, None) == Response(404, Message("History item not found"))
  {
  }

  /** A request as it reaches the router. */
  datatype Request = Request(verb: Verb, path: string, token: Option<string>, body: HistoryBody)

  /** What `protect` decides for a token. */
  datatype Auth = Accept(uid: UserId) | Reject(message: string)

  /** Everything outside the router that a request may observe: the clock
      and whether the database calls throw. */
  datatype Env = Env(now: Time, findFault: Option<string>, saveFault: Option<string>)

  /** Serving one request: the matching route's `protect` runs first; a
      rejected token is answered 401 before any store access; otherwise the
      handler runs for the authenticated user only. None: no route of this
      router matched (Express passes the request on). */
  method Serve(store: Store, req: Request, protect: Option<string> -> Auth, env: Env) returns (res: Option<Response>)
    requires store.Valid()
    modifies store
    ensures store.Valid()
    ensures Resolve(req.verb, req.path).None? ==>
              res.None? && store.users == old(store.users) && store.nextId == old(store.nextId)
    ensures Resolve(req.verb, req.path).Some? && protect(req.token).Reject? ==>
              res == Some(Response(401, Message(protect(req.token).message)))
              && store.users == old(store.users) && store.nextId == old(store.nextId)
    ensures Resolve(req.verb, req.path).Some? && protect(req.token).Accept? ==>
              var uid := protect(req.token).uid;
              var m := Resolve(req.verb, req.path).value;
              && res.Some?
              && store.users.Keys == old(store.users).Keys
              && (forall u :: u in old(store.users) && u != uid ==> store.users[u] == old(store.users)[u])
              && (Routes[m.index].handler == GetHistoryHandler ==>
                    res.value == GetHistory(old(store.users), uid, env.findFault)
                    && store.users == old(store.users) && store.nextId == old(store.nextId))
              && (Routes[m.index].handler == GetHistoryItemHandler ==>
                    res.value == GetHistoryItem(old(store.users), uid, m.param, env.findFault)
                    && store.users == old(store.users) && store.nextId == old(store.nextId))
              && (Routes[m.index].handler == AddHistoryHandler ==>
                    Outcome(res.value, store.users, store.nextId)
                    == AddOutcome(old(store.users), old(store.nextId), uid, req.body, env.now, env.findFault, env.saveFault))
              && (Routes[m.index].handler == DeleteHistoryHandler ==>
                    Outcome(res.value, store.users, store.nextId)
                    == DeleteOutcome(old(store.users), old(store.nextId), uid, m.param, env.findFault, env.saveFault))
  {
    var m := Resolve(req.verb, req.path);
    if m.None? {
      return None;
    }
    var route := Routes[m.value.index];
    assert route.middleware[0] == Protect;
    var auth := protect(req.token);
    if auth.Reject? {
      return Some(Response(401, Message(auth.message)));
    }
    var uid := auth.uid;
    var r: Response;
    match route.handler {
      case AddHistoryHandler =>
        r := store.AddHistory(uid, req.body, env.now, env.findFault, env.saveFault);
      case GetHistoryHandler =>
        r := GetHistory(store.users, uid, env.findFault);
      case DeleteHistoryHandler =>
        r := store.DeleteHistory(uid, m.value.param, env.findFault, env.saveFault);
      case GetHistoryItemHandler =>
        r := GetHistoryItem(store.users, uid, m.value.param, env.findFault);
    }
    res := Some(r);
  }
}
