/** The per-user search-history store and the three controller handlers
    `addHistory`, `getHistory` and `deleteHistory`. The database is the map
    `users` from user id to the persisted user document; every handler reads
    the document of the authenticated user and writes back only that one.
    Failures of `findById` and `save` are given as parameters
    (`Some(message)` for a thrown error). */
module HistoryStore {
  import opened Wrappers
  import opened Json
  import opened UserModel
  import PyStr

  /** The JSON body of POST /api/history: any field may be missing. */
  datatype HistoryBody = HistoryBody(title: Option<string>, jd: Option<string>, mode: Option<string>, results: Option<Json>)

  /** The JSON a handler answers with. */
  datatype Body =
    | Message(message: string)
    | Added(message: string, history: Draft)
    | Entries(entries: seq<Entry>)
    | Item(entry: Entry)

  datatype Response = Response(status: int, body: Body)

  const UserNotFound: Response := Response(404, Message("User not found"))

  /** The object literal `addHistory` builds: the body's four fields and the
      current time, and no `_id`. */
  function NewHistory(b: HistoryBody, now: Time): Draft {
    Draft(b.title, b.jd, b.mode, b.results, Some(now))
  }

  /** `_id.toString()` */
  function IdText(e: Entry): string {
    PyStr.NatText(e.id)
  }

  // ---------------------------------------------------------------------
  // The array operations and their properties
  // ---------------------------------------------------------------------

  /** `searchHistory.filter(h => h._id.toString() !== historyId)` */
  function WithoutId(h: seq<Entry>, historyId: string): (r: seq<Entry>)
    ensures |r| <= |h|
    ensures forall e :: e in r <==> e in h && IdText(e) != historyId
  {
    if h == [] then []
    else (if IdText(h[0]) != historyId then [h[0]] else []) + WithoutId(h[1..], historyId)
  }

  /** Filtering works piecewise, so the kept entries stay in their order. */
  lemma {:induction false} WithoutIdAppend(a: seq<Entry>, b: seq<Entry>, x: string)
    ensures WithoutId(a + b, x) == WithoutId(a, x) + WithoutId(b, x)
  {
    if a == [] {
      assert a + b == b;
    } else {
      assert (a + b)[0] == a[0] && (a + b)[1..] == a[1..] + b;
      WithoutIdAppend(a[1..], b, x);
    }
  }

  /** An array with no entry of that id is left exactly as it was. */
  lemma {:induction false} WithoutIdKeepsUnmatched(h: seq<Entry>, x: string)
    requires forall e :: e in h ==> IdText(e) != x
    ensures WithoutId(h, x) == h
  {
    if h != [] {
      WithoutIdKeepsUnmatched(h[1..], x);
    }
  }

  /** Deleting the same id twice leaves what deleting it once left. */
  lemma WithoutIdIdempotent(h: seq<Entry>, x: string)
    ensures WithoutId(WithoutId(h, x), x) == WithoutId(h, x)
  {
    WithoutIdKeepsUnmatched(WithoutId(h, x), x);
  }

  /** Mongoose's `searchHistory.id(x)`: the first entry whose id text is `x`.
      Mongoose casts `x` to an ObjectId first, so other spellings of the
      same id would match too; ids here have one text form only. */
  function FindById(h: seq<Entry>, x: string): (r: Option<Entry>)
    ensures r.Some? ==> r.value in h && IdText(r.value) == x
    ensures r.None? <==> forall e :: e in h ==> IdText(e) != x
  {
    if h == [] then None
    else if IdText(h[0]) == x then Some(h[0])
    else FindById(h[1..], x)
  }

  /** Ids are told apart by their text. */
  lemma IdTextInjective(e: Entry, f: Entry)
    requires e.id != f.id
    ensures IdText(e) != IdText(f)
  {
    if IdText(e) == IdText(f) {
      PyStr.NatTextInjective(e.id, f.id);
    }
  }

  /** After an entry with a fresh id is appended, looking its id up finds it. */
  lemma {:induction false} FindAppended(h: seq<Entry>, e: Entry)
    requires forall f :: f in h ==> f.id != e.id
    ensures FindById(h + [e], IdText(e)) == Some(e)
  {
    if h == [] {
    } else {
      IdTextInjective(h[0], e);
      assert (h + [e])[1..] == h[1..] + [e];
      FindAppended(h[1..], e);
    }
  }

  /** Deleting the id of an entry just appended with a fresh id gives back
      the array as it was before the append. */
  lemma AddThenDelete(h: seq<Entry>, e: Entry)
    requires forall f :: f in h ==> f.id != e.id
    ensures WithoutId(h + [e], IdText(e)) == h
  {
    forall f | f in h ensures IdText(f) != IdText(e) {
      IdTextInjective(f, e);
    }
    WithoutIdAppend(h, [e], IdText(e));
    WithoutIdKeepsUnmatched(h, IdText(e));
  }

  /** Filtering keeps ids unique. */
  lemma {:induction false} WithoutIdKeepsUnique(h: seq<Entry>, x: string)
    requires UniqueIds(h)
    ensures UniqueIds(WithoutId(h, x))
  {
    if h != [] {
      WithoutIdKeepsUnique(h[1..], x);
      var rest := WithoutId(h[1..], x);
      forall f | f in rest ensures f.id != h[0].id {
        var k :| 0 <= k < |h[1..]| && h[1..][k] == f;
        assert h[k + 1] == f;
      }
    }
  }

  // ---------------------------------------------------------------------
  // The database
  // ---------------------------------------------------------------------

  /** No entry of `h` carries an id at or above `n`. */
  predicate IdsBelow(h: seq<Entry>, n: ObjectId) {
    forall e :: e in h ==> e.id < n
  }

  /** What holds of the stored documents between requests: every user was
      saved through the schema (required paths given, entries well formed,
      ids unique within the array) and every id was issued before `next`. */
  ghost predicate StoreInvariant(users: map<UserId, UserRecord>, next: ObjectId) {
    && EmailsUnique(users)
    && forall u :: u in users ==>
         && u < next
         && UserFieldsGiven(users[u])
         && UniqueIds(users[u].searchHistory)
         && IdsBelow(users[u].searchHistory, next)
         && forall e :: e in users[u].searchHistory ==> WellFormed(e)
  }

  /** The database after `user.searchHistory.push(e)` and `user.save()`:
      only the owner's array changes, and only by `e` at its end. */
  function Appended(users: map<UserId, UserRecord>, uid: UserId, e: Entry): (r: map<UserId, UserRecord>)
    requires uid in users
    ensures r.Keys == users.Keys
    ensures forall u :: u in users && u != uid ==> r[u] == users[u]
    ensures r[uid] == users[uid].(searchHistory := users[uid].searchHistory + [e])
  {
    users[uid := users[uid].(searchHistory := users[uid].searchHistory + [e])]
  }

  /** The database after `deleteHistory` reassigned and saved the owner's
      filtered array; every other document is untouched. */
  function Deleted(users: map<UserId, UserRecord>, uid: UserId, historyId: string): (r: map<UserId, UserRecord>)
    requires uid in users
    ensures r.Keys == users.Keys
    ensures forall u :: u in users && u != uid ==> r[u] == users[u]
    ensures r[uid] == users[uid].(searchHistory := WithoutId(users[uid].searchHistory, historyId))
  {
    users[uid := users[uid].(searchHistory := WithoutId(users[uid].searchHistory, historyId))]
  }

  /** Appending a well-formed entry under the next id keeps the invariant,
      with the generator moved on by one. */
  lemma AppendedKeepsInvariant(users: map<UserId, UserRecord>, next: ObjectId, uid: UserId, e: Entry)
    requires StoreInvariant(users, next) && uid in users
    requires e.id == next && WellFormed(e)
    ensures StoreInvariant(Appended(users, uid, e), next + 1)
  {
    var h := users[uid].searchHistory;
    var h' := h + [e];
    forall i, j | 0 <= i < j < |h'| ensures h'[i].id != h'[j].id {
      if j == |h| {
        assert h'[i] in h;
      } else {
        assert h'[i] == h[i] && h'[j] == h[j];
      }
    }
    var r := Appended(users, uid, e);
    forall u | u in r ensures IdsBelow(r[u].searchHistory, next + 1) {
    }
  }

  /** Deleting keeps the invariant. */
  lemma DeletedKeepsInvariant(users: map<UserId, UserRecord>, next: ObjectId, uid: UserId, x: string)
    requires StoreInvariant(users, next) && uid in users
    ensures StoreInvariant(Deleted(users, uid, x), next)
  {
    WithoutIdKeepsUnique(users[uid].searchHistory, x);
  }

  /** Deleting twice leaves the database as deleting once did. */
  lemma DeleteTwiceSameAsOnce(users: map<UserId, UserRecord>, uid: UserId, x: string)
    requires uid in users
    ensures Deleted(Deleted(users, uid, x), uid, x) == Deleted(users, uid, x)
  {
    WithoutIdIdempotent(users[uid].searchHistory, x);
  }

  /** `getHistory`: the caller's whole array in stored order (200), 404 when
      the user id does not resolve, 500 with the error's own message when
      the lookup throws. Nothing is written. */
  function GetHistory(users: map<UserId, UserRecord>, uid: UserId, findFault: Option<string>): (res: Response)
    ensures findFault.Some? ==> res == Response(500, Message(findFault.value))
    ensures findFault.None? && uid !in users ==> res == UserNotFound
    ensures findFault.None? && uid in users ==> res == Response(200, Entries(users[uid].searchHistory))
  {
    if findFault.Some? then Response(500, Message(findFault.value))
    else if uid !in users then UserNotFound
    else Response(200, Entries(users[uid].searchHistory))
  }

  /** What a handler leaves behind: its answer, the database and the id
      generator after it. */
  datatype Outcome = Outcome(res: Response, users: map<UserId, UserRecord>, nextId: ObjectId)

  /** `addHistory` on the database `users` with the generator at `nextId`:
      it succeeds (201) exactly when the lookup does not throw, the user
      exists, the draft has every required field and the save does not
      throw; then the cast entry is appended under the next id. Every other
      answer leaves the database and the generator as they were. */
  function AddOutcome(users: map<UserId, UserRecord>, nextId: ObjectId, uid: UserId, body: HistoryBody, now: Time,
                      findFault: Option<string>, saveFault: Option<string>): (o: Outcome)
    ensures o.res.status == 201 <==>
              findFault.None? && uid in users && MissingPaths(NewHistory(body, now)) == [] && saveFault.None?
    ensures o.res.status != 201 ==> o.users == users && o.nextId == nextId && o.res.status in {404, 500}
    ensures o.res.status == 201 ==>
              && uid in users && CastEntry(NewHistory(body, now), nextId, now).Ok?
              && o.users == Appended(users, uid, CastEntry(NewHistory(body, now), nextId, now).value)
              && o.nextId == nextId + 1
              && o.res.body == Added("History added", NewHistory(body, now))
  {
    if findFault.Some? then Outcome(Response(500, Message(findFault.value)), users, nextId)
    else if uid !in users then Outcome(UserNotFound, users, nextId)
    else
      var pushed := CastEntry(NewHistory(body, now), nextId, now);
      if pushed.Err? then
        var prefix := "searchHistory." + PyStr.NatText(|users[uid].searchHistory|) + ".";
        Outcome(Response(500, Message(ValidationMessage("User", prefix, pushed.error))), users, nextId)
      else if saveFault.Some? then Outcome(Response(500, Message(saveFault.value)), users, nextId)
      else Outcome(Response(201, Added("History added", NewHistory(body, now))), Appended(users, uid, pushed.value), nextId + 1)
  }

  /** `deleteHistory` on the database `users`: it answers 200 exactly when
      the lookup does not throw, the user exists and the save does not
      throw, and then only the caller's array is filtered. Every other
      answer leaves the database as it was; the generator never moves. */
  function DeleteOutcome(users: map<UserId, UserRecord>, nextId: ObjectId, uid: UserId, historyId: string,
                         findFault: Option<string>, saveFault: Option<string>): (o: Outcome)
    ensures o.nextId == nextId
    ensures o.res.status == 200 <==> findFault.None? && uid in users && saveFault.None?
    ensures o.res.status != 200 ==> o.users == users && o.res.status in {404, 500}
    ensures o.res.status == 200 ==>
              uid in users && o.users == Deleted(users, uid, historyId)
              && o.res.body == Message("History item deleted")
  {
    if findFault.Some? then Outcome(Response(500, Message(findFault.value)), users, nextId)
    else if uid !in users then Outcome(UserNotFound, users, nextId)
    else if saveFault.Some? then Outcome(Response(500, Message(saveFault.value)), users, nextId)
    else Outcome(Response(200, Message("History item deleted")), Deleted(users, uid, historyId), nextId)
  }

  /** Whatever `addHistory` answers, the stored documents still satisfy the
      invariant with the generator where the handler left it. */
  lemma AddOutcomeKeepsInvariant(users: map<UserId, UserRecord>, nextId: ObjectId, uid: UserId, body: HistoryBody,
                                 now: Time, findFault: Option<string>, saveFault: Option<string>)
    requires StoreInvariant(users, nextId)
    ensures var o := AddOutcome(users, nextId, uid, body, now, findFault, saveFault);
            StoreInvariant(o.users, o.nextId)
  {
    var o := AddOutcome(users, nextId, uid, body, now, findFault, saveFault);
    if o.res.status == 201 {
      AppendedKeepsInvariant(users, nextId, uid, CastEntry(NewHistory(body, now), nextId, now).value);
    }
  }

  /** Whatever `deleteHistory` answers, the invariant still holds. */
  lemma DeleteOutcomeKeepsInvariant(users: map<UserId, UserRecord>, nextId: ObjectId, uid: UserId, historyId: string,
                                    findFault: Option<string>, saveFault: Option<string>)
    requires StoreInvariant(users, nextId)
    ensures var o := DeleteOutcome(users, nextId, uid, historyId, findFault, saveFault);
            StoreInvariant(o.users, o.nextId)
  {
    var o := DeleteOutcome(users, nextId, uid, historyId, findFault, saveFault);
    if o.res.status == 200 {
      DeletedKeepsInvariant(users, nextId, uid, historyId);
    }
  }

  /** Listing after an append shows the earlier entries unchanged and in
      order, followed by the new one. */
  lemma ListAfterAppend(users: map<UserId, UserRecord>, uid: UserId, e: Entry)
    requires uid in users
    ensures GetHistory(Appended(users, uid, e), uid, None)
            == Response(200, Entries(users[uid].searchHistory + [e]))
  {
  }

  /** Listing after appending the entries `es` one by one (in that order)
      shows the old array followed by exactly `es`. */
  function AppendAll(users: map<UserId, UserRecord>, uid: UserId, es: seq<Entry>): (r: map<UserId, UserRecord>)
    requires uid in users
    ensures uid in r && r.Keys == users.Keys
    decreases |es|
  {
    if es == [] then users else AppendAll(Appended(users, uid, es[0]), uid, es[1..])
  }

  lemma {:induction false} ListAfterAppendAll(users: map<UserId, UserRecord>, uid: UserId, es: seq<Entry>)
    requires uid in users
    ensures GetHistory(AppendAll(users, uid, es), uid, None)
            == Response(200, Entries(users[uid].searchHistory + es))
  {
    if es == [] {
      assert users[uid].searchHistory + es == users[uid].searchHistory;
    } else {
      var users' := Appended(users, uid, es[0]);
      ListAfterAppendAll(users', uid, es[1..]);
      assert users[uid].searchHistory + [es[0]] + es[1..] == users[uid].searchHistory + es;
    }
  }

  /** Why saving a new user fails. */
  datatype SaveError = ValidationFailed(paths: seq<string>) | DuplicateEmail(email: string) | DbError(message: string)

  class Store {
    /** The persisted user documents. */
    var users: map<UserId, UserRecord>
    /** The next ObjectId the generator hands out. */
    var nextId: ObjectId

    ghost predicate Valid()
      reads this
    {
      StoreInvariant(users, nextId)
    }

    constructor ()
      ensures Valid() && users == map[]
    {
      users := map[];
      nextId := 0;
    }

    /** Saving a new User document: a missing required path fails
        validation; a taken email fails the unique index; otherwise the
        pre-save hook hashes the password and the document is stored under a
        fresh id. */
    method InsertUser(name: string, email: string, rawPassword: string, nonce: seq<int>,
                      hash: (string, Salt) -> string, saveFault: Option<string>)
      returns (r: Result<UserId, SaveError>)
      requires Valid() && HashShape(hash)
      modifies this
      ensures Valid()
      ensures var missing := (if name == [] then ["name"] else []) + (if email == [] then ["email"] else [])
                             + (if rawPassword == [] then ["password"] else []);
              if missing != [] then r == Err(ValidationFailed(missing)) && users == old(users) && nextId == old(nextId)
              else if exists u :: u in old(users) && old(users)[u].email == email then
                r == Err(DuplicateEmail(email)) && users == old(users) && nextId == old(nextId)
              else if saveFault.Some? then
                r == Err(DbError(saveFault.value)) && users == old(users) && nextId == old(nextId)
              else r == Ok(old(nextId)) && old(nextId) !in old(users) && nextId == old(nextId) + 1
                   && users == old(users)[old(nextId) := UserRecord(name, email, hash(rawPassword, Salt(SaltRounds, nonce)), [])]
    {
      var missing := (if name == [] then ["name"] else []) + (if email == [] then ["email"] else [])
                     + (if rawPassword == [] then ["password"] else []);
      if missing != [] {
        return Err(ValidationFailed(missing));
      }
      var doc := new UserDocument.Create(name, email, rawPassword);
      doc.PreSave(nonce, hash);
      if exists u :: u in users && users[u].email == email {
        return Err(DuplicateEmail(email));
      }
      if saveFault.Some? {
        return Err(DbError(saveFault.value));
      }
      users := users[nextId := doc.Record()];
      r := Ok(nextId);
      nextId := nextId + 1;
    }

    /** `addHistory`: an entry built from the body's four fields and the
        current time `now` is appended, under a fresh id, at the end of the
        caller's array and saved. The answer is 201 with the literal that
        was pushed (it has no `_id`); 404 when the user id does not resolve;
        500 with the error's message when the lookup or the save throws, a
        missing required field being Mongoose's validation error. Every
        failure leaves the database as it was. */
    method AddHistory(uid: UserId, body: HistoryBody, now: Time, findFault: Option<string>, saveFault: Option<string>)
      returns (res: Response)
      requires Valid()
      modifies this
      ensures Valid()
      ensures findFault.Some? ==>
                res == Response(500, Message(findFault.value)) && users == old(users) && nextId == old(nextId)
      ensures findFault.None? && uid !in old(users) ==>
                res == UserNotFound && users == old(users) && nextId == old(nextId)
      ensures findFault.None? && uid in old(users) ==>
                var h := old(users)[uid].searchHistory;
                var draft := NewHistory(body, now);
                if MissingPaths(draft) != [] then
                  res == Response(500, Message(ValidationMessage("User", "searchHistory." + PyStr.NatText(|h|) + ".", MissingPaths(draft))))
                  && users == old(users) && nextId == old(nextId)
                else if saveFault.Some? then
                  res == Response(500, Message(saveFault.value)) && users == old(users) && nextId == old(nextId)
                else
                  res == Response(201, Added("History added", draft))
                  && nextId == old(nextId) + 1
                  && users == Appended(old(users), uid, Entry(old(nextId), body.title.value, body.jd.value, body.mode.value, body.results.value, now))
      ensures Outcome(res, users, nextId) == AddOutcome(old(users), old(nextId), uid, body, now, findFault, saveFault)
    {
      if findFault.Some? {
        return Response(500, Message(findFault.value));
      }
      if uid !in users {
        return UserNotFound;
      }
      var user := users[uid];
      var newHistory := NewHistory(body, now);
      var pushed := CastEntry(newHistory, nextId, now);
      if pushed.Err? {
        var prefix := "searchHistory." + PyStr.NatText(|user.searchHistory|) + ".";
        return Response(500, Message(ValidationMessage("User", prefix, pushed.error)));
      }
      if saveFault.Some? {
        return Response(500, Message(saveFault.value));
      }
      AppendedKeepsInvariant(users, nextId, uid, pushed.value);
      users := Appended(users, uid, pushed.value);
      nextId := nextId + 1;
      res := Response(201, Added("History added", newHistory));
    }

    /** `deleteHistory`: every entry whose id text equals `historyId` is
        removed from the caller's array, the others keep their order, and
        the answer is 200 "History item deleted" whether or not one matched;
        404 when the user id does not resolve; 500 with the error's message
        when the lookup or the save throws, leaving the database as it was. */
    method DeleteHistory(uid: UserId, historyId: string, findFault: Option<string>, saveFault: Option<string>)
      returns (res: Response)
      requires Valid()
      modifies this
      ensures Valid() && nextId == old(nextId)
      ensures findFault.Some? ==> res == Response(500, Message(findFault.value)) && users == old(users)
      ensures findFault.None? && uid !in old(users) ==> res == UserNotFound && users == old(users)
      ensures findFault.None? && uid in old(users) && saveFault.Some? ==>
                res == Response(500, Message(saveFault.value)) && users == old(users)
      ensures findFault.None? && uid in old(users) && saveFault.None? ==>
                res == Response(200, Message("History item deleted")) && users == Deleted(old(users), uid, historyId)
      ensures Outcome(res, users, nextId) == DeleteOutcome(old(users), old(nextId), uid, historyId, findFault, saveFault)
    {
      if findFault.Some? {
        return Response(500, Message(findFault.value));
      }
      if uid !in users {
        return UserNotFound;
      }
      if saveFault.Some? {
        return Response(500, Message(saveFault.value));
      }
      DeletedKeepsInvariant(users, nextId, uid, historyId);
      users := Deleted(users, uid, historyId);
      res := Response(200, Message("History item deleted"));
    }
  }
}
