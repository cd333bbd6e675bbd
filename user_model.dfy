/** The User model: the history entry schema (required paths, default
    timestamp, own id), the user schema (required name, email and password,
    unique email), the pre-save hook that hashes a modified password and
    `matchPassword`. bcrypt is an opaque pair of functions passed in. */
module UserModel {
  import opened Wrappers
  import opened Json
  import PyStr

  /** Milliseconds since the epoch (a JavaScript Date). */
  type Time = int

  /** An ObjectId. Users and history entries draw them from one generator;
      the text form (`_id.toString()`) is `PyStr.NatText`. */
  type ObjectId = nat

  type UserId = ObjectId

  /** A stored history entry: the paths of historySchema plus its own `_id`. */
  datatype Entry = Entry(id: ObjectId, title: string, jd: string, mode: string, results: Json, timestamp: Time)

  /** A history entry as handed to Mongoose: any path may be absent. */
  datatype Draft = Draft(title: Option<string>, jd: Option<string>, mode: Option<string>,
                         results: Option<Json>, timestamp: Option<Time>)

  /** Mongoose's `required` on a String path: present and not empty. */
  predicate StringGiven(v: Option<string>) {
    v.Some? && v.value != []
  }

  /** Mongoose's `required` on an Object path: present and not null. */
  predicate ObjectGiven(v: Option<Json>) {
    v.Some? && v.value != JNull
  }

  /** The required paths of historySchema that a draft fails, in schema order. */
  function MissingPaths(d: Draft): (r: seq<string>)
    ensures "title" in r <==> !StringGiven(d.title)
    ensures "jd" in r <==> !StringGiven(d.jd)
    ensures "mode" in r <==> !StringGiven(d.mode)
    ensures "results" in r <==> !ObjectGiven(d.results)
    ensures r == [] <==> StringGiven(d.title) && StringGiven(d.jd) && StringGiven(d.mode) && ObjectGiven(d.results)
  {
    (if StringGiven(d.title) then [] else ["title"])
    + (if StringGiven(d.jd) then [] else ["jd"])
    + (if StringGiven(d.mode) then [] else ["mode"])
    + (if ObjectGiven(d.results) then [] else ["results"])
  }

  /** A stored entry satisfies every rule of historySchema. */
  predicate WellFormed(e: Entry) {
    e.title != [] && e.jd != [] && e.mode != [] && e.results != JNull
  }

  /** Casting a draft into the entry with id `id`: it fails, naming the
      missing required paths, or it copies every given path and fills an
      absent timestamp with `now` (the `Date.now` default). */
  function CastEntry(d: Draft, id: ObjectId, now: Time): (r: Result<Entry, seq<string>>)
    ensures r.Err? <==> MissingPaths(d) != []
    ensures r.Err? ==> r.error == MissingPaths(d)
    ensures r.Ok? ==> WellFormed(r.value) && r.value.id == id
                      && Some(r.value.title) == d.title && Some(r.value.jd) == d.jd
                      && Some(r.value.mode) == d.mode && Some(r.value.results) == d.results
                      && r.value.timestamp == d.timestamp.GetOr(now)
  {
    var missing := MissingPaths(d);
    if missing != [] then Err(missing)
    else Ok(Entry(id, d.title.value, d.jd.value, d.mode.value, d.results.value, d.timestamp.GetOr(now)))
  }

  /** `mode` is free text: every non-empty mode is accepted, "quick" and
      "full" being only the values the client sends. */
  lemma AnyModeAccepted(title: string, jd: string, mode: string, results: Json, id: ObjectId, now: Time)
    requires title != [] && jd != [] && mode != [] && results != JNull
    ensures CastEntry(Draft(Some(title), Some(jd), Some(mode), Some(results), None), id, now)
            == Ok(Entry(id, title, jd, mode, results, now))
  {
  }

  /** The message of a Mongoose ValidationError on the document of `model`,
      one "path: Path `p` is required." item per failing path. */
  function ValidationMessage(model: string, prefix: string, paths: seq<string>): string {
    model + " validation failed: " + RequiredItems(prefix, paths)
  }

  function RequiredItems(prefix: string, paths: seq<string>): string {
    if paths == [] then ""
    else
      prefix + paths[0] + ": Path `" + paths[0] + "` is required."
      + (if |paths| == 1 then "" else ", " + RequiredItems(prefix, paths[1..]))
  }

  /** No two entries of one user's history share an id. */
  predicate UniqueIds(h: seq<Entry>) {
    forall i, j :: 0 <= i < j < |h| ==> h[i].id != h[j].id
  }

  /** A persisted user document. */
  datatype UserRecord = UserRecord(name: string, email: string, password: string, searchHistory: seq<Entry>)

  /** The required paths of userSchema that are filled in. */
  predicate UserFieldsGiven(r: UserRecord) {
    r.name != [] && r.email != [] && r.password != []
  }

  /** The unique index on `email`. */
  predicate EmailsUnique(users: map<UserId, UserRecord>) {
    forall u, v :: u in users && v in users && u != v ==> users[u].email != users[v].email
  }

  /** The work factor passed to `bcrypt.genSalt`. */
  const SaltRounds: nat := 10

  /** A bcrypt salt: its cost and its random part. */
  datatype Salt = Salt(rounds: nat, nonce: seq<int>)

  /** bcrypt's output is a 60-character string. */
  ghost predicate HashShape(hash: (string, Salt) -> string) {
    forall p, s :: |hash(p, s)| == 60
  }

  /** What bcrypt promises: comparing a password with its own hash succeeds. */
  ghost predicate HashVerifies(hash: (string, Salt) -> string, compare: (string, string) -> bool) {
    forall p, s :: compare(p, hash(p, s))
  }

  /** A User document held in memory between load and save. */
  class UserDocument {
    var name: string
    var email: string
    var password: string
    var searchHistory: seq<Entry>
    /** `isModified("password")` */
    var passwordModified: bool

    function Record(): UserRecord
      reads this
    {
      UserRecord(name, email, password, searchHistory)
    }

    /** `new User({name, email, password})`: every path of a new document
        counts as modified, so the password will be hashed on save. */
    constructor Create(name: string, email: string, rawPassword: string)
      ensures Record() == UserRecord(name, email, rawPassword, [])
      ensures passwordModified
    {
      this.name := name;
      this.email := email;
      this.password := rawPassword;
      this.searchHistory := [];
      this.passwordModified := true;
    }

    /** A document loaded by `findById`: nothing is modified yet. */
    constructor Load(r: UserRecord)
      ensures Record() == r && !passwordModified
    {
      name := r.name;
      email := r.email;
      password := r.password;
      searchHistory := r.searchHistory;
      passwordModified := false;
    }

    /** Assigning `user.password`. */
    method SetPassword(raw: string)
      modifies this
      ensures Record() == old(Record()).(password := raw)
      ensures passwordModified
    {
      password := raw;
      passwordModified := true;
    }

    /** The `pre("save")` hook: an unmodified password is left alone; a
        modified one is replaced by its hash under a fresh salt of cost
        `SaltRounds` (the random part of that salt is `nonce`). */
    method PreSave(nonce: seq<int>, hash: (string, Salt) -> string)
      modifies this
      ensures passwordModified == old(passwordModified)
      ensures !old(passwordModified) ==> Record() == old(Record())
      ensures old(passwordModified) ==>
                Record() == old(Record()).(password := hash(old(password), Salt(SaltRounds, nonce)))
    {
      if !passwordModified {
        return;
      }
      var salt := Salt(SaltRounds, nonce);
      password := hash(password, salt);
    }

    /** `matchPassword(entered)`: bcrypt's comparison of the entered
        password with the stored hash. */
    function MatchPassword(entered: string, compare: (string, string) -> bool): (r: bool)
      reads this
      ensures r <==> compare(entered, password)
    {
      compare(entered, password)
    }
  }

  /** Creating a user and saving it stores a hash, not the raw password, and
      `matchPassword` with the raw password then succeeds; saving the loaded
      document again without touching the password keeps that hash. */
  method RegisterThenLogin(name: string, email: string, raw: string, nonce1: seq<int>, nonce2: seq<int>,
                           hash: (string, Salt) -> string, compare: (string, string) -> bool)
    returns (stored: string, matched: bool, storedAfterResave: string)
    requires HashVerifies(hash, compare)
    ensures stored == hash(raw, Salt(SaltRounds, nonce1))
    ensures matched
    ensures storedAfterResave == stored
  {
    var doc := new UserDocument.Create(name, email, raw);
    doc.PreSave(nonce1, hash);
    stored := doc.password;
    matched := doc.MatchPassword(raw, compare);
    var again := new UserDocument.Load(doc.Record());
    again.PreSave(nonce2, hash);
    storedAfterResave := again.password;
  }
}
