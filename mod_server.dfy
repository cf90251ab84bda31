/** src/mod.ts.ts, the second copy of the backend. Its profile, ai-config, message and
    conversation handlers have the same bodies as those of index.tsx and are modelled by
    the KvServer members; what differs is the way it reads the caller's identity (it
    decodes the JWT itself) and the smaller record its signup seeds. */
module ModServer {
  import opened Common
  import opened KvServer

  /** What `jwtDecode` is handed: a string, or (as written) the array `split` returned. */
  datatype DecodeInput = TokenString(token: string) | TokenParts(parts: seq<string>)

  /** `jwtDecode(input).sub`. `subjects` lists the strings that decode to a payload with
      a `sub` claim, and that claim; any other string throws or has no `sub`. A non-string
      input always throws: the library checks `typeof token === "string"` first. */
  function DecodeSubject(input: DecodeInput, subjects: map<string, string>): (r: Option<string>)
    ensures input.TokenParts? ==> r.None?
    ensures input.TokenString? ==> (r.Some? <==> input.token in subjects)
    ensures r.Some? ==> r.value == subjects[input.token]
  {
    match input
    case TokenParts(_) => None
    case TokenString(token) => if token in subjects then Some(subjects[token]) else None
  }

  /** `getUserIdFromAuth` as written (src/mod.ts.ts:42-55): the whole array of pieces is
      decoded. An array is never falsy, so the guard after `split` never fires. */
  function GetUserIdFromAuthAsWritten(authHeader: Option<string>, subjects: map<string, string>): Option<string> {
    match authHeader
    case None => None
    case Some(h) => DecodeSubject(TokenParts(Split(h, ' ')), subjects)
  }

  /** As written, no request is ever authenticated: every protected route answers 401. */
  lemma AsWrittenRejectsEveryone(authHeader: Option<string>, subjects: map<string, string>)
    ensures GetUserIdFromAuthAsWritten(authHeader, subjects).None?
    ensures Unauthorized(GetUserIdFromAuthAsWritten(authHeader, subjects))
  {
  }

  /** `getUserIdFromAuth` as its comment says it is meant: decode the second piece. */
  function GetUserIdFromAuth(authHeader: Option<string>, subjects: map<string, string>): (r: Option<string>)
    ensures authHeader.None? ==> r.None?
    ensures r.Some? <==> authHeader.Some? && BearerToken(authHeader.value).Some? &&
                         BearerToken(authHeader.value).value in subjects
    ensures r.Some? ==> r.value == subjects[BearerToken(authHeader.value).value]
  {
    match authHeader
    case None => None
    case Some(h) =>
      match BearerToken(h)
      case None => None
      case Some(token) => DecodeSubject(TokenString(token), subjects)
  }

  /** A client's `Bearer <jwt>` header: the corrected helper yields the token's subject,
      the helper as written yields nothing. */
  lemma AuthFindingWitness(token: string, subjects: map<string, string>)
    requires token != "" && ' ' !in token && token in subjects
    ensures GetUserIdFromAuth(Some("Bearer " + token), subjects) == Some(subjects[token])
    ensures GetUserIdFromAuthAsWritten(Some("Bearer " + token), subjects).None?
  {
    BearerTokenOfHeader(token);
  }

  /** The record this signup seeds holds only the account basics; index.tsx's seed
      agrees with it on each of those and adds the AI companion's defaults. */
  lemma SeedIsAccountBasics(userId: string, email: string, name: string, now: string)
    ensures var small := AccountBasics(userId, email, name, now);
            var full := SignupSeed(userId, email, name, now);
      && (forall k :: k in small ==> k in full && full[k] == small[k])
      && "aiTraits" in full && "aiTraits" !in small
  {
    CompanionKeysNotBasic(userId, email, name, now);
  }

  /** The signup route: the same validation and error answers, and the smaller seed. */
  method HandleSignup(kv: KvStore, email: Option<string>, password: Option<string>, name: Option<string>,
                      created: CreateUserResult, now: string)
    returns (resp: Response)
    modifies kv
    ensures Falsy(email) || Falsy(password) || Falsy(name) ==>
      resp == Response(400, ErrorBody(SIGNUP_FIELDS_REQUIRED)) && kv.entries == old(kv.entries)
    ensures !(Falsy(email) || Falsy(password) || Falsy(name)) && created.CreateFailed? ==>
      resp == Response(400, ErrorBody(created.message)) && kv.entries == old(kv.entries)
    ensures !(Falsy(email) || Falsy(password) || Falsy(name)) && created.Created? ==>
      && resp == Response(200, UserBody(created.userId))
      && kv.entries == old(kv.entries)[UserKey(created.userId) :=
                         Record(AccountBasics(created.userId, email.value, name.value, now))]
  {
    if Falsy(email) || Falsy(password) || Falsy(name) {
      return Response(400, ErrorBody(SIGNUP_FIELDS_REQUIRED));
    }
    match created
    case CreateFailed(message) =>
      return Response(400, ErrorBody(message));
    case Created(userId) =>
      kv.Set(UserKey(userId), Record(AccountBasics(userId, email.value, name.value, now)));
      return Response(200, UserBody(userId));
  }
}
