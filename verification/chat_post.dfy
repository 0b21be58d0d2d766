/**
 `POST /api/chat` of server/routes.ts: the decision of the role a chat
 message is stored with, the schema check of the body, and the append to the
 stream's chat list.

 A body whose user name is the owner's (`reydecopas`, in any letter case) is
 stored as admin. A body asking for `role: "admin"` must carry a `token`
 equal to the configured admin key (`VITE_ADMIN_KEY`, else `ADMIN_KEY`);
 otherwise the request is refused with 403. The source compares the token to
 the key with `!==`, so when no key is configured an absent token "matches"
 the absent key: `DecideRoleAsWritten` models that; `DecideRole` is the
 corrected decision, which grants admin only against a configured, non-empty
 key.
 */
module ChatPost {
  import opened Common
  import opened Storage

  /** A field of the JSON request body. */
  datatype Field = Undefined | Null | Str(s: string) | NonString

  datatype ChatRequest = ChatRequest(streamId: Field, username: Field, message: Field, role: Field, token: Field)

  /** 201 with the stored message, 403, or 400. */
  datatype Response = Created(msg: ChatMessage) | Forbidden | BadRequest

  /** The user name that is always admin. */
  function OwnerName(): string { "reydecopas" }

  /** `process.env[name]`. */
  function EnvGet(env: map<string, string>, name: string): (r: Option<string>)
    ensures r.Some? <==> name in env
  {
    if name in env then Some(env[name]) else None
  }

  /** `process.env.VITE_ADMIN_KEY || process.env.ADMIN_KEY`. */
  function ExpectedKey(env: map<string, string>): (k: Option<string>)
    ensures Truthy(EnvGet(env, "VITE_ADMIN_KEY")) ==> k == EnvGet(env, "VITE_ADMIN_KEY")
    ensures !Truthy(EnvGet(env, "VITE_ADMIN_KEY")) ==> k == EnvGet(env, "ADMIN_KEY")
  {
    OrElse(EnvGet(env, "VITE_ADMIN_KEY"), EnvGet(env, "ADMIN_KEY"))
  }

  /** `f === k` for a body field and an optional string. */
  predicate StrictEquals(f: Field, k: Option<string>) {
    (f.Undefined? && k.None?) || (f.Str? && k == Some(f.s))
  }

  /** How the role decision ends: a role, a 403, or an exception (a user name that is
      neither a string nor absent has no `toLowerCase`), which the handler answers with 400. */
  datatype Decision = Decided(role: Role) | Refused | Throws

  /** `username?.toLowerCase() === "reydecopas"`; `None` when the call throws. */
  function IsOwner(username: Field): (r: Option<bool>)
    ensures r.None? <==> username.NonString?
    ensures r == Some(true) <==> username.Str? && AsciiLower(username.s) == OwnerName()
  {
    match username
    case Str(u) => Some(AsciiLower(u) == OwnerName())
    case NonString => None
    case _ => Some(false)
  }

  /** The role decision as the source writes it: a throwing user name ends it; the owner
      is admin; an `admin` request is refused unless its token is strictly equal to the
      expected key, which an absent token is when no key is configured; anything else is
      a user. */
  function DecideRoleAsWritten(env: map<string, string>, req: ChatRequest): (d: Decision)
    ensures d == Throws <==> req.username.NonString?
    ensures d == Decided(Admin) <==>
              IsOwner(req.username) == Some(true)
              || (IsOwner(req.username) == Some(false) && req.role == Str("admin") && StrictEquals(req.token, ExpectedKey(env)))
    ensures d == Decided(User) <==> IsOwner(req.username) == Some(false) && req.role != Str("admin")
  {
    match IsOwner(req.username)
    case None => Throws
    case Some(owner) =>
      if owner then Decided(Admin)
      else if req.role == Str("admin") then
        if !StrictEquals(req.token, ExpectedKey(env)) then Refused else Decided(Admin)
      else Decided(User)
  }

  /** The corrected role decision: an admin request is granted only against a configured,
      non-empty key. Throwing and the `user` role are decided as in the source. */
  function DecideRole(env: map<string, string>, req: ChatRequest): (d: Decision)
    ensures d == Throws <==> req.username.NonString?
    ensures d == Decided(User) <==> IsOwner(req.username) == Some(false) && req.role != Str("admin")
    ensures d != Refused ==> d == DecideRoleAsWritten(env, req)
  {
    match IsOwner(req.username)
    case None => Throws
    case Some(owner) =>
      if owner then Decided(Admin)
      else if req.role == Str("admin") then
        var key := ExpectedKey(env);
        if !(Truthy(key) && StrictEquals(req.token, key)) then Refused else Decided(Admin)
      else Decided(User)
  }

  /** The corrected decision grants admin exactly to the owner and to an admin request
      that carries the configured, non-empty key; it refuses exactly the other admin
      requests. */
  lemma DecideRoleAdminIff(env: map<string, string>, req: ChatRequest)
    requires !req.username.NonString?
    ensures var owner := req.username.Str? && AsciiLower(req.username.s) == OwnerName();
            var key := ExpectedKey(env);
            && (DecideRole(env, req) == Decided(Admin) <==>
                  owner || (req.role == Str("admin") && key.Some? && key.value != "" && req.token == Str(key.value)))
            && (DecideRole(env, req) == Refused <==>
                  !owner && req.role == Str("admin") && !(key.Some? && key.value != "" && req.token == Str(key.value)))
  {
  }

  /** With a non-empty admin key configured, the correction changes no decision. */
  lemma DecideRoleAgreesWhenConfigured(env: map<string, string>, req: ChatRequest)
    requires Truthy(ExpectedKey(env))
    ensures DecideRole(env, req) == DecideRoleAsWritten(env, req)
  {
  }

  /** With no admin key configured, the source stores as admin a message from anyone who
      asks for the role and sends no token; the corrected route answers 403. */
  lemma AdminWithoutKeyAsWritten(cat: Catalog, freshId: string, now: string)
    ensures var req := ChatRequest(Str("s1"), Str("guest"), Str("hi"), Str("admin"), Undefined);
            && DecideRoleAsWritten(map[], req) == Decided(Admin)
            && DecideRole(map[], req) == Refused
            && PostChatAsWritten(cat, map[], req, freshId, now).1 == Created(ChatMessage(freshId, "s1", "guest", "hi", Admin, now))
            && PostChat(cat, map[], req, freshId, now) == (cat, Forbidden)
  {
    assert AsciiLower("guest") == "guest";
  }

  /** `InsertChatMessageSchema.parse({ ...body, role })`: stream id, user name and text
      must be non-empty strings. */
  function ParseMessage(req: ChatRequest, role: Role): (r: Option<InsertChatMessage>)
    ensures r.Some? ==> ValidInsertChatMessage(r.value) && r.value.role == Some(role)
    ensures r.Some? <==> (req.streamId.Str? && req.streamId.s != "" && req.username.Str? && req.username.s != ""
                          && req.message.Str? && req.message.s != "")
  {
    match (req.streamId, req.username, req.message)
    case (Str(sid), Str(u), Str(m)) =>
      if sid != "" && u != "" && m != "" then Some(InsertChatMessage(sid, u, m, Some(role))) else None
    case _ => None
  }

  /** `POST /api/chat` once the role decision `d` is made; `freshId` and `now` are the new
      message's id and timestamp. */
  function Post(cat: Catalog, d: Decision, req: ChatRequest, freshId: string, now: string): (r: (Catalog, Response))
    ensures !r.1.Created? ==> r.0 == cat
    ensures r.1 == Forbidden <==> d == Refused
    ensures r.1.Created? <==> d.Decided? && ParseMessage(req, d.role).Some?
    ensures r.1.Created? ==>
              && r.1.msg == ChatMessage(freshId, req.streamId.s, req.username.s, req.message.s, d.role, now)
              && GetChatMessages(r.0, r.1.msg.streamId) == GetChatMessages(cat, r.1.msg.streamId) + [r.1.msg]
              && (forall sid :: sid != r.1.msg.streamId ==> GetChatMessages(r.0, sid) == GetChatMessages(cat, sid))
              && r.0.streams == cat.streams
  {
    match d
    case Refused => (cat, Forbidden)
    case Throws => (cat, BadRequest)
    case Decided(role) =>
      match ParseMessage(req, role)
      case None => (cat, BadRequest)
      case Some(ins) =>
        var (cat2, m) := CreateChatMessage(cat, ins, freshId, now);
        (cat2, Created(m))
  }

  /** `POST /api/chat` as the source writes it. */
  function PostChatAsWritten(cat: Catalog, env: map<string, string>, req: ChatRequest, freshId: string, now: string): (r: (Catalog, Response))
    ensures r.1 == Forbidden <==> DecideRoleAsWritten(env, req) == Refused
    ensures r.1.Created? ==> DecideRoleAsWritten(env, req) == Decided(r.1.msg.role)
    ensures !r.1.Created? ==> r.0 == cat
  {
    Post(cat, DecideRoleAsWritten(env, req), req, freshId, now)
  }

  /** `POST /api/chat` with the corrected role decision. It differs from the source only by
      refusing admin requests when no key is configured. */
  function PostChat(cat: Catalog, env: map<string, string>, req: ChatRequest, freshId: string, now: string): (r: (Catalog, Response))
    ensures !r.1.Created? ==> r.0 == cat
    ensures r.1 == Forbidden <==> DecideRole(env, req) == Refused
    ensures r.1.Created? ==>
              && DecideRole(env, req) == Decided(r.1.msg.role)
              && req.streamId == Str(r.1.msg.streamId) && req.username == Str(r.1.msg.username)
              && req.message == Str(r.1.msg.message)
              && GetChatMessages(r.0, r.1.msg.streamId) == GetChatMessages(cat, r.1.msg.streamId) + [r.1.msg]
              && r.0.streams == cat.streams
    ensures r.1 != Forbidden ==> r == PostChatAsWritten(cat, env, req, freshId, now)
  {
    Post(cat, DecideRole(env, req), req, freshId, now)
  }
}
