/** The configuration flow: the user submits a user name and a password, one login is
    attempted, and its outcome decides between creating the entry and showing the form
    again with an error code. */
module ConfigFlow {
  import opened PyJson
  import opened Api

  /** How `validate_input` ends: it returns the entry title, raises CannotConnect or
      InvalidAuth, or lets another exception through. */
  datatype Validation = Valid(title: string) | CannotConnect | InvalidAuth | Uncaught(exc: Exc)

  /** The `except` clauses of `validate_input`, tried in order. */
  function Classify(e: Exc): (v: Validation)
    ensures v == InvalidAuth <==> e == KlereoApiError || (e.ClientResponseError? && (e.status == 401 || e.status == 403))
    ensures v == CannotConnect <==>
      e == ClientConnectionError || e == Timeout || (e.ClientResponseError? && e.status != 401 && e.status != 403)
    ensures v.Uncaught? <==> !IsClientError(e) && e != Timeout && e != KlereoApiError
    ensures v.Uncaught? ==> v.exc == e
    ensures !v.Valid?
  {
    if e == KlereoApiError then InvalidAuth
    else if e.ClientResponseError? then
      if e.status == 401 || e.status == 403 then InvalidAuth else CannotConnect
    else if IsClientError(e) || e == Timeout then CannotConnect
    else Uncaught(e)
  }

  /** A response error is a client error too, yet the generic client-error clause never
      sees one: a 401 or 403 is an authentication failure, not a connection failure. */
  lemma ResponseErrorsTakeTheirOwnClause(status: int)
    ensures IsClientError(ClientResponseError(status))
    ensures Classify(ClientResponseError(status)) == if status == 401 || status == 403 then InvalidAuth else CannotConnect
  {
  }

  /** `validate_input` given what the server answered to its login call. */
  function ValidationOf(username: string, reply: Response): Validation {
    match LoginResult(reply)
    case Ok(_) => Valid(username)
    case Raise(e) => Classify(e)
  }

  /** `validate_input`: a fresh client makes exactly one login call. */
  method ValidateInput(username: string, password: string, sha1hex: string -> string, server: Server)
    returns (v: Validation)
    modifies server
    ensures var call := Call(LoginRequest(username, sha1hex(password)), None);
      server.log == old(server.log) + [call] &&
      v == ValidationOf(username, server.respond(|old(server.log)|, call))
  {
    var api := new KlereoApi(username, password, sha1hex, server);
    var o := api.Login();
    if o.Fail? {
      return Classify(o.exc);
    }
    return Valid(username);
  }

  datatype UserInput = UserInput(username: string, password: string)

  /** What a step hands back to the flow manager. */
  datatype FlowResult =
    | ShowForm(errors: map<string, string>)
    | CreateEntry(title: string, data: UserInput, uniqueId: string)
    | Abort(reason: string)

  /** The error code the step shows for a validation failure. */
  function ErrorCode(v: Validation): string
    requires !v.Valid?
  {
    match v
    case CannotConnect => "cannot_connect"
    case InvalidAuth => "invalid_auth"
    case Uncaught(_) => "unknown"
  }

  /** `async_step_user` as written, given how `validate_input` ended, the unique ids of
      the flows in progress and of the entries already configured. Setting the unique
      id and the duplicate check raise AbortFlow inside the `try`, so the final
      `except Exception` turns either abort into the error "unknown". */
  function StepUserAsWritten(input: Option<UserInput>, v: Validation, inProgress: set<string>, configured: set<string>): FlowResult {
    if input.None? then ShowForm(map[])
    else if !v.Valid? then ShowForm(map["base" := ErrorCode(v)])
    else if input.value.username in inProgress || input.value.username in configured then ShowForm(map["base" := "unknown"])
    else CreateEntry(v.title, input.value, input.value.username)
  }

  /** `async_step_user` with the aborts let through: a second flow for the same account
      aborts with "already_in_progress", an account already set up with
      "already_configured". */
  function StepUser(input: Option<UserInput>, v: Validation, inProgress: set<string>, configured: set<string>): FlowResult {
    if input.None? then ShowForm(map[])
    else if !v.Valid? then ShowForm(map["base" := ErrorCode(v)])
    else if input.value.username in inProgress then Abort("already_in_progress")
    else if input.value.username in configured then Abort("already_configured")
    else CreateEntry(v.title, input.value, input.value.username)
  }

  /** The step maps CannotConnect to "cannot_connect", InvalidAuth to "invalid_auth" and
      every other exception to "unknown"; without input it shows the form with no
      error; a login that succeeds for a new account creates the entry titled and
      identified by the user name. */
  lemma StepUserOutcomes(input: Option<UserInput>, v: Validation, inProgress: set<string>, configured: set<string>)
    ensures input.None? ==> StepUser(input, v, inProgress, configured) == ShowForm(map[])
    ensures input.Some? && v == CannotConnect ==>
      StepUser(input, v, inProgress, configured) == ShowForm(map["base" := "cannot_connect"])
    ensures input.Some? && v == InvalidAuth ==>
      StepUser(input, v, inProgress, configured) == ShowForm(map["base" := "invalid_auth"])
    ensures input.Some? && v.Uncaught? ==>
      StepUser(input, v, inProgress, configured) == ShowForm(map["base" := "unknown"])
    ensures input.Some? && StepUser(input, v, inProgress, configured).CreateEntry? ==>
      var u := input.value; var r := StepUser(input, v, inProgress, configured);
      v.Valid? && r.title == v.title && r.uniqueId == u.username && r.data == u &&
      u.username !in inProgress && u.username !in configured
    ensures input.Some? && StepUser(input, v, inProgress, configured).ShowForm? ==>
      !v.Valid? && StepUser(input, v, inProgress, configured).errors.Keys == {"base"}
  {
  }

  /** The step as written: no input shows the form with no error; a validation failure
      shows its error code; the form comes back after input only for a failed
      validation or a user name already in a flow or configured; a created entry is
      titled and identified by the user name, which is new. */
  lemma StepUserAsWrittenOutcomes(input: Option<UserInput>, v: Validation, inProgress: set<string>, configured: set<string>)
    ensures input.None? ==> StepUserAsWritten(input, v, inProgress, configured) == ShowForm(map[])
    ensures input.Some? && !v.Valid? ==>
      StepUserAsWritten(input, v, inProgress, configured) == ShowForm(map["base" := ErrorCode(v)])
    ensures input.Some? && StepUserAsWritten(input, v, inProgress, configured).ShowForm? ==>
      StepUserAsWritten(input, v, inProgress, configured).errors.Keys == {"base"} &&
      (!v.Valid? || input.value.username in inProgress || input.value.username in configured)
    ensures input.Some? && StepUserAsWritten(input, v, inProgress, configured).CreateEntry? ==>
      var u := input.value; var r := StepUserAsWritten(input, v, inProgress, configured);
      v.Valid? && r.title == v.title && r.uniqueId == u.username && r.data == u &&
      u.username !in inProgress && u.username !in configured
    ensures !StepUserAsWritten(input, v, inProgress, configured).Abort?
  {
  }

  /** The as-written step never aborts: an account that is already configured, whose
      login succeeds, gets the form back with "unknown". */
  lemma DuplicateAccountShowsUnknown(u: UserInput)
    ensures forall v, p, c :: !StepUserAsWritten(Some(u), v, p, c).Abort?
    ensures StepUserAsWritten(Some(u), Valid(u.username), {}, {u.username}) == ShowForm(map["base" := "unknown"])
  {
  }

  /** With the aborts let through, the same submission aborts as already configured, and
      the two steps agree on every other submission. */
  lemma DuplicateAccountAborts(u: UserInput)
    ensures StepUser(Some(u), Valid(u.username), {}, {u.username}) == Abort("already_configured")
    ensures forall input, v, p, c ::
      !StepUser(input, v, p, c).Abort? ==> StepUser(input, v, p, c) == StepUserAsWritten(input, v, p, c)
  {
  }

  /** From the server's answer to the login to what the user sees. A body that is not a
      dict goes through the `in` tests of the token lookup: a list or a string that
      mentions neither key reads as a login without a token ("invalid_auth"), one that
      mentions a key fails on the subscript, and null, booleans and numbers fail the
      `in` test itself ("unknown"). */
  lemma LoginReplyToErrorCode(u: UserInput, reply: Response)
    ensures var r := StepUserAsWritten(Some(u), ValidationOf(u.username, reply), {}, {});
      (reply.ConnectionFailed? || reply.TimedOut? ==> r == ShowForm(map["base" := "cannot_connect"])) &&
      (reply.Reply? && (reply.status == 401 || reply.status == 403) ==> r == ShowForm(map["base" := "invalid_auth"])) &&
      (reply.Reply? && reply.status >= 400 && reply.status != 401 && reply.status != 403 ==>
        r == ShowForm(map["base" := "cannot_connect"])) &&
      (reply.Reply? && reply.status < 400 && reply.body.None? ==> r == ShowForm(map["base" := "unknown"])) &&
      (reply.Reply? && reply.status < 400 && reply.body.Some? && reply.body.value.JObj? ==>
        var fields := reply.body.value.fields;
        r == if "jwt" in fields || "token" in fields then CreateEntry(u.username, u, u.username)
             else ShowForm(map["base" := "invalid_auth"])) &&
      (reply.Reply? && reply.status < 400 && reply.body.Some? && reply.body.value.JArr? ==>
        var xs := reply.body.value.elems;
        r == ShowForm(map["base" := if JStr("jwt") in xs || JStr("token") in xs then "unknown" else "invalid_auth"])) &&
      (reply.Reply? && reply.status < 400 && reply.body.Some? && reply.body.value.JStr? ==>
        var text := reply.body.value.s;
        r == ShowForm(map["base" := if IsSubstring("jwt", text) || IsSubstring("token", text) then "unknown" else "invalid_auth"])) &&
      (reply.Reply? && reply.status < 400 && reply.body.Some? &&
        !reply.body.value.JObj? && !reply.body.value.JArr? && !reply.body.value.JStr? ==>
        r == ShowForm(map["base" := "unknown"]))
  {
  }

  /** `async_step_user` end to end, as written: without input no call is made; with
      input exactly one login call is made and the step's result follows from its
      answer, an account already set up or being set up getting "unknown". */
  method AsyncStepUser(input: Option<UserInput>, sha1hex: string -> string, server: Server,
                       inProgress: set<string>, configured: set<string>)
    returns (r: FlowResult)
    modifies server
    ensures input.None? ==> r == ShowForm(map[]) && server.log == old(server.log)
    ensures input.Some? ==>
      var call := Call(LoginRequest(input.value.username, sha1hex(input.value.password)), None);
      server.log == old(server.log) + [call] &&
      r == StepUserAsWritten(input, ValidationOf(input.value.username, server.respond(|old(server.log)|, call)), inProgress, configured)
  {
    if input.None? {
      return ShowForm(map[]);
    }
    var v := ValidateInput(input.value.username, input.value.password, sha1hex, server);
    r := StepUserAsWritten(input, v, inProgress, configured);
  }
}
