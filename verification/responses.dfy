/**
 How each handler of the user router turns the outcome of the calls it awaits
 into an HTTP status and a body.
 */
module Responses {
  import opened Outcomes
  import opened Profiles
  import opened Users

  /** What `res.send` is given. */
  datatype Payload =
    | Empty
    | Text(text: string)
    | UserBody(user: UserDoc)
    | UserAndToken(user: UserDoc, token: string)
    | ErrorBody(error: Error)

  /** `res.status(status).send(body)`; a bare `res.send(body)` answers 200. */
  datatype Response = Response(status: nat, body: Payload)

  const OK: nat := 200
  const CREATED: nat := 201
  const BAD_REQUEST: nat := 400
  const NOT_FOUND: nat := 404
  const SERVER_ERROR: nat := 500

  /** A 2xx status. */
  predicate Succeeded(r: Response)
  {
    200 <= r.status < 300
  }

  /** POST /users: `await user.save()` then `await user.generateAuthToken()`.
      `generated` carries the document as it stands after token generation,
      together with the new token. Both calls completing gives 201 with the
      user and the token; otherwise the error of the first call to throw is
      sent back with 400. */
  function SignupResponse(saved: Attempt<()>, generated: Attempt<(UserDoc, string)>): (r: Response)
    ensures Succeeded(r) <==> saved.Done? && generated.Done?
    ensures saved.Done? && generated.Done? ==>
              r == Response(CREATED, UserAndToken(generated.value.0, generated.value.1))
    ensures saved.Threw? ==> r == Response(BAD_REQUEST, ErrorBody(saved.error))
    ensures saved.Done? && generated.Threw? ==> r == Response(BAD_REQUEST, ErrorBody(generated.error))
  {
    var created: Attempt<(UserDoc, string)> := AndThen(saved, generated);
    match created
    case Done((user, token)) => Response(CREATED, UserAndToken(user, token))
    case Threw(e) => Response(BAD_REQUEST, ErrorBody(e))
  }

  /** When the save throws, no token is generated: the response is the same
      whatever token generation would have given. */
  lemma SignupSkipsTokenAfterFailedSave(saved: Attempt<()>, g1: Attempt<(UserDoc, string)>, g2: Attempt<(UserDoc, string)>)
    requires saved.Threw?
    ensures SignupResponse(saved, g1) == SignupResponse(saved, g2)
  {
  }

  /** POST /users/login: `await User.findByCredentials(...)`, then
      `await user.generateAuthToken()`, then `await user.save()`. `generated`
      carries the document after token generation and the new token. All three
      completing gives 200 with the user and token; any one throwing gives 400
      and a fixed text. */
  function LoginResponse(found: Attempt<UserDoc>, generated: Attempt<(UserDoc, string)>, saved: Attempt<()>): (r: Response)
    ensures Succeeded(r) <==> found.Done? && generated.Done? && saved.Done?
    ensures found.Done? && generated.Done? && saved.Done? ==>
              r == Response(OK, UserAndToken(generated.value.0, generated.value.1))
    ensures !(found.Done? && generated.Done? && saved.Done?) ==>
              r == Response(BAD_REQUEST, Text("Unable to login"))
  {
    var loggedIn: Attempt<()> := AndThen(found, AndThen(generated, saved));
    match loggedIn
    case Done(_) => Response(OK, UserAndToken(generated.value.0, generated.value.1))
    case Threw(_) => Response(BAD_REQUEST, Text("Unable to login"))
  }

  /** A failed login tells the client nothing about why it failed: any two
      failing logins, whichever call threw and with whatever error, give the
      same response. */
  lemma LoginFailureHidesDetail(
    found1: Attempt<UserDoc>, generated1: Attempt<(UserDoc, string)>, saved1: Attempt<()>,
    found2: Attempt<UserDoc>, generated2: Attempt<(UserDoc, string)>, saved2: Attempt<()>)
    requires !(found1.Done? && generated1.Done? && saved1.Done?)
    requires !(found2.Done? && generated2.Done? && saved2.Done?)
    ensures LoginResponse(found1, generated1, saved1) == LoginResponse(found2, generated2, saved2)
  {
  }

  /** The shape shared by logout and logoutAll: 200 and the confirmation text
      once the save completes, 500 with an empty body when it throws. */
  function SaveConfirmation(saved: Attempt<()>, confirmation: string): (r: Response)
    ensures Succeeded(r) <==> saved.Done?
    ensures saved.Done? ==> r == Response(OK, Text(confirmation))
    ensures saved.Threw? ==> r == Response(SERVER_ERROR, Empty)
  {
    if saved.Done? then Response(OK, Text(confirmation)) else Response(SERVER_ERROR, Empty)
  }

  /** POST /users/logout. */
  function LogoutResponse(saved: Attempt<()>): (r: Response)
    ensures Succeeded(r) <==> saved.Done?
    ensures saved.Done? ==> r == Response(OK, Text("Successfully logged out"))
    ensures saved.Threw? ==> r == Response(SERVER_ERROR, Empty)
  {
    SaveConfirmation(saved, "Successfully logged out")
  }

  /** POST /users/logoutAll. */
  function LogoutAllResponse(saved: Attempt<()>): (r: Response)
    ensures Succeeded(r) <==> saved.Done?
    ensures saved.Done? ==> r == Response(OK, Text("Successfully logged out from all devices"))
    ensures saved.Threw? ==> r == Response(SERVER_ERROR, Empty)
  {
    SaveConfirmation(saved, "Successfully logged out from all devices")
  }

  /** GET /users/:id: the store finding nothing gives 404 "user not found",
      finding a user gives 200 with it, and a lookup that throws gives 500 with
      the error. */
  function GetByIdResponse(found: Attempt<Option<UserDoc>>): (r: Response)
    ensures r.status == NOT_FOUND <==> found == Done(None)
    ensures found == Done(None) ==> r.body == Text("user not found")
    ensures r.status == OK <==> found.Done? && found.value.Some?
    ensures found.Done? && found.value.Some? ==> r.body == UserBody(found.value.value)
    ensures r.status == SERVER_ERROR <==> found.Threw?
    ensures found.Threw? ==> r.body == ErrorBody(found.error)
  {
    match found
    case Done(None) => Response(NOT_FOUND, Text("user not found"))
    case Done(Some(user)) => Response(OK, UserBody(user))
    case Threw(e) => Response(SERVER_ERROR, ErrorBody(e))
  }

  /** PATCH /users/me, the allow-list gate: no response when every key of the
      body is allowed, otherwise 400 "ERROR: Invalid Operation". */
  function PatchGate(updates: seq<string>): (r: Option<Response>)
    ensures r.None? <==> forall i :: 0 <= i < |updates| ==> updates[i] in AllowedUpdates
    ensures r.Some? ==> r.value == Response(BAD_REQUEST, Text("ERROR: Invalid Operation"))
  {
    if AllAllowed(updates) then None else Some(Response(BAD_REQUEST, Text("ERROR: Invalid Operation")))
  }

  /** PATCH /users/me, after the fields were assigned: 200 with the updated user
      once the save completes, 400 with the error when it throws. */
  function PatchResponse(updated: UserDoc, saved: Attempt<()>): (r: Response)
    ensures Succeeded(r) <==> saved.Done?
    ensures saved.Done? ==> r == Response(OK, UserBody(updated))
    ensures saved.Threw? ==> r == Response(BAD_REQUEST, ErrorBody(saved.error))
  {
    match saved
    case Done(_) => Response(OK, UserBody(updated))
    case Threw(e) => Response(BAD_REQUEST, ErrorBody(e))
  }
}
