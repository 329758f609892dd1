/**
 The handlers of the user router that change the authenticated user in place.

 The authentication middleware has already resolved the request's user and
 the token it presented; both arrive as parameters. The awaited `user.save()`
 is the `saved` outcome. The in-memory user keeps its changes even when the
 save throws.
 */
module UserRouter {
  import opened Outcomes
  import opened Sessions
  import opened Profiles
  import opened Users
  import opened Responses

  /** POST /users/logout: drop every session record carrying the presented token. */
  method Logout(user: User, presented: string, saved: Attempt<()>) returns (r: Response)
    modifies user
    ensures user.tokens == RemoveToken(old(user.tokens), presented)
    ensures forall i :: 0 <= i < |user.tokens| ==> user.tokens[i].token != presented
    ensures user.ProfileValue() == old(user.ProfileValue())
    ensures r == LogoutResponse(saved)
  {
    user.tokens := RemoveToken(user.tokens, presented);
    forall i | 0 <= i < |user.tokens| ensures user.tokens[i].token != presented {
      assert user.tokens[i] in user.tokens;
    }
    r := LogoutResponse(saved);
  }

  /** POST /users/logoutAll: drop every session, whatever the list held. */
  method LogoutAll(user: User, saved: Attempt<()>) returns (r: Response)
    modifies user
    ensures user.tokens == []
    ensures user.ProfileValue() == old(user.ProfileValue())
    ensures r == LogoutAllResponse(saved)
  {
    user.tokens := [];
    r := LogoutAllResponse(saved);
  }

  /** PATCH /users/me: reject the whole request, before touching the user, when
      a key of the body is off the allow-list; otherwise assign each key's
      field from the body in key order, leave the sessions alone, and answer
      from the save. */
  method Patch(user: User, body: JsonObject, saved: Attempt<()>) returns (r: Response)
    modifies user
    ensures !AllAllowed(Keys(body)) ==>
              && r == Response(BAD_REQUEST, Text("ERROR: Invalid Operation"))
              && user.Doc() == old(user.Doc())
    ensures AllAllowed(Keys(body)) ==>
              && user.ProfileValue() == ApplyKeys(old(user.ProfileValue()), Keys(body), body)
              && user.tokens == old(user.tokens)
              && r == PatchResponse(user.Doc(), saved)
  {
    var updates := Keys(body);
    var rejected := PatchGate(updates);
    if rejected.Some? {
      return rejected.value;
    }
    var i := 0;
    while i < |updates|
      invariant 0 <= i <= |updates|
      invariant AllAllowed(updates[..i])
      invariant user.ProfileValue() == ApplyKeys(old(user.ProfileValue()), updates[..i], body)
      invariant user.tokens == old(user.tokens)
    {
      var update := updates[i];
      assert updates[..i + 1][..i] == updates[..i];
      user.Assign(FieldOf(update).value, Lookup(body, update));
      i := i + 1;
    }
    assert updates[..i] == updates;
    r := PatchResponse(user.Doc(), saved);
  }
}
