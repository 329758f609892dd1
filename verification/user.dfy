/**
 The in-memory user document that the request handlers update in place.
 */
module Users {
  import opened Profiles
  import opened Sessions

  /** A snapshot of a user document: what a response body carries. */
  datatype UserDoc = UserDoc(profile: Profile, tokens: seq<SessionToken>)

  /** A user document whose fields the handlers assign one by one. */
  class User {
    var name: Value
    var email: Value
    var password: Value
    var age: Value
    var dob: Value
    var mobile: Value
    var gender: Value
    var tokens: seq<SessionToken>

    /** The seven updatable fields as one value. */
    function ProfileValue(): Profile
      reads this
    {
      Profile(name, email, password, age, dob, mobile, gender)
    }

    /** The whole document as one value. */
    function Doc(): UserDoc
      reads this
    {
      UserDoc(ProfileValue(), tokens)
    }

    /** `user[f] = v`: field `f` takes `v`; the other fields and the sessions stay. */
    method Assign(f: Field, v: Value)
      modifies this
      ensures ProfileValue() == Set(old(ProfileValue()), f, v)
      ensures tokens == old(tokens)
    {
      match f
      case Name => name := v;
      case Email => email := v;
      case Password => password := v;
      case Age => age := v;
      case Dob => dob := v;
      case Mobile => mobile := v;
      case Gender => gender := v;
    }
  }
}
