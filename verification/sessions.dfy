/**
 Session tokens of a user account and the single-session logout filter.

 A user document keeps its active sessions as an ordered list of records
 `{ token: string }`. Logging out of one session keeps exactly the records
 whose `token` differs from the one the request presented.
 */
module Sessions {

  /** One entry of a user's `tokens` list. */
  datatype SessionToken = SessionToken(token: string)

  /** `tokens.filter(t => t.token !== presented)`: every record whose token
      differs from `presented`, in the order they appear. */
  function RemoveToken(tokens: seq<SessionToken>, presented: string): (r: seq<SessionToken>)
    ensures |r| <= |tokens|
    ensures forall x :: x in r <==> x in tokens && x.token != presented
  {
    if tokens == [] then []
    else if tokens[0].token == presented then RemoveToken(tokens[1..], presented)
    else [tokens[0]] + RemoveToken(tokens[1..], presented)
  }

  /** Logout keeps the other sessions in their relative order: filtering a
      concatenation filters each part and concatenates the results. */
  lemma {:induction false} RemoveTokenAppend(a: seq<SessionToken>, b: seq<SessionToken>, presented: string)
    ensures RemoveToken(a + b, presented) == RemoveToken(a, presented) + RemoveToken(b, presented)
  {
    if a == [] {
      assert a + b == b;
    } else {
      assert (a + b)[0] == a[0];
      assert (a + b)[1..] == a[1..] + b;
      RemoveTokenAppend(a[1..], b, presented);
    }
  }

  /** Logout removes every copy of the presented token and keeps every copy
      of every other record: the multiplicities agree with the old list
      except on the presented token, which drops to zero. */
  lemma {:induction false} RemoveTokenCounts(tokens: seq<SessionToken>, presented: string)
    ensures forall x :: multiset(RemoveToken(tokens, presented))[x]
                          == if x.token == presented then 0 else multiset(tokens)[x]
  {
    if tokens != [] {
      RemoveTokenCounts(tokens[1..], presented);
      assert tokens == [tokens[0]] + tokens[1..];
      assert multiset(tokens) == multiset{tokens[0]} + multiset(tokens[1..]);
    }
  }

  /** When no session carries the presented token, logout leaves the list as it was. */
  lemma {:induction false} RemoveTokenAbsent(tokens: seq<SessionToken>, presented: string)
    requires forall i :: 0 <= i < |tokens| ==> tokens[i].token != presented
    ensures RemoveToken(tokens, presented) == tokens
  {
    if tokens != [] {
      RemoveTokenAbsent(tokens[1..], presented);
      assert tokens == [tokens[0]] + tokens[1..];
    }
  }

  /** Logging out twice with the same token is the same as logging out once. */
  lemma RemoveTokenIdempotent(tokens: seq<SessionToken>, presented: string)
    ensures RemoveToken(RemoveToken(tokens, presented), presented) == RemoveToken(tokens, presented)
  {
  }

  /** The list length drops by exactly the number of records carrying the presented token. */
  lemma {:induction false} RemoveTokenLength(tokens: seq<SessionToken>, presented: string)
    ensures |RemoveToken(tokens, presented)| == |tokens| - Occurrences(tokens, presented)
  {
    if tokens != [] {
      RemoveTokenLength(tokens[1..], presented);
    }
  }

  /** How many records of `tokens` carry the token string `presented`. */
  function Occurrences(tokens: seq<SessionToken>, presented: string): (n: nat)
    ensures n <= |tokens|
    ensures n == 0 <==> forall i :: 0 <= i < |tokens| ==> tokens[i].token != presented
  {
    if tokens == [] then 0
    else (if tokens[0].token == presented then 1 else 0) + Occurrences(tokens[1..], presented)
  }
}
