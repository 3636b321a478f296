/** Username de-duplication of `createUser` (src/services/user.service.js):
    a taken name gets a random 2–3 digit suffix, drawn again until the
    candidate is free. `Math.random` is replaced by a finite sequence of
    draws in [0, 1) and `User.isUsernameTaken` by membership in the set of
    stored usernames. */
module UserService {
  import opened Wrappers
  import opened Decimal

  predicate ValidDraws(draws: seq<real>) {
    forall i :: 0 <= i < |draws| ==> 0.0 <= draws[i] < 1.0
  }

  /** `Math.floor(Math.random() * 990) + 10`. */
  function Suffix(draw: real): (n: nat)
    requires 0.0 <= draw < 1.0
    ensures 10 <= n <= 999
  {
    var f := (draw * 990.0).Floor;
    assert 0 <= f < 990;
    f + 10
  }

  /** `${username}${suffix}`: always the original name, never a previous candidate. */
  function Candidate(username: string, draw: real): (name: string)
    requires 0.0 <= draw < 1.0
    ensures |username| + 2 <= |name| <= |username| + 3
    ensures |name| - |username| == (if Suffix(draw) < 100 then 2 else 3)
    ensures name[..|username|] == username
    ensures name[|username|] != '0'
    ensures AllDigits(name[|username|..]) && ParseDigits(name[|username|..]) == Suffix(draw)
  {
    var digits := NatToString(Suffix(draw));
    NatToStringLength(Suffix(draw));
    ParseNatToString(Suffix(draw));
    assert (username + digits)[|username|..] == digits;
    username + digits
  }

  /** The name `createUser` settles on, and how many draws it used; `None`
      when every draw gave a taken candidate (the source would keep drawing). */
  method ChooseUsername(username: string, taken: set<string>, draws: seq<real>) returns (name: Option<string>, used: nat)
    requires ValidDraws(draws)
    ensures username !in taken ==> name == Some(username) && used == 0
    ensures name.Some? ==> name.value !in taken
    ensures username in taken && name.Some? ==>
      && 1 <= used <= |draws|
      && name.value == Candidate(username, draws[used - 1])
      && forall i :: 0 <= i < used - 1 ==> Candidate(username, draws[i]) in taken
    ensures name.None? ==>
      username in taken && forall i :: 0 <= i < |draws| ==> Candidate(username, draws[i]) in taken
  {
    if username !in taken {
      return Some(username), 0;
    }
    var isTaken := true;
    var newUsername := username;
    used := 0;
    while isTaken
      invariant used <= |draws|
      invariant forall i :: 0 <= i < used - 1 ==> Candidate(username, draws[i]) in taken
      invariant used == 0 ==> isTaken
      invariant used > 0 ==> newUsername == Candidate(username, draws[used - 1])
      invariant isTaken == (used == 0 || newUsername in taken)
      decreases |draws| - used, isTaken
    {
      if used == |draws| {
        return None, used;
      }
      newUsername := Candidate(username, draws[used]);
      used := used + 1;
      isTaken := newUsername in taken;
    }
    return Some(newUsername), used;
  }

  /** The `userBody` argument, whose `username` `createUser` overwrites. */
  class UserBody {
    var username: string

    constructor (username: string)
      ensures this.username == username
    {
      this.username := username;
    }
  }

  /** The stored users, seen through their usernames. */
  class UserDirectory {
    var usernames: set<string>

    constructor ()
      ensures usernames == {}
    {
      usernames := {};
    }

    /** `createUser(userBody)`: settles on a free name, writes it into the
        body and stores the user under it. */
    method CreateUser(body: UserBody, draws: seq<real>) returns (created: bool)
      requires ValidDraws(draws)
      modifies this, body
      ensures created ==> body.username !in old(usernames) && usernames == old(usernames) + {body.username}
      ensures created && old(body.username) !in old(usernames) ==> body.username == old(body.username)
      ensures created && old(body.username) in old(usernames) ==>
        exists i :: 0 <= i < |draws| && body.username == Candidate(old(body.username), draws[i])
          && forall j :: 0 <= j < i ==> Candidate(old(body.username), draws[j]) in old(usernames)
      ensures !created ==> usernames == old(usernames) && body.username == old(body.username)
    {
      var name, used := ChooseUsername(body.username, usernames, draws);
      if name.None? {
        return false;
      }
      body.username := name.value;
      usernames := usernames + {name.value};
      return true;
    }
  }
}
