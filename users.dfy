/**
 * The test user pool (EnsureDefaultUsers): the stored users, ordered by
 * Id and cut to `minUsers`, padded with generated users up to `minUsers`.
 */
module Users {
  import opened Decimal

  /** The profile fields of a user that the harness sets (the GUID Id is not modelled). */
  datatype ApplicationUser = ApplicationUser(
    fullName: string,
    email: string,
    userName: string,
    address: string,
    availability: string,
    cellphoneNumber: string,
    skills: string)

  const CELLPHONE_PREFIX: string := "07100000"
  const EMAIL_PREFIX: string := "auto"
  const EMAIL_DOMAIN: string := "@example.com"

  /** The user generated at loop index `i`, numbered i + 1 in its strings. */
  function DefaultUser(i: nat): ApplicationUser
  {
    var number := NatToString(i + 1);
    ApplicationUser(
      "Auto User " + number,
      EMAIL_PREFIX + number + EMAIL_DOMAIN,
      EMAIL_PREFIX + number + EMAIL_DOMAIN,
      "Generated Address " + number,
      "Weekends",
      CELLPHONE_PREFIX + ZeroPadded(i + 1, 3),
      "Testing")
  }

  /** Take(count): the first `count` elements, or all of them when there are fewer. */
  function Take<T>(s: seq<T>, count: nat): (r: seq<T>)
    ensures |r| == if count < |s| then count else |s|
    ensures r == s[..|r|]
  {
    if count < |s| then s[..count] else s
  }

  /**
   * Pads the stored users (in Id order) to exactly `minUsers`. Returns the
   * list, how many users were generated, and whether the context was saved.
   */
  method EnsureDefaultUsers(stored: seq<ApplicationUser>, minUsers: nat)
    returns (users: seq<ApplicationUser>, newUsersCount: nat, saved: bool)
    ensures |users| == minUsers
    ensures var fetched := Take(stored, minUsers);
      && users[..|fetched|] == fetched
      && newUsersCount == |users| - |fetched|
      && forall i | |fetched| <= i < |users| :: users[i] == DefaultUser(i)
    ensures saved <==> newUsersCount > 0
  {
    users := Take(stored, minUsers);
    ghost var fetched := users;
    newUsersCount := 0;
    var i := |users|;
    while i < minUsers
      invariant |fetched| <= i <= minUsers && |users| == i
      invariant users[..|fetched|] == fetched
      invariant newUsersCount == i - |fetched|
      invariant forall k | |fetched| <= k < i :: users[k] == DefaultUser(k)
    {
      var user := DefaultUser(i);
      users := users + [user];
      newUsersCount := newUsersCount + 1;
      i := i + 1;
    }
    saved := false;
    if newUsersCount > 0 {
      // SaveChangesAsync writes the generated users
      saved := true;
    }
  }

  /** The generated user's e-mail and user name carry its number. */
  lemma DefaultUserNumber(i: nat)
    ensures var u := DefaultUser(i); var number := NatToString(i + 1);
      && u.email == u.userName
      && |u.email| == |EMAIL_PREFIX| + |number| + |EMAIL_DOMAIN|
      && u.email[..|EMAIL_PREFIX|] == EMAIL_PREFIX
      && u.email[|EMAIL_PREFIX|..|u.email| - |EMAIL_DOMAIN|] == number
      && u.email[|u.email| - |EMAIL_DOMAIN|..] == EMAIL_DOMAIN
  {
    var u := DefaultUser(i);
    var number := NatToString(i + 1);
    assert u.email == EMAIL_PREFIX + number + EMAIL_DOMAIN;
    assert u.email[|EMAIL_PREFIX|..|u.email| - |EMAIL_DOMAIN|] == number;
  }

  /** The cellphone number is "07100000" then i + 1 zero-padded to three digits (more when it has more). */
  lemma DefaultUserCellphone(i: nat)
    ensures var c := DefaultUser(i).cellphoneNumber;
      && c[..|CELLPHONE_PREFIX|] == CELLPHONE_PREFIX
      && |c| == |CELLPHONE_PREFIX| + (if |NatToString(i + 1)| < 3 then 3 else |NatToString(i + 1)|)
      && AllDigits(c[|CELLPHONE_PREFIX|..])
      && DecimalValue(c[|CELLPHONE_PREFIX|..]) == i + 1
  {
    var c := DefaultUser(i).cellphoneNumber;
    ZeroPaddedRoundTrip(i + 1, 3);
    assert c[|CELLPHONE_PREFIX|..] == ZeroPadded(i + 1, 3);
  }

  /** Generated users never share an e-mail address or a user name. */
  lemma DefaultUsersDistinct(i: nat, j: nat)
    requires i != j
    ensures DefaultUser(i).email != DefaultUser(j).email
    ensures DefaultUser(i).userName != DefaultUser(j).userName
  {
    DefaultUserNumber(i);
    DefaultUserNumber(j);
    NatToStringInjective(i + 1, j + 1);
  }
}
