/**
 * The artist account service (`AuthService`): the demo password hash, the
 * profile completeness meter, and registration, login, logout and the guest
 * session over the browser's key-value store, which is modelled as the map
 * of stored accounts and the two session keys.
 */
module Auth {
  import opened Wrappers
  import opened Text
  import opened Percent
  import opened Profiles

  // ---------------------------------------------------------------------
  // The password hash
  // ---------------------------------------------------------------------

  const TWO_31: int := 0x8000_0000
  const TWO_32: int := 0x1_0000_0000

  /** ECMAScript ToInt32: the value modulo 2^32, read as a signed 32-bit integer. */
  function Wrap32(x: int): (r: int)
    ensures -TWO_31 <= r < TWO_31
    ensures (r - x) % TWO_32 == 0
  {
    (x + TWO_31) % TWO_32 - TWO_31
  }

  /** Wrapping does not change a value that already fits. */
  lemma Wrap32Fits(x: int)
    requires -TWO_31 <= x < TWO_31
    ensures Wrap32(x) == x
  {
  }

  /** Two values that differ by a multiple of 2^32 wrap to the same integer. */
  lemma Wrap32Congruent(x: int, y: int)
    requires (x - y) % TWO_32 == 0
    ensures Wrap32(x) == Wrap32(y)
  {
    var k := (x - y) / TWO_32;
    assert x == y + k * TWO_32;
    assert (x + TWO_31) % TWO_32 == (y + TWO_31) % TWO_32 by {
      ModShift(y + TWO_31, k);
    }
  }

  lemma ModShift(a: int, k: int)
    ensures (a + k * TWO_32) % TWO_32 == a % TWO_32
  {
    var q := a / TWO_32;
    assert a + k * TWO_32 == (q + k) * TWO_32 + a % TWO_32;
  }

  /** One step of the loop: `(hash << 5) - hash + char`, then `hash & hash`.
    * The shift works on the 32-bit value and wraps; the subtraction and the
    * addition are exact in a double; `&` wraps the sum back to 32 bits. */
  function HashStep(h: int, c: char): (r: int)
    requires -TWO_31 <= h < TWO_31
    ensures -TWO_31 <= r < TWO_31
  {
    Wrap32(Wrap32(h * 32) - h + c as int)
  }

  /** The step is 31·h + c taken modulo 2^32. */
  lemma HashStepIsMultiplyAdd(h: int, c: char)
    requires -TWO_31 <= h < TWO_31
    ensures HashStep(h, c) == Wrap32(31 * h + c as int)
  {
    var w := Wrap32(h * 32);
    assert ((w - h + c as int) - (31 * h + c as int)) % TWO_32 == 0 by {
      assert (w - h + c as int) - (31 * h + c as int) == w - h * 32;
    }
    Wrap32Congruent(w - h + c as int, 31 * h + c as int);
  }

  /** The value of `hash` after the loop has read `s`, starting from 0. */
  function Hash(s: string): (h: int)
    ensures -TWO_31 <= h < TWO_31
    decreases |s|
  {
    if |s| == 0 then 0 else HashStep(Hash(s[..|s| - 1]), s[|s| - 1])
  }

  /** The polynomial the hash approximates: the character codes as digits in base 31. */
  function Polynomial(s: string): int
    decreases |s|
  {
    if |s| == 0 then 0 else 31 * Polynomial(s[..|s| - 1]) + s[|s| - 1] as int
  }

  /** The hash is the base-31 polynomial of the character codes, modulo 2^32. */
  lemma {:induction false} HashIsPolynomial(s: string)
    ensures Hash(s) == Wrap32(Polynomial(s))
    decreases |s|
  {
    if |s| > 0 {
      var p, c := s[..|s| - 1], s[|s| - 1];
      HashIsPolynomial(p);
      HashStepIsMultiplyAdd(Hash(p), c);
      assert ((31 * Hash(p) + c as int) - (31 * Polynomial(p) + c as int)) % TWO_32 == 0 by {
        var d := Hash(p) - Polynomial(p);
        assert d % TWO_32 == 0;
        assert (31 * Hash(p) + c as int) - (31 * Polynomial(p) + c as int) == 31 * d;
        ModMultiple(d, 31);
      }
      Wrap32Congruent(31 * Hash(p) + c as int, 31 * Polynomial(p) + c as int);
    }
  }

  lemma ModMultiple(d: int, m: int)
    requires d % TWO_32 == 0
    ensures (m * d) % TWO_32 == 0
  {
    var k := d / TWO_32;
    assert m * d == (m * k) * TWO_32;
  }

  /** `hashPassword`: the loop over the password, then `hash.toString(36)`. */
  method HashPassword(password: string) returns (digest: string)
    ensures digest == IntToRadix(Hash(password), 36)
  {
    var hash := 0;
    var i := 0;
    while i < |password|
      invariant 0 <= i <= |password|
      invariant hash == Hash(password[..i])
    {
      assert password[..i + 1][..i] == password[..i];
      hash := HashStep(hash, password[i]);
      i := i + 1;
    }
    assert password[..i] == password;
    digest := IntToRadix(hash, 36);
  }

  /** The empty password hashes to "0". */
  lemma EmptyPasswordDigest()
    ensures IntToRadix(Hash(""), 36) == "0"
  {
  }

  /** A single character hashes to its own code. */
  lemma SingleCharacterHash(c: char)
    ensures Hash([c]) == c as int
  {
    assert [c][..0] == [];
    HashStepIsMultiplyAdd(0, c);
    Wrap32Fits(c as int);
  }

  /** The password "a" has the digest "2p": 97 is 2·36 + 25. */
  lemma LetterADigest()
    ensures IntToRadix(Hash("a"), 36) == "2p"
  {
    SingleCharacterHash('a');
    assert Hash("a") == 97;
    assert NatToRadix(2, 36) == ['2'];
    assert NatToRadix(97, 36) == NatToRadix(2, 36) + [DigitChar(25)];
    assert DigitChar(25) == 'p';
  }

  /** A two-character password hashes to 31·a + b. */
  lemma TwoCharacterHash(a: char, b: char)
    ensures Hash([a, b]) == 31 * (a as int) + b as int
  {
    assert [a, b][..1] == [a];
    SingleCharacterHash(a);
    HashStepIsMultiplyAdd(a as int, b);
    assert a as int <= 0x10FFFF && b as int <= 0x10FFFF;
    Wrap32Fits(31 * (a as int) + b as int);
  }

  /** The digest is not collision-free: "Aa" and "BB" share it, so either
    * password opens an account registered with the other. */
  lemma DigestCollision()
    ensures "Aa" != "BB" && Hash("Aa") == Hash("BB") == 2112
  {
    TwoCharacterHash('A', 'a');
    TwoCharacterHash('B', 'B');
  }

  /** The digest reads back as the hash: an optional '-' and base-36 digits
    * whose value is the hash's magnitude. */
  lemma DigestDenotesHash(password: string)
    ensures var h, d := Hash(password), IntToRadix(Hash(password), 36);
            |d| > 0 &&
            (h < 0 ==> d[0] == '-' && DigitsValue(d[1..], 36) == -h) &&
            (h >= 0 ==> d[0] != '-' && DigitsValue(d, 36) == h)
  {
    IntToRadixDenotes(Hash(password), 36);
  }

  // ---------------------------------------------------------------------
  // Profile completeness
  // ---------------------------------------------------------------------

  const TOTAL_FIELDS: nat := 22

  /** The 22 checks of `profileCompleteness`, in source order: 5 basic, 4
    * musical identity, 3 experience, 4 career, 3 marketing, 2 equipment and
    * 1 links. The two placeholders of the initial profile do not count. */
  function Checks(p: UserProfile): (r: seq<bool>)
    ensures |r| == TOTAL_FIELDS
  {
    [ p.artistName != "" && p.artistName != NEW_ARTIST, Filled(p.stageName), Filled(p.location),
      p.bio != "" && p.bio != BIO_PLACEHOLDER, p.primaryGenre != "",
      |p.secondaryGenres| > 0, p.musicalInfluences != "", |p.artistsYouSoundLike| > 0, p.uniqueSound != "",
      p.yearsActive > 0.0, |p.skills| > 0, p.formalTraining != "",
      |p.careerGoals| > 0, p.currentFocus != "", p.biggestChallenge != "", p.upcomingProjects != "",
      |p.promotionChannels| > 0, |p.revenueStreams| > 0, p.contentStrategy != "",
      |p.daw| > 0, |p.equipment| > 0,
      |p.links| > 0 ]
  }

  /** How many of the checks hold. */
  function CountTrue(bs: seq<bool>): (n: nat)
    ensures n <= |bs|
    ensures n == |bs| <==> forall i :: 0 <= i < |bs| ==> bs[i]
    ensures n == 0 <==> forall i :: 0 <= i < |bs| ==> !bs[i]
  {
    if |bs| == 0 then 0 else (if bs[0] then 1 else 0) + CountTrue(bs[1..])
  }

  /** `profileCompleteness`: 0 without a profile, otherwise the rounded
    * percentage of checks that hold. */
  function Completeness(profile: Option<UserProfile>): (r: nat)
    ensures r <= 100
    ensures profile.None? ==> r == 0
    ensures profile.Some? ==> r == RoundedPercent(CountTrue(Checks(profile.value)), TOTAL_FIELDS)
  {
    match profile
    case None => 0
    case Some(p) =>
      PercentInRange(CountTrue(Checks(p)), TOTAL_FIELDS);
      RoundedPercent(CountTrue(Checks(p)), TOTAL_FIELDS)
  }

  /** Out of 22, the rounded percentage is 100 only for 22 and 0 only for 0,
    * and it is never a half: the meter is strictly the nearest integer. */
  lemma RoundingOutOfTwentyTwo(k: nat)
    requires k <= TOTAL_FIELDS
    ensures RoundedPercent(k, TOTAL_FIELDS) == 100 <==> k == TOTAL_FIELDS
    ensures RoundedPercent(k, TOTAL_FIELDS) == 0 <==> k == 0
    ensures var r := RoundedPercent(k, TOTAL_FIELDS); 44 * r - 22 < 200 * k < 44 * r + 22
  {
    PercentEnds(TOTAL_FIELDS);
    if k < TOTAL_FIELDS {
      PercentMonotone(k, TOTAL_FIELDS - 1, TOTAL_FIELDS);
      assert RoundedPercent(21, 22) == 95;
    }
    if k > 0 {
      PercentMonotone(1, k, TOTAL_FIELDS);
      assert RoundedPercent(1, 22) == 5;
    }
    assert (200 * k + 22) % 4 == 2 by {
      assert 200 * k + 22 == 4 * (50 * k + 5) + 2;
    }
  }

  /** The meter is 100 exactly when every check holds and 0 exactly when none does. */
  lemma CompletenessEnds(p: UserProfile)
    ensures Completeness(Some(p)) == 100 <==> forall i :: 0 <= i < TOTAL_FIELDS ==> Checks(p)[i]
    ensures Completeness(Some(p)) == 0 <==> forall i :: 0 <= i < TOTAL_FIELDS ==> !Checks(p)[i]
  {
    var bs := Checks(p);
    RoundingOutOfTwentyTwo(CountTrue(bs));
  }

  /** The initial profile fills none of the checks: its placeholders do not count. */
  lemma InitialProfileIsEmpty()
    ensures Completeness(Some(INITIAL_PROFILE)) == 0
  {
    var bs := Checks(INITIAL_PROFILE);
    assert forall i :: 0 <= i < |bs| ==> !bs[i];
    RoundingOutOfTwentyTwo(CountTrue(bs));
  }

  /** A freshly registered profile, the initial one with a real artist name,
    * completes one check of 22, which shows as 5 %. */
  lemma RegisteredProfileIsFivePercent(artistName: string)
    requires artistName != "" && artistName != NEW_ARTIST
    ensures Completeness(Some(INITIAL_PROFILE.(artistName := artistName))) == 5
  {
    var bs := Checks(INITIAL_PROFILE.(artistName := artistName));
    assert bs[0];
    assert forall i :: 1 <= i < |bs| ==> !bs[i];
    var rest := bs[1..];
    assert forall i :: 0 <= i < |rest| ==> !rest[i];
    assert CountTrue(bs) == 1 + CountTrue(rest);
    RoundingOutOfTwentyTwo(1);
  }

  // ---------------------------------------------------------------------
  // Accounts and the session
  // ---------------------------------------------------------------------

  /** An `AuthUser`; dates are clock readings passed in by the caller. */
  datatype AuthUser = AuthUser(
    id: string, email: string, artistName: string, createdAt: int, lastLogin: int, profileCompleteness: int)

  /** The record under `smuve_user_<email>`. */
  datatype StoredAccount = StoredAccount(user: AuthUser, passwordHash: string)

  const GUEST_EMAIL: string := "guest@smuve.local"
  const GUEST_NAME: string := "Guest Artist"

  const EMAIL_TAKEN: string := "An artist with this email already exists in the S.M.U.V.E system."
  const WELCOME: string := "Welcome to S.M.U.V.E Your journey to greatness begins now."
  const NO_ACCOUNT: string := "No artist found with this email. Register to begin your journey."
  const WRONG_PASSWORD: string := "Incorrect password. Access denied."

  function WelcomeBack(artistName: string): string {
    "Welcome back, " + artistName + ". S.M.U.V.E has been waiting."
  }

  /** Every stored account is filed under its own email. */
  predicate AccountsFiled(accounts: map<string, StoredAccount>) {
    forall e :: e in accounts ==> accounts[e].user.email == e
  }

  class AuthService {
    var isAuthenticated: bool
    var currentUser: Option<AuthUser>
    var userProfile: Option<UserProfile>
    // the browser store: the accounts, 'smuve_auth_session' and 'smuve_user_profile'
    var accounts: map<string, StoredAccount>
    var sessionKey: Option<AuthUser>
    var profileKey: Option<UserProfile>

    /** Signed in means a user and a profile are both present. */
    predicate Valid()
      reads this
    {
      (isAuthenticated <==> currentUser.Some?) &&
      (isAuthenticated <==> userProfile.Some?) &&
      AccountsFiled(accounts)
    }

    /** The constructor runs `loadSession` on the store it finds: a session is
      * resumed only when both session keys are present. */
    constructor(accounts0: map<string, StoredAccount>, session0: Option<AuthUser>, profile0: Option<UserProfile>)
      requires AccountsFiled(accounts0)
      ensures Valid()
      ensures accounts == accounts0 && sessionKey == session0 && profileKey == profile0
      ensures isAuthenticated <==> session0.Some? && profile0.Some?
      ensures isAuthenticated ==> currentUser == session0 && userProfile == profile0
    {
      accounts := accounts0;
      sessionKey := session0;
      profileKey := profile0;
      if session0.Some? && profile0.Some? {
        currentUser := session0;
        userProfile := profile0;
        isAuthenticated := true;
      } else {
        currentUser := None;
        userProfile := None;
        isAuthenticated := false;
      }
    }

    /** `register`: an email that already has an account fails and changes
      * nothing; otherwise the account is stored with the password's digest
      * and the new user is signed in with the initial profile under their
      * artist name. `id` and `now` stand for the generated id and the clock. */
    method Register(email: string, password: string, artistName: string, id: string, now: int)
      returns (success: bool, message: string)
      requires Valid()
      modifies this
      ensures Valid()
      ensures email in old(accounts) ==>
                !success && message == EMAIL_TAKEN &&
                accounts == old(accounts) && isAuthenticated == old(isAuthenticated) &&
                currentUser == old(currentUser) && userProfile == old(userProfile) &&
                sessionKey == old(sessionKey) && profileKey == old(profileKey)
      ensures email !in old(accounts) ==>
                var user := AuthUser(id, email, artistName, now, now, 0);
                var profile := INITIAL_PROFILE.(artistName := artistName);
                success && message == WELCOME &&
                accounts == old(accounts)[email := StoredAccount(user, IntToRadix(Hash(password), 36))] &&
                isAuthenticated && currentUser == Some(user) && userProfile == Some(profile) &&
                sessionKey == Some(user) && profileKey == Some(profile)
    {
      if email in accounts {
        return false, EMAIL_TAKEN;
      }
      var user := AuthUser(id, email, artistName, now, now, 0);
      var profile := INITIAL_PROFILE.(artistName := artistName);
      var digest := HashPassword(password);
      accounts := accounts[email := StoredAccount(user, digest)];
      currentUser := Some(user);
      userProfile := Some(profile);
      isAuthenticated := true;
      sessionKey := Some(user);
      profileKey := Some(profile);
      return true, WELCOME;
    }

    /** `login`: a missing account or a wrong password fails and changes
      * nothing; otherwise the stored user, with its last login moved to
      * `now`, is signed in with the profile under 'smuve_user_profile' (the
      * initial profile when that key is absent), and the account is rewritten. */
    method Login(email: string, password: string, now: int) returns (success: bool, message: string)
      requires Valid()
      modifies this
      ensures Valid()
      ensures success <==> email in old(accounts) && old(accounts)[email].passwordHash == IntToRadix(Hash(password), 36)
      ensures email !in old(accounts) ==> message == NO_ACCOUNT
      ensures email in old(accounts) && !success ==> message == WRONG_PASSWORD
      ensures !success ==>
                accounts == old(accounts) && isAuthenticated == old(isAuthenticated) &&
                currentUser == old(currentUser) && userProfile == old(userProfile) &&
                sessionKey == old(sessionKey) && profileKey == old(profileKey)
      ensures success ==>
                var user := old(accounts)[email].user.(lastLogin := now);
                var profile := old(profileKey).GetOr(INITIAL_PROFILE);
                message == WelcomeBack(user.artistName) &&
                accounts == old(accounts)[email := StoredAccount(user, old(accounts)[email].passwordHash)] &&
                isAuthenticated && currentUser == Some(user) && userProfile == Some(profile) &&
                sessionKey == Some(user) && profileKey == Some(profile)
    {
      if email !in accounts {
        return false, NO_ACCOUNT;
      }
      var stored := accounts[email];
      var digest := HashPassword(password);
      if digest != stored.passwordHash {
        return false, WRONG_PASSWORD;
      }
      var user := stored.user.(lastLogin := now);
      var profile := profileKey.GetOr(INITIAL_PROFILE);
      currentUser := Some(user);
      userProfile := Some(profile);
      isAuthenticated := true;
      sessionKey := Some(user);
      profileKey := Some(profile);
      accounts := accounts[email := StoredAccount(user, stored.passwordHash)];
      return true, WelcomeBack(user.artistName);
    }

    /** `logout`: the session is cleared and both session keys removed; the
      * accounts stay. */
    method Logout()
      requires Valid()
      modifies this
      ensures Valid()
      ensures !isAuthenticated && currentUser.None? && userProfile.None?
      ensures sessionKey.None? && profileKey.None? && accounts == old(accounts)
    {
      currentUser := None;
      userProfile := None;
      isAuthenticated := false;
      sessionKey := None;
      profileKey := None;
    }

    /** `loginAsGuest`: a guest user and profile are signed in; nothing is stored. */
    method LoginAsGuest(id: string, now: int)
      requires Valid()
      modifies this
      ensures Valid()
      ensures isAuthenticated
      ensures currentUser == Some(AuthUser(id, GUEST_EMAIL, GUEST_NAME, now, now, 0))
      ensures userProfile == Some(INITIAL_PROFILE.(artistName := GUEST_NAME))
      ensures accounts == old(accounts) && sessionKey == old(sessionKey) && profileKey == old(profileKey)
    {
      currentUser := Some(AuthUser(id, GUEST_EMAIL, GUEST_NAME, now, now, 0));
      userProfile := Some(INITIAL_PROFILE.(artistName := GUEST_NAME));
      isAuthenticated := true;
    }

    /** `fetchUserProfile`: rejected (None) when signed out, otherwise the
      * profile, or the initial one when there is none. */
    method FetchUserProfile() returns (result: Option<UserProfile>)
      ensures result.None? <==> !isAuthenticated
      ensures isAuthenticated ==> result == Some(userProfile.GetOr(INITIAL_PROFILE))
    {
      if !isAuthenticated {
        return None;
      }
      return Some(userProfile.GetOr(INITIAL_PROFILE));
    }

    /** `saveUserProfile`: rejected (false) and nothing changed when signed
      * out; otherwise the profile is replaced and, with a user present, the
      * session keys are rewritten. */
    method SaveUserProfile(profile: UserProfile) returns (saved: bool)
      requires Valid()
      modifies this
      ensures Valid()
      ensures saved == old(isAuthenticated)
      ensures !saved ==> userProfile == old(userProfile) && sessionKey == old(sessionKey) && profileKey == old(profileKey)
      ensures saved ==> userProfile == Some(profile) && sessionKey == currentUser && profileKey == Some(profile)
      ensures isAuthenticated == old(isAuthenticated) && currentUser == old(currentUser) && accounts == old(accounts)
    {
      if !isAuthenticated {
        return false;
      }
      userProfile := Some(profile);
      if currentUser.Some? {
        sessionKey := currentUser;
        profileKey := Some(profile);
      }
      return true;
    }

    /** `signup`: `register`, with a failure turned into the error carrying its message. */
    method Signup(email: string, password: string, artistName: string, id: string, now: int)
      returns (error: Option<string>)
      requires Valid()
      modifies this
      ensures Valid()
      ensures error.Some? <==> email in old(accounts)
      ensures error.Some? ==> error.value == EMAIL_TAKEN && accounts == old(accounts)
      ensures error.None? ==> email in accounts && isAuthenticated
    {
      var success, message := Register(email, password, artistName, id, now);
      error := if success then None else Some(message);
    }
  }
}
