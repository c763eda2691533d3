/**
 * The client-side session store (`AuthProvider`): the current user, the
 * loading flag, the derived onboarding flag, and the two browser-storage
 * entries `auth_token` and `device_id`.
 *
 * Every network round trip is a parameter of type `Response`: the server's
 * answer is decided outside the model.  The requests the store sends are
 * recorded in `outbox`, so what is sent (and whether anything is sent at all)
 * can be stated.
 *
 * Each operation is given twice: as a pure transition on `State` (the
 * specification, about which the lemmas below speak) and as a method of the
 * class `Session`, which updates the fields step by step as the source does
 * and is proved to produce exactly that transition.
 */
module AuthContext {
  import opened Wrappers
  import opened JsText

  const AuthTokenKey: string := "auth_token"
  const DeviceIdKey: string := "device_id"
  const DeviceIdPrefix: string := "device_"

  datatype KycStatus = Pending | Approved | Rejected

  datatype User = User(
    id: string,
    email: string,
    fullName: Option<string>,
    phone: Option<string>,
    gender: Option<string>,
    dateOfBirth: Option<string>,
    kycStatus: KycStatus,
    emailVerified: bool,
    profileCompleted: bool,
    documentsUploaded: bool,
    walletAddress: Option<string>)

  /** The profile fields the onboarding form sends in a `PATCH /users/me` body. */
  datatype ProfilePatch = ProfilePatch(
    fullName: Option<string>,
    phone: Option<string>,
    gender: Option<string>,
    dateOfBirth: Option<string>)

  /** The answer of one HTTP round trip: a success status with its parsed body, a non-success status, or an exception. */
  datatype Response<T> = Ok(body: T) | NotOk | Raised

  /** The `data` object of a successful `/auth/verify-otp` answer. */
  datatype TokenFields = TokenFields(jwt: Option<string>, idToken: Option<string>, accessToken: Option<string>)

  /** A parsed `/auth/verify-otp` answer; `data` may be absent. */
  datatype VerifyBody = VerifyBody(data: Option<TokenFields>)

  /** The requests the store sends, with the headers and body fields that vary. */
  datatype Request =
    | LoginRequest(email: string, deviceId: string)
    | SignupRequest(email: string, deviceId: string)
    | VerifyOtpRequest(email: string, otp: string, deviceId: string)
    | GetMe(bearer: Option<string>)
    | PatchMe(bearer: Option<string>, patch: ProfilePatch)

  /** The errors an operation rejects with; `TransportFailed` is an exception passed through unchanged. */
  datatype AuthError =
    | LoginFailed
    | SignupFailed
    | OtpVerificationFailed
    | NoTokenReceived
    | ProfileUpdateFailed
    | TransportFailed

  /** How an asynchronous operation settles: it resolves, or it throws. */
  datatype Completion = Done | Threw(error: AuthError)

  /** JavaScript truthiness of a value that is a string, `null` or `undefined`. */
  predicate Truthy(v: Option<string>)
  {
    v.Some? && v.value != ""
  }

  /** `localStorage.getItem(key)`: the stored string, or `null`. */
  function GetItem(storage: map<string, string>, key: string): Option<string>
  {
    if key in storage then Some(storage[key]) else None
  }

  // ---------------------------------------------------------------------------
  // The onboarding check

  /** `!field || field.trim() === ""`: an absent or empty field is missing. */
  predicate FieldMissing(field: Option<string>)
    ensures field.None? || field == Some("") ==> FieldMissing(field)
  {
    !Truthy(field) || Trim(field.value) == ""
  }

  /**
   * `checkOnboardingStatus`: does the user still have to complete the profile?
   * A user who passes has all four profile fields set to non-empty strings.
   */
  predicate CheckOnboardingStatus(u: User)
    ensures !CheckOnboardingStatus(u) ==> Truthy(u.fullName) && Truthy(u.phone) && Truthy(u.gender) && Truthy(u.dateOfBirth)
  {
    FieldMissing(u.fullName) || FieldMissing(u.phone) || FieldMissing(u.gender) || FieldMissing(u.dateOfBirth)
  }

  /** Reference reading of a missing field: absent, or made of whitespace only. */
  predicate Incomplete(field: Option<string>)
  {
    field.None? || AllWhitespace(field.value)
  }

  lemma {:induction false} FieldMissingIffIncomplete(field: Option<string>)
    ensures FieldMissing(field) <==> Incomplete(field)
  {
    if field.Some? {
      TrimEmptyIff(field.value);
    }
  }

  /** The onboarding flag is raised exactly when one of the four profile fields is absent or blank. */
  lemma {:induction false} OnboardingIffProfileFieldBlank(u: User)
    ensures CheckOnboardingStatus(u) <==>
      Incomplete(u.fullName) || Incomplete(u.phone) || Incomplete(u.gender) || Incomplete(u.dateOfBirth)
  {
    FieldMissingIffIncomplete(u.fullName);
    FieldMissingIffIncomplete(u.phone);
    FieldMissingIffIncomplete(u.gender);
    FieldMissingIffIncomplete(u.dateOfBirth);
  }

  /** The store's invariant: no user means no onboarding; a user means the flag is `CheckOnboardingStatus`'s verdict. */
  predicate Consistent(user: Option<User>, needsOnboarding: bool)
  {
    if user.None? then !needsOnboarding else needsOnboarding == CheckOnboardingStatus(user.value)
  }

  // ---------------------------------------------------------------------------
  // The token preference chain

  /** Reference: the first truthy value of a list, if any. */
  function FirstTruthy(xs: seq<Option<string>>): (r: Option<string>)
    ensures r.Some? ==> Truthy(r) && exists i :: 0 <= i < |xs| && xs[i] == r && forall j :: 0 <= j < i ==> !Truthy(xs[j])
    ensures r.None? <==> forall i :: 0 <= i < |xs| ==> !Truthy(xs[i])
  {
    if xs == [] then None
    else if Truthy(xs[0]) then xs[0]
    else
      var r := FirstTruthy(xs[1..]);
      assert forall i :: 1 <= i < |xs| ==> xs[i] == xs[1..][i - 1];
      r
  }

  /** The candidate token fields, in the order the store prefers them. */
  function TokenCandidates(data: Option<TokenFields>): seq<Option<string>>
  {
    match data
    case None => []
    case Some(d) => [d.jwt, d.idToken, d.accessToken]
  }

  /** JavaScript `a || b` on strings that may be missing. */
  function JsOr(a: Option<string>, b: Option<string>): Option<string>
  {
    if Truthy(a) then a else b
  }

  /**
   * `parsed.data?.jwt || parsed.data?.idToken || parsed.data?.accessToken`:
   * truthy exactly when some candidate is, and then the first truthy one.
   */
  function TokenChain(data: Option<TokenFields>): (token: Option<string>)
    ensures Truthy(token) <==> FirstTruthy(TokenCandidates(data)).Some?
    ensures Truthy(token) ==> token == FirstTruthy(TokenCandidates(data))
  {
    match data
    case None => None
    case Some(d) =>
      var c := TokenCandidates(data);
      assert c[1..] == [d.idToken, d.accessToken] && c[1..][1..] == [d.accessToken] && c[1..][1..][1..] == [];
      assert FirstTruthy(c[1..][1..]) == if Truthy(d.accessToken) then d.accessToken else None;
      assert FirstTruthy(c[1..]) == if Truthy(d.idToken) then d.idToken else FirstTruthy(c[1..][1..]);
      assert FirstTruthy(c) == if Truthy(d.jwt) then d.jwt else FirstTruthy(c[1..]);
      JsOr(JsOr(d.jwt, d.idToken), d.accessToken)
  }

  // ---------------------------------------------------------------------------
  // The device identifier

  datatype DeviceIdResult = DeviceIdResult(id: string, storage: map<string, string>)

  /**
   * `getDeviceId`: keep a truthy stored `device_id`, otherwise store
   * `"device_" + suffix` (the suffix stands for the random part).  Nothing
   * but `device_id` is written.
   */
  function DeviceIdAfter(storage: map<string, string>, suffix: string): (r: DeviceIdResult)
    ensures r.id != "" && GetItem(r.storage, DeviceIdKey) == Some(r.id)
    ensures Truthy(GetItem(storage, DeviceIdKey)) ==> r.id == storage[DeviceIdKey] && r.storage == storage
    ensures !Truthy(GetItem(storage, DeviceIdKey)) ==> DeviceIdPrefix <= r.id
    ensures forall k :: k != DeviceIdKey ==> GetItem(r.storage, k) == GetItem(storage, k)
  {
    var stored := GetItem(storage, DeviceIdKey);
    if Truthy(stored) then DeviceIdResult(stored.value, storage)
    else
      var id := DeviceIdPrefix + suffix;
      DeviceIdResult(id, storage[DeviceIdKey := id])
  }

  /** Asking for the device identifier a second time, whatever the random part, changes nothing. */
  lemma {:induction false} DeviceIdIdempotent(storage: map<string, string>, suffix1: string, suffix2: string)
    ensures DeviceIdAfter(DeviceIdAfter(storage, suffix1).storage, suffix2) == DeviceIdAfter(storage, suffix1)
  {
    var first := DeviceIdAfter(storage, suffix1);
    assert Truthy(GetItem(first.storage, DeviceIdKey));
  }

  // ---------------------------------------------------------------------------
  // The store's state and its transitions

  datatype State = State(
    user: Option<User>,
    isLoading: bool,
    needsOnboarding: bool,
    storage: map<string, string>,
    outbox: seq<Request>)

  /** The result of an asynchronous operation: the state it leaves and how it settled. */
  datatype Transition = Transition(next: State, result: Completion)

  /** The provider as first rendered, over whatever the browser had persisted. */
  function Initial(persisted: map<string, string>): (s: State)
    ensures s.isLoading && s.user.None? && Consistent(s.user, s.needsOnboarding)
    ensures s.storage == persisted && s.outbox == []
  {
    State(None, true, false, persisted, [])
  }

  /** How a request's answer settles an operation that throws `failure` on a non-success status. */
  function Settle<T>(resp: Response<T>, failure: AuthError): (c: Completion)
    ensures c == Done <==> resp.Ok?
    ensures resp.NotOk? ==> c == Threw(failure)
    ensures resp.Raised? ==> c == Threw(TransportFailed)
  {
    match resp
    case Ok(_) => Done
    case NotOk => Threw(failure)
    case Raised => Threw(TransportFailed)
  }

  /**
   * `fetchUser`: `GET /users/me` with the stored token.  Success installs the
   * user and recomputes the onboarding flag; a non-success status or an
   * exception removes the token and clears the session.  Loading always ends.
   */
  function FetchUserStep(s: State, resp: Response<User>): (t: State)
    ensures !t.isLoading && Consistent(t.user, t.needsOnboarding)
    ensures t.outbox == s.outbox + [GetMe(GetItem(s.storage, AuthTokenKey))]
    ensures resp.Ok? ==> t.user == Some(resp.body) && t.storage == s.storage
    ensures !resp.Ok? ==> t.user.None? && t.storage == s.storage - {AuthTokenKey} && AuthTokenKey !in t.storage
  {
    var sent := s.(outbox := s.outbox + [GetMe(GetItem(s.storage, AuthTokenKey))]);
    var answered :=
      match resp
      case Ok(u) => sent.(user := Some(u), needsOnboarding := CheckOnboardingStatus(u))
      case _ => sent.(storage := sent.storage - {AuthTokenKey}, user := None, needsOnboarding := false);
    answered.(isLoading := false)
  }

  /** The mount effect: with a truthy stored token fetch the user, otherwise just stop loading. */
  function InitializeStep(s: State, resp: Response<User>): (t: State)
    ensures !t.isLoading
    ensures Consistent(s.user, s.needsOnboarding) ==> Consistent(t.user, t.needsOnboarding)
    ensures !Truthy(GetItem(s.storage, AuthTokenKey)) ==> t == s.(isLoading := false)
    ensures Truthy(GetItem(s.storage, AuthTokenKey)) ==> t == FetchUserStep(s, resp)
  {
    if Truthy(GetItem(s.storage, AuthTokenKey)) then FetchUserStep(s, resp) else s.(isLoading := false)
  }

  /** `getDeviceId` as a step of the store: only storage may change. */
  function DeviceIdStep(s: State, suffix: string): (t: State)
    ensures t.user == s.user && t.isLoading == s.isLoading && t.needsOnboarding == s.needsOnboarding
    ensures t.outbox == s.outbox && Truthy(GetItem(t.storage, DeviceIdKey))
    ensures t.storage == DeviceIdAfter(s.storage, suffix).storage
    ensures Truthy(GetItem(s.storage, DeviceIdKey)) ==> t.storage == s.storage
    ensures forall k :: k != DeviceIdKey ==> GetItem(t.storage, k) == GetItem(s.storage, k)
  {
    s.(storage := DeviceIdAfter(s.storage, suffix).storage)
  }

  /**
   * `login`: `POST /auth/login` with the device identifier.  The session is
   * untouched; the only storage effect is the device identifier.
   */
  function LoginStep(s: State, email: string, suffix: string, resp: Response<()>): (t: Transition)
    ensures t.next.user == s.user && t.next.isLoading == s.isLoading && t.next.needsOnboarding == s.needsOnboarding
    ensures t.next.storage == DeviceIdAfter(s.storage, suffix).storage
    ensures t.next.outbox == s.outbox + [LoginRequest(email, DeviceIdAfter(s.storage, suffix).id)]
    ensures t.result == Done <==> resp.Ok?
    ensures resp.NotOk? ==> t.result == Threw(LoginFailed)
    ensures resp.Raised? ==> t.result == Threw(TransportFailed)
  {
    var device := DeviceIdAfter(s.storage, suffix);
    Transition(s.(storage := device.storage, outbox := s.outbox + [LoginRequest(email, device.id)]),
               Settle(resp, LoginFailed))
  }

  /** `signup`: like `login`, against `POST /auth/signup`. */
  function SignupStep(s: State, email: string, suffix: string, resp: Response<()>): (t: Transition)
    ensures t.next.user == s.user && t.next.isLoading == s.isLoading && t.next.needsOnboarding == s.needsOnboarding
    ensures t.next.storage == DeviceIdAfter(s.storage, suffix).storage
    ensures t.next.outbox == s.outbox + [SignupRequest(email, DeviceIdAfter(s.storage, suffix).id)]
    ensures t.result == Done <==> resp.Ok?
    ensures resp.NotOk? ==> t.result == Threw(SignupFailed)
    ensures resp.Raised? ==> t.result == Threw(TransportFailed)
  {
    var device := DeviceIdAfter(s.storage, suffix);
    Transition(s.(storage := device.storage, outbox := s.outbox + [SignupRequest(email, device.id)]),
               Settle(resp, SignupFailed))
  }

  /**
   * `verifyOTP`: `POST /auth/verify-otp`.  A non-success status throws before
   * the body is read; a success without a truthy token throws without writing
   * `auth_token`; otherwise the token is stored and `fetchUser` runs with it.
   * `fetchUser` never throws, so the operation then resolves even when that
   * fetch clears the session.
   */
  function VerifyOtpStep(s: State, email: string, otp: string, suffix: string,
                         resp: Response<VerifyBody>, fetchResp: Response<User>): (t: Transition)
    ensures var device := DeviceIdAfter(s.storage, suffix);
      |t.next.outbox| > |s.outbox| && t.next.outbox[..|s.outbox| + 1] == s.outbox + [VerifyOtpRequest(email, otp, device.id)]
    ensures t.result == Done <==> resp.Ok? && FirstTruthy(TokenCandidates(resp.body.data)).Some?
    ensures resp.NotOk? ==> t.result == Threw(OtpVerificationFailed)
    ensures resp.Raised? ==> t.result == Threw(TransportFailed)
    ensures resp.Ok? && t.result.Threw? ==> t.result == Threw(NoTokenReceived)
    ensures t.result.Threw? ==>
      && t.next.user == s.user && t.next.isLoading == s.isLoading && t.next.needsOnboarding == s.needsOnboarding
      && t.next.storage == DeviceIdAfter(s.storage, suffix).storage
      && GetItem(t.next.storage, AuthTokenKey) == GetItem(s.storage, AuthTokenKey)
      && |t.next.outbox| == |s.outbox| + 1
    ensures t.result.Done? ==>
      var token := FirstTruthy(TokenCandidates(resp.body.data));
      && t.next == FetchUserStep(s.(storage := DeviceIdAfter(s.storage, suffix).storage[AuthTokenKey := token.value],
                                    outbox := s.outbox + [VerifyOtpRequest(email, otp, DeviceIdAfter(s.storage, suffix).id)]),
                                 fetchResp)
      && t.next.outbox[|s.outbox| + 1] == GetMe(token)
  {
    var device := DeviceIdAfter(s.storage, suffix);
    var sent := s.(storage := device.storage, outbox := s.outbox + [VerifyOtpRequest(email, otp, device.id)]);
    match resp
    case NotOk => Transition(sent, Threw(OtpVerificationFailed))
    case Raised => Transition(sent, Threw(TransportFailed))
    case Ok(body) =>
      var token := TokenChain(body.data);
      if Truthy(token) then
        Transition(FetchUserStep(sent.(storage := sent.storage[AuthTokenKey := token.value]), fetchResp), Done)
      else
        Transition(sent, Threw(NoTokenReceived))
  }

  /** `logout`: drop both storage entries and the session, whatever the prior state. */
  function LogoutStep(s: State): (t: State)
    ensures t.user.None? && !t.needsOnboarding
    ensures AuthTokenKey !in t.storage && DeviceIdKey !in t.storage
    ensures forall k :: k != AuthTokenKey && k != DeviceIdKey ==> GetItem(t.storage, k) == GetItem(s.storage, k)
    ensures t.isLoading == s.isLoading && t.outbox == s.outbox
  {
    s.(storage := s.storage - {AuthTokenKey, DeviceIdKey}, user := None, needsOnboarding := false)
  }

  /**
   * `updateProfile`: `PATCH /users/me` with the stored token.  Success
   * replaces the user with the answer and recomputes the onboarding flag; any
   * failure throws and leaves the session as it was.
   */
  function UpdateProfileStep(s: State, patch: ProfilePatch, resp: Response<User>): (t: Transition)
    ensures t.next.outbox == s.outbox + [PatchMe(GetItem(s.storage, AuthTokenKey), patch)]
    ensures t.next.storage == s.storage && t.next.isLoading == s.isLoading
    ensures t.result == Done <==> resp.Ok?
    ensures resp.Ok? ==> t.next.user == Some(resp.body) && t.next.needsOnboarding == CheckOnboardingStatus(resp.body)
    ensures !resp.Ok? ==> t.next.user == s.user && t.next.needsOnboarding == s.needsOnboarding
    ensures resp.NotOk? ==> t.result == Threw(ProfileUpdateFailed)
    ensures resp.Raised? ==> t.result == Threw(TransportFailed)
  {
    var sent := s.(outbox := s.outbox + [PatchMe(GetItem(s.storage, AuthTokenKey), patch)]);
    match resp
    case Ok(u) => Transition(sent.(user := Some(u), needsOnboarding := CheckOnboardingStatus(u)), Done)
    case NotOk => Transition(sent, Threw(ProfileUpdateFailed))
    case Raised => Transition(sent, Threw(TransportFailed))
  }

  // ---------------------------------------------------------------------------
  // Properties of the transitions together

  /** Every operation keeps the onboarding flag consistent with the user. */
  lemma {:induction false} EveryStepKeepsConsistency(
    s: State, email: string, otp: string, suffix: string, patch: ProfilePatch,
    userResp: Response<User>, unitResp: Response<()>, verifyResp: Response<VerifyBody>)
    requires Consistent(s.user, s.needsOnboarding)
    ensures var t := FetchUserStep(s, userResp); Consistent(t.user, t.needsOnboarding)
    ensures var t := InitializeStep(s, userResp); Consistent(t.user, t.needsOnboarding)
    ensures var t := DeviceIdStep(s, suffix); Consistent(t.user, t.needsOnboarding)
    ensures var t := LoginStep(s, email, suffix, unitResp).next; Consistent(t.user, t.needsOnboarding)
    ensures var t := SignupStep(s, email, suffix, unitResp).next; Consistent(t.user, t.needsOnboarding)
    ensures var t := VerifyOtpStep(s, email, otp, suffix, verifyResp, userResp).next; Consistent(t.user, t.needsOnboarding)
    ensures var t := LogoutStep(s); Consistent(t.user, t.needsOnboarding)
    ensures var t := UpdateProfileStep(s, patch, userResp).next; Consistent(t.user, t.needsOnboarding)
  {
  }

  /** Once loading has finished no operation starts it again. */
  lemma {:induction false} LoadingNeverRestarts(
    s: State, email: string, otp: string, suffix: string, patch: ProfilePatch,
    userResp: Response<User>, unitResp: Response<()>, verifyResp: Response<VerifyBody>)
    requires !s.isLoading
    ensures !FetchUserStep(s, userResp).isLoading && !InitializeStep(s, userResp).isLoading
    ensures !DeviceIdStep(s, suffix).isLoading && !LogoutStep(s).isLoading
    ensures !LoginStep(s, email, suffix, unitResp).next.isLoading
    ensures !SignupStep(s, email, suffix, unitResp).next.isLoading
    ensures !VerifyOtpStep(s, email, otp, suffix, verifyResp, userResp).next.isLoading
    ensures !UpdateProfileStep(s, patch, userResp).next.isLoading
  {
  }

  // ---------------------------------------------------------------------------
  // The provider itself

  class Session {
    var user: Option<User>
    var isLoading: bool
    var needsOnboarding: bool
    var storage: map<string, string>
    var outbox: seq<Request>

    function Snapshot(): State
      reads this
    {
      State(user, isLoading, needsOnboarding, storage, outbox)
    }

    predicate Valid()
      reads this
    {
      Consistent(user, needsOnboarding)
    }

    constructor (persisted: map<string, string>)
      ensures Snapshot() == Initial(persisted) && Valid()
    {
      user := None;
      isLoading := true;
      needsOnboarding := false;
      storage := persisted;
      outbox := [];
    }

    method GetDeviceId(suffix: string) returns (deviceId: string)
      modifies this
      ensures deviceId == DeviceIdAfter(old(storage), suffix).id
      ensures Snapshot() == DeviceIdStep(old(Snapshot()), suffix)
    {
      var stored := GetItem(storage, DeviceIdKey);
      if Truthy(stored) {
        deviceId := stored.value;
      } else {
        deviceId := DeviceIdPrefix + suffix;
        storage := storage[DeviceIdKey := deviceId];
      }
    }

    method FetchUser(resp: Response<User>)
      modifies this
      ensures Snapshot() == FetchUserStep(old(Snapshot()), resp) && Valid()
    {
      var token := GetItem(storage, AuthTokenKey);
      outbox := outbox + [GetMe(token)];
      match resp {
        case Ok(u) =>
          user := Some(u);
          needsOnboarding := CheckOnboardingStatus(u);
        case _ =>
          storage := storage - {AuthTokenKey};
          user := None;
          needsOnboarding := false;
      }
      isLoading := false;
    }

    /** The provider's mount effect. */
    method Initialize(resp: Response<User>)
      requires Valid()
      modifies this
      ensures Snapshot() == InitializeStep(old(Snapshot()), resp) && Valid()
    {
      var token := GetItem(storage, AuthTokenKey);
      if Truthy(token) {
        FetchUser(resp);
      } else {
        isLoading := false;
      }
    }

    method Login(email: string, suffix: string, resp: Response<()>) returns (result: Completion)
      requires Valid()
      modifies this
      ensures Transition(Snapshot(), result) == LoginStep(old(Snapshot()), email, suffix, resp) && Valid()
    {
      var deviceId := GetDeviceId(suffix);
      outbox := outbox + [LoginRequest(email, deviceId)];
      match resp {
        case Ok(_) => result := Done;
        case NotOk => result := Threw(LoginFailed);
        case Raised => result := Threw(TransportFailed);
      }
    }

    method Signup(email: string, suffix: string, resp: Response<()>) returns (result: Completion)
      requires Valid()
      modifies this
      ensures Transition(Snapshot(), result) == SignupStep(old(Snapshot()), email, suffix, resp) && Valid()
    {
      var deviceId := GetDeviceId(suffix);
      outbox := outbox + [SignupRequest(email, deviceId)];
      match resp {
        case Ok(_) => result := Done;
        case NotOk => result := Threw(SignupFailed);
        case Raised => result := Threw(TransportFailed);
      }
    }

    method VerifyOTP(email: string, otp: string, suffix: string,
                     resp: Response<VerifyBody>, fetchResp: Response<User>) returns (result: Completion)
      requires Valid()
      modifies this
      ensures Transition(Snapshot(), result) == VerifyOtpStep(old(Snapshot()), email, otp, suffix, resp, fetchResp)
      ensures Valid()
    {
      var deviceId := GetDeviceId(suffix);
      outbox := outbox + [VerifyOtpRequest(email, otp, deviceId)];
      match resp {
        case NotOk =>
          result := Threw(OtpVerificationFailed);
        case Raised =>
          result := Threw(TransportFailed);
        case Ok(body) =>
          var token := TokenChain(body.data);
          if Truthy(token) {
            storage := storage[AuthTokenKey := token.value];
            FetchUser(fetchResp);
            result := Done;
          } else {
            result := Threw(NoTokenReceived);
          }
      }
    }

    method Logout()
      modifies this
      ensures Snapshot() == LogoutStep(old(Snapshot())) && Valid()
    {
      storage := storage - {AuthTokenKey};
      storage := storage - {DeviceIdKey};
      user := None;
      needsOnboarding := false;
    }

    method UpdateProfile(patch: ProfilePatch, resp: Response<User>) returns (result: Completion)
      requires Valid()
      modifies this
      ensures Snapshot() == UpdateProfileStep(old(Snapshot()), patch, resp).next
      ensures result == UpdateProfileStep(old(Snapshot()), patch, resp).result
      ensures Valid()
    {
      ghost var before := Snapshot();
      var token := GetItem(storage, AuthTokenKey);
      outbox := outbox + [PatchMe(token, patch)];
      ghost var sent := Snapshot();
      assert sent == before.(outbox := before.outbox + [PatchMe(GetItem(before.storage, AuthTokenKey), patch)]);
      match resp {
        case Ok(u) =>
          user := Some(u);
          needsOnboarding := CheckOnboardingStatus(u);
          result := Done;
        case NotOk =>
          result := Threw(ProfileUpdateFailed);
        case Raised =>
          result := Threw(TransportFailed);
      }
    }
  }
}
