/** The registration screen of app/auth/register.tsx: the form checks, the
    case-insensitive duplicate-email check against the users stored on the device,
    and the writes that create and sign in the new user. The device storage keys
    'app_users_v1', 'user_authenticated' and 'current_user_v1' are fields of the
    screen's state; JSON (de)serialisation of their values is not modelled. */
module Registration {
  import opened Common

  datatype RegisterForm = RegisterForm(
    firstName: string, lastName: string, email: string,
    phone: string, password: string, confirmPassword: string)

  /** A stored user record; the form's confirmation field is not part of it. */
  datatype User = User(
    id: string, firstName: string, lastName: string, email: string,
    phone: string, password: string, avatar: string)

  /** Why a registration attempt ended without an account (the alert shown). */
  datatype Rejection = MissingFields | PasswordMismatch | DuplicateEmail | StorageError

  datatype Outcome = Registered(user: User) | Rejected(reason: Rejection)

  /** Which storage call throws during one attempt, if any. A throw is caught by the
      handler; the writes that came before it stay done. */
  datatype StorageFault = NoFault | ReadFails | UsersWriteFails | AuthWriteFails | CurrentUserWriteFails

  const DefaultAvatar := "https://randomuser.me/api/portraits/men/32.jpg"

  predicate AllFilled(form: RegisterForm) {
    && form.firstName != "" && form.lastName != "" && form.email != ""
    && form.phone != "" && form.password != "" && form.confirmPassword != ""
  }

  /** The checks done before storage is touched, in their order: required fields first,
      then the password confirmation. */
  function Validate(form: RegisterForm): (r: Option<Rejection>)
    ensures r == Some(MissingFields) <==> !AllFilled(form)
    ensures r == Some(PasswordMismatch) <==> AllFilled(form) && form.password != form.confirmPassword
    ensures r == None <==> AllFilled(form) && form.password == form.confirmPassword
  {
    if !AllFilled(form) then Some(MissingFields)
    else if form.password != form.confirmPassword then Some(PasswordMismatch)
    else None
  }

  /** `toLowerCase` on the ASCII letters. */
  function LowerChar(c: char): (d: char)
    ensures 'A' <= c <= 'Z' ==> d as int == c as int + 32
    ensures !('A' <= c <= 'Z') ==> d == c
  {
    if 'A' <= c <= 'Z' then (c as int + 32) as char else c
  }

  function ToLower(s: string): (r: string)
    ensures |r| == |s|
    ensures forall i :: 0 <= i < |s| ==> r[i] == LowerChar(s[i])
  {
    if s == [] then [] else [LowerChar(s[0])] + ToLower(s[1..])
  }

  lemma {:induction false} ToLowerIdempotent(s: string)
    ensures ToLower(ToLower(s)) == ToLower(s)
  {
    var once := ToLower(s);
    var twice := ToLower(once);
    assert forall i :: 0 <= i < |s| ==> twice[i] == once[i];
  }

  /** Two e-mail addresses are the same account when they agree ignoring case. */
  predicate SameEmail(a: string, b: string) {
    ToLower(a) == ToLower(b)
  }

  /** The duplicate check: scanning the stored users in order, some user's e-mail equals
      `email` ignoring case. */
  function EmailTaken(users: seq<User>, email: string): (taken: bool)
    ensures taken <==> exists i :: 0 <= i < |users| && SameEmail(users[i].email, email)
  {
    if users == [] then false
    else SameEmail(users[0].email, email) || EmailTaken(users[1..], email)
  }

  /** The record created for a valid form, `Date.now()` being `now`. */
  function NewUser(form: RegisterForm, now: nat): (u: User)
    ensures |u.id| > 2 && u.id[..2] == "u_"
    ensures forall i :: 2 <= i < |u.id| ==> IsDigit(u.id[i])
    ensures ParseDecimal(u.id[2..]) == now
    ensures u.firstName == form.firstName && u.lastName == form.lastName && u.email == form.email
    ensures u.phone == form.phone && u.password == form.password && u.avatar == DefaultAvatar
  {
    var digits := DecimalString(now);
    DecimalRoundTrip(now);
    assert ("u_" + digits)[2..] == digits;
    User("u_" + digits, form.firstName, form.lastName, form.email, form.phone, form.password, DefaultAvatar)
  }

  /** No two stored users share an e-mail address up to case. */
  predicate DistinctEmails(users: seq<User>) {
    forall i, j :: 0 <= i < j < |users| ==> !SameEmail(users[i].email, users[j].email)
  }

  /** Appending a user whose address is not taken keeps the stored addresses distinct. */
  lemma AppendKeepsEmailsDistinct(users: seq<User>, u: User)
    requires DistinctEmails(users) && !EmailTaken(users, u.email)
    ensures DistinctEmails(users + [u])
  {
    var all := users + [u];
    forall i, j | 0 <= i < j < |all|
      ensures !SameEmail(all[i].email, all[j].email)
    {
      if j == |users| {
        assert all[i] == users[i];
      }
    }
  }

  /** Once a user is stored, any address equal to theirs up to case is taken. */
  lemma RegisteredEmailIsTaken(users: seq<User>, u: User, email: string)
    requires SameEmail(u.email, email)
    ensures EmailTaken(users + [u], email)
  {
    assert (users + [u])[|users|] == u;
  }

  /** Root layout (app/_layout.tsx): the app opens the tabs exactly when the stored
      'user_authenticated' value is the string 'true' and could be read. */
  predicate RootAuthenticated(authFlag: Option<string>, readFails: bool) {
    !readFails && authFlag == Some("true")
  }

  /** The screen's state, including the three storage keys it reads and writes. */
  class RegisterScreen {
    var form: RegisterForm
    var loading: bool
    var storedUsers: Option<seq<User>>   // 'app_users_v1'; None when never written
    var authFlag: Option<string>         // 'user_authenticated'
    var currentUser: Option<User>        // 'current_user_v1'

    constructor (storedUsers: Option<seq<User>>, authFlag: Option<string>, currentUser: Option<User>)
      ensures form == RegisterForm("", "", "", "", "", "") && !loading
      ensures this.storedUsers == storedUsers && this.authFlag == authFlag && this.currentUser == currentUser
    {
      form := RegisterForm("", "", "", "", "", "");
      loading := false;
      this.storedUsers := storedUsers;
      this.authFlag := authFlag;
      this.currentUser := currentUser;
    }

    /** `handleRegister`, with `Date.now()` given as `now` and the storage call that
        throws, if any, as `fault`. */
    method HandleRegister(now: nat, fault: StorageFault) returns (outcome: Outcome)
      modifies this`loading, this`storedUsers, this`authFlag, this`currentUser
      // the form checks run first and touch nothing
      ensures Validate(form).Some? ==>
                outcome == Rejected(Validate(form).value) && loading == old(loading)
                && storedUsers == old(storedUsers) && authFlag == old(authFlag) && currentUser == old(currentUser)
      // every path past the form checks ends with loading cleared
      ensures Validate(form).None? ==> !loading
      // a read failure or a taken address stores nothing
      ensures Validate(form).None? && (fault == ReadFails || EmailTaken(OrEmpty(old(storedUsers)), form.email)) ==>
                outcome == Rejected(if fault == ReadFails then StorageError else DuplicateEmail)
                && storedUsers == old(storedUsers) && authFlag == old(authFlag) && currentUser == old(currentUser)
      // otherwise the users list grows by the new record, then the two sign-in keys follow,
      // each write happening only if the ones before it succeeded
      ensures Validate(form).None? && fault != ReadFails && !EmailTaken(OrEmpty(old(storedUsers)), form.email) ==>
                var user := NewUser(form, now);
                && outcome == (if fault == NoFault then Registered(user) else Rejected(StorageError))
                && storedUsers == (if fault == UsersWriteFails then old(storedUsers) else Some(OrEmpty(old(storedUsers)) + [user]))
                && authFlag == (if fault in {UsersWriteFails, AuthWriteFails} then old(authFlag) else Some("true"))
                && currentUser == (if fault == NoFault then Some(user) else old(currentUser))
      // a registered user is signed in as far as the root layout is concerned
      ensures outcome.Registered? ==> RootAuthenticated(authFlag, false) && currentUser == Some(outcome.user)
    {
      var f := form;
      if !AllFilled(f) {
        return Rejected(MissingFields);
      }
      if f.password != f.confirmPassword {
        return Rejected(PasswordMismatch);
      }
      loading := true;
      if fault == ReadFails {
        loading := false;
        return Rejected(StorageError);
      }
      var users := OrEmpty(storedUsers);
      if EmailTaken(users, f.email) {
        loading := false;
        return Rejected(DuplicateEmail);
      }
      var user := NewUser(f, now);
      users := users + [user];
      if fault == UsersWriteFails {
        loading := false;
        return Rejected(StorageError);
      }
      storedUsers := Some(users);
      if fault == AuthWriteFails {
        loading := false;
        return Rejected(StorageError);
      }
      authFlag := Some("true");
      if fault == CurrentUserWriteFails {
        loading := false;
        return Rejected(StorageError);
      }
      currentUser := Some(user);
      loading := false;
      outcome := Registered(user);
    }
  }

  /** `(await getItem('app_users_v1')) || '[]'`: a missing list reads as empty. */
  function OrEmpty(stored: Option<seq<User>>): (users: seq<User>)
    ensures stored.None? ==> users == []
    ensures stored.Some? ==> users == stored.value
  {
    if stored.Some? then stored.value else []
  }

  /** A successful registration grows the stored list by one, keeps the earlier users in
      order, leaves the stored addresses distinct and makes the new address taken, so the
      same form is rejected as a duplicate next time. */
  lemma {:induction false} SuccessfulRegistration(oldUsers: Option<seq<User>>, form: RegisterForm, now: nat)
    requires Validate(form).None? && !EmailTaken(OrEmpty(oldUsers), form.email)
    requires DistinctEmails(OrEmpty(oldUsers))
    ensures var users := OrEmpty(oldUsers) + [NewUser(form, now)];
            && |users| == |OrEmpty(oldUsers)| + 1
            && users[..|users| - 1] == OrEmpty(oldUsers)
            && DistinctEmails(users)
            && EmailTaken(users, form.email)
  {
    var u := NewUser(form, now);
    AppendKeepsEmailsDistinct(OrEmpty(oldUsers), u);
    RegisteredEmailIsTaken(OrEmpty(oldUsers), u, form.email);
  }
}
