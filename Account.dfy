/** The account settings page: the age computed from a birthday, the values
    sent with a profile update, editing one field of the user record, and the
    dialogs that lead from verifying the account to changing the email or
    password. */
module Account {
  import opened Common

  /** A calendar date as the page reads it off `Date`: full year, month and day
      of the month. */
  datatype Date = Date(year: int, month: int, day: int)

  /** Does (month, day) of `a` come strictly before (month, day) of `b`? */
  predicate EarlierInYear(a: Date, b: Date)
  {
    a.month < b.month || (a.month == b.month && a.day < b.day)
  }

  /** Has the `n`-th anniversary of `birth` arrived by `today`? */
  predicate AnniversaryReached(birth: Date, today: Date, n: int)
  {
    birth.year + n < today.year || (birth.year + n == today.year && !EarlierInYear(today, birth))
  }

  /** `calculateAge`: the year difference, one less when today's (month, day)
      is before the birthday's. The result is the number of the last
      anniversary reached. */
  function CalculateAge(birth: Date, today: Date): (age: int)
    ensures AnniversaryReached(birth, today, age)
    ensures !AnniversaryReached(birth, today, age + 1)
  {
    var age := today.year - birth.year;
    if EarlierInYear(today, birth) then age - 1 else age
  }

  /** Anniversaries are reached in order. */
  lemma {:induction false} ReachedDownward(birth: Date, today: Date, m: int, n: int)
    requires m <= n && AnniversaryReached(birth, today, n)
    ensures AnniversaryReached(birth, today, m)
  {
    if m < n {
      assert birth.year + m < today.year;
    }
  }

  /** The age is the only number whose anniversary is reached while the next
      one is not. */
  lemma AgeIsUnique(birth: Date, today: Date, n: int)
    requires AnniversaryReached(birth, today, n) && !AnniversaryReached(birth, today, n + 1)
    ensures n == CalculateAge(birth, today)
  {
    var age := CalculateAge(birth, today);
    if n < age {
      ReachedDownward(birth, today, n + 1, age);
    } else if n > age {
      ReachedDownward(birth, today, age + 1, n);
    }
  }

  /** The age is one less than the year difference exactly when the birthday
      has not yet come round this year. */
  lemma AgeBeforeBirthday(birth: Date, today: Date)
    ensures CalculateAge(birth, today) == today.year - birth.year - 1 <==> EarlierInYear(today, birth)
    ensures CalculateAge(birth, today) == today.year - birth.year <==> !EarlierInYear(today, birth)
  {
  }

  /** On the birthday itself the age is the year difference. */
  lemma AgeOnBirthday(birth: Date, today: Date)
    requires today.month == birth.month && today.day == birth.day
    ensures CalculateAge(birth, today) == today.year - birth.year
  {
  }

  /** A value of the user record: a string, a number, or `undefined` for a
      field the record does not have. */
  datatype Value = Str(s: string) | Num(n: int) | Undefined

  type User = map<string, Value>

  /** `user[field]`. */
  function Lookup(user: User, field: string): (v: Value)
    ensures field !in user ==> v == Undefined
  {
    if field in user then user[field] else Undefined
  }

  /** The record the page starts with, before the user data arrives. */
  const InitialUser: User := map[
    "user_id" := Str(""), "username" := Str(""), "email" := Str(""),
    "name" := Str(""), "role" := Str(""), "avatar_uri" := Str(""),
    "age" := Num(0), "gender" := Str(""), "birthday" := Str(""), "about" := Str("")]

  /** The `values` sent by `handleUpdate(fields)`: one per field, in the same
      order; "age" is replaced by the age computed from the birthday, every
      other field copies the record's value. */
  function UpdateValues(fields: seq<string>, user: User, birth: Date, today: Date): (values: seq<Value>)
    ensures |values| == |fields|
    ensures forall i :: 0 <= i < |fields| && fields[i] == "age" ==> values[i] == Num(CalculateAge(birth, today))
    ensures forall i :: 0 <= i < |fields| && fields[i] != "age" ==> values[i] == Lookup(user, fields[i])
  {
    if fields == [] then []
    else
      var last := fields[|fields| - 1];
      UpdateValues(fields[..|fields| - 1], user, birth, today)
        + [if last == "age" then Num(CalculateAge(birth, today)) else Lookup(user, last)]
  }

  /** The values for two lists of fields sent together are the values for each. */
  lemma {:induction false} UpdateValuesConcat(f: seq<string>, g: seq<string>, user: User, birth: Date, today: Date)
    ensures UpdateValues(f + g, user, birth, today) == UpdateValues(f, user, birth, today) + UpdateValues(g, user, birth, today)
  {
    var l := UpdateValues(f + g, user, birth, today);
    var r := UpdateValues(f, user, birth, today) + UpdateValues(g, user, birth, today);
    assert |l| == |r|;
    forall i | 0 <= i < |l|
      ensures l[i] == r[i]
    {
      if i < |f| {
        assert (f + g)[i] == f[i];
      } else {
        assert (f + g)[i] == g[i - |f|];
      }
    }
  }

  /** Why the verify dialog was opened. */
  datatype Purpose = EmailChange | PasswordChange

  class AccountContent {
    var user: User
    var isVerifyDialogOpen: bool
    var isEmailDialogOpen: bool
    var isPasswordDialogOpen: bool
    var isForgetPasswordDialogOpen: bool
    var verifyPurpose: Option<Purpose>

    constructor ()
      ensures user == InitialUser && verifyPurpose == None
      ensures !isVerifyDialogOpen && !isEmailDialogOpen && !isPasswordDialogOpen && !isForgetPasswordDialogOpen
    {
      user := InitialUser;
      isVerifyDialogOpen := false;
      isEmailDialogOpen := false;
      isPasswordDialogOpen := false;
      isForgetPasswordDialogOpen := false;
      verifyPurpose := None;
    }

    /** `fetchUserData`: a successful fetch replaces the whole record. */
    method FetchUserData(response: Option<User>)
      modifies this`user
      ensures user == if response.Some? then response.value else old(user)
    {
      if response.Some? {
        user := response.value;
      }
    }

    /** `handleInputChange(field, value)`: the named field takes the value and
        every other field keeps its own. */
    method HandleInputChange(field: string, value: Value)
      modifies this`user
      ensures Lookup(user, field) == value
      ensures forall f :: f != field ==> Lookup(user, f) == Lookup(old(user), f)
      ensures user.Keys == old(user).Keys + {field}
    {
      user := user[field := value];
    }

    /** `handleOpenVerifyDialog(purpose)`. */
    method HandleOpenVerifyDialog(purpose: Purpose)
      modifies this`verifyPurpose, this`isVerifyDialogOpen
      ensures verifyPurpose == Some(purpose) && isVerifyDialogOpen
    {
      verifyPurpose := Some(purpose);
      isVerifyDialogOpen := true;
    }

    /** `handleVerifyAccount`: once the server accepts the credentials the
        verify dialog closes and the dialog for the recorded purpose opens (none
        when there is no purpose); a refusal changes no dialog. */
    method HandleVerifyAccount(serverOk: bool)
      modifies this`isVerifyDialogOpen, this`isEmailDialogOpen, this`isPasswordDialogOpen
      ensures serverOk ==> !isVerifyDialogOpen
      ensures serverOk ==> isEmailDialogOpen == (verifyPurpose == Some(EmailChange) || old(isEmailDialogOpen))
      ensures serverOk ==> isPasswordDialogOpen == (verifyPurpose == Some(PasswordChange) || old(isPasswordDialogOpen))
      ensures !serverOk ==>
        isVerifyDialogOpen == old(isVerifyDialogOpen) &&
        isEmailDialogOpen == old(isEmailDialogOpen) &&
        isPasswordDialogOpen == old(isPasswordDialogOpen)
    {
      if serverOk {
        isVerifyDialogOpen := false;
        if verifyPurpose == Some(EmailChange) {
          isEmailDialogOpen := true;
        } else if verifyPurpose == Some(PasswordChange) {
          isPasswordDialogOpen := true;
        }
      }
    }

    /** `handleForgetPassword`: from the verify dialog to the reset-email dialog. */
    method HandleForgetPassword()
      modifies this`isVerifyDialogOpen, this`isForgetPasswordDialogOpen
      ensures !isVerifyDialogOpen && isForgetPasswordDialogOpen
    {
      isVerifyDialogOpen := false;
      isForgetPasswordDialogOpen := true;
    }

    /** `handleEmailChange`: the email dialog closes when the server accepts. */
    method HandleEmailChange(serverOk: bool)
      modifies this`isEmailDialogOpen
      ensures isEmailDialogOpen == (old(isEmailDialogOpen) && !serverOk)
    {
      if serverOk {
        isEmailDialogOpen := false;
      }
    }

    /** `handlePasswordChange`: the password dialog closes when the server accepts. */
    method HandlePasswordChange(serverOk: bool)
      modifies this`isPasswordDialogOpen
      ensures isPasswordDialogOpen == (old(isPasswordDialogOpen) && !serverOk)
    {
      if serverOk {
        isPasswordDialogOpen := false;
      }
    }

    /** `handleSendForgetPasswordEmail`: the reset dialog closes once the email
        has been sent. */
    method HandleSendForgetPasswordEmail(serverOk: bool)
      modifies this`isForgetPasswordDialogOpen
      ensures isForgetPasswordDialogOpen == (old(isForgetPasswordDialogOpen) && !serverOk)
    {
      if serverOk {
        isForgetPasswordDialogOpen := false;
      }
    }
  }
}
