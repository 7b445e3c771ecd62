/** The User table: its rows, the `findOne` lookups made on it, and the reset-code format. */
module Users {
  import opened Wrappers

  /** Primary key of a user row (auto-increment, so a row's id is its position). */
  type UserId = nat

  /** A one-time code as produced by `getOTP()`: a number. */
  type Otp = nat

  /** One row of the User table. `password` holds a hash; the `None` values only appear
      in the copies that handlers send back after nulling the sensitive fields. */
  datatype User = User(
    id: UserId,
    phone: string,
    password: Option<string>,
    name: string,
    active: bool,
    complete: bool,
    otp: Option<Otp>,
    resetPassword: Option<string>)

  /** The `where` clause of a lookup: by phone, and also `complete` and `active` when
      `enabledOnly` holds. */
  predicate Matches(u: User, phone: string, enabledOnly: bool) {
    u.phone == phone && (enabledOnly ==> u.complete && u.active)
  }

  /** `User.findOne({ where })`: the row with the lowest id that satisfies the query. */
  function FindUser(users: seq<User>, phone: string, enabledOnly: bool): (r: Option<UserId>)
    ensures r.Some? ==> r.value < |users| && Matches(users[r.value], phone, enabledOnly)
    ensures r.Some? ==> forall j :: 0 <= j < r.value ==> !Matches(users[j], phone, enabledOnly)
    ensures r.None? <==> forall j :: 0 <= j < |users| ==> !Matches(users[j], phone, enabledOnly)
  {
    if users == [] then None
    else match FindUser(users[..|users| - 1], phone, enabledOnly)
      case Some(i) => Some(i)
      case None =>
        if Matches(users[|users| - 1], phone, enabledOnly) then Some(|users| - 1) else None
  }

  /** The lookup answers a matching row exactly when no earlier row matches. */
  lemma FindUserIs(users: seq<User>, phone: string, enabledOnly: bool, i: nat)
    requires i < |users|
    ensures FindUser(users, phone, enabledOnly) == Some(i) <==>
              Matches(users[i], phone, enabledOnly)
              && forall j :: 0 <= j < i ==> !Matches(users[j], phone, enabledOnly)
  {
  }

  /** No two rows share a phone number. Registration keeps this; editing a user does not. */
  ghost predicate PhonesUnique(users: seq<User>) {
    forall i, j :: 0 <= i < j < |users| ==> users[i].phone != users[j].phone
  }

  /** With unique phones, the lookup of `newPassword` (complete and active users only)
      finds the same row as the plain lookup by phone of `forgotPassword`, or nothing. */
  lemma EnabledLookupAgrees(users: seq<User>, phone: string)
    requires PhonesUnique(users)
    ensures FindUser(users, phone, true).Some? ==>
              FindUser(users, phone, false) == FindUser(users, phone, true)
    ensures FindUser(users, phone, true).None? ==>
              FindUser(users, phone, false).None? ||
              var i := FindUser(users, phone, false).value; !(users[i].complete && users[i].active)
  {
  }

  /** The character of a decimal digit. */
  function DigitChar(d: nat): (c: char)
    requires d < 10
    ensures '0' <= c <= '9' && c as int - '0' as int == d
  {
    (48 + d) as char
  }

  /** The number a string of decimal digits denotes, most significant digit first. */
  function DigitsValue(s: string): (n: nat)
    requires forall i :: 0 <= i < |s| ==> '0' <= s[i] <= '9'
  {
    if s == [] then 0 else DigitsValue(s[..|s| - 1]) * 10 + (s[|s| - 1] as int - '0' as int)
  }

  /** The decimal text of a number, as a template literal renders it: the digits denote the
      number, and there is no leading zero. */
  function Decimal(n: nat): (s: string)
    ensures |s| >= 1
    ensures (n < 10) == (|s| == 1)
    ensures forall i :: 0 <= i < |s| ==> '0' <= s[i] <= '9'
    ensures DigitsValue(s) == n
    ensures s[0] == '0' <==> n == 0
    decreases n
  {
    if n < 10 then [DigitChar(n)]
    else
      var init := Decimal(n / 10);
      assert (init + [DigitChar(n % 10)])[..|init|] == init;
      init + [DigitChar(n % 10)]
  }

  /** Different numbers have different decimal texts. */
  lemma DecimalInjective(a: nat, b: nat)
    requires Decimal(a) == Decimal(b)
    ensures a == b
  {
  }

  /** The reset code `forgotPassword` stores: `Ab_<otp>_cD`. */
  function ResetCode(otp: Otp): (code: string)
    ensures |code| >= 7 && code[..3] == "Ab_" && code[|code| - 3..] == "_cD"
    ensures code[3..|code| - 3] == Decimal(otp)
  {
    "Ab_" + Decimal(otp) + "_cD"
  }

  /** Two reset codes are equal exactly when they come from the same one-time number. */
  lemma ResetCodeInjective(a: Otp, b: Otp)
    ensures ResetCode(a) == ResetCode(b) <==> a == b
  {
  }
}
