/** Sequences of requests against one controller, and what the handlers' contracts let a
    client conclude about them. */
module Scenarios {
  import opened Wrappers
  import opened Users
  import opened Invoicing
  import opened Controller

  /** Registering a new phone twice before confirming it reuses the first row: one user is
      added, both replies carry its token, and the second request only replaces the OTP. */
  method RegisterTwice(c: UserController, rawPhone: string,
                       password: string, name: string, otp: Otp,
                       password': string, name': string, otp': Otp)
    returns (first: Result<Session, Error>, second: Result<Session, Error>)
    requires c.Valid() && c.normalize(rawPhone).Some?
    requires FindUser(c.users, c.normalize(rawPhone).value, false).None?
    modifies c
    ensures c.Valid()
    ensures first.Ok? && second.Ok? && first.value.token == second.value.token == |old(c.users)|
    ensures |c.users| == |old(c.users)| + 1 && c.users[..|old(c.users)|] == old(c.users)
    ensures var u := c.users[|old(c.users)|];
      u.otp == Some(otp') && u.password == Some(c.hash(password)) && u.name == name && !u.complete
  {
    var n, phone := |c.users|, c.normalize(rawPhone).value;
    first := c.Register(true, rawPhone, password, name, otp);
    FindUserIs(c.users, phone, false, n);
    second := c.Register(true, rawPhone, password', name', otp');
    assert c.users[..n] == old(c.users);
  }

  /** A wrong OTP burns the stored one, so the retry with the code that was sent fails too. */
  method WrongOtpThenRetry(c: UserController, id: UserId, wrong: Otp)
    returns (first: Result<User, Error>, retry: Result<User, Error>)
    requires c.Valid() && id < |c.users| && !c.users[id].complete
    requires c.users[id].otp.Some? && c.users[id].otp != Some(wrong)
    modifies c
    ensures c.Valid()
    ensures first == Err(OtpIncorrect) && retry == Err(OtpIncorrect)
    ensures |c.users| == |old(c.users)| && !c.users[id].complete && c.users[id].otp.None?
  {
    var sent := c.users[id].otp.value;
    first := c.CheckOtp(true, SessionFor(id), Some(wrong));
    retry := c.CheckOtp(true, SessionFor(id), Some(sent));
  }

  /** Once a wrong OTP has burnt the stored one, a request without any OTP completes the
      user: the stored and the submitted code are both absent, so they do not differ. */
  method BurnedOtpThenNoCode(c: UserController, id: UserId, wrong: Otp)
    returns (first: Result<User, Error>, blank: Result<User, Error>)
    requires c.Valid() && id < |c.users| && !c.users[id].complete
    requires c.users[id].otp.Some? && c.users[id].otp != Some(wrong)
    modifies c
    ensures c.Valid()
    ensures first == Err(OtpIncorrect) && blank.Ok?
    ensures |c.users| == |old(c.users)| && c.users[id].complete && c.users[id].otp.None?
  {
    first := c.CheckOtp(true, SessionFor(id), Some(wrong));
    blank := c.CheckOtp(true, SessionFor(id), None);
  }

  /** A new user cannot log in before confirming the OTP, even with the right password;
      after confirming it, logging in yields a token for that user. */
  method SignUpThenLogIn(c: UserController, rawPhone: string, password: string, name: string, otp: Otp)
    returns (early: Result<UserId, Error>, confirmed: Result<User, Error>, late: Result<UserId, Error>)
    requires c.Valid() && c.normalize(rawPhone).Some?
    requires FindUser(c.users, c.normalize(rawPhone).value, false).None?
    modifies c
    ensures c.Valid()
    ensures early == Err(NotComplete)
    ensures confirmed.Ok? && confirmed.value.complete && confirmed.value.password.None?
    ensures late == Ok(|old(c.users)|)
  {
    var n, phone := |c.users|, c.normalize(rawPhone).value;
    var session := c.Register(true, rawPhone, password, name, otp);
    FindUserIs(c.users, phone, false, n);
    early := c.Login(true, rawPhone, password);
    confirmed := c.CheckOtp(true, SessionFor(session.value.token), Some(otp));
    FindUserIs(c.users, phone, false, n);
    late := c.Login(true, rawPhone, password);
  }

  /** With unique phones, the reset code stored by `forgotPassword` and its phone token let
      a complete and active user set a new password, and the new password then logs in. */
  method ResetThenLogIn(c: UserController, rawPhone: string, otp: Otp, newPassword: string)
    returns (grant: Result<ResetGrant, Error>, reset: Result<UserId, Error>, login: Result<UserId, Error>)
    requires c.Valid() && PhonesUnique(c.users) && c.normalize(rawPhone).Some?
    requires var found := FindUser(c.users, c.normalize(rawPhone).value, false);
      found.Some? && c.users[found.value].complete && c.users[found.value].active
    modifies c
    ensures c.Valid() && PhonesUnique(c.users) && |c.users| == |old(c.users)|
    ensures var i := FindUser(old(c.users), c.normalize(rawPhone).value, false).value;
      && grant.Ok? && reset == Ok(i) && login == Ok(i)
      && c.users[i].password == Some(c.hash(newPassword))
      && c.users[i].resetPassword == Some(ResetCode(otp))
  {
    var phone := c.normalize(rawPhone).value;
    var i := FindUser(c.users, phone, false).value;
    grant := c.ForgotPassword(true, rawPhone, otp);
    FindUserIs(c.users, phone, false, i);
    EnabledLookupAgrees(c.users, phone);
    FindUserIs(c.users, phone, true, i);
    reset := c.NewPassword(true, ResetFor(grant.value.numToken), Some(ResetCode(otp)), newPassword);
    FindUserIs(c.users, phone, false, i);
    login := c.Login(true, rawPhone, newPassword);
  }

  /** Once a wrong reset code has cleared the stored one, a request without any reset code
      sets the new password: only the phone token is needed. */
  method ClearedResetThenNoCode(c: UserController, phone: string, wrong: string, newPassword: string)
    returns (first: Result<UserId, Error>, blank: Result<UserId, Error>)
    requires c.Valid()
    requires var found := FindUser(c.users, phone, true);
      found.Some? && c.users[found.value].resetPassword != Some(wrong)
    modifies c
    ensures c.Valid() && |c.users| == |old(c.users)|
    ensures var i := FindUser(old(c.users), phone, true).value;
      && first == Err(ResetCodeIncorrect) && blank == Ok(i)
      && c.users[i].password == Some(c.hash(newPassword)) && c.users[i].resetPassword.None?
  {
    var i := FindUser(c.users, phone, true).value;
    first := c.NewPassword(true, ResetFor(phone), Some(wrong), newPassword);
    FindUserIs(c.users, phone, true, i);
    blank := c.NewPassword(true, ResetFor(phone), None, newPassword);
  }

  /** An invoice the gateway accepted and later reported paid carries the reference total,
      and its items still add up to it. */
  method CheckoutThenPay(c: UserController, owner: UserId, lines: seq<LineItem>,
                         lineValid: LineItem -> bool, transactionId: string,
                         operationId: Option<string>, msisdn: Option<string>, msg: Option<string>)
    returns (checkout: Result<Checkout, Error>, paid: Result<Invoice, Error>)
    requires c.Valid() && forall i :: 0 <= i < |lines| ==> lineValid(lines[i])
    modifies c
    ensures c.Valid()
    ensures checkout.Ok? && paid.Ok?
    ensures paid.value.status == "paid" && paid.value.zcTransactionId == Some(transactionId)
    ensures paid.value.total == RequestTotal(c.catalog, lines)
    ensures SumSubtotals(paid.value.items) == paid.value.total
  {
    var id := |c.invoices|;
    checkout := c.MakeInvoice(owner, true, lines, lineValid, Some(transactionId));
    paid := c.ZcRedirect(Callback(id, "success", operationId, msisdn, msg));
  }
}
