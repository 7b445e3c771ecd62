/** The request handlers of `UserController`, over in-memory User and Invoice tables.

    The libraries the handlers call are stand-ins: `hash` is bcrypt's hash (and `Compare`
    its check), `normalize` is the phone formatter, a token is the claim `jwt.verify`
    yields, and what `getOTP()`, validate.js and the payment gateway's `init()` return
    comes in as parameters. */
module Controller {
  import opened Wrappers
  import opened Users
  import opened Invoicing

  /** The errors the handlers answer with `errRes`, one per distinct branch. */
  datatype Error =
    | InvalidPayload                        // validate.js rejected the request body
    | PhoneInvalid                          // the phone does not parse
    | PhoneTaken                            // a completed user already has that phone
    | InvalidToken                          // the token does not verify
    | UserMissing                           // no user with the token's id
    | AlreadyComplete                       // the user already confirmed the OTP
    | OtpIncorrect                          // the submitted OTP differs from the stored one
    | PhoneNotRegistered                    // no user found for the phone
    | NotComplete                           // the user has not confirmed the OTP
    | WrongCredentials                      // login: the password does not match
    | PasswordInvalid                       // edit: the old password does not match
    | ResetTokenMissing                     // newPassword: no token header
    | ResetCodeIncorrect                    // the submitted reset code differs from the stored one
    | GatewayFailed                         // the payment gateway's init() failed
    | NoSuchInvoice                         // the callback names an unknown invoice
    | PaymentNotCompleted(invoice: Invoice) // the callback reports a status other than "success"

  /** What `jwt.verify` makes of a session token: a user id, or a failure. */
  datatype SessionToken = InvalidSession | SessionFor(id: UserId)

  /** The `token` header of `newPassword`: absent, not verifying, or carrying a phone. */
  datatype ResetToken = NoResetToken | InvalidReset | ResetFor(phone: string)

  /** The payment gateway's signed callback, once verified with the gateway secret. */
  datatype Callback =
    | ForgedCallback
    | Callback(orderId: InvoiceId, status: string, operationId: Option<string>,
               msisdn: Option<string>, msg: Option<string>)

  /** Replies: a user with a session token (its id claim), a user with a reset token (its
      phone claim), an invoice with the gateway's transaction id. */
  datatype Session = Session(user: User, token: UserId)
  datatype ResetGrant = ResetGrant(user: User, numToken: string)
  datatype Checkout = Checkout(invoice: Invoice, transactionId: string)

  class UserController {
    const hash: string -> string
    const normalize: string -> Option<string>
    var users: seq<User>
    var invoices: seq<Invoice>
    const catalog: Catalog

    /** Row ids are positions, stored users always carry a password hash, and an invoice's
        items add up to its total. */
    ghost predicate Valid()
      reads this
    {
      && (forall i :: 0 <= i < |users| ==> users[i].id == i && users[i].password.Some?)
      && (forall i :: 0 <= i < |invoices| ==> invoices[i].id == i && ItemsConsistent(invoices[i]))
    }

    constructor (hash: string -> string, normalize: string -> Option<string>, catalog: Catalog)
      ensures Valid()
      ensures this.hash == hash && this.normalize == normalize && this.catalog == catalog
      ensures users == [] && invoices == []
    {
      this.hash := hash;
      this.normalize := normalize;
      this.catalog := catalog;
      users := [];
      invoices := [];
    }

    /** `comparePassword`: the password hashes to the stored hash. */
    predicate Compare(password: string, stored: Option<string>) {
      stored == Some(hash(password))
    }

    /** `register`: create a user, or give an incomplete one a new OTP, or refuse a phone
        that a completed user holds. */
    method Register(schemaOk: bool, rawPhone: string, password: string, name: string, otp: Otp)
      returns (r: Result<Session, Error>)
      requires Valid()
      modifies this
      ensures Valid() && invoices == old(invoices)
      ensures PhonesUnique(old(users)) ==> PhonesUnique(users)
      ensures r.Ok? ==> r.value.user.password.None? && r.value.user.otp.None?
      ensures !schemaOk ==> r == Err(InvalidPayload) && users == old(users)
      ensures schemaOk && normalize(rawPhone).None? ==> r == Err(PhoneInvalid) && users == old(users)
      ensures schemaOk && normalize(rawPhone).Some? ==>
        var phone := normalize(rawPhone).value;
        var found := FindUser(old(users), phone, false);
        && (found.Some? && old(users)[found.value].complete ==>
              r == Err(PhoneTaken) && users == old(users))
        && (found.Some? && !old(users)[found.value].complete ==>
              && users == old(users)[found.value := old(users)[found.value].(otp := Some(otp))]
              && r == Ok(Session(old(users)[found.value].(password := None, otp := None), found.value)))
        && (found.None? ==>
              var created := User(|old(users)|, phone, Some(hash(password)), name, true, false, Some(otp), None);
              && users == old(users) + [created]
              && r == Ok(Session(created.(password := None, otp := None), |old(users)|)))
    {
      if !schemaOk {
        return Err(InvalidPayload);
      }
      var normalized := normalize(rawPhone);
      if normalized.None? {
        return Err(PhoneInvalid);
      }
      var phone := normalized.value;
      var found := FindUser(users, phone, false);
      if found.Some? {
        var user := users[found.value];
        if user.complete {
          return Err(PhoneTaken);
        }
        user := user.(otp := Some(otp));
        users := users[found.value := user];
        return Ok(Session(user.(password := None, otp := None), user.id));
      }
      var user := User(|users|, phone, Some(hash(password)), name, true, false, Some(otp), None);
      users := users + [user];
      r := Ok(Session(user.(password := None, otp := None), user.id));
    }

    /** `checkOTP`: a matching code completes the user; a wrong one burns the stored code.
        The submitted code may be absent (`None`), and an absent code matches an absent
        stored one, as `null != null` is false. */
    method CheckOtp(schemaOk: bool, token: SessionToken, code: Option<Otp>) returns (r: Result<User, Error>)
      requires Valid()
      modifies this
      ensures Valid() && invoices == old(invoices)
      ensures PhonesUnique(old(users)) ==> PhonesUnique(users)
      ensures r.Ok? <==>
        && schemaOk && token.SessionFor? && token.id < |old(users)|
        && !old(users)[token.id].complete && old(users)[token.id].otp == code
      ensures !schemaOk ==> r == Err(InvalidPayload) && users == old(users)
      ensures schemaOk && token.InvalidSession? ==> r == Err(InvalidToken) && users == old(users)
      ensures schemaOk && token.SessionFor? ==>
        var id := token.id;
        && (id >= |old(users)| ==> r == Err(UserMissing) && users == old(users))
        && (id < |old(users)| && old(users)[id].complete ==>
              r == Err(AlreadyComplete) && users == old(users))
        && (id < |old(users)| && !old(users)[id].complete && old(users)[id].otp != code ==>
              r == Err(OtpIncorrect) && users == old(users)[id := old(users)[id].(otp := None)])
        && (id < |old(users)| && !old(users)[id].complete && old(users)[id].otp == code ==>
              && users == old(users)[id := old(users)[id].(complete := true)]
              && r == Ok(users[id].(password := None)))
    {
      if !schemaOk {
        return Err(InvalidPayload);
      }
      if token.InvalidSession? {
        return Err(InvalidToken);
      }
      var id := token.id;
      if id >= |users| {
        return Err(UserMissing);
      }
      var user := users[id];
      if user.complete {
        return Err(AlreadyComplete);
      }
      if user.otp != code {
        user := user.(otp := None);
        users := users[id := user];
        return Err(OtpIncorrect);
      }
      user := user.(complete := true);
      users := users[id := user];
      r := Ok(user.(password := None));
    }

    /** `login`: succeeds exactly for a completed user whose password matches, and answers
        with a token for that user; it changes nothing. */
    method Login(schemaOk: bool, rawPhone: string, password: string) returns (r: Result<UserId, Error>)
      ensures r.Ok? <==>
        && schemaOk && normalize(rawPhone).Some?
        && var found := FindUser(users, normalize(rawPhone).value, false);
        && found.Some? && users[found.value].complete && Compare(password, users[found.value].password)
      ensures !schemaOk ==> r == Err(InvalidPayload)
      ensures schemaOk && normalize(rawPhone).None? ==> r == Err(PhoneInvalid)
      ensures schemaOk && normalize(rawPhone).Some? ==>
        var found := FindUser(users, normalize(rawPhone).value, false);
        && (found.None? ==> r == Err(PhoneNotRegistered))
        && (found.Some? && !users[found.value].complete ==> r == Err(NotComplete))
        && (found.Some? && users[found.value].complete && !Compare(password, users[found.value].password) ==>
              r == Err(WrongCredentials))
        && (found.Some? && users[found.value].complete && Compare(password, users[found.value].password) ==>
              r == Ok(users[found.value].id))
    {
      if !schemaOk {
        return Err(InvalidPayload);
      }
      var normalized := normalize(rawPhone);
      if normalized.None? {
        return Err(PhoneInvalid);
      }
      var found := FindUser(users, normalized.value, false);
      if found.None? {
        return Err(PhoneNotRegistered);
      }
      var user := users[found.value];
      if !user.complete {
        return Err(NotComplete);
      }
      if !Compare(password, user.password) {
        return Err(WrongCredentials);
      }
      r := Ok(user.id);
    }

    /** `editUser` for the authenticated user `id`: the old password is checked first, then
        the body; name, password hash and the raw new phone overwrite the row. */
    method EditUser(id: UserId, oldPassword: string, schemaOk: bool,
                    newName: string, newPassword: string, newPhone: string)
      returns (r: Result<User, Error>)
      requires Valid() && id < |users|
      modifies this
      ensures Valid() && invoices == old(invoices)
      ensures !Compare(oldPassword, old(users)[id].password) ==>
        r == Err(PasswordInvalid) && users == old(users)
      ensures Compare(oldPassword, old(users)[id].password) && !schemaOk ==>
        r == Err(InvalidPayload) && users == old(users)
      ensures Compare(oldPassword, old(users)[id].password) && schemaOk ==>
        && users == old(users)[id := old(users)[id].(name := newName, password := Some(hash(newPassword)), phone := newPhone)]
        && r == Ok(users[id].(password := None))
    {
      var user := users[id];
      if !Compare(oldPassword, user.password) {
        return Err(PasswordInvalid);
      }
      if !schemaOk {
        return Err(InvalidPayload);
      }
      user := user.(name := newName);
      user := user.(password := Some(hash(newPassword)));
      user := user.(phone := newPhone);
      users := users[id := user];
      r := Ok(user.(password := None));
    }

    /** `forgotPassword`: store the reset code `Ab_<otp>_cD` on the user with that phone,
        whether or not it is complete or active, and answer with a phone token. */
    method ForgotPassword(schemaOk: bool, rawPhone: string, otp: Otp) returns (r: Result<ResetGrant, Error>)
      requires Valid()
      modifies this
      ensures Valid() && invoices == old(invoices)
      ensures PhonesUnique(old(users)) ==> PhonesUnique(users)
      ensures r.Ok? ==> r.value.user.password.None? && r.value.user.otp.None? && r.value.user.resetPassword.None?
      ensures !schemaOk ==> r == Err(InvalidPayload) && users == old(users)
      ensures schemaOk && normalize(rawPhone).None? ==> r == Err(PhoneInvalid) && users == old(users)
      ensures schemaOk && normalize(rawPhone).Some? ==>
        var found := FindUser(old(users), normalize(rawPhone).value, false);
        && (found.None? ==> r == Err(PhoneNotRegistered) && users == old(users))
        && (found.Some? ==>
              var user := old(users)[found.value];
              && users == old(users)[found.value := user.(resetPassword := Some(ResetCode(otp)))]
              && r == Ok(ResetGrant(user.(password := None, otp := None, resetPassword := None), user.phone)))
    {
      if !schemaOk {
        return Err(InvalidPayload);
      }
      var normalized := normalize(rawPhone);
      if normalized.None? {
        return Err(PhoneInvalid);
      }
      var found := FindUser(users, normalized.value, false);
      if found.None? {
        return Err(PhoneNotRegistered);
      }
      var user := users[found.value];
      user := user.(resetPassword := Some(ResetCode(otp)));
      users := users[found.value := user];
      user := user.(resetPassword := None, password := None, otp := None);
      r := Ok(ResetGrant(user, user.phone));
    }

    /** `newPassword`: for the complete and active user with the token's phone, a matching
        reset code sets a new password hash; a wrong one clears the stored code. An absent
        submitted code matches an absent stored one. */
    method NewPassword(schemaOk: bool, token: ResetToken, code: Option<string>, newPassword: string)
      returns (r: Result<UserId, Error>)
      requires Valid()
      modifies this
      ensures Valid() && invoices == old(invoices)
      ensures PhonesUnique(old(users)) ==> PhonesUnique(users)
      ensures !schemaOk ==> r == Err(InvalidPayload) && users == old(users)
      ensures schemaOk && token.NoResetToken? ==> r == Err(ResetTokenMissing) && users == old(users)
      ensures schemaOk && token.InvalidReset? ==> r == Err(InvalidToken) && users == old(users)
      ensures schemaOk && token.ResetFor? ==>
        var found := FindUser(old(users), token.phone, true);
        && (found.None? ==> r == Err(PhoneNotRegistered) && users == old(users))
        && (found.Some? && old(users)[found.value].resetPassword != code ==>
              && r == Err(ResetCodeIncorrect)
              && users == old(users)[found.value := old(users)[found.value].(resetPassword := None)])
        && (found.Some? && old(users)[found.value].resetPassword == code ==>
              && r == Ok(found.value)
              && users == old(users)[found.value := old(users)[found.value].(password := Some(hash(newPassword)))])
    {
      if !schemaOk {
        return Err(InvalidPayload);
      }
      if token.NoResetToken? {
        return Err(ResetTokenMissing);
      }
      if token.InvalidReset? {
        return Err(InvalidToken);
      }
      var found := FindUser(users, token.phone, true);
      if found.None? {
        return Err(PhoneNotRegistered);
      }
      var user := users[found.value];
      if user.resetPassword != code {
        user := user.(resetPassword := None);
        users := users[found.value := user];
        return Err(ResetCodeIncorrect);
      }
      user := user.(password := Some(hash(newPassword)));
      users := users[found.value := user];
      r := Ok(user.id);
    }

    /** `makeInvoice` for user `owner`: total the available products, store a pending
        invoice, and once the gateway has issued a transaction, one item per product. */
    method MakeInvoice(owner: UserId, schemaOk: bool, lines: seq<LineItem>,
                       lineValid: LineItem -> bool, gateway: Option<string>)
      returns (r: Result<Checkout, Error>)
      requires Valid()
      modifies this
      ensures Valid() && users == old(users)
      ensures !schemaOk || (exists i :: 0 <= i < |lines| && !lineValid(lines[i])) ==>
        r == Err(InvalidPayload) && invoices == old(invoices)
      ensures schemaOk && (forall i :: 0 <= i < |lines| ==> lineValid(lines[i])) ==>
        var id := |old(invoices)|;
        var found := FindByIds(catalog, Ids(lines));
        var created := Invoice(id, owner, RequestTotal(catalog, lines), "pending", gateway, None, None, None, []);
        && |invoices| == id + 1 && invoices[..id] == old(invoices)
        && (gateway.None? ==> r == Err(GatewayFailed) && invoices[id] == created)
        && (gateway.Some? ==>
              && Priced(catalog, lines, found)
              && invoices[id] == created.(items := ItemsFor(catalog, lines, found))
              && SumSubtotals(invoices[id].items) == invoices[id].total
              && r == Ok(Checkout(created, gateway.value)))
    {
      if !schemaOk {
        return Err(InvalidPayload);
      }
      var ids := CollectIds(lines, lineValid);
      if ids.None? {
        return Err(InvalidPayload);
      }
      assert ids.value == Ids(lines);
      var found := FindByIds(catalog, ids.value);
      FoundTotal(catalog, lines);
      var total := ComputeTotal(catalog, lines, found);

      var id := |invoices|;
      var invoice := Invoice(id, owner, total, "pending", None, None, None, None, []);
      invoices := invoices + [invoice];
      assert invoices[..id] == old(invoices);
      forall i | 0 <= i < |invoices|
        ensures invoices[i].id == i && ItemsConsistent(invoices[i])
      {
        if i < id {
          assert invoices[i] == old(invoices)[i];
        }
      }
      assert Valid();
      if gateway.None? {
        return Err(GatewayFailed);
      }
      var transactionId := gateway.value;
      RecordTransaction(id, transactionId, lines, found);
      r := Ok(Checkout(invoice.(zcTransactionId := gateway), transactionId));
    }

    /** The end of `makeInvoice` once the gateway has answered: store the transaction id on
        invoice `id`, then save one item per found product with the product's first quantity
        and that quantity times its price. */
    method RecordTransaction(id: InvoiceId, transactionId: string, lines: seq<LineItem>, found: seq<ProductId>)
      requires Valid() && id < |invoices| && invoices[id].items == []
      requires Priced(catalog, lines, found) && invoices[id].total == SumOver(catalog, lines, found)
      modifies this
      ensures Valid() && users == old(users)
      ensures invoices == old(invoices)[id := old(invoices)[id].(zcTransactionId := Some(transactionId),
                                                                 items := ItemsFor(catalog, lines, found))]
    {
      var invoice := invoices[id].(zcTransactionId := Some(transactionId));
      invoices := invoices[id := invoice];

      ghost var before, all := invoices, ItemsFor(catalog, lines, found);
      for k := 0 to |found|
        invariant users == old(users)
        invariant |invoices| == |before|
        invariant forall j :: 0 <= j < |before| && j != id ==> invoices[j] == before[j]
        invariant invoices[id] == invoice.(items := all[..k])
      {
        var product := found[k];
        var quantity := FirstQuantity(lines, product);
        var item := InvoiceItem(product, quantity, quantity * catalog[product].price);
        assert all[..k + 1] == all[..k] + [item];
        invoices := invoices[id := invoices[id].(items := invoices[id].items + [item])];
      }
      assert all[..|found|] == all;
      SubtotalsMatch(catalog, lines, found);
      assert invoices == old(invoices)[id := invoice.(items := ItemsFor(catalog, lines, found))];
      forall i | 0 <= i < |invoices|
        ensures invoices[i].id == i && ItemsConsistent(invoices[i])
      {
        if i != id {
          assert invoices[i] == old(invoices)[i];
        }
      }
    }

    /** `zcRedirect`: the gateway's callback marks the invoice paid on "success" and otherwise
        stores the reported status verbatim and answers with an error. */
    method ZcRedirect(callback: Callback) returns (r: Result<Invoice, Error>)
      requires Valid()
      modifies this
      ensures Valid() && users == old(users)
      ensures callback.ForgedCallback? ==> r == Err(InvalidToken) && invoices == old(invoices)
      ensures callback.Callback? && callback.orderId >= |old(invoices)| ==>
        r == Err(NoSuchInvoice) && invoices == old(invoices)
      ensures callback.Callback? && callback.orderId < |old(invoices)| ==>
        var id, inv := callback.orderId, old(invoices)[callback.orderId];
        && (callback.status == "success" ==>
              && invoices == old(invoices)[id := inv.(status := "paid", zcOperation := callback.operationId,
                                                     zcMsisdn := callback.msisdn)]
              && r == Ok(invoices[id]))
        && (callback.status != "success" ==>
              && invoices == old(invoices)[id := inv.(status := callback.status, zcOperation := callback.operationId,
                                                     zcMsg := callback.msg)]
              && r == Err(PaymentNotCompleted(invoices[id])))
    {
      if callback.ForgedCallback? {
        return Err(InvalidToken);
      }
      var id := callback.orderId;
      if id >= |invoices| {
        return Err(NoSuchInvoice);
      }
      var invoice := invoices[id];
      if callback.status == "success" {
        invoice := invoice.(status := "paid");
        invoice := invoice.(zcOperation := callback.operationId);
        invoice := invoice.(zcMsisdn := callback.msisdn);
        invoices := invoices[id := invoice];
        return Ok(invoice);
      }
      invoice := invoice.(status := callback.status);
      invoice := invoice.(zcOperation := callback.operationId);
      invoice := invoice.(zcMsg := callback.msg);
      invoices := invoices[id := invoice];
      r := Err(PaymentNotCompleted(invoice));
    }
  }
}
