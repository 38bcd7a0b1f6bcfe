/** The account forms: the signup form that creates owners and the form an owner uses
    to create a verifier account. */
module AccountForms {
  import opened Wrappers
  import opened AccountModels

  /** Python truthiness of a `cleaned_data.get(...)` value: absent and empty are false. */
  predicate Truthy(field: Option<string>) {
    field.Some? && field.value != ""
  }

  datatype FormError = PasswordMismatch

  /** `clean_password2`: a mismatch is raised exactly when both passwords are given and
      differ; otherwise the second password is returned as it came. */
  function CleanPassword2(password1: Option<string>, password2: Option<string>): (r: Result<Option<string>, FormError>)
    ensures r.Err? <==> Truthy(password1) && Truthy(password2) && password1 != password2
    ensures r.Ok? ==> r.value == password2
  {
    if Truthy(password1) && Truthy(password2) && password1 != password2 then Err(PasswordMismatch)
    else Ok(password2)
  }

  /** What a clean second password guarantees: the two agree, or one of them is missing
      or empty, so an empty confirmation never raises the mismatch. */
  lemma CleanPassword2Accepts(password1: Option<string>, password2: Option<string>)
    ensures CleanPassword2(password1, password2).Ok? <==>
      password1 == password2 || !Truthy(password1) || !Truthy(password2)
    ensures !Truthy(password2) ==> CleanPassword2(password1, password2) == Ok(password2)
  {
  }

  /** `VerifierCreationForm.save`: the instance built from the form's username and email
      gets role VERIFIER and the form's owner, whatever the model defaults, and the
      password from `password1`. With `commit` it is inserted; without, nothing is
      stored and it keeps no primary key. */
  method SaveVerifierForm(users: UserTable, username: string, email: string, password1: string,
                          owner: Option<UserId>, commit: bool) returns (u: User)
    requires users.Valid()
    modifies users
    ensures users.Valid()
    ensures u.role == VERIFIER && IsVerifier(u) && !IsOwner(u) && u.owner == owner
    ensures u.password == password1 && u.username == username && u.email == email && !u.isSuperuser
    ensures commit ==> u.id == old(users.nextId) && u.id !in old(users.rows)
    ensures commit ==> users.rows == old(users.rows)[u.id := u]
    ensures !commit ==> u.id == NoId && users.rows == old(users.rows) && users.nextId == old(users.nextId)
  {
    u := NewUser(username, email);
    u := u.(role := VERIFIER);
    u := u.(owner := owner);
    u := u.(password := password1);
    if commit {
      u := users.Insert(u);
    }
  }

  /** `CustomSignupForm.save`: the parent signup form inserts the account it built
      (`signedUp`), then the role is forced to OWNER and the row saved again. The stored
      row is the signed-up account under a fresh key with role OWNER. */
  method SaveSignupForm(users: UserTable, signedUp: User) returns (u: User)
    requires users.Valid()
    modifies users
    ensures users.Valid()
    ensures u == signedUp.(id := old(users.nextId), role := OWNER) && IsOwner(u) && !IsVerifier(u)
    ensures u.id !in old(users.rows) && users.rows == old(users.rows)[u.id := u]
  {
    u := users.Insert(signedUp);
    u := u.(role := OWNER);
    users.Update(u);
  }
}
