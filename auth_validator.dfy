/** `signUpSchema` and `signInSchema`. */
module AuthValidator {
  import opened Basics
  import opened Foreign
  import opened Schema

  datatype SignUpData = SignUpData(name: string, email: string, password: string, confirmPassword: string)

  datatype SignInData = SignInData(email: string, password: string)

  /** The four field rules and the password match, as one conjunction. */
  predicate ValidSignUp(body: Fields, isEmail: EmailCheck)
  {
    && MinLength(body, "name", 2)
    && "email" in body && isEmail(body["email"])
    && MinLength(body, "password", 6)
    && "confirmPassword" in body && body["confirmPassword"] == body["password"]
  }

  /** The issues zod reports, by path: one per failing field check, then the
      `refine` on `confirmPassword`, which only runs when every field is a string. */
  function SignUpIssues(body: Fields, isEmail: EmailCheck): (issues: seq<string>)
    ensures && MinLength(body, "name", 2) && "email" in body && isEmail(body["email"])
            && MinLength(body, "password", 6) && "confirmPassword" in body
            ==> issues == IssueIf(body["password"] == body["confirmPassword"], "confirmPassword")
  {
    var fields :=
      IssueIf(MinLength(body, "name", 2), "name")
      + IssueIf("email" in body && isEmail(body["email"]), "email")
      + IssueIf(MinLength(body, "password", 6), "password")
      + IssueIf("confirmPassword" in body, "confirmPassword");
    var typed := "name" in body && "email" in body && "password" in body && "confirmPassword" in body;
    assert typed && MinLength(body, "name", 2) && isEmail(body["email"]) && MinLength(body, "password", 6)
           ==> fields == [] + [] + [] + [];
    fields + IssueIf(!typed || body["password"] == body["confirmPassword"], "confirmPassword")
  }

  function ParseSignUp(body: Fields, isEmail: EmailCheck): (r: Result<SignUpData, seq<string>>)
    ensures r.Success? <==> ValidSignUp(body, isEmail)
    ensures r.Success? ==>
              r.value == SignUpData(body["name"], body["email"], body["password"], body["confirmPassword"])
    ensures r.Failure? ==> r.error != []
    // a password mismatch alone is reported once, on the confirmPassword path
    ensures && MinLength(body, "name", 2) && "email" in body && isEmail(body["email"])
            && MinLength(body, "password", 6) && "confirmPassword" in body
            && body["confirmPassword"] != body["password"]
            ==> r == Failure(["confirmPassword"])
  {
    var issues := SignUpIssues(body, isEmail);
    if issues == [] then
      Success(SignUpData(body["name"], body["email"], body["password"], body["confirmPassword"]))
    else
      Failure(issues)
  }

  predicate ValidSignIn(body: Fields, isEmail: EmailCheck)
  {
    "email" in body && isEmail(body["email"]) && MinLength(body, "password", 6)
  }

  function ParseSignIn(body: Fields, isEmail: EmailCheck): (r: Result<SignInData, seq<string>>)
    ensures r.Success? <==> ValidSignIn(body, isEmail)
    ensures r.Success? ==> r.value == SignInData(body["email"], body["password"])
    ensures r.Failure? ==> r.error != []
  {
    var issues :=
      IssueIf("email" in body && isEmail(body["email"]), "email")
      + IssueIf(MinLength(body, "password", 6), "password");
    if issues == [] then Success(SignInData(body["email"], body["password"])) else Failure(issues)
  }

  /** Whatever registers can sign in: the sign-up rules on email and password
      include the sign-in rules. */
  lemma SignUpImpliesSignIn(body: Fields, isEmail: EmailCheck)
    requires ParseSignUp(body, isEmail).Success?
    ensures ParseSignIn(body, isEmail) ==
              Success(SignInData(ParseSignUp(body, isEmail).value.email, ParseSignUp(body, isEmail).value.password))
  {
  }

  /** Six characters is the shortest password either schema admits. */
  lemma PasswordBoundary(isEmail: EmailCheck, email: string)
    requires isEmail(email)
    ensures ParseSignIn(map["email" := email, "password" := "12345"], isEmail).Failure?
    ensures ParseSignIn(map["email" := email, "password" := "123456"], isEmail).Success?
    ensures ParseSignUp(map["name" := "Al", "email" := email, "password" := "12345", "confirmPassword" := "12345"], isEmail).Failure?
    ensures ParseSignUp(map["name" := "Al", "email" := email, "password" := "123456", "confirmPassword" := "123456"], isEmail).Success?
  {
  }
}
