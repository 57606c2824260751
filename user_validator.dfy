/** `userChangeSchema`. */
module UserValidator {
  import opened Basics
  import opened Foreign
  import opened Schema
  import AuthValidator

  datatype UserChange = UserChange(name: string, email: string)

  predicate ValidUserChange(body: Fields, isEmail: EmailCheck)
  {
    MinLength(body, "name", 2) && "email" in body && isEmail(body["email"])
  }

  /** Accepts exactly the valid bodies and hands back their name and email unchanged. */
  function ParseUserChange(body: Fields, isEmail: EmailCheck): (r: Result<UserChange, seq<string>>)
    ensures r.Success? <==> ValidUserChange(body, isEmail)
    ensures r.Success? ==> r.value == UserChange(body["name"], body["email"])
    ensures r.Failure? ==> r.error != []
    ensures !MinLength(body, "name", 2) ==> r.Failure? && "name" in r.error
    ensures !("email" in body && isEmail(body["email"])) ==> r.Failure? && "email" in r.error
  {
    var issues :=
      IssueIf(MinLength(body, "name", 2), "name")
      + IssueIf("email" in body && isEmail(body["email"]), "email");
    if issues == [] then Success(UserChange(body["name"], body["email"])) else Failure(issues)
  }

  /** A name and email accepted at sign-up are accepted as a profile change. */
  lemma SignUpFieldsPassUserChange(body: Fields, isEmail: EmailCheck)
    requires AuthValidator.ValidSignUp(body, isEmail)
    ensures ParseUserChange(body, isEmail) == Success(UserChange(body["name"], body["email"]))
  {
  }
}
