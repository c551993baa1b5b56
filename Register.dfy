/** The sign-up form (RegisterView.swift): the password checks with their
    ordered messages, the requirement rows, and the dispatch of the
    registration by role.

    The character classes `isUppercase`, `isLowercase` and `isNumber` are
    left abstract, and a password's length is its number of characters. */
module Register {
  import opened Text

  /** Swift's Unicode character classes, as the form uses them. */
  datatype CharClasses = CharClasses(
    isUppercase: char -> bool, isLowercase: char -> bool, isNumber: char -> bool)

  /** `s.contains(where: p)` */
  predicate Contains(s: string, p: char -> bool) {
    exists i :: 0 <= i < |s| && p(s[i])
  }

  const MinimumLength: nat := 8
  const MismatchMessage: string := "Passwords do not match."
  const TooShortMessage: string := "Password must be at least 8 characters long."
  const CharacterClassMessage: string := "Password must include upper, lower case letters and a number."

  /** Whether each of the three requirement rows shows as met. */
  datatype RequirementRows = RequirementRows(longEnough: bool, mixedCase: bool, hasNumber: bool)

  function Requirements(password: string, cc: CharClasses): RequirementRows {
    RequirementRows(
      |password| >= MinimumLength,
      Contains(password, cc.isUppercase) && Contains(password, cc.isLowercase),
      Contains(password, cc.isNumber))
  }

  /** The message of the first failing check, or `None` when all pass:
      mismatch first, then length, then the character classes. */
  function PasswordProblem(password: string, confirmPassword: string, cc: CharClasses): (r: Option<string>)
    ensures r.Some? ==> r.value != ""
  {
    if password != confirmPassword then Some(MismatchMessage)
    else if |password| < MinimumLength then Some(TooShortMessage)
    else if !Contains(password, cc.isUppercase) || !Contains(password, cc.isLowercase)
         || !Contains(password, cc.isNumber) then Some(CharacterClassMessage)
    else None
  }

  /** The passwords are accepted exactly when they agree, are long enough and
      hold an upper-case letter, a lower-case letter and a number. */
  lemma AcceptedIff(password: string, confirmPassword: string, cc: CharClasses)
    ensures PasswordProblem(password, confirmPassword, cc).None?
        <==> && password == confirmPassword
             && |password| >= 8
             && (exists i :: 0 <= i < |password| && cc.isUppercase(password[i]))
             && (exists i :: 0 <= i < |password| && cc.isLowercase(password[i]))
             && (exists i :: 0 <= i < |password| && cc.isNumber(password[i]))
  {
  }

  /** The message reported is the one of the first check that fails. */
  lemma FirstFailureReported(password: string, confirmPassword: string, cc: CharClasses)
    ensures password != confirmPassword ==>
              PasswordProblem(password, confirmPassword, cc) == Some("Passwords do not match.")
    ensures password == confirmPassword && |password| < 8 ==>
              PasswordProblem(password, confirmPassword, cc) == Some("Password must be at least 8 characters long.")
    ensures password == confirmPassword && |password| >= 8 && !(Requirements(password, cc).mixedCase && Requirements(password, cc).hasNumber) ==>
              PasswordProblem(password, confirmPassword, cc) == Some("Password must include upper, lower case letters and a number.")
  {
  }

  /** Accepted passwords show every requirement row as met. */
  lemma AcceptedMeetsRows(password: string, confirmPassword: string, cc: CharClasses)
    requires PasswordProblem(password, confirmPassword, cc).None?
    ensures Requirements(password, cc) == RequirementRows(true, true, true)
  {
  }

  /** The rows do not look at the confirmation: all rows can be met while the
      passwords are still refused. */
  lemma RowsMetButRefused(cc: CharClasses)
    requires cc.isUppercase('A') && cc.isLowercase('b') && cc.isNumber('1')
    ensures Requirements("Abcdefg1", cc) == RequirementRows(true, true, true)
    ensures PasswordProblem("Abcdefg1", "Abcdefg2", cc) == Some(MismatchMessage)
  {
    assert "Abcdefg1"[0] == 'A' && "Abcdefg1"[1] == 'b' && "Abcdefg1"[7] == '1';
  }

  /** A call into the account service. */
  datatype Registration =
    | RegisterUser(fullName: string, email: string, password: string)
    | RegisterRestaurant(name: string, location: string, email: string, password: string, imageUrl: string)

  const RestaurantImageUrl: string := "https://i.postimg.cc/9Mcxx9bg/temp-Image9v-IU3J.avif"

  /** The registration `register` makes for the selected role: the role
      "User" (exactly) registers a client, any other role a restaurant. */
  function RegistrationFor(selectedRole: string, fullName: string, email: string, password: string,
                           restaurantName: string, restaurantLocation: string): (r: Registration)
    ensures r.RegisterUser? <==> selectedRole == "User"
    ensures r.email == email && r.password == password
    ensures r.RegisterUser? ==> r.fullName == fullName
    ensures r.RegisterRestaurant? ==>
              r.name == restaurantName && r.location == restaurantLocation && r.imageUrl == RestaurantImageUrl
  {
    if selectedRole == "User" then RegisterUser(fullName, email, password)
    else RegisterRestaurant(restaurantName, restaurantLocation, email, password, RestaurantImageUrl)
  }

  class RegisterForm {
    var fullName: string
    var email: string
    var password: string
    var confirmPassword: string
    var restaurantName: string
    var restaurantLocation: string
    var selectedRole: string
    var passwordError: string
    var showPasswordError: bool
    /** The registration calls made so far. */
    var registrations: seq<Registration>

    constructor()
      ensures fullName == "" && email == "" && password == "" && confirmPassword == ""
      ensures restaurantName == "" && restaurantLocation == "" && selectedRole == "User"
      ensures passwordError == "" && !showPasswordError && registrations == []
    {
      fullName := "";
      email := "";
      password := "";
      confirmPassword := "";
      restaurantName := "";
      restaurantLocation := "";
      selectedRole := "User";
      passwordError := "";
      showPasswordError := false;
      registrations := [];
    }

    /** `validatePasswords`: a failure shows its message, success hides the
        error (keeping the last message text). */
    method ValidatePasswords(cc: CharClasses) returns (ok: bool)
      modifies this
      ensures ok <==> PasswordProblem(password, confirmPassword, cc).None?
      ensures !ok ==> showPasswordError && passwordError == PasswordProblem(password, confirmPassword, cc).value
      ensures ok ==> !showPasswordError && passwordError == old(passwordError)
      ensures fullName == old(fullName) && email == old(email)
      ensures password == old(password) && confirmPassword == old(confirmPassword)
      ensures restaurantName == old(restaurantName) && restaurantLocation == old(restaurantLocation)
      ensures selectedRole == old(selectedRole) && registrations == old(registrations)
    {
      if password != confirmPassword {
        passwordError := MismatchMessage;
        showPasswordError := true;
        return false;
      } else if |password| < MinimumLength {
        passwordError := TooShortMessage;
        showPasswordError := true;
        return false;
      } else if !Contains(password, cc.isUppercase) || !Contains(password, cc.isLowercase)
                || !Contains(password, cc.isNumber) {
        passwordError := CharacterClassMessage;
        showPasswordError := true;
        return false;
      }
      showPasswordError := false;
      return true;
    }

    /** `register`: no call unless the passwords are accepted, then one call
        chosen by role. */
    method Register(cc: CharClasses)
      modifies this
      ensures PasswordProblem(password, confirmPassword, cc).Some? ==> registrations == old(registrations)
      ensures PasswordProblem(password, confirmPassword, cc).None? ==>
                registrations == old(registrations)
                  + [RegistrationFor(selectedRole, fullName, email, password, restaurantName, restaurantLocation)]
      ensures fullName == old(fullName) && email == old(email)
      ensures password == old(password) && confirmPassword == old(confirmPassword)
      ensures restaurantName == old(restaurantName) && restaurantLocation == old(restaurantLocation)
      ensures selectedRole == old(selectedRole)
    {
      var ok := ValidatePasswords(cc);
      if !ok {
        return;
      }
      registrations := registrations
        + [RegistrationFor(selectedRole, fullName, email, password, restaurantName, restaurantLocation)];
    }
  }
}
