/**
 * The registration and profile validators of the user model. Each check that
 * fails pushes one flash message in its field's category and clears the
 * result; the checks of different fields never skip each other. Whether the
 * email matches the address pattern and whether it is already registered are
 * answers the model receives as inputs.
 */
module Users {

  datatype Flash = Flash(message: string, category: string)

  datatype User = User(id: int, firstName: string, lastName: string, email: string)

  /** full_name: the first name, one space, the last name. */
  function FullName(u: User): (name: string)
    ensures |name| == |u.firstName| + 1 + |u.lastName|
    ensures name[..|u.firstName|] == u.firstName && name[|u.firstName|] == ' '
    ensures name[|u.firstName| + 1..] == u.lastName
  {
    u.firstName + " " + u.lastName
  }

  const FirstNameTooShort := "Please provide a first name (at least 2 characters)"
  const FirstNameTooLong := "First name cannot exceed 45 characters"
  const LastNameTooShort := "Please provide a last name (at least 2 characters)"
  const LastNameTooLong := "Last name cannot exceed 45 characters"
  const EmailMissing := "Please provide an email address"
  const EmailMalformed := "Invalid email address"
  const EmailTaken := "Email address is already registered"
  const PasswordMissing := "Please provide a password"
  const PasswordTooShort := "Password must be at least 8 characters long"
  const ConfirmMissing := "Please confirm password"
  const ConfirmMismatch := "Password confirmation does not match password"
  const FirstNameUnder3 := "Please provide a first name (at least 3 characters)"
  const LastNameUnder3 := "Please provide a last name (at least 3 characters)"

  /**
   * One name field as is_valid and is_valid_name check it: a message when it
   * is shorter than `min`, another when it is longer than 45 characters.
   */
  method CheckName(name: string, min: nat, tooShort: string, tooLong: string, category: string)
    returns (flashes: seq<Flash>)
    requires min <= 45 && tooShort != tooLong
    ensures flashes == [] <==> min <= |name| <= 45
    ensures Flash(tooShort, category) in flashes <==> |name| < min
    ensures Flash(tooLong, category) in flashes <==> |name| > 45
    ensures forall f | f in flashes :: f.category == category
    ensures |flashes| <= 1
  {
    flashes := [];
    if |name| < min {
      flashes := flashes + [Flash(tooShort, category)];
    }
    if |name| > 45 {
      flashes := flashes + [Flash(tooLong, category)];
    }
  }

  /** The email field of is_valid: missing, else malformed, else already registered; at most one message. */
  method CheckEmail(email: string, wellFormed: bool, registered: bool) returns (flashes: seq<Flash>)
    ensures flashes == [] <==> |email| >= 1 && wellFormed && !registered
    ensures Flash(EmailMissing, "invalid_email") in flashes <==> |email| < 1
    ensures Flash(EmailMalformed, "invalid_email") in flashes <==> |email| >= 1 && !wellFormed
    ensures Flash(EmailTaken, "invalid_email") in flashes <==> |email| >= 1 && wellFormed && registered
    ensures forall f | f in flashes :: f.category == "invalid_email"
    ensures |flashes| <= 1
  {
    var category := "invalid_email";
    flashes := [];
    if |email| < 1 {
      flashes := flashes + [Flash(EmailMissing, category)];
    } else if !wellFormed {
      flashes := flashes + [Flash(EmailMalformed, category)];
    } else if registered {
      flashes := flashes + [Flash(EmailTaken, category)];
    }
  }

  /**
   * is_valid: both names 2..45 characters, and an email that is present,
   * well formed and not yet registered (the last two tested only when the
   * one before passed).
   */
  method IsValid(firstName: string, lastName: string, email: string, emailWellFormed: bool, emailRegistered: bool)
    returns (valid: bool, flashes: seq<Flash>)
    ensures valid <==> flashes == []
    ensures valid <==> 2 <= |firstName| <= 45 && 2 <= |lastName| <= 45 &&
                       |email| >= 1 && emailWellFormed && !emailRegistered
    ensures Flash(FirstNameTooShort, "invalid_first_name") in flashes <==> |firstName| < 2
    ensures Flash(FirstNameTooLong, "invalid_first_name") in flashes <==> |firstName| > 45
    ensures Flash(LastNameTooShort, "invalid_last_name") in flashes <==> |lastName| < 2
    ensures Flash(LastNameTooLong, "invalid_last_name") in flashes <==> |lastName| > 45
    ensures Flash(EmailMissing, "invalid_email") in flashes <==> |email| < 1
    ensures Flash(EmailMalformed, "invalid_email") in flashes <==> |email| >= 1 && !emailWellFormed
    ensures Flash(EmailTaken, "invalid_email") in flashes <==> |email| >= 1 && emailWellFormed && emailRegistered
    ensures |flashes| ==
      (if 2 <= |firstName| <= 45 then 0 else 1) + (if 2 <= |lastName| <= 45 then 0 else 1) +
      (if |email| >= 1 && emailWellFormed && !emailRegistered then 0 else 1)
  {
    var first := CheckName(firstName, 2, FirstNameTooShort, FirstNameTooLong, "invalid_first_name");
    var last := CheckName(lastName, 2, LastNameTooShort, LastNameTooLong, "invalid_last_name");

    var mail := CheckEmail(email, emailWellFormed, emailRegistered);
    flashes := first + last + mail;
    valid := flashes == [];
  }

  /** is_valid_password: a password of at least 8 characters, confirmed by an identical second entry. */
  method IsValidPassword(password: string, confirm: string) returns (valid: bool, flashes: seq<Flash>)
    ensures valid <==> flashes == []
    ensures valid <==> |password| >= 8 && confirm == password
    ensures Flash(PasswordMissing, "invalid_password") in flashes <==> |password| < 1
    ensures Flash(PasswordTooShort, "invalid_password") in flashes <==> 1 <= |password| < 8
    ensures Flash(ConfirmMissing, "invalid_confirm") in flashes <==> |confirm| < 1
    ensures Flash(ConfirmMismatch, "invalid_confirm") in flashes <==> |confirm| >= 1 && confirm != password
    ensures |flashes| == (if |password| >= 8 then 0 else 1) + (if |confirm| >= 1 && confirm == password then 0 else 1)
  {
    valid := true;
    flashes := [];

    var category := "invalid_password";
    if |password| < 1 {
      flashes := flashes + [Flash(PasswordMissing, category)];
      valid := false;
    } else if |password| < 8 {
      flashes := flashes + [Flash(PasswordTooShort, category)];
      valid := false;
    }

    category := "invalid_confirm";
    if |confirm| < 1 {
      flashes := flashes + [Flash(ConfirmMissing, category)];
      valid := false;
    } else if password != confirm {
      flashes := flashes + [Flash(ConfirmMismatch, category)];
      valid := false;
    }
  }

  /** is_valid_name: the profile form's stricter name check, both names 3..45 characters. */
  method IsValidName(firstName: string, lastName: string) returns (valid: bool, flashes: seq<Flash>)
    ensures valid <==> flashes == []
    ensures valid <==> 3 <= |firstName| <= 45 && 3 <= |lastName| <= 45
    ensures Flash(FirstNameUnder3, "invalid_first_name") in flashes <==> |firstName| < 3
    ensures Flash(FirstNameTooLong, "invalid_first_name") in flashes <==> |firstName| > 45
    ensures Flash(LastNameUnder3, "invalid_last_name") in flashes <==> |lastName| < 3
    ensures Flash(LastNameTooLong, "invalid_last_name") in flashes <==> |lastName| > 45
    ensures |flashes| == (if 3 <= |firstName| <= 45 then 0 else 1) + (if 3 <= |lastName| <= 45 then 0 else 1)
  {
    var first := CheckName(firstName, 3, FirstNameUnder3, FirstNameTooLong, "invalid_first_name");
    var last := CheckName(lastName, 3, LastNameUnder3, LastNameTooLong, "invalid_last_name");
    flashes := first + last;
    valid := flashes == [];
  }
}
