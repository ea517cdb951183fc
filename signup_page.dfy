/**
 * The sign-up form: client-side validation of the seven fields, the change
 * handlers that edit the form and clear a field's error, and the submit
 * handler that validates, calls the sign-up service and shows what it
 * reports.
 *
 * The clock (`new Date()`) is the parameter `today`, in milliseconds; date
 * parsing is `parseDate`, as in the service.
 */
module SignUpPage {
  import opened Wrappers
  import opened SignupService

  // ---------------------------------------------------------------------------
  // Whitespace and `trim`

  /** The characters JavaScript's `trim` removes and `\s` matches: the
      WhiteSpace and LineTerminator code points of ECMAScript. */
  predicate IsSpace(c: char)
  {
    c == '\t' || c == '\n' || c == '\U{000B}' || c == '\U{000C}' || c == '\r' || c == ' ' ||
    c == '\U{00A0}' || c == '\U{1680}' || ('\U{2000}' <= c <= '\U{200A}') ||
    c == '\U{2028}' || c == '\U{2029}' || c == '\U{202F}' || c == '\U{205F}' ||
    c == '\U{3000}' || c == '\U{FEFF}'
  }

  /** Every character is whitespace (the empty string included). */
  predicate Blank(s: string)
  {
    forall k :: 0 <= k < |s| ==> IsSpace(s[k])
  }

  /** No character is whitespace. */
  predicate NoSpace(s: string)
  {
    forall k :: 0 <= k < |s| ==> !IsSpace(s[k])
  }

  /** Leading whitespace removed. */
  function TrimStart(s: string): string
  {
    if s != [] && IsSpace(s[0]) then TrimStart(s[1..]) else s
  }

  /** Trailing whitespace removed. */
  function TrimEnd(s: string): string
  {
    if s != [] && IsSpace(s[|s| - 1]) then TrimEnd(s[..|s| - 1]) else s
  }

  /** `String.prototype.trim`. */
  function Trim(s: string): string
  {
    TrimEnd(TrimStart(s))
  }

  /** `TrimStart` keeps the tail of `s` after some whitespace, and what it keeps
      does not start with whitespace. */
  lemma {:induction false} TrimStartKeepsTail(s: string)
    ensures var r := TrimStart(s);
      && |r| <= |s|
      && (forall k :: 0 <= k < |r| ==> r[k] == s[|s| - |r| + k])
      && (forall k :: 0 <= k < |s| - |r| ==> IsSpace(s[k]))
      && (r != [] ==> !IsSpace(r[0]))
  {
    if s != [] && IsSpace(s[0]) {
      TrimStartKeepsTail(s[1..]);
    }
  }

  /** `TrimEnd` keeps the head of `s` before some whitespace, and what it keeps
      does not end with whitespace. */
  lemma {:induction false} TrimEndKeepsHead(s: string)
    ensures var r := TrimEnd(s);
      && |r| <= |s|
      && (forall k :: 0 <= k < |r| ==> r[k] == s[k])
      && (forall k :: |r| <= k < |s| ==> IsSpace(s[k]))
      && (r != [] ==> !IsSpace(r[|r| - 1]))
  {
    if s != [] && IsSpace(s[|s| - 1]) {
      TrimEndKeepsHead(s[..|s| - 1]);
    }
  }

  /** `!s.trim()` holds exactly for the all-whitespace strings. */
  lemma {:induction false} TrimEmptyIffBlank(s: string)
    ensures Trim(s) == "" <==> Blank(s)
  {
    var t := TrimStart(s);
    TrimStartKeepsTail(s);
    TrimEndKeepsHead(t);
    if !Blank(s) {
      var k :| 0 <= k < |s| && !IsSpace(s[k]);
      assert t != [];
      assert !IsSpace(t[0]);
    }
  }

  /** The trimmed string is the middle of `s`: it is `s` from `a` to `b`, and only
      whitespace was cut before `a` and after `b`. */
  lemma {:induction false} TrimIsMiddle(s: string)
    ensures var a := |s| - |TrimStart(s)|; var b := a + |Trim(s)|;
      && 0 <= a <= b <= |s|
      && (forall k :: a <= k < b ==> s[k] == Trim(s)[k - a])
      && (forall k :: 0 <= k < a ==> IsSpace(s[k]))
      && (forall k :: b <= k < |s| ==> IsSpace(s[k]))
  {
    var t := TrimStart(s);
    var a := |s| - |t|;
    TrimStartKeepsTail(s);
    TrimEndKeepsHead(t);
    forall k | a <= k < |s|
      ensures s[k] == t[k - a]
    {
    }
  }

  // ---------------------------------------------------------------------------
  // The two patterns

  /** An `@` at `i` and a `.` at `j` witness `/\S+@\S+\.\S+/`: a non-space character
      right before the `@` and right after the `.`, and only non-space characters,
      at least one, between them. */
  predicate EmailAt(s: string, i: int, j: int)
  {
    1 <= i && i + 2 <= j && j + 2 <= |s| && s[i] == '@' && s[j] == '.' &&
    !IsSpace(s[i - 1]) && (forall k :: i < k < j ==> !IsSpace(s[k])) && !IsSpace(s[j + 1])
  }

  /** `/\S+@\S+\.\S+/.test(s)`. */
  predicate EmailPattern(s: string)
  {
    exists i, j | 0 <= i < |s| && 0 <= j < |s| :: EmailAt(s, i, j)
  }

  /** A whole string the regular expression `\S+@\S+\.\S+` matches: no whitespace,
      an `@` after the first character and a `.` at least two places after it and
      before the last character. */
  predicate WholeEmailMatch(t: string)
  {
    NoSpace(t) &&
    exists i, j :: 1 <= i && i + 2 <= j && j + 2 <= |t| && t[i] == '@' && t[j] == '.'
  }

  /** The pattern is the regular expression's unanchored search: some substring is
      a whole match. */
  lemma {:induction false} EmailPatternIsSearch(s: string)
    ensures EmailPattern(s) <==>
      exists a, b :: 0 <= a <= b <= |s| && WholeEmailMatch(s[a..b])
  {
    if EmailPattern(s) {
      var i, j :| EmailAt(s, i, j);
      assert EmailAt(s, i, j);
      var t := s[i - 1..j + 2];
      forall k | 0 <= k < |t|
        ensures !IsSpace(t[k])
      {
        assert t[k] == s[i - 1 + k];
      }
      assert t[1] == '@' && t[j - i + 1] == '.';
      assert WholeEmailMatch(t);
    }
    if exists a, b :: 0 <= a <= b <= |s| && WholeEmailMatch(s[a..b]) {
      var a, b :| 0 <= a <= b <= |s| && WholeEmailMatch(s[a..b]);
      var t := s[a..b];
      var i, j :| 1 <= i && i + 2 <= j && j + 2 <= |t| && t[i] == '@' && t[j] == '.';
      forall k | a <= k < b
        ensures !IsSpace(s[k])
      {
        assert s[k] == t[k - a];
      }
      assert EmailAt(s, a + i, a + j);
    }
  }

  /** A string the email pattern accepts is not blank. */
  lemma {:induction false} EmailPatternNotBlank(s: string)
    requires EmailPattern(s)
    ensures !Blank(s)
  {
    var i, j :| EmailAt(s, i, j);
    assert EmailAt(s, i, j);
    assert !IsSpace(s[i]);
  }

  predicate IsDigit(c: char)
  {
    '0' <= c <= '9'
  }

  /** `[1-9]\d{1,14}` matched against the whole of `d`. */
  predicate NationalNumber(d: string)
  {
    2 <= |d| <= 15 && '1' <= d[0] <= '9' && forall k :: 1 <= k < |d| ==> IsDigit(d[k])
  }

  /** `/^\+?[1-9]\d{1,14}$/.test(s)`, reading the optional `+` off first. */
  predicate PhonePattern(s: string)
  {
    if s != [] && s[0] == '+' then NationalNumber(s[1..]) else NationalNumber(s)
  }

  /** Both alternatives of the optional `+`: the pattern holds exactly when `s` is a
      number, or a `+` followed by a number; a number never starts with `+`, so
      the two readings never disagree. A match has 2 to 15 digits and is not blank. */
  lemma {:induction false} PhonePatternAlternatives(s: string)
    ensures PhonePattern(s) <==> NationalNumber(s) || (s != [] && s[0] == '+' && NationalNumber(s[1..]))
    ensures PhonePattern(s) ==> 2 <= |s| <= 16 && !Blank(s)
  {
    if PhonePattern(s) {
      assert !IsSpace(s[0]);
    }
  }

  // ---------------------------------------------------------------------------
  // Validation (SignUpPage.js:195-240)

  /** The check on the user name. */
  function UsernameError(username: string): Option<string>
  {
    if Trim(username) == "" then Some("Username is required") else None
  }

  /** The checks on the email address: present, then shaped like one. */
  function EmailError(email: string): Option<string>
  {
    if Trim(email) == "" then Some("Email is required")
    else if !EmailPattern(email) then Some("Invalid email format")
    else None
  }

  /** The checks on the password: present, then at least six characters long. */
  function PasswordError(password: string): Option<string>
  {
    if Trim(password) == "" then Some("Password is required")
    else if |password| < 6 then Some("Password must be at least 6 characters")
    else None
  }

  /** The checks on the phone number: present, then an international number. */
  function PhoneError(phoneNumber: string): Option<string>
  {
    if Trim(phoneNumber) == "" then Some("Phone number is required")
    else if !PhonePattern(phoneNumber) then Some("Invalid phone number format")
    else None
  }

  /** The check on the gender, which is not trimmed. */
  function GenderError(gender: string): Option<string>
  {
    if gender == "" then Some("Gender is required") else None
  }

  /** `new Date(birthday) >= today`: false for a string the parser rejects, since
      an invalid date compares false with everything. */
  predicate BirthdayNotPast(birthday: string, today: int, parseDate: string -> Option<int>)
  {
    parseDate(birthday).Some? && parseDate(birthday).value >= today
  }

  /** The checks on the birthday: present, then not today or later. */
  function BirthdayError(birthday: string, today: int, parseDate: string -> Option<int>): Option<string>
  {
    if birthday == "" then Some("Birthday is required")
    else if BirthdayNotPast(birthday, today, parseDate) then Some("Birthday must be a past date")
    else None
  }

  /** The check on the image. */
  function ImageError(image: string): Option<string>
  {
    if image == "" then Some("Profile image is required") else None
  }

  /** The user name's check in terms of its content: the message exactly for a
      blank name. */
  lemma {:induction false} UsernameErrorIff(username: string)
    ensures UsernameError(username) == if Blank(username) then Some("Username is required") else None
  {
    TrimEmptyIffBlank(username);
  }

  /** The email's checks in terms of its content: a blank email is reported as
      missing, any other one that does not match as malformed; an email passes
      exactly when it matches the pattern. */
  lemma {:induction false} EmailErrorIff(email: string)
    ensures EmailError(email) ==
      if Blank(email) then Some("Email is required")
      else if !EmailPattern(email) then Some("Invalid email format")
      else None
    ensures EmailError(email).None? <==> EmailPattern(email)
  {
    TrimEmptyIffBlank(email);
    if EmailPattern(email) {
      EmailPatternNotBlank(email);
    }
  }

  /** The password's checks in terms of its content: a blank password is reported
      as missing, any other one shorter than six characters as too short. */
  lemma {:induction false} PasswordErrorIff(password: string)
    ensures PasswordError(password) ==
      if Blank(password) then Some("Password is required")
      else if |password| < 6 then Some("Password must be at least 6 characters")
      else None
    ensures PasswordError(password).None? <==> !Blank(password) && |password| >= 6
  {
    TrimEmptyIffBlank(password);
  }

  /** The phone number's checks in terms of its content: a blank number is reported
      as missing, any other one that does not match as malformed; a number passes
      exactly when it matches the pattern. */
  lemma {:induction false} PhoneErrorIff(phoneNumber: string)
    ensures PhoneError(phoneNumber) ==
      if Blank(phoneNumber) then Some("Phone number is required")
      else if !PhonePattern(phoneNumber) then Some("Invalid phone number format")
      else None
    ensures PhoneError(phoneNumber).None? <==> PhonePattern(phoneNumber)
  {
    TrimEmptyIffBlank(phoneNumber);
    PhonePatternAlternatives(phoneNumber);
  }

  /** `newErrors.name = message` when a check failed. */
  function Record(errors: map<string, string>, name: string, message: Option<string>): map<string, string>
  {
    if message.Some? then errors[name := message.value] else errors
  }

  /** The `newErrors` object built from the seven checks, in the source's order. */
  function Collect(username: Option<string>, email: Option<string>, password: Option<string>,
                   phoneNumber: Option<string>, gender: Option<string>, birthday: Option<string>,
                   image: Option<string>): (errors: map<string, string>)
    ensures errors.Keys <= FieldNames
  {
    var e1 := Record(map[], "username", username);
    var e2 := Record(e1, "email", email);
    var e3 := Record(e2, "password", password);
    var e4 := Record(e3, "phoneNumber", phoneNumber);
    var e5 := Record(e4, "gender", gender);
    var e6 := Record(e5, "birthday", birthday);
    Record(e6, "image", image)
  }

  /** No entry exactly when no check failed, and a field has an entry exactly when
      its own check failed. */
  lemma CollectKeys(username: Option<string>, email: Option<string>, password: Option<string>,
                    phoneNumber: Option<string>, gender: Option<string>, birthday: Option<string>,
                    image: Option<string>)
    ensures var errors := Collect(username, email, password, phoneNumber, gender, birthday, image);
      && (errors == map[] <==> username.None? && email.None? && password.None? && phoneNumber.None? &&
                               gender.None? && birthday.None? && image.None?)
      && ("username" in errors <==> username.Some?) && ("email" in errors <==> email.Some?)
      && ("password" in errors <==> password.Some?) && ("phoneNumber" in errors <==> phoneNumber.Some?)
      && ("gender" in errors <==> gender.Some?) && ("birthday" in errors <==> birthday.Some?)
      && ("image" in errors <==> image.Some?)
  {
    var errors := Collect(username, email, password, phoneNumber, gender, birthday, image);
    if errors == map[] {
      assert "username" !in errors && "email" !in errors && "password" !in errors;
      assert "phoneNumber" !in errors && "gender" !in errors && "birthday" !in errors;
      assert "image" !in errors;
    } else {
      var k :| k in errors;
    }
  }

  /** A failed check's entry is its own message: no later check overwrites it. */
  lemma CollectValues(username: Option<string>, email: Option<string>, password: Option<string>,
                      phoneNumber: Option<string>, gender: Option<string>, birthday: Option<string>,
                      image: Option<string>)
    ensures var errors := Collect(username, email, password, phoneNumber, gender, birthday, image);
      && (username.Some? ==> "username" in errors && errors["username"] == username.value)
      && (email.Some? ==> "email" in errors && errors["email"] == email.value)
      && (password.Some? ==> "password" in errors && errors["password"] == password.value)
      && (phoneNumber.Some? ==> "phoneNumber" in errors && errors["phoneNumber"] == phoneNumber.value)
      && (gender.Some? ==> "gender" in errors && errors["gender"] == gender.value)
      && (birthday.Some? ==> "birthday" in errors && errors["birthday"] == birthday.value)
      && (image.Some? ==> "image" in errors && errors["image"] == image.value)
  {
  }

  /** The `newErrors` object `validateForm` builds. */
  function FormErrors(form: map<string, string>, today: int, parseDate: string -> Option<int>): (errors: map<string, string>)
    requires HasFields(form)
    ensures errors.Keys <= FieldNames
  {
    Collect(UsernameError(form["username"]), EmailError(form["email"]), PasswordError(form["password"]),
      PhoneError(form["phoneNumber"]), GenderError(form["gender"]),
      BirthdayError(form["birthday"], today, parseDate), ImageError(form["image"]))
  }

  /** The conditions a form must meet, field by field. */
  predicate Acceptable(form: map<string, string>, today: int, parseDate: string -> Option<int>)
    requires HasFields(form)
  {
    && !Blank(form["username"])
    && EmailPattern(form["email"])
    && !Blank(form["password"]) && |form["password"]| >= 6
    && PhonePattern(form["phoneNumber"])
    && form["gender"] != ""
    && form["birthday"] != "" && !BirthdayNotPast(form["birthday"], today, parseDate)
    && form["image"] != ""
  }

  /** Validation passes exactly when every field meets its condition. */
  lemma FormErrorsEmptyIff(form: map<string, string>, today: int, parseDate: string -> Option<int>)
    requires HasFields(form)
    ensures FormErrors(form, today, parseDate) == map[] <==> Acceptable(form, today, parseDate)
  {
    UsernameErrorIff(form["username"]);
    EmailErrorIff(form["email"]);
    PasswordErrorIff(form["password"]);
    PhoneErrorIff(form["phoneNumber"]);
    CollectKeys(UsernameError(form["username"]), EmailError(form["email"]), PasswordError(form["password"]),
      PhoneError(form["phoneNumber"]), GenderError(form["gender"]),
      BirthdayError(form["birthday"], today, parseDate), ImageError(form["image"]));
  }

  /** The four typed fields: each has an entry exactly when it fails its own
      condition, and the entry says why; a blank field is reported as missing,
      never as malformed. */
  lemma FormErrorsTextFields(form: map<string, string>, today: int, parseDate: string -> Option<int>)
    requires HasFields(form)
    ensures var errors := FormErrors(form, today, parseDate);
      var username, email, password, phone := form["username"], form["email"], form["password"], form["phoneNumber"];
      && ("username" in errors <==> Blank(username))
      && (Blank(username) ==> errors["username"] == "Username is required")
      && ("email" in errors <==> !EmailPattern(email))
      && (Blank(email) ==> errors["email"] == "Email is required")
      && (!Blank(email) && !EmailPattern(email) ==> errors["email"] == "Invalid email format")
      && ("password" in errors <==> Blank(password) || |password| < 6)
      && (Blank(password) ==> errors["password"] == "Password is required")
      && (!Blank(password) && |password| < 6 ==> errors["password"] == "Password must be at least 6 characters")
      && ("phoneNumber" in errors <==> !PhonePattern(phone))
      && (Blank(phone) ==> errors["phoneNumber"] == "Phone number is required")
      && (!Blank(phone) && !PhonePattern(phone) ==> errors["phoneNumber"] == "Invalid phone number format")
  {
    var username, email, password, phone := form["username"], form["email"], form["password"], form["phoneNumber"];
    UsernameErrorIff(username);
    EmailErrorIff(email);
    PasswordErrorIff(password);
    PhoneErrorIff(phone);
    var u, e, pw, ph := UsernameError(username), EmailError(email), PasswordError(password), PhoneError(phone);
    var g, b, i := GenderError(form["gender"]), BirthdayError(form["birthday"], today, parseDate), ImageError(form["image"]);
    CollectKeys(u, e, pw, ph, g, b, i);
    CollectValues(u, e, pw, ph, g, b, i);
  }

  /** The gender, birthday and image: each has an entry exactly when it fails its
      own condition, and the entry says why; a birthday is reported as missing
      when empty and as not past when it parses to today or later. */
  lemma FormErrorsChoiceFields(form: map<string, string>, today: int, parseDate: string -> Option<int>)
    requires HasFields(form)
    ensures var errors := FormErrors(form, today, parseDate);
      var gender, birthday, image := form["gender"], form["birthday"], form["image"];
      && ("gender" in errors <==> gender == "")
      && (gender == "" ==> errors["gender"] == "Gender is required")
      && ("birthday" in errors <==> birthday == "" || BirthdayNotPast(birthday, today, parseDate))
      && (birthday == "" ==> errors["birthday"] == "Birthday is required")
      && (birthday != "" && BirthdayNotPast(birthday, today, parseDate) ==>
            errors["birthday"] == "Birthday must be a past date")
      && ("image" in errors <==> image == "")
      && (image == "" ==> errors["image"] == "Profile image is required")
  {
    var u, e, pw, ph := UsernameError(form["username"]), EmailError(form["email"]),
      PasswordError(form["password"]), PhoneError(form["phoneNumber"]);
    var g, b, i := GenderError(form["gender"]), BirthdayError(form["birthday"], today, parseDate), ImageError(form["image"]);
    CollectKeys(u, e, pw, ph, g, b, i);
    CollectValues(u, e, pw, ph, g, b, i);
  }

  // ---------------------------------------------------------------------------
  // Error bookkeeping

  /** `if (errors[name]) setErrors({ ...errors, [name]: '' })`: a shown error is
      blanked; a missing or already blank one is left as it is. */
  function ClearError(errors: map<string, string>, name: string): (r: map<string, string>)
    ensures r.Keys == errors.Keys
    ensures name in r ==> r[name] == ""
    ensures forall k :: k in r && k != name ==> r[k] == errors[k]
  {
    if name in errors && errors[name] != "" then errors[name := ""] else errors
  }

  /** Clearing twice is clearing once, and clearing never makes a form look invalid
      that was not: no error is added. */
  lemma ClearErrorIdempotent(errors: map<string, string>, name: string)
    ensures ClearError(ClearError(errors, name), name) == ClearError(errors, name)
    ensures forall k :: k in ClearError(errors, name) && ClearError(errors, name)[k] != "" ==>
      k in errors && errors[k] != ""
  {
  }

  /** `Object.entries(details).forEach(([field, message]) => setErrors(prev => ({ ...prev, [field]: message })))`. */
  method MergeDetails(errors: map<string, string>, details: map<string, string>) returns (merged: map<string, string>)
    ensures merged == errors + details
    ensures merged.Keys == errors.Keys + details.Keys
    ensures forall k :: k in details ==> merged[k] == details[k]
  {
    merged := errors;
    var pending := details.Keys;
    while pending != {}
      invariant pending <= details.Keys
      invariant merged.Keys == errors.Keys + (details.Keys - pending)
      invariant forall k :: k in merged ==>
        merged[k] == if k in details && k !in pending then details[k] else errors[k]
      decreases |pending|
    {
      var field :| field in pending;
      merged := merged[field := details[field]];
      pending := pending - {field};
    }
  }

  // ---------------------------------------------------------------------------
  // Submitting (SignUpPage.js:281-314)

  /** What the user sees after a submit: the form was invalid, the account was
      created (and the page moves to `/login`), a general error was shown, or the
      server's field errors were put on the form. */
  datatype SubmitResult = FormInvalid | SignedUp(data: Json) | GeneralError(message: string) | FieldErrors

  /** The result of a submit and the errors shown afterwards. */
  datatype Submission = Submission(result: SubmitResult, errors: map<string, string>)

  /** What `handleSubmit` shows once the service call has settled, starting from
      the errors the validation left. */
  function Settle(errors: map<string, string>, outcome: Outcome): Submission
  {
    match outcome
    case Resolved(data) => Submission(SignedUp(data), errors)
    case Rejected(error) =>
      if HasGeneral(error.details) then Submission(GeneralError(error.details["general"]), errors)
      else Submission(FieldErrors, errors + error.details)
  }

  /** `handleSubmit` as a function of the form and the environment. */
  function Submit(form: map<string, string>, today: int, parseDate: string -> Option<int>,
                  isoDay: int -> string, server: SignupRequest -> Reply): Submission
    requires HasFields(form)
  {
    var errors := FormErrors(form, today, parseDate);
    if errors != map[] then Submission(FormInvalid, errors)
    else Settle(errors, Signup(form, parseDate, isoDay, server))
  }

  /** An acceptable form is always sent, with no error left on it. */
  lemma SubmitValidSettles(form: map<string, string>, today: int, parseDate: string -> Option<int>,
                           isoDay: int -> string, server: SignupRequest -> Reply)
    requires HasFields(form) && Acceptable(form, today, parseDate)
    ensures Submit(form, today, parseDate, isoDay, server) == Settle(map[], Signup(form, parseDate, isoDay, server))
  {
    FormErrorsEmptyIff(form, today, parseDate);
  }

  /** An invalid form is never sent: the server is not consulted and the errors
      shown are the validation errors. */
  lemma SubmitInvalidNeverCallsServer(form: map<string, string>, today: int, parseDate: string -> Option<int>,
                                      isoDay: int -> string, server: SignupRequest -> Reply,
                                      other: SignupRequest -> Reply)
    requires HasFields(form) && !Acceptable(form, today, parseDate)
    ensures Submit(form, today, parseDate, isoDay, server) ==
      Submission(FormInvalid, FormErrors(form, today, parseDate))
    ensures Submit(form, today, parseDate, isoDay, server) == Submit(form, today, parseDate, isoDay, other)
  {
    FormErrorsEmptyIff(form, today, parseDate);
  }

  /** The account is created exactly when the form is acceptable and the service
      resolves; no error is left on the form then. */
  lemma SubmitSignedUpIff(form: map<string, string>, today: int, parseDate: string -> Option<int>,
                          isoDay: int -> string, server: SignupRequest -> Reply)
    requires HasFields(form)
    ensures var s := Submit(form, today, parseDate, isoDay, server);
      s.result.SignedUp? <==>
        Acceptable(form, today, parseDate) && Signup(form, parseDate, isoDay, server).Resolved?
    ensures var s := Submit(form, today, parseDate, isoDay, server);
      s.result.SignedUp? ==> s.errors == map[]
  {
    FormErrorsEmptyIff(form, today, parseDate);
  }

  /** After a valid form is rejected, the form shows exactly the server's field
      errors when there is no general message, and no error at all when there is
      one; every failure that is not a 400 with details is a general message. */
  lemma SubmitRejectedShowsServerErrors(form: map<string, string>, today: int, parseDate: string -> Option<int>,
                                        isoDay: int -> string, server: SignupRequest -> Reply)
    requires HasFields(form) && Acceptable(form, today, parseDate)
    requires Signup(form, parseDate, isoDay, server).Rejected?
    ensures var details := Signup(form, parseDate, isoDay, server).error.details;
      var s := Submit(form, today, parseDate, isoDay, server);
      && (HasGeneral(details) ==> s == Submission(GeneralError(details["general"]), map[]))
      && (!HasGeneral(details) ==> s == Submission(FieldErrors, details))
    ensures var req := TransformedData(form, parseDate, isoDay);
      var s := Submit(form, today, parseDate, isoDay, server);
      s.result.FieldErrors? ==>
        req.Some? && server(req.value).Response? && server(req.value).status == 400
  {
    SubmitValidSettles(form, today, parseDate, isoDay, server);
    var details := Signup(form, parseDate, isoDay, server).error.details;
    assert map[] + details == details;
  }

  // ---------------------------------------------------------------------------
  // The form component

  /** The largest image accepted, in bytes. */
  const MaxImageBytes: int := 5 * 1024 * 1024

  /** The sign-up page's state and handlers. */
  class SignUpForm {
    var formData: map<string, string>
    var errors: map<string, string>
    var imagePreview: Option<string>
    var selectedGender: string

    /** Every field of the form has a value. */
    predicate Valid()
      reads this
    {
      HasFields(formData)
    }

    constructor()
      ensures Valid()
      ensures formData == map name | name in FieldNames :: ""
      ensures errors == map[] && imagePreview == None && selectedGender == ""
    {
      formData := map name | name in FieldNames :: "";
      errors := map[];
      imagePreview := None;
      selectedGender := "";
    }

    /** `validateForm`: the errors are replaced by the freshly computed ones. */
    method ValidateForm(today: int, parseDate: string -> Option<int>) returns (ok: bool)
      requires Valid()
      modifies this
      ensures formData == old(formData) && imagePreview == old(imagePreview)
      ensures selectedGender == old(selectedGender)
      ensures Valid()
      ensures errors == FormErrors(formData, today, parseDate)
      ensures ok <==> errors == map[]
      ensures ok <==> Acceptable(formData, today, parseDate)
    {
      var form := formData;
      var newErrors: map<string, string> := map[];
      newErrors := Record(newErrors, "username", UsernameError(form["username"]));
      newErrors := Record(newErrors, "email", EmailError(form["email"]));
      newErrors := Record(newErrors, "password", PasswordError(form["password"]));
      newErrors := Record(newErrors, "phoneNumber", PhoneError(form["phoneNumber"]));
      newErrors := Record(newErrors, "gender", GenderError(form["gender"]));
      newErrors := Record(newErrors, "birthday", BirthdayError(form["birthday"], today, parseDate));
      newErrors := Record(newErrors, "image", ImageError(form["image"]));
      assert newErrors == FormErrors(form, today, parseDate);
      FormErrorsEmptyIff(form, today, parseDate);
      errors := newErrors;
      ok := |newErrors| == 0;
    }

    /** `handleChange`: the field takes the typed value and its error, if shown, is blanked. */
    method HandleChange(name: string, value: string)
      modifies this
      ensures formData == old(formData)[name := value]
      ensures errors == ClearError(old(errors), name)
      ensures imagePreview == old(imagePreview) && selectedGender == old(selectedGender)
      ensures old(Valid()) ==> Valid()
    {
      formData := formData[name := value];
      if name in errors && errors[name] != "" {
        errors := errors[name := ""];
      }
    }

    /** `handleFileChange` up to the point where the file is handed to the reader:
        `file` is the size of the chosen file, if any. An oversized file sets the
        image error and nothing else; the result says whether reading starts. */
    method HandleFileChange(file: Option<int>) returns (reading: bool)
      modifies this
      ensures reading <==> file.Some? && file.value <= MaxImageBytes
      ensures file.Some? && file.value > MaxImageBytes ==>
        errors == old(errors)["image" := "File size should be less than 5MB"]
      ensures !(file.Some? && file.value > MaxImageBytes) ==> errors == old(errors)
      ensures formData == old(formData) && imagePreview == old(imagePreview)
      ensures selectedGender == old(selectedGender)
    {
      reading := false;
      if file.Some? {
        if file.value > MaxImageBytes {
          errors := errors["image" := "File size should be less than 5MB"];
          return;
        }
        reading := true;
      }
    }

    /** The reader's `onloadend`: the data URL becomes the image and its preview,
        and the image error, if shown, is blanked. */
    method ImageLoaded(dataUrl: string)
      modifies this
      ensures formData == old(formData)["image" := dataUrl]
      ensures imagePreview == Some(dataUrl)
      ensures errors == ClearError(old(errors), "image")
      ensures selectedGender == old(selectedGender)
      ensures old(Valid()) ==> Valid()
    {
      formData := formData["image" := dataUrl];
      imagePreview := Some(dataUrl);
      if "image" in errors && errors["image"] != "" {
        errors := errors["image" := ""];
      }
    }

    /** `handleGenderSelect`. */
    method HandleGenderSelect(gender: string)
      modifies this
      ensures selectedGender == gender
      ensures formData == old(formData)["gender" := gender]
      ensures errors == ClearError(old(errors), "gender")
      ensures imagePreview == old(imagePreview)
      ensures old(Valid()) ==> Valid()
    {
      selectedGender := gender;
      formData := formData["gender" := gender];
      if "gender" in errors && errors["gender"] != "" {
        errors := errors["gender" := ""];
      }
    }

    /** `handleSubmit`, with the service call settled. */
    method HandleSubmit(today: int, parseDate: string -> Option<int>, isoDay: int -> string,
                        server: SignupRequest -> Reply) returns (result: SubmitResult)
      requires Valid()
      modifies this
      ensures Submission(result, errors) == Submit(old(formData), today, parseDate, isoDay, server)
      ensures formData == old(formData) && imagePreview == old(imagePreview)
      ensures selectedGender == old(selectedGender)
    {
      var ok := ValidateForm(today, parseDate);
      if !ok {
        result := FormInvalid;
        return;
      }
      var outcome := Signup(formData, parseDate, isoDay, server);
      match outcome
      case Resolved(data) =>
        result := SignedUp(data);
      case Rejected(error) =>
        var errorDetails := error.details;
        if HasGeneral(errorDetails) {
          result := GeneralError(errorDetails["general"]);
        } else {
          errors := MergeDetails(errors, errorDetails);
          result := FieldErrors;
        }
    }
  }
}
