/** The sign-up form: the order in which its submit handler checks the fields,
    the registration body it builds, and what the page does with the
    backend's answer. */
module Signup {
  import opened Ui

  /** The form's inputs. `role` is the value of the role select. */
  datatype SignupFields = SignupFields(
    name: string, phone: string, email: string, password: string,
    confirmPassword: string, emergencyEmail: string, role: string,
    licenseNumber: string, carModel: string, carNumber: string)

  /** A fresh form: every input empty, the role select on "passenger". */
  const BlankFields := SignupFields("", "", "", "", "", "", "passenger", "", "", "")

  const FillAllText := "Please fill in all fields"
  const MismatchText := "Passwords do not match"
  const DriverDetailsText := "Please fill in all driver details"
  const CreatedText := "Account created successfully! Please login."
  const RegistrationFailedText := "Registration failed"
  const LoginRoute := "/login"
  /** The delay before the page moves on to the login page. */
  const RedirectDelayMs := 1500

  predicate IsDriver(f: SignupFields) { f.role == "driver" }

  /** The five fields every account needs (the confirmation is not one). */
  predicate RequiredFilled(f: SignupFields) {
    Filled(f.name) && Filled(f.phone) && Filled(f.email) && Filled(f.password) &&
    Filled(f.emergencyEmail)
  }

  predicate DriverDetailsFilled(f: SignupFields) {
    Filled(f.licenseNumber) && Filled(f.carModel) && Filled(f.carNumber)
  }

  /** The form may be sent: required fields filled, the passwords equal and,
      for a driver, the vehicle details filled. */
  predicate Submittable(f: SignupFields) {
    RequiredFilled(f) && f.password == f.confirmPassword &&
    (IsDriver(f) ==> DriverDetailsFilled(f))
  }

  /** The warning the submit handler shows, if any. The three checks run in a
      fixed order, and each warning names the first check that fails. */
  function SignupWarning(f: SignupFields): (w: Option<string>)
    ensures w.None? <==> Submittable(f)
    ensures w == Some(FillAllText) <==> !RequiredFilled(f)
    ensures w == Some(MismatchText) <==> RequiredFilled(f) && f.password != f.confirmPassword
    ensures w == Some(DriverDetailsText) <==>
      RequiredFilled(f) && f.password == f.confirmPassword && IsDriver(f) && !DriverDetailsFilled(f)
  {
    if !RequiredFilled(f) then Some(FillAllText)
    else if f.password != f.confirmPassword then Some(MismatchText)
    else if IsDriver(f) && !DriverDetailsFilled(f) then Some(DriverDetailsText)
    else None
  }

  const AccountKeys := {"name", "phone", "email", "password", "emergencyEmail", "role"}
  const VehicleKeys := {"licenseNumber", "carModel", "carNumber"}

  /** The registration body. The role is sent as a number, 0 for "passenger"
      and 1 for anything else; the vehicle fields are sent only for "driver";
      the confirmation is never sent. */
  function UserData(f: SignupFields): (r: Payload)
    ensures r.Keys == AccountKeys + (if IsDriver(f) then VehicleKeys else {})
    ensures "confirmPassword" !in r
    ensures r["name"] == Str(f.name) && r["phone"] == Str(f.phone) && r["email"] == Str(f.email)
    ensures r["password"] == Str(f.password) && r["emergencyEmail"] == Str(f.emergencyEmail)
    ensures r["role"] == Int(if f.role == "passenger" then 0 else 1)
    ensures IsDriver(f) ==>
      r["licenseNumber"] == Str(f.licenseNumber) && r["carModel"] == Str(f.carModel) &&
      r["carNumber"] == Str(f.carNumber)
  {
    var account := map["name" := Str(f.name), "phone" := Str(f.phone), "email" := Str(f.email),
                        "password" := Str(f.password), "emergencyEmail" := Str(f.emergencyEmail),
                        "role" := Int(if f.role == "passenger" then 0 else 1)];
    if IsDriver(f) then
      account["licenseNumber" := Str(f.licenseNumber)]["carModel" := Str(f.carModel)]
             ["carNumber" := Str(f.carNumber)]
    else account
  }

  /** For anyone but a driver the vehicle inputs matter neither to the checks
      nor to the body. */
  lemma VehicleFieldsIgnoredUnlessDriver(f: SignupFields, licenseNumber: string, carModel: string, carNumber: string)
    requires !IsDriver(f)
    ensures var g := f.(licenseNumber := licenseNumber, carModel := carModel, carNumber := carNumber);
      SignupWarning(g) == SignupWarning(f) && UserData(g) == UserData(f)
  {
  }

  class SignupPage {
    var fields: SignupFields
    var isLoading: bool
    /** Toasts, requests and navigation, in order. */
    var log: seq<Effect>

    constructor ()
      ensures fields == BlankFields && !isLoading && log == []
    {
      fields := BlankFields;
      isLoading := false;
      log := [];
    }

    /** The inputs' change handlers. */
    method Edit(f: SignupFields)
      modifies this`fields
      ensures fields == f
    {
      fields := f;
    }

    /** The submit handler, given how the registration call ends. A failed
        check shows its warning and changes nothing else; otherwise the body is
        sent, success is announced with a delayed move to the login page and
        failure with the error text, and loading ends either way. */
    method HandleSignup(register: Outcome<()>)
      modifies this`isLoading, this`log
      ensures SignupWarning(fields).Some? ==>
        log == old(log) + [Toast(SignupWarning(fields).value, Warning)] && isLoading == old(isLoading)
      ensures SignupWarning(fields).None? ==> !isLoading
      ensures SignupWarning(fields).None? && register.Ok? ==>
        log == old(log) + [Request(Register, UserData(fields)), Toast(CreatedText, Success),
                           NavigateAfter(LoginRoute, RedirectDelayMs)]
      ensures SignupWarning(fields).None? && !register.Ok? ==>
        log == old(log) + [Request(Register, UserData(fields)),
                           Toast(ErrorText(register, RegistrationFailedText), Error)]
    {
      var f := fields;
      if !RequiredFilled(f) {
        log := log + [Toast(FillAllText, Warning)];
        return;
      }
      if f.password != f.confirmPassword {
        log := log + [Toast(MismatchText, Warning)];
        return;
      }
      if f.role == "driver" && !DriverDetailsFilled(f) {
        log := log + [Toast(DriverDetailsText, Warning)];
        return;
      }

      isLoading := true;
      var userData := map["name" := Str(f.name), "phone" := Str(f.phone), "email" := Str(f.email),
                          "password" := Str(f.password), "emergencyEmail" := Str(f.emergencyEmail),
                          "role" := Int(if f.role == "passenger" then 0 else 1)];
      if f.role == "driver" {
        userData := userData["licenseNumber" := Str(f.licenseNumber)];
        userData := userData["carModel" := Str(f.carModel)];
        userData := userData["carNumber" := Str(f.carNumber)];
      }
      log := log + [Request(Register, userData)];
      if register.Ok? {
        log := log + [Toast(CreatedText, Success), NavigateAfter(LoginRoute, RedirectDelayMs)];
      } else {
        log := log + [Toast(ErrorText(register, RegistrationFailedText), Error)];
      }
      isLoading := false;
    }
  }
}
