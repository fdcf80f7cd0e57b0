/**
 * The sign-in / sign-up form of Auth.js: the ordered validator, the form
 * state its handlers replace, and what a submit hands to the App.
 */
module Auth {
  import opened Wrappers
  import opened Text
  import opened Alerts

  datatype FormData = FormData(username: string, email: string, password: string,
                               confirmPassword: string, agreeToTerms: bool)

  const EmptyForm: FormData := FormData("", "", "", "", false)

  /** The text inputs `handleInputChange(field)` is attached to. */
  datatype TextField = Username | Email | Password | ConfirmPassword

  const MinPasswordLength: nat := 8

  const UsernameRequired: string := "사용자명을 입력해주세요."
  const PasswordRequired: string := "비밀번호를 입력해주세요."
  const EmailRequired: string := "이메일을 입력해주세요."
  const EmailMalformed: string := "올바른 이메일 형식을 입력해주세요."
  const PasswordMismatch: string := "비밀번호가 일치하지 않습니다."
  const PasswordTooShort: string := "비밀번호는 8자 이상이어야 합니다."
  const TermsRequired: string := "이용약관에 동의해주세요."

  datatype Verdict = Passed | Failed(message: string)

  /** One check of the validator: whether it holds and the message shown when it does not. */
  datatype Rule = Rule(holds: bool, message: string)

  /** The checks in the order the validator makes them; sign-up adds five. */
  function Rules(form: FormData, isLoginMode: bool): (rules: seq<Rule>)
    ensures |rules| == if isLoginMode then 2 else 7
  {
    [Rule(!IsBlank(form.username), UsernameRequired),
     Rule(form.password != "", PasswordRequired)]
    + (if isLoginMode then []
       else [Rule(!IsBlank(form.email), EmailRequired),
             Rule('@' in form.email, EmailMalformed),
             Rule(form.password == form.confirmPassword, PasswordMismatch),
             Rule(|form.password| >= MinPasswordLength, PasswordTooShort),
             Rule(form.agreeToTerms, TermsRequired)])
  }

  /** Every check has a message and no two share one, so the message shown names the check that failed. */
  lemma RuleMessagesDistinct(form: FormData, isLoginMode: bool)
    ensures var rules := Rules(form, isLoginMode);
            && (forall i :: 0 <= i < |rules| ==> rules[i].message != "")
            && (forall i, j :: 0 <= i < j < |rules| ==> rules[i].message != rules[j].message)
  {
  }

  /** The message of the first rule that does not hold; Passed when all hold. */
  function FirstFailure(rules: seq<Rule>): (v: Verdict)
    ensures v.Passed? <==> forall i :: 0 <= i < |rules| ==> rules[i].holds
    ensures v.Failed? ==> exists i :: 0 <= i < |rules| && !rules[i].holds && rules[i].message == v.message
                                      && forall j :: 0 <= j < i ==> rules[j].holds
  {
    if |rules| == 0 then Passed
    else if !rules[0].holds then Failed(rules[0].message)
    else
      var v := FirstFailure(rules[1..]);
      assert v.Failed? ==> exists i :: 1 <= i < |rules| && !rules[i].holds && rules[i].message == v.message
                                      && forall j :: 1 <= j < i ==> rules[j].holds
        by {
          if v.Failed? {
            var k :| 0 <= k < |rules[1..]| && !rules[1..][k].holds && rules[1..][k].message == v.message
                     && forall j :: 0 <= j < k ==> rules[1..][j].holds;
            assert forall j :: 1 <= j < k + 1 ==> rules[j].holds by {
              forall j | 1 <= j < k + 1 ensures rules[j].holds {
                assert rules[j] == rules[1..][j - 1];
              }
            }
          }
        }
      v
  }

  /** Sign-up's extra conditions. */
  predicate RegistrationComplete(form: FormData) {
    && !IsBlank(form.email) && '@' in form.email
    && form.password == form.confirmPassword && |form.password| >= MinPasswordLength
    && form.agreeToTerms
  }

  /** `validateForm`: the early-return chain, with the message it would show. */
  function ValidateForm(form: FormData, isLoginMode: bool): (v: Verdict)
    ensures isLoginMode ==> (v.Passed? <==> !IsBlank(form.username) && form.password != "")
    ensures !isLoginMode ==>
      (v.Passed? <==> !IsBlank(form.username) && form.password != "" && RegistrationComplete(form))
  {
    if IsBlank(form.username) then Failed(UsernameRequired)
    else if form.password == "" then Failed(PasswordRequired)
    else if isLoginMode then Passed
    else if IsBlank(form.email) then Failed(EmailRequired)
      else if '@' !in form.email then Failed(EmailMalformed)
      else if form.password != form.confirmPassword then Failed(PasswordMismatch)
      else if |form.password| < MinPasswordLength then Failed(PasswordTooShort)
      else if !form.agreeToTerms then Failed(TermsRequired)
      else Passed
  }

  /** A failing rule with every earlier one holding decides the verdict. */
  lemma FirstFailureAt(rules: seq<Rule>, k: nat)
    requires k < |rules| && !rules[k].holds
    requires forall j :: 0 <= j < k ==> rules[j].holds
    ensures FirstFailure(rules) == Failed(rules[k].message)
  {
    var v := FirstFailure(rules);
    var i :| 0 <= i < |rules| && !rules[i].holds && rules[i].message == v.message
             && forall j :: 0 <= j < i ==> rules[j].holds;
    assert i == k;
  }

  /** The validator is the first-failure reading of its rule list: the checks are made in order. */
  lemma ValidateFormIsFirstFailure(form: FormData, isLoginMode: bool)
    ensures ValidateForm(form, isLoginMode) == FirstFailure(Rules(form, isLoginMode))
  {
    var rules := Rules(form, isLoginMode);
    if IsBlank(form.username) {
      FirstFailureAt(rules, 0);
    } else if form.password == "" {
      FirstFailureAt(rules, 1);
    } else if !isLoginMode {
      if IsBlank(form.email) {
        FirstFailureAt(rules, 2);
      } else if '@' !in form.email {
        FirstFailureAt(rules, 3);
      } else if form.password != form.confirmPassword {
        FirstFailureAt(rules, 4);
      } else if |form.password| < MinPasswordLength {
        FirstFailureAt(rules, 5);
      } else if !form.agreeToTerms {
        FirstFailureAt(rules, 6);
      }
    }
  }

  /** Sign-in mode looks at the user name and the password only. */
  lemma LoginIgnoresRegistrationFields(form: FormData, email: string, confirm: string, agree: bool)
    ensures ValidateForm(form, true) == ValidateForm(form.(email := email, confirmPassword := confirm, agreeToTerms := agree), true)
  {
  }

  function Get(form: FormData, field: TextField): string {
    match field
    case Username => form.username
    case Email => form.email
    case Password => form.password
    case ConfirmPassword => form.confirmPassword
  }

  /** `{ ...formData, [field]: value }` */
  function Set(form: FormData, field: TextField, value: string): (r: FormData)
    ensures Get(r, field) == value
    ensures forall other :: other != field ==> Get(r, other) == Get(form, other)
    ensures r.agreeToTerms == form.agreeToTerms
  {
    match field
    case Username => form.(username := value)
    case Email => form.(email := value)
    case Password => form.(password := value)
    case ConfirmPassword => form.(confirmPassword := value)
  }

  /** The callback a submit invokes. */
  datatype Submission = NoCall | OnLogin(username: string, password: string)
                      | OnRegister(username: string, email: string, password: string)

  class AuthForm {
    var isLoginMode: bool
    var formData: FormData
    var alert: Alert

    /** The form starts empty, in sign-in mode, with no alert. */
    constructor ()
      ensures isLoginMode && formData == EmptyForm && alert == Hidden
    {
      isLoginMode := true;
      formData := EmptyForm;
      alert := Hidden;
    }

    method HandleInputChange(field: TextField, value: string)
      modifies this
      ensures formData == Set(old(formData), field, value)
      ensures isLoginMode == old(isLoginMode) && alert == old(alert)
    {
      formData := Set(formData, field, value);
    }

    method HandleCheckboxChange(checked: bool)
      modifies this
      ensures formData == old(formData).(agreeToTerms := checked)
      ensures isLoginMode == old(isLoginMode) && alert == old(alert)
    {
      formData := formData.(agreeToTerms := checked);
    }

    /** The mode switch: flips the mode, empties the form and hides the alert. */
    method ToggleMode()
      modifies this
      ensures isLoginMode == !old(isLoginMode) && formData == EmptyForm && alert == Hidden
    {
      isLoginMode := !isLoginMode;
      formData := EmptyForm;
      alert := Hidden;
    }

    /**
     * `handleSubmit`. `thrown` is the message of the error the callback
     * throws, None when it resolves.
     */
    method HandleSubmit(thrown: Option<string>) returns (call: Submission)
      modifies this
      ensures formData == old(formData) && isLoginMode == old(isLoginMode)
      ensures ValidateForm(formData, isLoginMode).Failed? ==>
        call == NoCall && alert == Shown(ValidateForm(formData, isLoginMode).message, ErrorAlert)
      ensures ValidateForm(formData, isLoginMode).Passed? && isLoginMode ==>
        call == OnLogin(formData.username, formData.password)
      ensures ValidateForm(formData, isLoginMode).Passed? && !isLoginMode ==>
        call == OnRegister(formData.username, formData.email, formData.password)
      ensures ValidateForm(formData, isLoginMode).Passed? ==>
        alert == (if thrown.Some? then Shown(thrown.value, ErrorAlert) else old(alert))
    {
      var verdict := ValidateForm(formData, isLoginMode);
      if verdict.Failed? {
        alert := Shown(verdict.message, ErrorAlert);
        return NoCall;
      }
      if isLoginMode {
        call := OnLogin(formData.username, formData.password);
      } else {
        call := OnRegister(formData.username, formData.email, formData.password);
      }
      if thrown.Some? {
        alert := Shown(thrown.value, ErrorAlert);
      }
    }
  }
}
