/**
 * The registration panel: the QQ-mail and password rules, the send-code
 * button with its 30-second countdown, and the submit checks. Each rule is
 * given twice: as a matcher that follows its regular expression step by
 * step, and as a plain statement of the strings it accepts; a lemma shows
 * the two agree.
 */
module RegisterForm {
  import opened Chars

  // ------------------------------------------------------------- email rule

  const QQSuffix: string := "@qq.com"

  /** The mail rule stated plainly: a non-zero digit, at least four more digits, then "@qq.com". */
  predicate IsQQMail(s: string) {
    && |s| >= 5 + |QQSuffix|
    && s[|s| - |QQSuffix|..] == QQSuffix
    && '1' <= s[0] <= '9'
    && forall k :: 1 <= k < |s| - |QQSuffix| ==> IsDigit(s[k])
  }

  /** The tail of `^[1-9][0-9]{4,}@qq\.com$` after the first digit, `seen` digits already consumed. */
  function MatchDigitsThenSuffix(s: string, seen: nat): bool
    decreases |s|
  {
    if s == QQSuffix then seen >= 4
    else if s != [] && IsDigit(s[0]) then MatchDigitsThenSuffix(s[1..], seen + 1)
    else false
  }

  /** `^[1-9][0-9]{4,}@qq\.com$`, matched left to right. */
  function MatchQQMail(s: string): bool {
    s != [] && '1' <= s[0] <= '9' && MatchDigitsThenSuffix(s[1..], 0)
  }

  lemma {:induction false} MatchDigitsCorrect(s: string, seen: nat)
    ensures MatchDigitsThenSuffix(s, seen) <==>
              && |s| >= |QQSuffix|
              && s[|s| - |QQSuffix|..] == QQSuffix
              && seen + |s| - |QQSuffix| >= 4
              && forall k :: 0 <= k < |s| - |QQSuffix| ==> IsDigit(s[k])
    decreases |s|
  {
    if |s| == |QQSuffix| {
      assert s[|s| - |QQSuffix|..] == s;
    }
    if s != QQSuffix && s != [] && IsDigit(s[0]) {
      MatchDigitsCorrect(s[1..], seen + 1);
      if |s| > |QQSuffix| {
        assert s[1..][|s| - 1 - |QQSuffix|..] == s[|s| - |QQSuffix|..];
        assert forall k :: 1 <= k < |s| - |QQSuffix| ==> s[k] == s[1..][k - 1];
      }
    }
  }

  /** The matcher accepts exactly the QQ mail addresses. */
  lemma MatchQQMailCorrect(s: string)
    ensures MatchQQMail(s) <==> IsQQMail(s)
  {
    if s != [] {
      MatchDigitsCorrect(s[1..], 0);
      if |s| > |QQSuffix| {
        assert s[1..][|s| - 1 - |QQSuffix|..] == s[|s| - |QQSuffix|..];
        assert forall k :: 1 <= k < |s| - |QQSuffix| ==> s[k] == s[1..][k - 1];
      }
    }
  }

  datatype EmailCheck = EmailOk | EmailMissing | EmailMalformed

  /** The mail validator: a blank address is missing; otherwise the trimmed address must be a QQ mail address. */
  function CheckEmail(s: string): (r: EmailCheck)
    ensures r == EmailMissing <==> IsBlank(s)
    ensures r == EmailOk <==> IsQQMail(Trim(s))
  {
    var t := Trim(s);
    if t == "" then EmailMissing
    else if IsQQMail(t) then EmailOk
    else EmailMalformed
  }

  // ---------------------------------------------------------- password rule

  datatype CharClass = Lower | Upper | Digit

  predicate InClass(c: char, cls: CharClass) {
    match cls
    case Lower => IsLower(c)
    case Upper => IsUpper(c)
    case Digit => IsDigit(c)
  }

  /** `(?=.*[class])`: a character of the class occurs before the first line terminator. */
  function Lookahead(s: string, cls: CharClass): bool {
    if s == [] then false
    else if InClass(s[0], cls) then true
    else if IsLineTerminator(s[0]) then false
    else Lookahead(s[1..], cls)
  }

  /** `^(?=.*[a-z])(?=.*[A-Z])(?=.*\d)[a-zA-Z\d]{8,20}$`, matched as written. */
  function MatchPassword(s: string): bool {
    && Lookahead(s, Lower) && Lookahead(s, Upper) && Lookahead(s, Digit)
    && 8 <= |s| <= 20 && AllAlnum(s)
  }

  /** The password rule stated plainly: 8 to 20 ASCII letters and digits, with a lower-case letter, an upper-case letter and a digit. */
  predicate IsStrongPassword(s: string) {
    && 8 <= |s| <= 20 && AllAlnum(s)
    && (exists k :: 0 <= k < |s| && IsLower(s[k]))
    && (exists k :: 0 <= k < |s| && IsUpper(s[k]))
    && (exists k :: 0 <= k < |s| && IsDigit(s[k]))
  }

  /** On letters and digits a lookahead is plain existence: no line terminator can cut it short. */
  lemma {:induction false} LookaheadOnAlnum(s: string, cls: CharClass)
    requires AllAlnum(s)
    ensures Lookahead(s, cls) <==> exists k :: 0 <= k < |s| && InClass(s[k], cls)
  {
    if s != [] {
      LookaheadOnAlnum(s[1..], cls);
      assert forall k :: 1 <= k < |s| ==> s[k] == s[1..][k - 1];
      if exists k :: 0 <= k < |s| && InClass(s[k], cls) {
        var k :| 0 <= k < |s| && InClass(s[k], cls);
        if k > 0 && !InClass(s[0], cls) {
          assert InClass(s[1..][k - 1], cls);
        }
      }
    }
  }

  /** The matcher accepts exactly the strong passwords. */
  lemma MatchPasswordCorrect(s: string)
    ensures MatchPassword(s) <==> IsStrongPassword(s)
  {
    if AllAlnum(s) {
      LookaheadOnAlnum(s, Lower);
      LookaheadOnAlnum(s, Upper);
      LookaheadOnAlnum(s, Digit);
      assert (exists k :: 0 <= k < |s| && InClass(s[k], Lower)) <==> (exists k :: 0 <= k < |s| && IsLower(s[k]));
      assert (exists k :: 0 <= k < |s| && InClass(s[k], Upper)) <==> (exists k :: 0 <= k < |s| && IsUpper(s[k]));
      assert (exists k :: 0 <= k < |s| && InClass(s[k], Digit)) <==> (exists k :: 0 <= k < |s| && IsDigit(s[k]));
    }
  }

  /** A strong password has no surrounding whitespace, so it is never blank. */
  lemma StrongIsNotBlank(s: string)
    ensures IsStrongPassword(s) ==> Trim(s) == s && s != ""
  {
    if IsStrongPassword(s) {
      assert IsAlnum(s[0]) && IsAlnum(s[|s| - 1]);
      TrimKeeps(s);
    }
  }

  /** What the password validator relies on: the pattern is the strength rule, and a strong password is not blank. */
  lemma PasswordVerdict(s: string)
    ensures MatchPassword(s) <==> IsStrongPassword(s)
    ensures IsStrongPassword(s) ==> Trim(s) != ""
  {
    MatchPasswordCorrect(s);
    StrongIsNotBlank(s);
  }

  datatype PasswordCheck = PasswordOk | PasswordMissing | PasswordMalformed

  /** The password validator: blank is missing; otherwise the untrimmed password must be strong. */
  function CheckPassword(s: string): (r: PasswordCheck)
    ensures r == PasswordMissing <==> IsBlank(s)
    ensures r == PasswordOk <==> IsStrongPassword(s)
  {
    PasswordVerdict(s);
    if Trim(s) == "" then PasswordMissing
    else if MatchPassword(s) then PasswordOk
    else PasswordMalformed
  }

  // -------------------------------------------------------------- countdown

  const CountdownSeconds: int := 30

  /** The seconds left and whether the one-second interval is running. */
  datatype Countdown = Countdown(seconds: int, running: bool)

  /** One interval tick: a second less, and the interval is cleared once it reaches zero; no tick without an interval. */
  function Tick(c: Countdown): Countdown {
    if !c.running then c
    else Countdown(c.seconds - 1, c.seconds - 1 > 0)
  }

  function Ticks(c: Countdown, n: nat): Countdown {
    if n == 0 then c else Tick(Ticks(c, n - 1))
  }

  /** From a fresh start the countdown shows 30 − n after n ticks and stops exactly at zero, after which ticks change nothing. */
  lemma {:induction false} CountdownRunsOut(n: nat)
    ensures n <= CountdownSeconds ==> Ticks(Countdown(CountdownSeconds, true), n) == Countdown(CountdownSeconds - n, n < CountdownSeconds)
    ensures n >= CountdownSeconds ==> Ticks(Countdown(CountdownSeconds, true), n) == Countdown(0, false)
  {
    if n > 0 {
      CountdownRunsOut(n - 1);
    }
  }

  // ----------------------------------------------------------------- submit

  /** The first check that stops a registration, in the order the handler makes them. */
  datatype Refusal =
    | BadEmail(email: EmailCheck)
    | BadPassword(password: PasswordCheck)
    | Mismatch
    | NoCode
    | NoConsent

  datatype RegisterRequest = RegisterRequest(email: string, password: string, confirmPassword: string, emailCode: string)

  datatype Check = Refused(refusal: Refusal) | Ready(request: RegisterRequest)

  /**
   * The submit handler's checks: a valid mail address, a strong password,
   * the confirmation equal to it, a code, and consent, in that order.
   */
  function SubmitCheck(email: string, password: string, confirm: string, code: string, agreed: bool): (c: Check)
    ensures c.Ready? <==>
              IsQQMail(Trim(email)) && IsStrongPassword(password) && password == confirm && code != "" && agreed
    ensures c.Ready? ==> c.request == RegisterRequest(email, password, confirm, code)
    ensures c.Refused? && c.refusal.BadEmail? <==> !IsQQMail(Trim(email))
    ensures c.Refused? && c.refusal.BadPassword? <==> IsQQMail(Trim(email)) && !IsStrongPassword(password)
    ensures c == Refused(Mismatch) <==> IsQQMail(Trim(email)) && IsStrongPassword(password) && password != confirm
    ensures c == Refused(NoCode) <==>
              IsQQMail(Trim(email)) && IsStrongPassword(password) && password == confirm && code == ""
    ensures c == Refused(NoConsent) <==>
              IsQQMail(Trim(email)) && IsStrongPassword(password) && password == confirm && code != "" && !agreed
    ensures c.Refused? && c.refusal.BadEmail? ==> c.refusal.email == CheckEmail(email)
    ensures c.Refused? && c.refusal.BadPassword? ==> c.refusal.password == CheckPassword(password)
  {
    var e := CheckEmail(email);
    var p := CheckPassword(password);
    if e != EmailOk then Refused(BadEmail(e))
    else if p != PasswordOk then Refused(BadPassword(p))
    else if password != confirm then Refused(Mismatch)
    else if code == "" then Refused(NoCode)
    else if !agreed then Refused(NoConsent)
    else Ready(RegisterRequest(email, password, confirm, code))
  }

  /** The register button's `disabled` binding, negated. */
  predicate ButtonEnabled(email: string, code: string, agreed: bool) {
    !(email == "" || code == "" || !agreed)
  }

  /** Whenever the checks pass the button was enabled (not conversely: the button does not validate). */
  lemma ReadyImpliesEnabled(email: string, password: string, confirm: string, code: string, agreed: bool)
    requires SubmitCheck(email, password, confirm, code, agreed).Ready?
    ensures ButtonEnabled(email, code, agreed)
  {
  }

  /** The outcome of the registration call as the panel sees it. */
  datatype RegisterResult = RegisterThrew | RegisterReturned(code: int)

  /** What a submit leads to: a warning, the switch to the login panel, an error notice, or nothing. */
  datatype SubmitOutcome = Warned(refusal: Refusal) | SwitchToLogin | RegisterFailed | NoEffect

  /** What a send-code click leads to. */
  datatype SendStart = SendIgnored | SendWarned(check: EmailCheck) | SendNeedsConsent | SendStarted(address: string)

  /**
   * The send-code click's decision: ignored while a countdown runs or a
   * send is in flight; otherwise an invalid address warns with the mail
   * rule's verdict, then missing consent is asked for, and only then does
   * the send start, to the address as typed.
   */
  function SendStartOf(countdown: int, sending: bool, email: string, agreed: bool): (start: SendStart)
    ensures countdown > 0 || sending ==> start == SendIgnored
    ensures start.SendWarned? <==> countdown <= 0 && !sending && CheckEmail(email) != EmailOk
    ensures start.SendWarned? ==> start.check == CheckEmail(email)
    ensures start == SendNeedsConsent <==> countdown <= 0 && !sending && CheckEmail(email) == EmailOk && !agreed
    ensures start.SendStarted? <==> countdown <= 0 && !sending && CheckEmail(email) == EmailOk && agreed
    ensures start.SendStarted? ==> start.address == email
  {
    if countdown > 0 || sending then SendIgnored
    else if CheckEmail(email) != EmailOk then SendWarned(CheckEmail(email))
    else if !agreed then SendNeedsConsent
    else SendStarted(email)
  }

  /** The panel's state. */
  class Panel {
    var email: string
    var code: string
    var password: string
    var confirm: string
    var agreed: bool
    var registering: bool
    var countdown: int
    var timerRunning: bool
    var sending: bool

    ghost predicate Valid()
      reads this
    {
      0 <= countdown <= CountdownSeconds && (timerRunning <==> countdown > 0)
    }

    function Clock(): Countdown
      reads this
    {
      Countdown(countdown, timerRunning)
    }

    constructor ()
      ensures Valid() && email == "" && code == "" && password == "" && confirm == ""
      ensures !agreed && !registering && countdown == 0 && !timerRunning && !sending
    {
      email, code, password, confirm := "", "", "", "";
      agreed, registering, sending := false, false, false;
      countdown, timerRunning := 0, false;
    }

    /**
     * A send-code click: ignored while a countdown runs or a send is in
     * flight; otherwise the address must be valid and the terms agreed
     * before the send starts.
     */
    method BeginSend() returns (start: SendStart)
      requires Valid()
      modifies this
      ensures Valid()
      ensures start == SendStartOf(old(countdown), old(sending), email, agreed)
      ensures start.SendStarted? ==> sending
      ensures !start.SendStarted? ==> sending == old(sending)
      ensures Clock() == old(Clock()) && email == old(email) && agreed == old(agreed)
      ensures code == old(code) && password == old(password) && confirm == old(confirm)
      ensures registering == old(registering)
    {
      start := SendStartOf(countdown, sending, email, agreed);
      if start.SendStarted? {
        sending := true;
      }
    }

    /**
     * The send call settles: success starts the 30-second countdown, failure
     * shows the send-failed error; either way the send is over.
     */
    method FinishSend(sent: bool) returns (failureShown: bool)
      requires Valid() && sending
      modifies this
      ensures Valid() && !sending
      ensures failureShown <==> !sent
      ensures sent ==> Clock() == Countdown(CountdownSeconds, true)
      ensures !sent ==> Clock() == old(Clock())
      ensures email == old(email) && agreed == old(agreed)
      ensures code == old(code) && password == old(password) && confirm == old(confirm)
      ensures registering == old(registering)
    {
      if sent {
        countdown := CountdownSeconds;
        timerRunning := true;
      }
      failureShown := !sent;
      sending := false;
    }

    /** One second passes. */
    method TickSecond()
      requires Valid()
      modifies this
      ensures Valid() && Clock() == Tick(old(Clock()))
      ensures sending == old(sending) && email == old(email) && agreed == old(agreed)
      ensures code == old(code) && password == old(password) && confirm == old(confirm)
      ensures registering == old(registering)
    {
      if timerRunning {
        countdown := countdown - 1;
        if countdown <= 0 {
          timerRunning := false;
        }
      }
    }

    /** The submit handler, given how the registration call settles; the panel's fields are left as they were. */
    method Submit(result: RegisterResult) returns (outcome: SubmitOutcome)
      ensures var c := SubmitCheck(email, password, confirm, code, agreed);
        && (c.Refused? ==> outcome == Warned(c.refusal))
        && (c.Ready? && result == RegisterReturned(200) ==> outcome == SwitchToLogin)
        && (c.Ready? && result.RegisterThrew? ==> outcome == RegisterFailed)
        && (c.Ready? && result.RegisterReturned? && result.code != 200 ==> outcome == NoEffect)
    {
      var c := SubmitCheck(email, password, confirm, code, agreed);
      if c.Refused? {
        return Warned(c.refusal);
      }
      match result
      case RegisterThrew => outcome := RegisterFailed;
      case RegisterReturned(status) => outcome := if status == 200 then SwitchToLogin else NoEffect;
    }

    /** Switching to the login panel clears the form and stops the countdown; an in-flight send is left alone. */
    method ResetForm()
      requires Valid()
      modifies this
      ensures Valid()
      ensures email == "" && code == "" && password == "" && confirm == ""
      ensures !agreed && !registering && Clock() == Countdown(0, false)
      ensures sending == old(sending)
    {
      email, code, password, confirm := "", "", "", "";
      agreed, registering := false, false;
      countdown := 0;
      timerRunning := false;
    }
  }
}
