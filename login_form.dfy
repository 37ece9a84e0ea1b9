/**
 * The login panel: a four-slot captcha editor (typing, backspace, paste,
 * reset), the submit checks and what follows a login attempt. Focus
 * movement, the captcha image request and the panel animation are not
 * modelled.
 */
module LoginForm {
  import opened Wrappers
  import opened Chars
  import opened UserStore

  const SlotCount: nat := 4

  /** What one captcha slot may hold: nothing, or one upper-case letter or digit. */
  predicate IsSlotValue(s: string) {
    s == "" || (|s| == 1 && IsAlnum(s[0]) && !IsLower(s[0]))
  }

  predicate AllFilled(slots: seq<string>) {
    forall k :: 0 <= k < |slots| ==> slots[k] != ""
  }

  /** The captcha text sent to the server: the slots joined. */
  function Joined(slots: seq<string>): (r: string)
    ensures (forall k :: 0 <= k < |slots| ==> IsSlotValue(slots[k])) && AllFilled(slots) ==>
              |r| == |slots| && forall k :: 0 <= k < |slots| ==> r[k] == slots[k][0]
  {
    if slots == [] then ""
    else
      var rest := Joined(slots[1..]);
      assert forall k :: 1 <= k < |slots| ==> slots[k] == slots[1..][k - 1];
      slots[0] + rest
  }

  /**
   * The slot after typing `value` into it. The input's model binding stores
   * the raw value first and the handler then normalises it: anything but
   * letters and digits clears the slot, otherwise it keeps the first
   * character upper-cased (an empty value leaves it empty).
   */
  function Entry(value: string): (r: string)
    ensures IsSlotValue(r)
    ensures (exists k :: 0 <= k < |value| && !IsAlnum(value[k])) ==> r == ""
    ensures r != "" <==> value != "" && AllAlnum(value)
    ensures r != "" ==> r == [ToUpper(value[0])]
  {
    if !AllAlnum(value) then ""
    else if |value| >= 1 then [ToUpper(value[0])]
    else ""
  }

  /**
   * Backspace in slot `i`: a filled slot is cleared; an empty slot clears
   * the one before it, if there is one. Any other key changes nothing.
   */
  function Backspaced(slots: seq<string>, i: nat, key: string): (r: seq<string>)
    requires i < |slots|
    ensures |r| == |slots|
  {
    if key != "Backspace" then slots
    else if slots[i] != "" then slots[i := ""]
    else if i > 0 then slots[i - 1 := ""]
    else slots
  }

  /** Backspace changes at most one slot, `i` or the one before, only to clear it, and keeps every slot valid; other keys change nothing. */
  lemma BackspaceClearsOne(slots: seq<string>, i: nat, key: string)
    requires i < |slots|
    requires forall k :: 0 <= k < |slots| ==> IsSlotValue(slots[k])
    ensures var r := Backspaced(slots, i, key);
      && (forall k :: 0 <= k < |r| ==> IsSlotValue(r[k]))
      && (forall k :: 0 <= k < |r| && r[k] != slots[k] ==> r[k] == "" && (k == i || k == i - 1))
      && (key == "Backspace" && slots[i] != "" ==> r[i] == "")
      && (key == "Backspace" && slots[i] == "" && i > 0 ==> r[i - 1] == "")
      && (key != "Backspace" ==> r == slots)
      && (forall j, k :: 0 <= j < k < |r| ==> r[j] == slots[j] || r[k] == slots[k])
  {
  }

  /**
   * The slots after pasting `text`: its letters and digits, upper-cased,
   * fill slots 0, 1, … up to four of them, and later slots keep their values.
   */
  function Pasted(slots: seq<string>, text: string): (r: seq<string>)
    ensures |r| == |slots|
  {
    var w := Alnums(text);
    seq(|slots|, k requires 0 <= k < |slots| => if k < |w| && k < SlotCount then [ToUpper(w[k])] else slots[k])
  }

  lemma PasteFills(slots: seq<string>, text: string)
    requires |slots| == SlotCount
    requires forall k :: 0 <= k < |slots| ==> IsSlotValue(slots[k])
    ensures var r := Pasted(slots, text); var n := if |Alnums(text)| < 4 then |Alnums(text)| else 4;
      && (forall k :: 0 <= k < n ==> r[k] == [ToUpper(Alnums(text)[k])])
      && (forall k :: n <= k < SlotCount ==> r[k] == slots[k])
      && (forall k :: 0 <= k < SlotCount ==> IsSlotValue(r[k]))
      && (AllAlnum(text) && |text| >= 4 ==> AllFilled(r))
  {
  }

  /** The first check that stops a login, in the order the handler makes them. */
  datatype Missing = NoEmail | NoPassword | NoCaptcha | NoConsent

  datatype LoginRequest = LoginRequest(email: string, password: string, captcha: string)

  datatype Check = Blocked(missing: Missing) | Ready(request: LoginRequest)

  /**
   * The submit handler's checks: email, password, every captcha slot and
   * consent to the terms, in that order; only when all pass is the login
   * request built, with the joined captcha.
   */
  function SubmitCheck(email: string, password: string, slots: seq<string>, agreed: bool): (c: Check)
    ensures c.Ready? <==> email != "" && password != "" && AllFilled(slots) && agreed
    ensures c == Blocked(NoEmail) <==> email == ""
    ensures c == Blocked(NoPassword) <==> email != "" && password == ""
    ensures c == Blocked(NoCaptcha) <==> email != "" && password != "" && !AllFilled(slots)
    ensures c.Ready? ==> c.request == LoginRequest(email, password, Joined(slots))
  {
    if email == "" then Blocked(NoEmail)
    else if password == "" then Blocked(NoPassword)
    else if !AllFilled(slots) then Blocked(NoCaptcha)
    else if !agreed then Blocked(NoConsent)
    else Ready(LoginRequest(email, password, Joined(slots)))
  }

  /** The login button's `disabled` binding, negated. */
  predicate ButtonEnabled(email: string, password: string, slots: seq<string>, agreed: bool) {
    !(email == "" || password == "" || !AllFilled(slots) || !agreed)
  }

  /** The button is enabled exactly when a click would send the request. */
  lemma ButtonMatchesChecks(email: string, password: string, slots: seq<string>, agreed: bool)
    ensures ButtonEnabled(email, password, slots, agreed) <==> SubmitCheck(email, password, slots, agreed).Ready?
  {
  }

  /** Where a successful login goes: the `redirect` query when it is truthy, the dashboard otherwise. */
  function Destination(redirect: Option<string>): (path: string)
    ensures redirect.Some? && redirect.value != "" ==> path == redirect.value
    ensures !(redirect.Some? && redirect.value != "") ==> path == "/dashboard"
  {
    if redirect.Some? && redirect.value != "" then redirect.value else "/dashboard"
  }

  /** What a submit leads to: a warning, navigation after a login, or a failed login. */
  datatype SubmitOutcome = Warned(missing: Missing) | Navigated(path: string) | LoginRejected

  /** The panel's state: email, password, the captcha slots, consent and the loading flag. */
  class Panel {
    var email: string
    var password: string
    var slots: array<string>
    var agreed: bool
    var loading: bool

    ghost predicate Valid()
      reads this, slots
    {
      slots.Length == SlotCount && forall k :: 0 <= k < SlotCount ==> IsSlotValue(slots[k])
    }

    constructor ()
      ensures Valid() && fresh(slots)
      ensures email == "" && password == "" && slots[..] == ["", "", "", ""] && !agreed && !loading
    {
      email, password, agreed, loading := "", "", false, false;
      slots := new string[SlotCount](_ => "");
      new;
      assert slots[..] == ["", "", "", ""];
    }

    /**
     * Input in slot `i`: the slot takes `Entry(value)`, no other slot
     * changes, and the submit handler runs when the value was letters and
     * digits, every slot is now filled and email and password are present.
     */
    method Input(i: nat, value: string) returns (submits: bool)
      requires Valid() && i < SlotCount
      modifies slots
      ensures Valid()
      ensures slots[..] == old(slots[..])[i := Entry(value)]
      ensures submits == (AllAlnum(value) && AllFilled(slots[..]) && email != "" && password != "")
    {
      slots[i] := value;
      if !AllAlnum(value) {
        slots[i] := "";
        return false;
      }
      if |value| > 1 {
        slots[i] := [ToUpper(value[0])];
      } else if |value| == 1 {
        slots[i] := [ToUpper(value[0])];
      }
      submits := AllFilled(slots[..]) && email != "" && password != "";
    }

    method Backspace(i: nat, key: string)
      requires Valid() && i < SlotCount
      modifies slots
      ensures Valid()
      ensures slots[..] == Backspaced(old(slots[..]), i, key)
    {
      BackspaceClearsOne(slots[..], i, key);
      if key == "Backspace" {
        if slots[i] != "" {
          slots[i] := "";
        } else if i > 0 {
          slots[i - 1] := "";
        }
      }
    }

    /**
     * Paste: nothing happens without clipboard text or without a letter or
     * digit in it; otherwise the slots become `Pasted(old slots, text)` and
     * the submit handler runs when every slot is filled and email and
     * password are present.
     */
    method Paste(text: Option<string>) returns (submits: bool)
      requires Valid()
      modifies slots
      ensures Valid()
      ensures text.None? || Alnums(text.value) == "" ==> slots[..] == old(slots[..]) && !submits
      ensures text.Some? && Alnums(text.value) != "" ==>
                slots[..] == Pasted(old(slots[..]), text.value) &&
                submits == (AllFilled(slots[..]) && email != "" && password != "")
    {
      if text.None? || text.value == "" {
        return false;
      }
      var w := Alnums(text.value);
      if w == "" {
        return false;
      }
      PasteFills(slots[..], text.value);
      var n := if |w| < SlotCount then |w| else SlotCount;
      var k := 0;
      while k < n
        invariant 0 <= k <= n
        invariant forall j :: 0 <= j < k ==> slots[j] == [ToUpper(w[j])]
        invariant forall j :: k <= j < SlotCount ==> slots[j] == old(slots[j])
      {
        slots[k] := [ToUpper(w[k])];
        k := k + 1;
      }
      assert slots[..] == Pasted(old(slots[..]), text.value);
      submits := AllFilled(slots[..]) && email != "" && password != "";
    }

    /** Clearing the captcha: four empty slots. */
    method ResetCaptcha()
      modifies this
      ensures Valid() && fresh(slots) && slots[..] == ["", "", "", ""]
      ensures email == old(email) && password == old(password)
      ensures agreed == old(agreed) && loading == old(loading)
    {
      slots := new string[SlotCount](_ => "");
      assert slots[..] == ["", "", "", ""];
    }

    /** Switching to the registration panel clears the whole form. */
    method ResetForm()
      modifies this
      ensures Valid() && fresh(slots)
      ensures email == "" && password == "" && slots[..] == ["", "", "", ""] && !agreed && !loading
    {
      email, password := "", "";
      ResetCaptcha();
      agreed, loading := false, false;
    }

    /**
     * The submit handler. A failed check warns and changes nothing. Once
     * the checks pass, the store's `login` runs with the API's result: on
     * success the panel navigates to `Destination(redirect)`; otherwise
     * the captcha is cleared. Either way loading ends false.
     */
    method Submit(store: Store, result: ApiResult, redirect: Option<string>) returns (outcome: SubmitOutcome)
      requires Valid()
      modifies this, store, store.storage
      ensures Valid()
      ensures email == old(email) && password == old(password) && agreed == old(agreed)
      ensures var c := SubmitCheck(old(email), old(password), old(slots[..]), old(agreed));
        && (c.Blocked? ==> outcome == Warned(c.missing) && slots == old(slots) && slots[..] == old(slots[..])
                           && loading == old(loading) && store.Current() == old(store.Current()))
        && (c.Ready? ==> store.Current() == AfterLogin(old(store.Current()), result) && !loading)
        && (c.Ready? && IsOk(result) ==> outcome == Navigated(Destination(redirect)) && slots[..] == old(slots[..]))
        && (c.Ready? && !IsOk(result) ==> outcome == LoginRejected && fresh(slots) && slots[..] == ["", "", "", ""])
    {
      if email == "" {
        return Warned(NoEmail);
      }
      if password == "" {
        return Warned(NoPassword);
      }
      if !AllFilled(slots[..]) {
        return Warned(NoCaptcha);
      }
      if !agreed {
        return Warned(NoConsent);
      }
      loading := true;
      var o := store.Login(result);
      if o.LoggedIn? {
        outcome := Navigated(Destination(redirect));
      } else {
        ResetCaptcha();
        outcome := LoginRejected;
      }
      loading := false;
    }
  }
}
