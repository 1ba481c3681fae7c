/** The authentication dialog: a login/sign-up mode, a credentials -> one-time
    code step, and a 4-slot code edited one slot at a time. The pure
    functions give the meaning of each handler on a `DialogState`; the class
    `AuthDialog` holds the same state in fields and is proved against them. */
module AuthModal {

  import opened Wrappers

  datatype Mode = Login | Signup
  datatype DialogStep = Form | Otp

  /** Number of slots of the one-time code. */
  const OtpSlots: nat := 4

  /** The cleared code: four empty slots. */
  const EmptyOtp: seq<string> := ["", "", "", ""]

  datatype DialogState = DialogState(mode: Mode, step: DialogStep, otp: seq<string>)

  predicate WellFormed(d: DialogState)
  {
    |d.otp| == OtpSlots
  }

  /** The state the dialog is reset to whenever it is opened. */
  function Reset(initialView: Mode): DialogState
  {
    DialogState(initialView, Form, EmptyOtp)
  }

  function Flip(m: Mode): Mode
  {
    if m == Login then Signup else Login
  }

  /** Submitting: in sign-up mode at the credentials step the dialog moves to
      the code step; in every other case it signals success. The second
      component is true exactly when success is signalled. */
  function SubmitStep(d: DialogState): (r: (DialogState, bool))
    ensures r.1 <==> (d.mode.Login? || d.step.Otp?)
    ensures r.0.mode == d.mode && r.0.otp == d.otp
    ensures !r.1 ==> r.0.step == Otp
    ensures r.1 ==> r.0 == d
  {
    if d.mode == Signup && d.step == Form then (d.(step := Otp), false) else (d, true)
  }

  /** Length of `s` as the browser reports it, in UTF-16 code units: a
      character outside the Basic Multilingual Plane (U+10000 and above)
      takes two units, every other character one. */
  function Utf16Length(s: string): (n: nat)
    ensures |s| <= n <= 2 * |s|
    ensures n == 0 <==> s == ""
    decreases s
  {
    if s == "" then 0 else (if s[0] as int >= 0x10000 then 2 else 1) + Utf16Length(s[1..])
  }

  /** The code after editing slot `i` with `v`: an input longer than one
      UTF-16 unit is rejected, otherwise only slot `i` changes. */
  function ChangeOtp(otp: seq<string>, i: nat, v: string): (r: seq<string>)
    requires i < |otp|
    ensures |r| == |otp|
    ensures Utf16Length(v) > 1 ==> r == otp
    ensures Utf16Length(v) <= 1 ==> r[i] == v && |v| <= 1
    ensures forall j :: 0 <= j < |otp| && j != i ==> r[j] == otp[j]
  {
    if Utf16Length(v) > 1 then otp else otp[i := v]
  }

  /** Where the focus moves after editing slot `i` with `v`: to the next slot
      when a character was accepted and `i` is not the last slot. */
  function FocusAfterChange(i: nat, v: string): (r: Option<nat>)
    ensures r.Some? <==> Utf16Length(v) == 1 && i < OtpSlots - 1
    ensures r.Some? ==> r.value == i + 1 && r.value < OtpSlots && |v| == 1
  {
    if Utf16Length(v) > 1 then None
    else if v != "" && i < 3 then Some(i + 1)
    else None
  }

  /** Where the focus moves on a key press in slot `i`: Backspace on an empty
      slot that is not the first moves it back one slot. */
  function FocusAfterKey(otp: seq<string>, i: nat, key: string): (r: Option<nat>)
    requires i < |otp|
    ensures r.Some? <==> key == "Backspace" && otp[i] == "" && i > 0
    ensures r.Some? ==> r.value == i - 1 && r.value < |otp|
  {
    if key == "Backspace" && otp[i] == "" && i > 0 then Some(i - 1) else None
  }

  /** Typing the strings `keys` one after another, each into the slot that has
      the focus, starting at slot `focus`; the result is the code and the
      slot that has the focus at the end. */
  function TypeKeys(otp: seq<string>, focus: nat, keys: seq<string>): (r: (seq<string>, nat))
    requires focus < |otp| == OtpSlots
    ensures |r.0| == OtpSlots && r.1 < OtpSlots
    decreases keys
  {
    if keys == [] then (otp, focus)
    else
      var next := FocusAfterChange(focus, keys[0]);
      TypeKeys(ChangeOtp(otp, focus, keys[0]), if next.Some? then next.value else focus, keys[1..])
  }

  /** Typing single characters left to right fills the slots from the focused
      one on; the focus ends on the slot after the last one typed, or on the
      last slot once that has been typed into. */
  lemma {:induction false} TypeKeysFills(otp: seq<string>, focus: nat, keys: seq<string>)
    requires focus < |otp| == OtpSlots
    requires focus + |keys| <= OtpSlots
    requires forall k :: 0 <= k < |keys| ==> Utf16Length(keys[k]) == 1
    ensures TypeKeys(otp, focus, keys).0 == otp[..focus] + keys + otp[focus + |keys|..]
    ensures TypeKeys(otp, focus, keys).1 == if focus + |keys| < OtpSlots then focus + |keys| else OtpSlots - 1
    decreases keys
  {
    if keys == [] {
      assert otp[..focus] + otp[focus..] == otp;
    } else {
      var otp' := ChangeOtp(otp, focus, keys[0]);
      assert otp' == otp[focus := keys[0]];
      if focus < OtpSlots - 1 {
        TypeKeysFills(otp', focus + 1, keys[1..]);
        assert otp'[..focus + 1] == otp[..focus] + [keys[0]];
        assert otp'[focus + 1 + |keys[1..]|..] == otp[focus + |keys|..];
        assert [keys[0]] + keys[1..] == keys;
      } else {
        assert |keys| == 1;
        assert keys[1..] == [];
        assert otp[..focus] + keys + otp[focus + |keys|..] == otp[focus := keys[0]];
      }
    }
  }

  /** Entering "1", "2", "3", "4" from the first slot of a cleared code gives
      the code 1-2-3-4 with the focus on the last slot. */
  lemma EnterFourDigits()
    ensures TypeKeys(EmptyOtp, 0, ["1", "2", "3", "4"]) == (["1", "2", "3", "4"], 3)
  {
    TypeKeysFills(EmptyOtp, 0, ["1", "2", "3", "4"]);
    assert EmptyOtp[..0] + ["1", "2", "3", "4"] + EmptyOtp[4..] == ["1", "2", "3", "4"];
  }

  /** A string of two or more characters leaves the code as it was, whatever the slot. */
  lemma OverlongRejected(otp: seq<string>, i: nat, v: string)
    requires i < |otp| && |v| > 1
    ensures ChangeOtp(otp, i, v) == otp && FocusAfterChange(i, v) == None
  {
  }

  /** A single character outside the Basic Multilingual Plane is two UTF-16
      units long, so it is rejected like any longer input. */
  lemma AstralCharRejected(otp: seq<string>, i: nat)
    requires i < |otp|
    ensures ChangeOtp(otp, i, "\U{1F600}") == otp && FocusAfterChange(i, "\U{1F600}") == None
  {
    assert Utf16Length("\U{1F600}") == 2;
  }

  /** The dialog's state held in fields, as the component holds it. */
  class AuthDialog {
    var mode: Mode
    var step: DialogStep
    var otp: seq<string>

    ghost predicate Valid()
      reads this
    {
      |otp| == OtpSlots
    }

    function State(): DialogState
      reads this
    {
      DialogState(mode, step, otp)
    }

    /** The component's first render: mode from `initialView`, credentials step, cleared code. */
    constructor (initialView: Mode)
      ensures Valid() && State() == Reset(initialView)
    {
      mode := initialView;
      step := Form;
      otp := ["", "", "", ""];
    }

    /** The reset run when the dialog is opened. */
    method Open(initialView: Mode)
      modifies this
      ensures Valid() && State() == Reset(initialView)
      ensures mode == initialView && step == Form && otp == EmptyOtp
    {
      mode := initialView;
      step := Form;
      otp := ["", "", "", ""];
    }

    /** The submit button of either step; `success` is the success signal. */
    method Submit() returns (success: bool)
      requires Valid()
      modifies this
      ensures Valid() && (State(), success) == SubmitStep(old(State()))
      ensures success <==> (old(mode) == Login || old(step) == Otp)
      ensures !success ==> step == Otp
      ensures mode == old(mode) && otp == old(otp)
    {
      if mode == Signup && step == Form {
        step := Otp;
        success := false;
      } else {
        success := true;
      }
    }

    /** An edit of code slot `index`; `focus` is the slot the focus moves to, if any. */
    method OtpChange(index: nat, value: string) returns (focus: Option<nat>)
      requires Valid() && index < OtpSlots
      modifies this
      ensures Valid() && otp == ChangeOtp(old(otp), index, value)
      ensures focus == FocusAfterChange(index, value)
      ensures mode == old(mode) && step == old(step)
    {
      if Utf16Length(value) > 1 {
        return None;
      }
      otp := otp[index := value];
      if value != "" && index < 3 {
        focus := Some(index + 1);
      } else {
        focus := None;
      }
    }

    /** A key press in code slot `index`; it never changes the dialog. */
    method KeyDown(index: nat, key: string) returns (focus: Option<nat>)
      requires Valid() && index < OtpSlots
      ensures focus.Some? <==> key == "Backspace" && otp[index] == "" && index > 0
      ensures focus.Some? ==> focus.value == index - 1
    {
      if key == "Backspace" && otp[index] == "" && index > 0 {
        focus := Some(index - 1);
      } else {
        focus := None;
      }
    }

    /** The "Sign up" / "Log in" link of the credentials step. */
    method ToggleView()
      modifies this
      ensures mode == Flip(old(mode)) && mode != old(mode)
      ensures step == old(step) && otp == old(otp)
    {
      mode := if mode == Login then Signup else Login;
    }

    /** The "Back" button of the code step. */
    method Back()
      modifies this
      ensures step == Form && mode == old(mode) && otp == old(otp)
    {
      step := Form;
    }
  }
}
