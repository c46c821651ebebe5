/**
 * The profile layout's button options: three buttons with default settings, which the
 * `buttonOptions` prop overrides key by key when the layout mounts, and the rule that
 * decides whether the back button is drawn.
 */
module ProfileLayout {
  import opened Base
  import opened JsValues

  /** A button setting: a plain value, or one of the layout's own callbacks, by name. */
  datatype Setting = Value(v: JsValue) | Handler(name: string)

  /** Button name to (setting key to setting). */
  type Options = map<string, map<string, Setting>>

  /** `Object.entries(props.buttonOptions)`, each with `Object.entries(instructions)`. */
  type Instructions = seq<(string, Setting)>
  type Overrides = seq<(string, Instructions)>

  /** Assigning a key of a button the defaults do not have: `undefined[key] = value`. */
  datatype LayoutError = TypeError(button: string)

  /** The callback that signs out of every provider and resets the route to Boot. */
  const SignOutHandler := "signOutAndReboot"

  /**
   * `defaultButtonOptions`: the back button shown, the log-out and edit-icon buttons
   * hidden; the long press on log-out signs out only in a debug build.
   */
  function Defaults(debug: bool): (o: Options)
    ensures o.Keys == {"goBack", "logOut", "editPfp"}
    ensures o["goBack"] == map["show" := Value(Bool(true))]
    ensures o["logOut"].Keys == {"show", "onPress", "onLongPress"}
    ensures o["logOut"]["show"] == Value(Bool(false))
    ensures o["logOut"]["onPress"] == Handler(SignOutHandler)
    ensures o["logOut"]["onLongPress"] == if debug then Handler(SignOutHandler) else Value(Null)
    ensures o["editPfp"] == map["show" := Value(Bool(false))]
  {
    map[
      "goBack" := map["show" := Value(Bool(true))],
      "logOut" := map[
        "show" := Value(Bool(false)),
        "onPress" := Handler(SignOutHandler),
        "onLongPress" := if debug then Handler(SignOutHandler) else Value(Null)],
      "editPfp" := map["show" := Value(Bool(false))]]
  }

  /** `options[button][key]`, None where it reads as `undefined`. */
  function Lookup(o: Options, button: string, key: string): Option<Setting>
  {
    if button in o && key in o[button] then Some(o[button][key]) else None
  }

  // ------------------------------------------------------------- the merge

  /** The inner `forEach`: one assignment per entry; the first one throws on an unknown button. */
  function ApplyInstructions(o: Options, button: string, instr: Instructions): (r: Result<Options, LayoutError>)
    ensures r.Success? ==> r.value.Keys == o.Keys
    ensures r.Failure? <==> |instr| > 0 && button !in o
  {
    if |instr| == 0 then Success(o)
    else if button !in o then Failure(TypeError(button))
    else ApplyInstructions(o[button := o[button][instr[0].0 := instr[0].1]], button, instr[1..])
  }

  /** The outer `forEach`; the first throw ends the merge. */
  function ApplyAll(o: Options, ov: Overrides): (r: Result<Options, LayoutError>)
    ensures r.Success? ==> r.value.Keys == o.Keys
  {
    if |ov| == 0 then Success(o)
    else
      match ApplyInstructions(o, ov[0].0, ov[0].1)
      case Failure(e) => Failure(e)
      case Success(o') => ApplyAll(o', ov[1..])
  }

  /** The value an instruction list gives `key` last, if it mentions it. */
  function LastKey(instr: Instructions, key: string): Option<Setting>
  {
    if |instr| == 0 then None
    else
      var rest := LastKey(instr[1..], key);
      if rest.Some? then rest else if instr[0].0 == key then Some(instr[0].1) else None
  }

  /** The value the overrides give (button, key) last, if they mention it. */
  function LastMention(ov: Overrides, button: string, key: string): Option<Setting>
  {
    if |ov| == 0 then None
    else
      var rest := LastMention(ov[1..], button, key);
      if rest.Some? then rest else if ov[0].0 == button then LastKey(ov[0].1, key) else None
  }

  function OrElse(a: Option<Setting>, b: Option<Setting>): Option<Setting>
  {
    if a.Some? then a else b
  }

  /** The merge throws exactly when some non-empty instruction list names an unknown button. */
  lemma {:induction false} ApplyAllSucceeds(o: Options, ov: Overrides)
    ensures ApplyAll(o, ov).Success? <==>
              forall i :: 0 <= i < |ov| && |ov[i].1| > 0 ==> ov[i].0 in o
  {
    if |ov| > 0 {
      var first := ApplyInstructions(o, ov[0].0, ov[0].1);
      if first.Success? {
        ApplyAllSucceeds(first.value, ov[1..]);
        assert forall i :: 1 <= i < |ov| ==> ov[i] == ov[1..][i - 1];
      }
    }
  }

  lemma {:induction false} ApplyInstructionsLookup(o: Options, button: string, instr: Instructions, b: string, k: string)
    requires ApplyInstructions(o, button, instr).Success?
    ensures Lookup(ApplyInstructions(o, button, instr).value, b, k) ==
              if b == button then OrElse(LastKey(instr, k), Lookup(o, b, k)) else Lookup(o, b, k)
  {
    if |instr| > 0 {
      var o' := o[button := o[button][instr[0].0 := instr[0].1]];
      ApplyInstructionsLookup(o', button, instr[1..], b, k);
    }
  }

  /**
   * After a merge that does not throw, every (button, key) holds the value the
   * overrides give it last, and every key they do not mention keeps its old value.
   */
  lemma {:induction false} ApplyAllLookup(o: Options, ov: Overrides, b: string, k: string)
    requires ApplyAll(o, ov).Success?
    ensures Lookup(ApplyAll(o, ov).value, b, k) == OrElse(LastMention(ov, b, k), Lookup(o, b, k))
  {
    if |ov| > 0 {
      var o' := ApplyInstructions(o, ov[0].0, ov[0].1).value;
      ApplyInstructionsLookup(o, ov[0].0, ov[0].1, b, k);
      ApplyAllLookup(o', ov[1..], b, k);
      if ov[0].0 == b && b !in o {
        // an unknown button is only let through with no instructions
        assert LastKey(ov[0].1, k) == None;
      }
    }
  }

  /** The keys of a JavaScript object are distinct. */
  predicate DistinctKeys(instr: Instructions)
  {
    forall i, j :: 0 <= i < j < |instr| ==> instr[i].0 != instr[j].0
  }

  predicate DistinctButtons(ov: Overrides)
  {
    forall i, j :: 0 <= i < j < |ov| ==> ov[i].0 != ov[j].0
  }

  lemma {:induction false} LastKeyGiven(instr: Instructions, j: nat)
    requires DistinctKeys(instr) && j < |instr|
    ensures LastKey(instr, instr[j].0) == Some(instr[j].1)
  {
    if j == 0 {
      LastKeyAbsent(instr[1..], instr[0].0);
    } else {
      LastKeyGiven(instr[1..], j - 1);
    }
  }

  lemma {:induction false} LastKeyAbsent(instr: Instructions, key: string)
    requires forall i :: 0 <= i < |instr| ==> instr[i].0 != key
    ensures LastKey(instr, key) == None
  {
    if |instr| > 0 {
      LastKeyAbsent(instr[1..], key);
    }
  }

  lemma {:induction false} LastMentionAbsent(ov: Overrides, button: string, key: string)
    requires forall i :: 0 <= i < |ov| ==> ov[i].0 != button
    ensures LastMention(ov, button, key) == None
  {
    if |ov| > 0 {
      LastMentionAbsent(ov[1..], button, key);
    }
  }

  /** In a props object every given (button, key, value) is the one the merge sees last. */
  lemma {:induction false} GivenValueWins(ov: Overrides, i: nat, j: nat)
    requires DistinctButtons(ov) && i < |ov| && DistinctKeys(ov[i].1) && j < |ov[i].1|
    ensures LastMention(ov, ov[i].0, ov[i].1[j].0) == Some(ov[i].1[j].1)
  {
    if i == 0 {
      LastMentionAbsent(ov[1..], ov[0].0, ov[0].1[j].0);
      LastKeyGiven(ov[0].1, j);
    } else {
      GivenValueWins(ov[1..], i - 1, j);
    }
  }

  /** The nested loops of the source, assigning into a copy of the options in place. */
  method MergeOverrides(defaults: Options, ov: Overrides) returns (r: Result<Options, LayoutError>)
    ensures r == ApplyAll(defaults, ov)
  {
    var opts := defaults;
    var i := 0;
    while i < |ov|
      invariant 0 <= i <= |ov|
      invariant ApplyAll(opts, ov[i..]) == ApplyAll(defaults, ov)
    {
      var (button, instr) := ov[i];
      var start := opts;
      var k := 0;
      while k < |instr|
        invariant 0 <= k <= |instr|
        invariant ApplyInstructions(opts, button, instr[k..]) == ApplyInstructions(start, button, instr)
      {
        if button !in opts {
          return Failure(TypeError(button));
        }
        var (key, value) := instr[k];
        opts := opts[button := opts[button][key := value]];
        assert instr[k..][1..] == instr[k + 1..];
        k := k + 1;
      }
      assert ov[i..][1..] == ov[i + 1..];
      i := i + 1;
    }
    assert ov[i..] == [];
    r := Success(opts);
  }

  // ------------------------------------------------------------ the layout

  /** `!buttonOptions.goBack.show || props.hideBackButton`. */
  predicate BackButtonHidden(o: Options, hideBackButton: JsValue)
  {
    !SettingTruthy(Lookup(o, "goBack", "show")) || Truthy(hideBackButton)
  }

  /** A missing key is `undefined`; a callback is a truthy function. */
  predicate SettingTruthy(s: Option<Setting>)
  {
    match s
    case None => false
    case Some(Handler(_)) => true
    case Some(Value(v)) => Truthy(v)
  }

  /**
   * When no override mentions `goBack.show`, the back button is hidden exactly when
   * `hideBackButton` is truthy.
   */
  lemma BackButtonByDefault(debug: bool, ov: Overrides, hideBackButton: JsValue)
    requires ApplyAll(Defaults(debug), ov).Success?
    requires LastMention(ov, "goBack", "show") == None
    ensures BackButtonHidden(ApplyAll(Defaults(debug), ov).value, hideBackButton) <==> Truthy(hideBackButton)
  {
    ApplyAllLookup(Defaults(debug), ov, "goBack", "show");
  }

  class ProfileLayoutScreen {
    /** The `buttonOptions` state; None until the mount effect stores it. */
    var buttonOptions: Option<Options>

    constructor ()
      ensures buttonOptions == None
    {
      buttonOptions := None;
    }

    /**
     * The mount effect: start from the defaults, apply `props.buttonOptions` when it
     * is truthy (None models a falsy prop), and store the result. A throw leaves the
     * state unset.
     */
    method OnMount(debug: bool, props: Option<Overrides>) returns (r: Result<Options, LayoutError>)
      modifies this
      ensures props.None? ==> r == Success(Defaults(debug))
      ensures props.Some? ==> r == ApplyAll(Defaults(debug), props.value)
      ensures buttonOptions == if r.Success? then Some(r.value) else old(buttonOptions)
    {
      var defaults := Defaults(debug);
      if props.Some? {
        r := MergeOverrides(defaults, props.value);
      } else {
        r := Success(defaults);
      }
      if r.Success? {
        buttonOptions := Some(r.value);
      }
    }
  }
}
