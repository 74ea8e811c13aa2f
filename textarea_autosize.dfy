/**
 * The autosizing textarea: the height it gives itself from measurements of
 * a hidden shadow textarea, and the counter that stops a layout that keeps
 * changing from re-rendering forever. DOM measurements come in as numbers
 * and as a `scrollHeight` function of the text put in the shadow element.
 */
module TextAreaAutoSize {
  import opened Wrappers
  import opened JsValues
  import opened JsParseInt

  /** Accepted height updates allowed between two resets of the counter. */
  const MaxRenders: nat := 20

  function Max(a: int, b: int): int { if a >= b then a else b }
  function Min(a: int, b: int): int { if a <= b then a else b }
  function Abs(x: int): int { if x >= 0 then x else -x }

  // ---------------------------------------------------------------------
  // Style values (getStyleValue)
  // ---------------------------------------------------------------------

  /** `computedStyle[property]` as text; a missing property is undefined, which `parseInt` reads as "undefined". */
  function StyleText(style: map<string, string>, property: string): string {
    if property in style then style[property] else "undefined"
  }

  /** `parseInt(computedStyle[property], 10) || 0`. */
  function GetStyleValue(style: map<string, string>, property: string): (v: int)
    ensures ParseInt10(StyleText(style, property)).None? ==> v == 0
    ensures property !in style ==> v == 0
  {
    ParseNoLeadingDigit("undefined");
    ParseInt10(StyleText(style, property)).GetOr(0)
  }

  /** A pixel value such as "12px" reads as its number of pixels. */
  lemma GetStyleValuePixels(style: map<string, string>, property: string, n: nat)
    ensures GetStyleValue(style[property := Decimal(n) + "px"], property) == n
  {
    ParseDecimal(n, "px");
  }

  /** A negative pixel value such as "-3px" keeps its sign. */
  lemma GetStyleValueNegativePixels(style: map<string, string>, property: string, n: nat)
    ensures GetStyleValue(style[property := ['-'] + (Decimal(n) + "px")], property) == -(n as int)
  {
    ParseNegativeDecimal(n, "px");
  }

  // ---------------------------------------------------------------------
  // The height rule (syncHeight's computation)
  // ---------------------------------------------------------------------

  /**
   * The outer height for a content height `inner` and one row of height
   * `single`: the content height held between `rowsMin` and `rowsMax` rows
   * (0 means "no limit"), `rowsMax` deciding when the two limits conflict,
   * and never less than one row.
   */
  function OuterHeight(inner: int, single: int, rowsMin: nat, rowsMax: nat): (outer: int)
    // never below one row
    ensures outer >= single
    // without limits the content decides
    ensures rowsMin == 0 && rowsMax == 0 ==> outer == Max(inner, single)
    // content that fits the limits keeps its own height
    ensures ((rowsMin == 0 || rowsMin * single <= inner) && (rowsMax == 0 || inner <= rowsMax * single) &&
             single <= inner) ==> outer == inner
    // rowsMin raises the height, unless rowsMax asks for less
    ensures rowsMin != 0 && (rowsMax == 0 || rowsMin * single <= rowsMax * single) ==> outer >= rowsMin * single
    // rowsMax caps the height, subject only to the one-row floor
    ensures rowsMax != 0 ==> outer <= Max(rowsMax * single, single)
    // on a conflict rowsMax wins outright
    ensures rowsMin != 0 && rowsMax != 0 && rowsMin * single > rowsMax * single ==>
      outer == Max(rowsMax * single, single)
  {
    var upper: Option<int> := if rowsMax != 0 then Some(rowsMax * single) else None;
    var lower: Option<int> := if rowsMin != 0 then Some(rowsMin * single) else None;
    var clamped :=
      if upper.Some? && (inner > upper.value || (lower.Some? && lower.value > upper.value)) then upper.value
      else if lower.Some? && inner < lower.value then lower.value
      else inner;
    Max(clamped, single)
  }

  /** The source's step-by-step computation of the outer height. */
  method ComputeOuterHeight(inner: int, single: int, rowsMin: nat, rowsMax: nat) returns (outer: int)
    ensures outer == OuterHeight(inner, single, rowsMin, rowsMax)
  {
    outer := inner;
    if rowsMin != 0 {
      outer := Max(rowsMin * single, outer);
    }
    if rowsMax != 0 {
      outer := Min(rowsMax * single, outer);
    }
    outer := Max(outer, single);
  }

  /** The component's props that syncHeight reads; `rowsMax == 0` is an unset limit. */
  datatype Props = Props(rowsMinProp: Option<nat>, rowsMax: nat, placeholder: string) {
    /** `rowsMin` defaults to one row when the prop is not given. */
    function RowsMin(): (n: nat)
      ensures rowsMinProp.None? ==> n == 1
      ensures rowsMinProp.Some? ==> n == rowsMinProp.value
    {
      rowsMinProp.GetOr(1)
    }
  }

  /** What syncHeight reads from the page: the computed style, the text typed so far, and the shadow element's scrollHeight for a given text. */
  datatype Dom = Dom(style: map<string, string>, inputValue: string, scrollHeight: string -> int)

  /** The text measured for the content height: `input.value || placeholder || "x"`. */
  function ShadowText(inputValue: string, placeholder: string): (t: string)
    ensures t != ""
    ensures inputValue != "" ==> t == inputValue
    ensures inputValue == "" && placeholder != "" ==> t == placeholder
    ensures inputValue == "" && placeholder == "" ==> t == "x"
  {
    if inputValue != "" then inputValue else if placeholder != "" then placeholder else "x"
  }

  function Padding(style: map<string, string>): int {
    GetStyleValue(style, "padding-bottom") + GetStyleValue(style, "padding-top")
  }

  function Border(style: map<string, string>): int {
    GetStyleValue(style, "border-bottom-width") + GetStyleValue(style, "border-top-width")
  }

  predicate BorderBox(style: map<string, string>) {
    StyleText(style, "box-sizing") == "border-box"
  }

  function InnerHeight(props: Props, dom: Dom): int {
    dom.scrollHeight(ShadowText(dom.inputValue, props.placeholder)) - Padding(dom.style)
  }

  function SingleRowHeight(dom: Dom): int {
    dom.scrollHeight("x") - Padding(dom.style)
  }

  /** A measurement: the height to apply as a style, and whether to hide the overflow. */
  datatype Measured = Measured(outerHeightStyle: int, overflow: bool)

  /** What one syncHeight measures. */
  function Measure(props: Props, dom: Dom): (m: Measured)
    // the style height is the outer height, plus padding and border under border-box sizing
    ensures var outer := OuterHeight(InnerHeight(props, dom), SingleRowHeight(dom), props.RowsMin(), props.rowsMax);
      m.outerHeightStyle == outer + (if BorderBox(dom.style) then Padding(dom.style) + Border(dom.style) else 0)
    // hide the scrollbar exactly when the content is within a pixel of the box
    ensures var outer := OuterHeight(InnerHeight(props, dom), SingleRowHeight(dom), props.RowsMin(), props.rowsMax);
      m.overflow <==> -1 <= outer - InnerHeight(props, dom) <= 1
    // a box at least one row high, in style units
    ensures !BorderBox(dom.style) ==> m.outerHeightStyle >= SingleRowHeight(dom)
  {
    var inner := InnerHeight(props, dom);
    var outer := OuterHeight(inner, SingleRowHeight(dom), props.RowsMin(), props.rowsMax);
    var extra := if BorderBox(dom.style) then Padding(dom.style) + Border(dom.style) else 0;
    Measured(outer + extra, Abs(outer - inner) <= 1)
  }

  /** Measure, spelled out in the source's own steps. */
  lemma MeasureSteps(props: Props, dom: Dom, inner: int, outer: int, padding: int, border: int, m: Measured)
    requires inner == InnerHeight(props, dom)
    requires outer == OuterHeight(inner, SingleRowHeight(dom), props.RowsMin(), props.rowsMax)
    requires padding == Padding(dom.style) && border == Border(dom.style)
    requires m == Measured(outer + (if StyleText(dom.style, "box-sizing") == "border-box" then padding + border else 0),
                           Abs(outer - inner) <= 1)
    ensures m == Measure(props, dom)
  {
  }

  /** syncHeight's measuring steps, as the source takes them. */
  method MeasureShadow(props: Props, dom: Dom) returns (m: Measured)
    ensures m == Measure(props, dom)
  {
    var padding := Padding(dom.style);
    var border := Border(dom.style);
    var innerHeight := dom.scrollHeight(ShadowText(dom.inputValue, props.placeholder)) - padding;
    var singleRowHeight := dom.scrollHeight("x") - padding;
    var outerHeight := ComputeOuterHeight(innerHeight, singleRowHeight, props.RowsMin(), props.rowsMax);
    var outerHeightStyle := outerHeight + (if StyleText(dom.style, "box-sizing") == "border-box" then padding + border else 0);
    var overflow := Abs(outerHeight - innerHeight) <= 1;
    m := Measured(outerHeightStyle, overflow);
    assert innerHeight == InnerHeight(props, dom) && singleRowHeight == SingleRowHeight(dom);
    MeasureSteps(props, dom, innerHeight, outerHeight, padding, border, m);
  }

  // ---------------------------------------------------------------------
  // The state updater and its render budget
  // ---------------------------------------------------------------------

  /** The component state; the initial `{}` has neither field. */
  datatype HeightState = HeightState(overflow: Option<bool>, outerHeightStyle: Option<int>)

  const Unmeasured := HeightState(None, None)

  function Applied(m: Measured): HeightState {
    HeightState(Some(m.overflow), Some(m.outerHeightStyle))
  }

  /**
   * The guard of the `setState` updater: a measurement replaces the state
   * only while fewer than `MaxRenders` updates were accepted and the height
   * moved by more than a pixel (a missing height reads as 0) or the
   * overflow flag changed.
   */
  predicate ShouldAccept(renders: nat, prev: HeightState, m: Measured)
    // only with budget left, and an accepted measurement always changes the state
    ensures ShouldAccept(renders, prev, m) ==> renders < MaxRenders && Applied(m) != prev
  {
    renders < MaxRenders &&
    ((m.outerHeightStyle > 0 && Abs(prev.outerHeightStyle.GetOr(0) - m.outerHeightStyle) > 1) ||
     prev.overflow != Some(m.overflow))
  }

  /** The guard's consequences: it needs budget, it always takes a first measurement, and the state it installs is stable. */
  lemma ShouldAcceptProperties(renders: nat, prev: HeightState, m: Measured)
    ensures ShouldAccept(renders, prev, m) ==> renders < MaxRenders
    ensures renders < MaxRenders && prev == Unmeasured ==> ShouldAccept(renders, prev, m)
    ensures !ShouldAccept(renders, Applied(m), m)
    ensures renders < MaxRenders && prev.overflow != Some(m.overflow) ==> ShouldAccept(renders, prev, m)
    ensures prev.overflow == Some(m.overflow) && -1 <= prev.outerHeightStyle.GetOr(0) - m.outerHeightStyle <= 1 ==>
      !ShouldAccept(renders, prev, m)
  {
  }

  /** One run of the updater: the new counter and state. */
  function Step(renders: nat, prev: HeightState, m: Measured): (r: (nat, HeightState))
    // the previous state is returned unchanged exactly when the guard rejects the measurement
    ensures r.1 == prev <==> !ShouldAccept(renders, prev, m)
    ensures r.1 != prev ==> r.1 == Applied(m)
    // the counter counts accepted updates and never passes the budget
    ensures r.0 == renders + (if ShouldAccept(renders, prev, m) then 1 else 0)
    ensures renders <= MaxRenders ==> r.0 <= MaxRenders
  {
    if ShouldAccept(renders, prev, m) then (renders + 1, Applied(m)) else (renders, prev)
  }

  /** How many of the measurements `ms`, applied one after another, are accepted. */
  function AcceptedCount(renders: nat, prev: HeightState, ms: seq<Measured>): nat
    decreases |ms|
  {
    if ms == [] then 0
    else
      var next := Step(renders, prev, ms[0]);
      (if ShouldAccept(renders, prev, ms[0]) then 1 else 0) + AcceptedCount(next.0, next.1, ms[1..])
  }

  /** However the layout keeps moving, at most `MaxRenders - renders` updates are accepted before the next reset. */
  lemma {:induction false} AcceptedWithinBudget(renders: nat, prev: HeightState, ms: seq<Measured>)
    requires renders <= MaxRenders
    ensures AcceptedCount(renders, prev, ms) <= MaxRenders - renders
    decreases |ms|
  {
    if ms != [] {
      var next := Step(renders, prev, ms[0]);
      AcceptedWithinBudget(next.0, next.1, ms[1..]);
    }
  }

  // ---------------------------------------------------------------------
  // The component
  // ---------------------------------------------------------------------

  /** What a change event leads to, in order. */
  datatype ChangeEffect = HeightSynced | ChangeForwarded

  class TextareaAutosize {
    /** Decided once, at mount: the textarea is controlled when a value was given. */
    const isControlled: bool
    var renders: nat
    var state: HeightState

    ghost predicate Valid()
      reads this
    {
      renders <= MaxRenders
    }

    constructor (value: JsValue)
      ensures Valid()
      ensures isControlled <==> !LooselyNull(value)
      ensures renders == 0 && state == Unmeasured
    {
      isControlled := !LooselyNull(value);
      renders := 0;
      state := Unmeasured;
    }

    /** Measure the shadow element and offer the result to the state updater. */
    method SyncHeight(props: Props, dom: Dom) returns (accepted: bool)
      requires Valid()
      modifies this
      ensures Valid()
      ensures accepted == ShouldAccept(old(renders), old(state), Measure(props, dom))
      ensures (renders, state) == Step(old(renders), old(state), Measure(props, dom))
    {
      var m := MeasureShadow(props, dom);
      accepted := ShouldAccept(renders, state, m);
      if accepted {
        renders := renders + 1;
        state := Applied(m);
      }
    }

    /**
     * Every accepted update re-renders the component and its layout effect
     * syncs again, against the page as laid out for the new state. The loop
     * ends: either the layout is stable or the budget is spent.
     */
    method Settle(props: Props, layout: HeightState -> Dom) returns (syncs: nat)
      requires Valid()
      modifies this
      ensures Valid()
      ensures 1 <= syncs <= MaxRenders - old(renders) + 1
      ensures renders == old(renders) + syncs - 1
      ensures !ShouldAccept(renders, state, Measure(props, layout(state)))
    {
      var changed := SyncHeight(props, layout(state));
      syncs := 1;
      while changed
        invariant Valid()
        invariant syncs >= 1
        invariant renders == old(renders) + syncs - (if changed then 0 else 1)
        invariant !changed ==> !ShouldAccept(renders, state, Measure(props, layout(state)))
        decreases MaxRenders - renders + (if changed then 1 else 0)
      {
        changed := SyncHeight(props, layout(state));
        syncs := syncs + 1;
      }
    }

    /** The debounced window-resize handler: reset the counter, then sync. */
    method OnResize(props: Props, dom: Dom) returns (accepted: bool)
      requires Valid()
      modifies this
      ensures Valid()
      ensures accepted == ShouldAccept(0, old(state), Measure(props, dom))
      ensures (renders, state) == Step(0, old(state), Measure(props, dom))
    {
      renders := 0;
      accepted := SyncHeight(props, dom);
    }

    /** The effect on every change of the `value` prop: reset the counter. */
    method OnValueChange()
      modifies this
      ensures Valid()
      ensures renders == 0 && state == old(state)
    {
      renders := 0;
    }

    /** The change handler: reset the counter, sync only when uncontrolled, then forward to `onChange` if given. */
    method HandleChange(props: Props, dom: Dom, hasOnChange: bool) returns (effects: seq<ChangeEffect>)
      requires Valid()
      modifies this
      ensures Valid()
      ensures effects == (if isControlled then [] else [HeightSynced]) + (if hasOnChange then [ChangeForwarded] else [])
      ensures isControlled ==> renders == 0 && state == old(state)
      ensures !isControlled ==> (renders, state) == Step(0, old(state), Measure(props, dom))
    {
      renders := 0;
      var synced: seq<ChangeEffect> := [];
      if !isControlled {
        var accepted := SyncHeight(props, dom);
        synced := [HeightSynced];
      }
      var forwarded: seq<ChangeEffect> := if hasOnChange then [ChangeForwarded] else [];
      effects := synced + forwarded;
    }
  }

  // ---------------------------------------------------------------------
  // Filled/empty notification (checkDirty)
  // ---------------------------------------------------------------------

  /** The enclosing form control's callbacks, by identity; both are absent outside a form control. */
  datatype FormControl = FormControl(onFilled: Option<nat>, onEmpty: Option<nat>)

  datatype DirtyCall = CallOnFilled | CallOnEmpty | NoCall

  /** checkDirty's branch: a truthy value reports "filled", any other "empty", when that callback exists. */
  function CheckDirty(value: JsValue, fc: FormControl): (c: DirtyCall)
    ensures c == CallOnFilled <==> Truthy(value) && fc.onFilled.Some?
    ensures c == CallOnEmpty <==> !Truthy(value) && fc.onEmpty.Some?
  {
    if Truthy(value) then (if fc.onFilled.Some? then CallOnFilled else NoCall)
    else if fc.onEmpty.Some? then CallOnEmpty
    else NoCall
  }

  /** The props of one render of a controlled textarea. */
  datatype RenderInput = RenderInput(value: JsValue, formControl: FormControl)

  /**
   * The `value` seen by the memoised checkDirty after the renders `history`:
   * its closure is rebuilt only on a render whose `[onFilled, onEmpty]`
   * differ from the previous render's, so it keeps that render's value.
   */
  /** Render `j` rebuilt checkDirty: it is the mount, or the callbacks changed there. */
  predicate RebuiltAt(history: seq<RenderInput>, j: nat)
    requires j < |history|
  {
    j == 0 || history[j - 1].formControl != history[j].formControl
  }

  /** The callbacks stayed as they were from render `j` to the last one. */
  predicate UnchangedSince(history: seq<RenderInput>, j: nat)
    requires j < |history|
  {
    forall k :: j <= k < |history| ==> history[k].formControl == history[|history| - 1].formControl
  }

  function CapturedValue(history: seq<RenderInput>): (v: JsValue)
    requires history != []
    // the value of the last render that rebuilt the callback
    ensures exists j: nat ::
      (j < |history| && RebuiltAt(history, j) && UnchangedSince(history, j) && history[j].value == v)
    decreases |history|
  {
    var n := |history|;
    var last := history[n - 1];
    if n == 1 || history[n - 2].formControl != last.formControl then
      assert RebuiltAt(history, n - 1) && UnchangedSince(history, n - 1);
      last.value
    else
      var prefix := history[..n - 1];
      var v := CapturedValue(prefix);
      var j: nat :| j < |prefix| && RebuiltAt(prefix, j) && UnchangedSince(prefix, j) && prefix[j].value == v;
      assert RebuiltAt(history, j);
      assert UnchangedSince(history, j) by {
        forall k | j <= k < n ensures history[k].formControl == last.formControl {
          if k < n - 1 {
            assert prefix[k].formControl == prefix[|prefix| - 1].formControl;
          }
        }
      }
      v
  }

  /** Only one render fits that description, so the captured value is determined. */
  lemma RebuildPointUnique(history: seq<RenderInput>, i: nat, j: nat)
    requires i < |history| && j < |history|
    requires RebuiltAt(history, i) && UnchangedSince(history, i)
    requires RebuiltAt(history, j) && UnchangedSince(history, j)
    ensures i == j
  {
  }

  /** The mount/value effect as written: it checks the value captured by the memoised callback. */
  function DirtyEffectAsWritten(isControlled: bool, history: seq<RenderInput>): (c: Option<DirtyCall>)
    requires history != []
    ensures c.Some? <==> isControlled
    // the filled/empty decision follows the captured value, with the current callbacks
    ensures isControlled ==>
      var now := history[|history| - 1];
      (c == Some(CallOnFilled) <==> Truthy(CapturedValue(history)) && now.formControl.onFilled.Some?) &&
      (c == Some(CallOnEmpty) <==> !Truthy(CapturedValue(history)) && now.formControl.onEmpty.Some?)
  {
    if isControlled then Some(CheckDirty(CapturedValue(history), history[|history| - 1].formControl)) else None
  }

  /** The effect as intended: it checks the value it is handed, the current one. */
  function DirtyEffect(isControlled: bool, history: seq<RenderInput>): (c: Option<DirtyCall>)
    requires history != []
    ensures c.Some? <==> isControlled
    ensures isControlled ==>
      var now := history[|history| - 1];
      (c == Some(CallOnFilled) <==> Truthy(now.value) && now.formControl.onFilled.Some?) &&
      (c == Some(CallOnEmpty) <==> !Truthy(now.value) && now.formControl.onEmpty.Some?)
  {
    if isControlled then
      var now := history[|history| - 1];
      Some(CheckDirty(now.value, now.formControl))
    else None
  }

  /** The two agree on a render that changed the form control's callbacks. */
  lemma DirtyEffectsAgreeOnNewCallbacks(isControlled: bool, history: seq<RenderInput>)
    requires |history| >= 2
    requires history[|history| - 2].formControl != history[|history| - 1].formControl
    ensures DirtyEffectAsWritten(isControlled, history) == DirtyEffect(isControlled, history)
  {
  }

  /** Typing into an empty controlled textarea inside a form control still reports "empty" as written. */
  lemma StaleDirtyCheck()
    ensures
      var fc := FormControl(Some(1), Some(2));
      var history := [RenderInput(Str(""), fc), RenderInput(Str("abc"), fc)];
      DirtyEffectAsWritten(true, history) == Some(CallOnEmpty) &&
      DirtyEffect(true, history) == Some(CallOnFilled)
  {
    var fc := FormControl(Some(1), Some(2));
    var history := [RenderInput(Str(""), fc), RenderInput(Str("abc"), fc)];
    assert history[..1] == [RenderInput(Str(""), fc)];
  }
}
