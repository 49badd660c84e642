// TeleopPolicy: joystick access for the autonomous-task layer. It keeps the
// last two joystick messages, resolves button and axis names through two
// levels of configured maps, and answers queries only once it has been
// initialised and has seen at least two messages.
module Teleop {

  datatype Option<T> = None | Some(value: T)

  /** A sensor_msgs/Joy message: float32 axes and int32 buttons. */
  datatype JoyMsg = JoyMsg(axes: seq<real>, buttons: seq<int>)

  /** A default-constructed message holds no axes and no buttons. */
  function EmptyJoy(): JoyMsg {
    JoyMsg([], [])
  }

  /**
   * The `joystick/assignments` parameter tree: `high_level` maps task-level
   * names to logical names, `low_level` maps logical names to positions in
   * the message.
   */
  datatype JoystickAssignments = JoystickAssignments(
    highLevelAxes: map<string, string>,
    highLevelButtons: map<string, string>,
    lowLevelAxes: map<string, int>,
    lowLevelButtons: map<string, int>)

  const TWO_TO_THE_32: int := 0x1_0000_0000
  const TWO_TO_THE_64: int := 0x1_0000_0000_0000_0000

  /** Storing an `int` in an `unsigned int`: the value modulo 2^32. */
  function ToUnsigned32(v: int): (r: nat)
    ensures r < TWO_TO_THE_32
    ensures 0 <= v < TWO_TO_THE_32 ==> r == v
    ensures v < 0 && -TWO_TO_THE_32 <= v ==> r == v + TWO_TO_THE_32
  {
    v % TWO_TO_THE_32
  }

  /** The low-level index map as stored: every configured index converted to unsigned. */
  function Unsigned32Values(src: map<string, int>): (r: map<string, nat>)
    ensures r.Keys == src.Keys
    ensures forall k :: k in r ==> r[k] < TWO_TO_THE_32
    ensures forall k :: k in src ==> r[k] == ToUnsigned32(src[k])
  {
    map k | k in src :: ToUnsigned32(src[k])
  }

  /**
   * Copying every entry of `src` into `m`, one key at a time; an entry of
   * `src` overwrites an entry of `m` with the same key.
   */
  method Merge<V>(m: map<string, V>, src: map<string, V>) returns (r: map<string, V>)
    ensures r == m + src
  {
    r := m;
    var pending := src.Keys;
    while pending != {}
      invariant pending <= src.Keys
      invariant r.Keys == m.Keys + (src.Keys - pending)
      invariant forall k :: k in src && k !in pending ==> r[k] == src[k]
      invariant forall k :: k in m && k !in src ==> r[k] == m[k]
      decreases pending
    {
      var k :| k in pending;
      r := r[k := src[k]];
      pending := pending - {k};
    }
    assert r.Keys == (m + src).Keys;
  }

  /** `m[k]` of a std::map: the stored value, or the default `d` when `k` is absent. */
  function Lookup<V>(m: map<string, V>, k: string, d: V): (v: V)
    ensures k in m ==> v == m[k]
    ensures k !in m ==> v == d
  {
    if k in m then m[k] else d
  }

  /** The map after `m[k]` has been evaluated: `k` is inserted with `d` when absent. */
  function WithDefault<V>(m: map<string, V>, k: string, d: V): (r: map<string, V>)
    ensures k in r && r[k] == Lookup(m, k, d)
    ensures r.Keys == m.Keys + {k}
  {
    if k in m then m else m[k := d]
  }

  /**
   * Inserting the default on a lookup is invisible to every later lookup
   * with the same default, so the getters can be read as pure queries.
   */
  lemma DefaultInsertionIsInvisible<V>(m: map<string, V>, k: string, d: V, k': string)
    ensures Lookup(WithDefault(m, k, d), k', d) == Lookup(m, k', d)
  {
  }

  /**
   * Name resolution: task-level name to logical name (default ""), logical
   * name to message position (default 0).
   */
  function ResolveIndex(names: map<string, string>, indices: map<string, nat>, name: string): (idx: nat)
    ensures name in names && names[name] in indices ==> idx == indices[names[name]]
    ensures name !in names ==> idx == Lookup(indices, "", 0)
    ensures name in names && names[name] !in indices ==> idx == 0
  {
    Lookup(indices, Lookup(names, name, ""), 0)
  }

  /**
   * Resolving one name with default insertion on both maps changes what no
   * name resolves to.
   */
  lemma {:induction false} ResolutionIsStable(names: map<string, string>, indices: map<string, nat>, name: string, other: string)
    ensures var names' := WithDefault(names, name, "");
            var indices' := WithDefault(indices, Lookup(names, name, ""), 0);
            ResolveIndex(names', indices', other) == ResolveIndex(names, indices, other)
  {
    var names' := WithDefault(names, name, "");
    DefaultInsertionIsInvisible(names, name, "", other);
    DefaultInsertionIsInvisible(indices, Lookup(names, name, ""), 0, Lookup(names', other, ""));
  }

  /** A button counts as pressed when its value is non-zero. */
  predicate Pressed(m: JoyMsg, idx: nat)
    requires idx < |m.buttons|
  {
    m.buttons[idx] != 0
  }

  /**
   * The button went down between the earlier and the later message. The
   * earlier message is read only when the button is down in the later one.
   */
  predicate Acquired(later: JoyMsg, earlier: JoyMsg, idx: nat)
    requires idx < |later.buttons|
    requires Pressed(later, idx) ==> idx < |earlier.buttons|
  {
    Pressed(later, idx) && !Pressed(earlier, idx)
  }

  /** The button came up between the earlier and the later message. */
  predicate Released(later: JoyMsg, earlier: JoyMsg, idx: nat)
    requires idx < |later.buttons|
    requires !Pressed(later, idx) ==> idx < |earlier.buttons|
  {
    !Pressed(later, idx) && Pressed(earlier, idx)
  }

  /** A button is never both acquired and released at the same time. */
  lemma AcquiredExcludesReleased(later: JoyMsg, earlier: JoyMsg, idx: nat)
    requires idx < |later.buttons| && idx < |earlier.buttons|
    ensures !(Acquired(later, earlier, idx) && Released(later, earlier, idx))
    ensures Acquired(later, earlier, idx) ==> Pressed(later, idx)
    ensures Released(later, earlier, idx) ==> !Pressed(later, idx)
  {
  }

  /** Read backwards in time, an acquisition is a release and vice versa. */
  lemma AcquiredIsReversedRelease(later: JoyMsg, earlier: JoyMsg, idx: nat)
    requires idx < |later.buttons| && idx < |earlier.buttons|
    ensures Acquired(later, earlier, idx) <==> Released(earlier, later, idx)
  {
  }

  /** A button held in the same state across both messages shows no edge. */
  lemma NoEdgeWithoutChange(later: JoyMsg, earlier: JoyMsg, idx: nat)
    requires idx < |later.buttons| && idx < |earlier.buttons|
    requires later.buttons[idx] == earlier.buttons[idx]
    ensures !Acquired(later, earlier, idx) && !Released(later, earlier, idx)
  {
  }

  /**
   * getButtonsAsAxis as written: the comma operator evaluates the first
   * button, discards it, and returns the negated second button.
   */
  function ButtonsAsAxisAsWritten(m: JoyMsg, idx1: nat, idx2: nat): (value: real)
    requires idx1 < |m.buttons| && idx2 < |m.buttons|
    ensures value == ButtonsAsAxis(m, idx1, idx2) - m.buttons[idx1] as real
  {
    var _ := m.buttons[idx1];
    -(m.buttons[idx2] as real)
  }

  /** The as-written axis depends on the second button only. */
  lemma AsWrittenIgnoresFirstButton(m: JoyMsg, idx1: nat, idx1': nat, idx2: nat)
    requires idx1 < |m.buttons| && idx1' < |m.buttons| && idx2 < |m.buttons|
    ensures ButtonsAsAxisAsWritten(m, idx1, idx2) == ButtonsAsAxisAsWritten(m, idx1', idx2)
  {
  }

  /**
   * Two buttons as one axis, as intended: the first button pushes towards
   * +1, the second towards -1.
   */
  function ButtonsAsAxis(m: JoyMsg, idx1: nat, idx2: nat): (value: real)
    requires idx1 < |m.buttons| && idx2 < |m.buttons|
  {
    m.buttons[idx1] as real - m.buttons[idx2] as real
  }

  /**
   * With 0/1 buttons the intended axis is -1, 0 or +1: positive exactly when
   * only the first button is down, negative exactly when only the second
   * is, and swapping the buttons negates it.
   */
  lemma ButtonsAsAxisIsDirectional(m: JoyMsg, idx1: nat, idx2: nat)
    requires idx1 < |m.buttons| && idx2 < |m.buttons|
    requires 0 <= m.buttons[idx1] <= 1 && 0 <= m.buttons[idx2] <= 1
    ensures ButtonsAsAxis(m, idx1, idx2) in {-1.0, 0.0, 1.0}
    ensures ButtonsAsAxis(m, idx1, idx2) > 0.0 <==> Pressed(m, idx1) && !Pressed(m, idx2)
    ensures ButtonsAsAxis(m, idx1, idx2) < 0.0 <==> !Pressed(m, idx1) && Pressed(m, idx2)
    ensures ButtonsAsAxis(m, idx2, idx1) == -ButtonsAsAxis(m, idx1, idx2)
  {
  }

  /**
   * The as-written axis stays at 0 with the first button down and the
   * second up, where the intended axis reads +1.
   */
  lemma AsWrittenLosesFirstButton()
    ensures var m := JoyMsg([], [1, 0]);
            ButtonsAsAxisAsWritten(m, 0, 1) == 0.0 && ButtonsAsAxis(m, 0, 1) == 1.0
  {
  }

  /** The `received`-th message counted modulo 2^64, as `msg_count_` holds it. */
  function MessageCount(received: nat): (count: nat)
    ensures count < TWO_TO_THE_64
    ensures received < TWO_TO_THE_64 ==> count == received
  {
    received % TWO_TO_THE_64
  }

  /**
   * `cached_ := cached_ || msg_count_ > 1` keeps `cached_` equal to "at
   * least two messages received", even once the counter wraps to 0 and 1.
   */
  lemma {:induction false} CachedTracksTwoMessages(received: nat)
    ensures (received > 1 || MessageCount(received + 1) > 1) <==> received + 1 > 1
  {
    if received == 0 {
      assert MessageCount(1) == 1;
    } else if received == 1 {
      assert MessageCount(2) == 2;
    }
  }

  /** The message `back` steps before the latest, or an empty message if there is none. */
  function Recent(history: seq<JoyMsg>, back: nat): JoyMsg {
    if back < |history| then history[|history| - 1 - back] else EmptyJoy()
  }

  class TeleopPolicy {
    var name: string
    var initialized: bool
    var cached: bool
    var msgCount: nat
    var last: JoyMsg
    var secondLast: JoyMsg
    var axesMsgMap: map<string, nat>
    var buttonMsgMap: map<string, nat>
    var axesMap: map<string, string>
    var buttonMap: map<string, string>
    /** Every joystick message received, oldest first. */
    ghost var history: seq<JoyMsg>

    /**
     * The counter is the number of messages modulo 2^64, `cached` says
     * whether two messages have arrived, and the two stored messages are the
     * two most recent ones.
     */
    ghost predicate Valid()
      reads this
    {
      && msgCount == MessageCount(|history|)
      && cached == (|history| > 1)
      && last == Recent(history, 0)
      && secondLast == Recent(history, 1)
    }

    constructor (name: string)
      ensures Valid() && history == []
      ensures this.name == name && !initialized && !cached && msgCount == 0
      ensures last == EmptyJoy() && secondLast == EmptyJoy()
      ensures axesMsgMap == map[] && buttonMsgMap == map[] && axesMap == map[] && buttonMap == map[]
    {
      this.name := name;
      initialized := false;
      cached := false;
      msgCount := 0;
      last := EmptyJoy();
      secondLast := EmptyJoy();
      axesMsgMap := map[];
      buttonMsgMap := map[];
      axesMap := map[];
      buttonMap := map[];
      history := [];
    }

    /**
     * init: `None` stands for a missing `joystick/assignments` parameter,
     * which leaves the policy as it was. Otherwise the four maps are filled
     * from the parameter tree, later entries overwriting earlier ones.
     */
    method Init(assignments: Option<JoystickAssignments>)
      requires Valid()
      modifies this
      ensures Valid() && history == old(history)
      ensures assignments.None? ==> initialized == old(initialized)
      ensures assignments.None? ==> axesMap == old(axesMap) && buttonMap == old(buttonMap)
      ensures assignments.None? ==> axesMsgMap == old(axesMsgMap) && buttonMsgMap == old(buttonMsgMap)
      ensures assignments.Some? ==> initialized
      ensures assignments.Some? ==> axesMap == old(axesMap) + assignments.value.highLevelAxes
      ensures assignments.Some? ==> buttonMap == old(buttonMap) + assignments.value.highLevelButtons
      ensures assignments.Some? ==> axesMsgMap == old(axesMsgMap) + Unsigned32Values(assignments.value.lowLevelAxes)
      ensures assignments.Some? ==> buttonMsgMap == old(buttonMsgMap) + Unsigned32Values(assignments.value.lowLevelButtons)
      ensures cached == old(cached) && msgCount == old(msgCount) && name == old(name)
      ensures last == old(last) && secondLast == old(secondLast)
    {
      if assignments.None? {
        // "failed to load joystick assignments"
        return;
      }
      var a := assignments.value;
      axesMap := Merge(axesMap, a.highLevelAxes);
      buttonMap := Merge(buttonMap, a.highLevelButtons);
      axesMsgMap := Merge(axesMsgMap, Unsigned32Values(a.lowLevelAxes));
      buttonMsgMap := Merge(buttonMsgMap, Unsigned32Values(a.lowLevelButtons));
      initialized := true;
    }

    /** joyCallback: shift the two-message history and count the message. */
    method JoyCallback(msg: JoyMsg)
      requires Valid()
      modifies this
      ensures Valid() && history == old(history) + [msg]
      ensures last == msg && secondLast == old(last)
      ensures msgCount == (old(msgCount) + 1) % TWO_TO_THE_64
      ensures old(cached) ==> cached
      ensures initialized == old(initialized) && name == old(name)
      ensures axesMap == old(axesMap) && buttonMap == old(buttonMap)
      ensures axesMsgMap == old(axesMsgMap) && buttonMsgMap == old(buttonMsgMap)
    {
      secondLast := last;
      last := msg;
      msgCount := (msgCount + 1) % TWO_TO_THE_64;
      if msgCount > 1 {
        cached := true;
      }
      CachedTracksTwoMessages(|history|);
      history := history + [msg];
    }

    /** The TELEOPPOLICY_CHECK_ENABLED gate. */
    predicate Enabled()
      reads this
      ensures Enabled() ==> initialized && cached
      ensures !Enabled() ==> !initialized || !cached
      ensures Valid() ==> (Enabled() <==> initialized && |history| >= 2)
    {
      initialized && cached
    }

    /** The gate opens exactly when init succeeded and two messages have arrived. */
    lemma EnabledAfterTwoMessages()
      requires Valid()
      ensures Enabled() <==> initialized && |history| >= 2
      ensures Enabled() ==> last == history[|history| - 1] && secondLast == history[|history| - 2]
    {
    }

    function ButtonIndex(button: string): nat
      reads this
    {
      ResolveIndex(buttonMap, buttonMsgMap, button)
    }

    function AxisIndex(axis: string): nat
      reads this
    {
      ResolveIndex(axesMap, axesMsgMap, axis)
    }

    /** getButton: whether the button is down in the latest message. */
    function GetButton(button: string): (pressed: bool)
      reads this
      requires Valid()
      requires Enabled() ==> ButtonIndex(button) < |last.buttons|
      ensures !Enabled() ==> !pressed
      ensures Enabled() ==> (pressed <==> Pressed(history[|history| - 1], ButtonIndex(button)))
    {
      EnabledAfterTwoMessages();
      Enabled() && Pressed(last, ButtonIndex(button))
    }

    /** getButtonAquired: the button went down between the last two messages received. */
    function GetButtonAcquired(button: string): (acquired: bool)
      reads this
      requires Valid()
      requires Enabled() ==> ButtonIndex(button) < |last.buttons|
      requires Enabled() && Pressed(last, ButtonIndex(button)) ==> ButtonIndex(button) < |secondLast.buttons|
      ensures !Enabled() ==> !acquired
      ensures Enabled() ==> (acquired <==> Acquired(history[|history| - 1], history[|history| - 2], ButtonIndex(button)))
    {
      EnabledAfterTwoMessages();
      Enabled() && Acquired(last, secondLast, ButtonIndex(button))
    }

    /** getButtonReleased: the button came up between the last two messages received. */
    function GetButtonReleased(button: string): (released: bool)
      reads this
      requires Valid()
      requires Enabled() ==> ButtonIndex(button) < |last.buttons|
      requires Enabled() && !Pressed(last, ButtonIndex(button)) ==> ButtonIndex(button) < |secondLast.buttons|
      ensures !Enabled() ==> !released
      ensures Enabled() ==> (released <==> Released(history[|history| - 1], history[|history| - 2], ButtonIndex(button)))
    {
      EnabledAfterTwoMessages();
      Enabled() && Released(last, secondLast, ButtonIndex(button))
    }

    /** getAxis: the axis value in the latest message; the closed gate returns false, i.e. 0. */
    function GetAxis(axis: string): (value: real)
      reads this
      requires Valid()
      requires Enabled() ==> AxisIndex(axis) < |last.axes|
      ensures !Enabled() ==> value == 0.0
      ensures Enabled() ==> value == history[|history| - 1].axes[AxisIndex(axis)]
    {
      EnabledAfterTwoMessages();
      if Enabled() then last.axes[AxisIndex(axis)] else 0.0
    }

    /**
     * getButtonsAsAxis as written: both buttons of the latest message are
     * read, and the result is the negated second one (see
     * ButtonsAsAxisAsWritten; ButtonsAsAxis is the evident intent).
     */
    function GetButtonsAsAxis(button1: string, button2: string): (value: real)
      reads this
      requires Valid()
      requires Enabled() ==> ButtonIndex(button1) < |last.buttons| && ButtonIndex(button2) < |last.buttons|
      ensures !Enabled() ==> value == 0.0
      ensures Enabled() ==> value == -(history[|history| - 1].buttons[ButtonIndex(button2)] as real)
      ensures Enabled() ==> value == ButtonsAsAxis(history[|history| - 1], ButtonIndex(button1), ButtonIndex(button2))
                                     - history[|history| - 1].buttons[ButtonIndex(button1)] as real
    {
      EnabledAfterTwoMessages();
      if Enabled() then ButtonsAsAxisAsWritten(last, ButtonIndex(button1), ButtonIndex(button2)) else 0.0
    }
  }

  /**
   * A "fire" button mapped to logical button "trigger" at position 2: after
   * one message nothing is reported; a second message with the button down
   * reports it as pressed and acquired, not released.
   */
  method FireButtonScenario() returns (afterOne: bool, pressed: bool, acquired: bool, released: bool)
    ensures !afterOne && pressed && acquired && !released
  {
    var policy := new TeleopPolicy("fire_control");
    policy.Init(Some(JoystickAssignments(map[], map["fire" := "trigger"], map[], map["trigger" := 2])));
    policy.JoyCallback(JoyMsg([], [0, 0, 0]));
    afterOne := policy.GetButtonAcquired("fire");
    policy.JoyCallback(JoyMsg([], [0, 0, 1]));
    pressed := policy.GetButton("fire");
    acquired := policy.GetButtonAcquired("fire");
    released := policy.GetButtonReleased("fire");
  }
}
