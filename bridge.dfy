/**
 * The Bridge pattern: remotes (the abstraction) drive devices (the
 * implementation) through the device interface. A device is one class with a
 * fixed kind, TV or radio, whose setters silently ignore values out of range;
 * the remotes issue absolute and relative updates that pass through those
 * checks. The pure part gives the effect of every remote command on a device's
 * values, so that the range invariants can be proved over any command sequence.
 */
module Bridge {
  import Text

  datatype DeviceKind = Tv | Radio

  /** The values a device keeps: its power flag, volume and channel. */
  datatype DeviceState = DeviceState(on: bool, volume: int, channel: int)

  /** A new TV is off at volume 30 on channel 1; a new radio is off at volume 20 on FM 87. */
  function InitialState(kind: DeviceKind): DeviceState {
    match kind
    case Tv => DeviceState(false, 30, 1)
    case Radio => DeviceState(false, 20, 87)
  }

  /** The range check of `setVolume`, the same for both devices. */
  predicate VolumeAccepted(v: int) {
    0 <= v <= 100
  }

  /** The range check of `setChannel`: a TV takes any channel, a radio only the FM band 87..108. */
  predicate ChannelAccepted(kind: DeviceKind, c: int) {
    match kind
    case Tv => true
    case Radio => 87 <= c <= 108
  }

  /** The invariant every device keeps: volume in [0,100], and for a radio channel in [87,108]. */
  predicate InRange(kind: DeviceKind, st: DeviceState) {
    VolumeAccepted(st.volume) && (kind == Radio ==> 87 <= st.channel <= 108)
  }

  lemma InitialStateInRange(kind: DeviceKind)
    ensures InRange(kind, InitialState(kind)) && !InitialState(kind).on
  {
  }

  /** `setChannel(c)`: takes c when the device accepts it, otherwise changes nothing. */
  function WithChannel(kind: DeviceKind, st: DeviceState, c: int): (r: DeviceState)
    ensures ChannelAccepted(kind, c) ==> r == st.(channel := c)
    ensures !ChannelAccepted(kind, c) ==> r == st
  {
    if ChannelAccepted(kind, c) then st.(channel := c) else st
  }

  /** `setVolume(v)`: takes v when it is in [0,100], otherwise changes nothing. */
  function WithVolume(st: DeviceState, v: int): (r: DeviceState)
    ensures VolumeAccepted(v) ==> r == st.(volume := v)
    ensures !VolumeAccepted(v) ==> r == st
  {
    if VolumeAccepted(v) then st.(volume := v) else st
  }

  /** Every operation a remote offers. */
  datatype Command =
    | TurnOn | TurnOff
    | SetChannel(channel: int) | SetVolume(volume: int)
    | ChannelUp | ChannelDown | VolumeUp | VolumeDown
    | Mute | SaveChannel(favorite: int)

  /**
   * The effect of one remote command on a device of the given kind. Only the
   * power commands touch the power flag, and a volume or channel that changes
   * has passed the device's own check.
   */
  function Exec(kind: DeviceKind, st: DeviceState, cmd: Command): (r: DeviceState)
    ensures r.on == if cmd == TurnOn then true else if cmd == TurnOff then false else st.on
    ensures r.volume != st.volume ==> VolumeAccepted(r.volume)
    ensures r.channel != st.channel ==> ChannelAccepted(kind, r.channel)
  {
    match cmd
    case TurnOn => st.(on := true)
    case TurnOff => st.(on := false)
    case SetChannel(c) => WithChannel(kind, st, c)
    case SetVolume(v) => WithVolume(st, v)
    case ChannelUp => WithChannel(kind, st, st.channel + 1)
    case ChannelDown => WithChannel(kind, st, st.channel - 1)
    case VolumeUp => WithVolume(st, st.volume + 10)
    case VolumeDown => WithVolume(st, st.volume - 10)
    case Mute => WithVolume(st, 0)
    case SaveChannel(c) => WithChannel(kind, st, c)
  }

  /** The effect of a sequence of commands, applied in order. */
  function RunCommands(kind: DeviceKind, st: DeviceState, cmds: seq<Command>): DeviceState
    decreases |cmds|
  {
    if cmds == [] then st else RunCommands(kind, Exec(kind, st, cmds[0]), cmds[1..])
  }

  lemma ExecKeepsInRange(kind: DeviceKind, st: DeviceState, cmd: Command)
    requires InRange(kind, st)
    ensures InRange(kind, Exec(kind, st, cmd))
  {
  }

  /** Volume stays in [0,100], and a radio's channel in [87,108], whatever the remotes do. */
  lemma {:induction false} RunKeepsInRange(kind: DeviceKind, st: DeviceState, cmds: seq<Command>)
    requires InRange(kind, st)
    ensures InRange(kind, RunCommands(kind, st, cmds))
    decreases |cmds|
  {
    if cmds != [] {
      ExecKeepsInRange(kind, st, cmds[0]);
      RunKeepsInRange(kind, Exec(kind, st, cmds[0]), cmds[1..]);
    }
  }

  /**
   * The relative volume steps are not clamped: a step that would leave [0,100]
   * is ignored as a whole, so `volumeUp` at 95 stays at 95 rather than going to 100.
   */
  lemma VolumeStepsAreAllOrNothing(kind: DeviceKind, st: DeviceState)
    requires InRange(kind, st)
    ensures Exec(kind, st, VolumeUp).volume == if st.volume <= 90 then st.volume + 10 else st.volume
    ensures Exec(kind, st, VolumeDown).volume == if st.volume >= 10 then st.volume - 10 else st.volume
    ensures st.volume == 95 ==> Exec(kind, st, VolumeUp) == st
  {
  }

  /**
   * The relative channel steps go through the device's check: a radio at the
   * top of the band stays there, and a TV on channel 1 steps down to 0.
   */
  lemma ChannelStepsAtTheEdges(st: DeviceState)
    ensures st.channel == 108 ==> Exec(Radio, st, ChannelUp) == st
    ensures st.channel == 87 ==> Exec(Radio, st, ChannelDown) == st
    ensures Exec(Tv, st, ChannelDown).channel == st.channel - 1
  {
  }

  /** `mute` always ends at volume 0, since 0 is accepted by both devices, and touches nothing else. */
  lemma MuteSilences(kind: DeviceKind, st: DeviceState)
    ensures Exec(kind, st, Mute) == st.(volume := 0)
  {
  }

  /** `saveChannel(n)` has the device effect of `setChannel(n)`: a radio ignores 120. */
  lemma SaveChannelIsSetChannel(kind: DeviceKind, st: DeviceState, n: int)
    ensures Exec(kind, st, SaveChannel(n)) == Exec(kind, st, SetChannel(n))
    ensures kind == Radio ==> Exec(kind, st, SaveChannel(120)) == st
  {
  }

  /**
   * No command checks whether the device is on: apart from the power commands,
   * every command has the same effect on volume and channel whether the device
   * is on or off, and leaves the power flag alone.
   */
  lemma {:induction false} CommandsIgnorePower(kind: DeviceKind, st: DeviceState, cmds: seq<Command>, on: bool)
    requires forall i :: 0 <= i < |cmds| ==> cmds[i] != TurnOn && cmds[i] != TurnOff
    ensures RunCommands(kind, st.(on := on), cmds) == RunCommands(kind, st, cmds).(on := on)
    ensures RunCommands(kind, st, cmds).on == st.on
    decreases |cmds|
  {
    if cmds != [] {
      CommandsIgnorePower(kind, Exec(kind, st, cmds[0]), cmds[1..], on);
    }
  }

  /** The text `saveChannel` reports, whether or not the device accepts the channel. */
  function FavoriteMessage(n: int): (r: string)
    ensures |r| > 26 && r[..14] == "Saved channel " && r[|r| - 12..] == " as favorite"
  {
    "Saved channel " + Text.IntToString(n) + " as favorite"
  }

  /** The report names the channel: different channels give different reports. */
  lemma FavoriteMessageIdentifies(n: int, m: int)
    ensures FavoriteMessage(n) == FavoriteMessage(m) <==> n == m
  {
    if FavoriteMessage(n) == FavoriteMessage(m) {
      Text.LabelledIntSplits("Saved channel ", n, m, " as favorite", " as favorite");
    }
  }

  /** A TV or a radio; the kind decides which channels `SetChannel` accepts. */
  class Device {
    const kind: DeviceKind
    var on: bool
    var volume: int
    var channel: int

    function State(): DeviceState
      reads this
    {
      DeviceState(on, volume, channel)
    }

    constructor Tv()
      ensures kind == DeviceKind.Tv && State() == InitialState(DeviceKind.Tv)
    {
      kind := DeviceKind.Tv;
      on, volume, channel := false, 30, 1;
    }

    constructor Radio()
      ensures kind == DeviceKind.Radio && State() == InitialState(DeviceKind.Radio)
    {
      kind := DeviceKind.Radio;
      on, volume, channel := false, 20, 87;
    }

    method Enable()
      modifies this
      ensures State() == old(State()).(on := true)
    {
      on := true;
    }

    method Disable()
      modifies this
      ensures State() == old(State()).(on := false)
    {
      on := false;
    }

    method SetChannel(c: int)
      modifies this
      ensures State() == WithChannel(kind, old(State()), c)
    {
      match kind
      case Tv =>
        channel := c;
      case Radio =>
        if c >= 87 && c <= 108 {
          channel := c;
        }
    }

    method SetVolume(v: int)
      modifies this
      ensures State() == WithVolume(old(State()), v)
    {
      if v >= 0 && v <= 100 {
        volume := v;
      }
    }
  }

  /**
   * A remote control bound for its whole life to the device it was built with.
   * The basic remote's relative steps and the advanced remote's `mute` and
   * `saveChannel` are all here: the subclasses only add operations.
   */
  class Remote {
    const device: Device

    constructor (device: Device)
      ensures this.device == device
    {
      this.device := device;
    }

    method TurnOn()
      modifies device
      ensures device.State() == Exec(device.kind, old(device.State()), Command.TurnOn)
    {
      device.Enable();
    }

    method TurnOff()
      modifies device
      ensures device.State() == Exec(device.kind, old(device.State()), Command.TurnOff)
    {
      device.Disable();
    }

    method SetChannel(c: int)
      modifies device
      ensures device.State() == Exec(device.kind, old(device.State()), Command.SetChannel(c))
    {
      device.SetChannel(c);
    }

    method SetVolume(v: int)
      modifies device
      ensures device.State() == Exec(device.kind, old(device.State()), Command.SetVolume(v))
    {
      device.SetVolume(v);
    }

    method ChannelUp()
      modifies device
      ensures device.State() == Exec(device.kind, old(device.State()), Command.ChannelUp)
    {
      SetChannel(device.channel + 1);
    }

    method ChannelDown()
      modifies device
      ensures device.State() == Exec(device.kind, old(device.State()), Command.ChannelDown)
    {
      SetChannel(device.channel - 1);
    }

    method VolumeUp()
      modifies device
      ensures device.State() == Exec(device.kind, old(device.State()), Command.VolumeUp)
    {
      SetVolume(device.volume + 10);
    }

    method VolumeDown()
      modifies device
      ensures device.State() == Exec(device.kind, old(device.State()), Command.VolumeDown)
    {
      SetVolume(device.volume - 10);
    }

    method Mute()
      modifies device
      ensures device.State() == Exec(device.kind, old(device.State()), Command.Mute)
      ensures device.volume == 0
    {
      device.SetVolume(0);
    }

    method SaveChannel(n: int) returns (message: string)
      modifies device
      ensures device.State() == Exec(device.kind, old(device.State()), Command.SaveChannel(n))
      ensures message == FavoriteMessage(n)
    {
      message := FavoriteMessage(n);
      SetChannel(n);
    }
  }

  /**
   * The TV half of the demo script: a basic and an advanced remote share the
   * TV, so what one does the other sees. On, channel 5, volume up; then mute
   * and favourite 7.
   */
  method TvScenario() returns (channel: int, volume: int, mutedVolume: int, saved: string)
    ensures channel == 5 && volume == 40 && mutedVolume == 0
    ensures saved == "Saved channel 7 as favorite"
  {
    var tv := new Device.Tv();
    var basicRemote := new Remote(tv);
    var advancedRemote := new Remote(tv);
    basicRemote.TurnOn();
    basicRemote.SetChannel(5);
    basicRemote.VolumeUp();
    channel, volume := tv.channel, tv.volume;
    advancedRemote.Mute();
    saved := advancedRemote.SaveChannel(7);
    assert Text.IntToString(7) == "7";
    mutedVolume := tv.volume;
  }

  /** The radio half of the demo script: on, FM 98, volume up; then mute and favourite 101. */
  method RadioScenario() returns (channel: int, volume: int, mutedVolume: int, saved: string)
    ensures channel == 98 && volume == 30 && mutedVolume == 0
    ensures saved == "Saved channel 101 as favorite"
  {
    var radio := new Device.Radio();
    var basicRemote := new Remote(radio);
    var advancedRemote := new Remote(radio);
    basicRemote.TurnOn();
    basicRemote.SetChannel(98);
    basicRemote.VolumeUp();
    channel, volume := radio.channel, radio.volume;
    advancedRemote.Mute();
    saved := advancedRemote.SaveChannel(101);
    assert Text.IntToString(101) == "101";
    mutedVolume := radio.volume;
  }
}
