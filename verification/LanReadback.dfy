/** When a devStatus readback confirms a LAN write (_lan_write_confirmed of coordinator.py). */
module LanReadback {
  import opened LanBrightness
  import opened Scaling

  const LAN_BRIGHTNESS_CONFIRM_TOLERANCE := 2
  const LAN_COLOR_TEMP_CONFIRM_TOLERANCE := 150

  datatype Option<+T> = None | Some(value: T)

  datatype Rgb = Rgb(r: int, g: int, b: int)

  datatype Command = Power(on: bool) | Brightness(native: int) | Color(rgb: Rgb) | ColorTemp(kelvin: int) | OtherCommand

  /** A field the device left out is None; brightness is on the LAN scale. */
  datatype DevStatus = DevStatus(on: Option<bool>, brightness: Option<int>, color: Option<Rgb>, kelvin: Option<int>)

  /** The device's own brightness range. */
  datatype Range = Range(min: int, max: int)

  function Abs(x: int): int {
    if x < 0 then -x else x
  }

  /** _lan_write_confirmed */
  predicate Confirmed(command: Command, reply: DevStatus, range: Range) {
    match command
    case Power(on) => reply.on == Some(on)
    case Brightness(native) =>
      && reply.brightness.Some?
      && Abs(ToNative(reply.brightness.value, range.min, range.max) - native) <= LAN_BRIGHTNESS_CONFIRM_TOLERANCE
    case Color(rgb) => reply.color == Some(rgb)
    case ColorTemp(kelvin) => reply.kelvin.Some? && Abs(reply.kelvin.value - kelvin) <= LAN_COLOR_TEMP_CONFIRM_TOLERANCE
    case OtherCommand => false
  }

  // ---------- what a reply can confirm ----------

  /** The reply has the field the command sets. */
  predicate Mentions(reply: DevStatus, command: Command) {
    match command
    case Power(_) => reply.on.Some?
    case Brightness(_) => reply.brightness.Some?
    case Color(_) => reply.color.Some?
    case ColorTemp(_) => reply.kelvin.Some?
    case OtherCommand => false
  }

  /** The command that asks for what the reply says about the field. */
  function Restated(reply: DevStatus, command: Command, range: Range): Command
    requires Mentions(reply, command)
  {
    match command
    case Power(_) => Power(reply.on.value)
    case Brightness(_) => Brightness(ToNative(reply.brightness.value, range.min, range.max))
    case Color(_) => Color(reply.color.value)
    case ColorTemp(_) => ColorTemp(reply.kelvin.value)
  }

  /** Commands of one kind that differ by at most this much. */
  predicate Within(a: Command, b: Command, levels: nat, kelvins: nat) {
    match (a, b)
    case (Brightness(m), Brightness(n)) => m - n <= levels && n - m <= levels
    case (ColorTemp(m), ColorTemp(n)) => m - n <= kelvins && n - m <= kelvins
    case _ => a == b
  }

  /** A reply confirms a command exactly when it has the command's field and what it says of it would be asked for
      by the same command, up to 2 brightness levels or 150 kelvin; a reply without the field confirms nothing,
      and no reply confirms any other kind of command. */
  lemma ConfirmsIff(command: Command, reply: DevStatus, range: Range)
    ensures Confirmed(command, reply, range) <==>
      Mentions(reply, command) && Within(Restated(reply, command, range), command, 2, 150)
  {
    hide ToNative;
    assert LAN_BRIGHTNESS_CONFIRM_TOLERANCE == 2 && LAN_COLOR_TEMP_CONFIRM_TOLERANCE == 150;
    match command
    case Power(_) =>
    case Brightness(_) =>
    case Color(_) =>
    case ColorTemp(_) =>
    case OtherCommand =>
  }

  predicate SameKind(a: Command, b: Command) {
    match a
    case Power(_) => b.Power?
    case Brightness(_) => b.Brightness?
    case Color(_) => b.Color?
    case ColorTemp(_) => b.ColorTemp?
    case OtherCommand => b.OtherCommand?
  }

  /** One reply never confirms two different power states or two different colours, nor two brightnesses more
      than 4 levels apart, nor two temperatures more than 300 kelvin apart. */
  lemma OneReplyOneWish(a: Command, b: Command, reply: DevStatus, range: Range)
    requires SameKind(a, b) && Confirmed(a, reply, range) && Confirmed(b, reply, range)
    ensures Within(a, b, 4, 300)
  {
    ConfirmsIff(a, reply, range);
    ConfirmsIff(b, reply, range);
    hide Confirmed, ToNative;
    match a
    case Power(_) =>
    case Brightness(_) =>
    case Color(_) =>
    case ColorTemp(_) =>
    case OtherCommand =>
  }

  // ---------- devices that did what they were told ----------

  const SILENT := DevStatus(None, None, None, None)

  /** What a device that took the command reports of it: brightness as the LAN level it was sent. */
  function Echo(command: Command, range: Range): DevStatus {
    match command
    case Power(on) => SILENT.(on := Some(on))
    case Brightness(native) => SILENT.(brightness := Some(ToLan(native, range.min, range.max)))
    case Color(rgb) => SILENT.(color := Some(rgb))
    case ColorTemp(kelvin) => SILENT.(kelvin := Some(kelvin))
    case OtherCommand => SILENT
  }

  predicate InRange(command: Command, range: Range) {
    match command
    case Brightness(native) => range.min <= native <= range.max
    case OtherCommand => false
    case _ => true
  }

  /** Every command in range is confirmed by its echo exactly when the range is at most 500 steps wide (on a
      range topping out at 100, when it starts no lower than 2 below zero): on wider ones some brightness that
      the device did take is counted as a miss. */
  lemma EchoesConfirmIff(range: Range)
    requires range.min <= range.max
    ensures (forall command | InRange(command, range) :: Confirmed(command, Echo(command, range), range)) <==>
      if range.max == 100 then range.min >= -2 else range.max - range.min <= 500
  {
    hide ToNative, ToLan;
    EchoConfirmsIff(range.min, range.max);
    if forall native | range.min <= native <= range.max :: EchoConfirms(native, range.min, range.max) {
      forall command | InRange(command, range) ensures Confirmed(command, Echo(command, range), range) {
        if command.Brightness? { assert EchoConfirms(command.native, range.min, range.max); }
      }
    } else {
      var native :| range.min <= native <= range.max && !EchoConfirms(native, range.min, range.max);
      assert InRange(Brightness(native), range);
      assert !Confirmed(Brightness(native), Echo(Brightness(native), range), range);
    }
  }

  /** The firmware's grid point nearest to a temperature. */
  function OnGrid(kelvin: int, step: Pos): int {
    Mul(RoundDiv(kelvin, step), step)
  }

  lemma GridNear(kelvin: int, step: Pos)
    ensures 0 - step <= 2 * (OnGrid(kelvin, step) - kelvin) <= step
  {
    RoundNear(kelvin, step);
    hide Mul, RoundDiv;
  }

  /** A device that rounds temperatures to a grid of its own confirms every temperature exactly when the grid is
      no coarser than 301 kelvin. */
  lemma GridConfirmsIff(step: Pos, range: Range)
    ensures (forall kelvin :: Confirmed(ColorTemp(kelvin), SILENT.(kelvin := Some(OnGrid(kelvin, step))), range)) <==> step <= 301
  {
    hide ToNative;
    if step <= 301 {
      forall kelvin ensures Confirmed(ColorTemp(kelvin), SILENT.(kelvin := Some(OnGrid(kelvin, step))), range) {
        GridNear(kelvin, step);
        hide OnGrid;
      }
    } else {
      assert 151 / step == 0;
      assert OnGrid(151, step) == 0;
      hide OnGrid;
      assert !Confirmed(ColorTemp(151), SILENT.(kelvin := Some(OnGrid(151, step))), range);
    }
  }
}
