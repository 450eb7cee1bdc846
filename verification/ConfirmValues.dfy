/** What a command sets, what a report says, and when the two agree
    (the pure half of command_confirm.py). */
module ConfirmValues {

  datatype Option<+T> = None | Some(value: T)

  type DeviceId = string

  datatype Field = Power | Brightness | Color | ColorTemp

  datatype Rgb = Rgb(r: int, g: int, b: int)

  /** A field's value; Missing is Python's None. */
  datatype Value = Missing | OnOff(on: bool) | Level(level: int) | Colour(rgb: Rgb) | Kelvin(kelvin: int)

  datatype Command =
    | PowerCommand(powerOn: bool)
    | BrightnessCommand(brightness: int)
    | ColorCommand(color: Rgb)
    | ColorTempCommand(kelvin: int)
    | OtherCommand

  datatype Device = Device(isGroup: bool, isLight: bool, decodesKettleFrames: bool)

  datatype DeviceState = DeviceState(power: bool, brightness: int, color: Option<Rgb>, kelvin: Option<int>)

  /** One entry of a pushed JSON object. */
  datatype Json = Absent | Number(n: int) | Flag(flag: bool) | RgbObject(r: int, g: int, b: int) | Other(truthy: bool)

  datatype Push = Push(onOff: Json, brightness: Json, color: Json, kelvin: Json)

  const BRIGHTNESS_TOLERANCE := 2
  const COLOR_TOLERANCE := 2
  const COLOR_TEMP_TOLERANCE := 150

  /** The values a field can hold. */
  predicate Fits(field: Field, v: Value) {
    v.Missing? || match field
                  case Power => v.OnOff?
                  case Brightness => v.Level?
                  case Color => v.Colour?
                  case ColorTemp => v.Kelvin?
  }

  function CommandField(command: Command): (found: Option<(Field, Value)>)
    ensures found.Some? ==> Fits(found.value.0, found.value.1) && found.value.1 != Missing
    ensures found.None? <==> command.OtherCommand?
  {
    match command
    case PowerCommand(on) => Some((Power, OnOff(on)))
    case BrightnessCommand(level) => Some((Brightness, Level(level)))
    case ColorCommand(rgb) => Some((Color, Colour(rgb)))
    case ColorTempCommand(kelvin) => Some((ColorTemp, Kelvin(kelvin)))
    case OtherCommand => None
  }

  function StateValue(state: DeviceState, field: Field): (v: Value)
    ensures Fits(field, v)
  {
    match field
    case Power => OnOff(state.power)
    case Brightness => Level(state.brightness)
    case Color => if state.color.Some? then Colour(state.color.value) else Missing
    case ColorTemp => if state.kelvin.Some? then Kelvin(state.kelvin.value) else Missing
  }

  function Clamp(n: int, lo: int, hi: int): int {
    if n < lo then lo else if hi < n then hi else n
  }

  function MakeRgb(r: int, g: int, b: int): Rgb {
    Rgb(Clamp(r, 0, 255), Clamp(g, 0, 255), Clamp(b, 0, 255))
  }

  function FromPackedInt(n: int): Rgb {
    MakeRgb(n / 65536 % 256, n / 256 % 256, n % 256)
  }

  predicate Truthy(j: Json) {
    match j
    case Absent => false
    case Number(n) => n != 0
    case Flag(b) => b
    case RgbObject(_, _, _) => true
    case Other(truthy) => truthy
  }

  /** The confirmable fields a push carries; never a Missing one. */
  function ReportValues(data: Push): (values: map<Field, Value>)
    ensures forall f :: f in values ==> Fits(f, values[f]) && values[f] != Missing
  {
    (if data.onOff != Absent then map[Power := OnOff(Truthy(data.onOff))] else map[])
    + (if data.brightness.Number? then map[Brightness := Level(data.brightness.n)] else map[])
    + (match data.color
       case RgbObject(r, g, b) => map[Color := Colour(MakeRgb(r, g, b))]
       case Number(n) => map[Color := Colour(FromPackedInt(n))]
       case _ => map[])
    + (if data.kelvin.Number? && data.kelvin.n > 0 then map[ColorTemp := Kelvin(data.kelvin.n)] else map[])
  }

  predicate Near(a: int, b: int, tolerance: int) {
    -tolerance <= a - b <= tolerance
  }

  /** Whether a reported value is the wanted one, within the field's tolerance. Both come from the
      same field, so the last case never arises. */
  predicate Matches(reported: Value, wanted: Value) {
    match (reported, wanted)
    case (Missing, _) => wanted.Missing?
    case (_, Missing) => false
    case (OnOff(a), OnOff(b)) => a == b
    case (Colour(a), Colour(b)) =>
      && Near(a.r, b.r, COLOR_TOLERANCE)
      && Near(a.g, b.g, COLOR_TOLERANCE)
      && Near(a.b, b.b, COLOR_TOLERANCE)
    case (Level(a), Level(b)) => Near(a, b, BRIGHTNESS_TOLERANCE)
    case (Kelvin(a), Kelvin(b)) => Near(a, b, COLOR_TEMP_TOLERANCE)
    case _ => false
  }

  /** Fields whose pending confirm a command for `field` makes stale. */
  function Supersedes(field: Field): set<Field> {
    match field
    case Power => {Power, Brightness, Color, ColorTemp}
    case Brightness => {Brightness}
    case Color => {Color, ColorTemp}
    case ColorTemp => {Color, ColorTemp}
  }

  /** The same fields in the order the source lists them. */
  function SupersedesInOrder(field: Field): (fields: seq<Field>)
    ensures forall f :: f in fields <==> f in Supersedes(field)
  {
    match field
    case Power => [Power, Brightness, Color, ColorTemp]
    case Brightness => [Brightness]
    case Color => [Color, ColorTemp]
    case ColorTemp => [Color, ColorTemp]
  }

  predicate Eligible(device: Option<Device>, command: Command) {
    && device.Some?
    && !device.value.isGroup
    && device.value.isLight
    && !device.value.decodesKettleFrames
    && command != PowerCommand(true)
    && CommandField(command).Some?
  }

  // ---------- an honest report ----------

  predicate IsChannel(n: int) {
    0 <= n <= 255
  }

  /** Colours and temperatures the commands carry. */
  predicate Sensible(command: Command) {
    match command
    case ColorCommand(rgb) => IsChannel(rgb.r) && IsChannel(rgb.g) && IsChannel(rgb.b)
    case ColorTempCommand(kelvin) => kelvin > 0
    case _ => true
  }

  const SILENT := Push(Absent, Absent, Absent, Absent)

  /** The pushes with which a device that did exactly what a command asked can report it: a colour comes as an
      object or packed into one number. */
  predicate Reports(data: Push, command: Command) {
    match command
    case PowerCommand(on) => data == SILENT.(onOff := Number(if on then 1 else 0)) || data == SILENT.(onOff := Flag(on))
    case BrightnessCommand(level) => data == SILENT.(brightness := Number(level))
    case ColorCommand(rgb) =>
      data == SILENT.(color := RgbObject(rgb.r, rgb.g, rgb.b)) || data == SILENT.(color := Number(rgb.r * 65536 + rgb.g * 256 + rgb.b))
    case ColorTempCommand(kelvin) => data == SILENT.(kelvin := Number(kelvin))
    case OtherCommand => false
  }

  /** Unpacking inverts packing. */
  lemma PackedColour(rgb: Rgb)
    requires IsChannel(rgb.r) && IsChannel(rgb.g) && IsChannel(rgb.b)
    ensures FromPackedInt(rgb.r * 65536 + rgb.g * 256 + rgb.b) == rgb
  {
    var n := rgb.r * 65536 + rgb.g * 256 + rgb.b;
    assert n / 65536 == rgb.r && n / 256 == rgb.r * 256 + rgb.g;
  }

  /** A device that reports exactly what it was sent reports that field and no other, with the wanted value, so
      the report matches; and the field is one a newer command of its kind makes stale. */
  lemma HonestReportConfirms(command: Command, data: Push)
    requires Sensible(command) && Reports(data, command)
    ensures CommandField(command).Some?
    ensures var (field, wanted) := CommandField(command).value;
      && ReportValues(data) == map[field := wanted]
      && Matches(ReportValues(data)[field], wanted)
      && field in Supersedes(field)
  {
    if command.ColorCommand? { PackedColour(command.color); }
    hide FromPackedInt;
  }

  /** A push that says nothing about the field leaves it out: only what is reported can confirm or contradict. */
  lemma SilentFieldsStayOut(data: Push)
    ensures Power in ReportValues(data) <==> data.onOff != Absent
    ensures Brightness in ReportValues(data) <==> data.brightness.Number?
    ensures Color in ReportValues(data) <==> data.color.RgbObject? || data.color.Number?
    ensures ColorTemp in ReportValues(data) <==> data.kelvin.Number? && data.kelvin.n > 0
  {
    hide FromPackedInt, MakeRgb;
  }

  // ---------- how far a report may be off ----------

  function Abs(n: int): nat {
    if n < 0 then -n else n
  }

  function Larger(a: nat, b: nat): nat {
    if a < b then b else a
  }

  /** How far two values of a field are apart: a colour by its worst channel. */
  function Distance(field: Field, a: Value, b: Value): nat
    requires Fits(field, a) && Fits(field, b) && !a.Missing? && !b.Missing?
  {
    match field
    case Power => if a.on == b.on then 0 else 1
    case Brightness => Abs(a.level - b.level)
    case Color => Larger(Abs(a.rgb.r - b.rgb.r), Larger(Abs(a.rgb.g - b.rgb.g), Abs(a.rgb.b - b.rgb.b)))
    case ColorTemp => Abs(a.kelvin - b.kelvin)
  }

  function Tolerance(field: Field): nat {
    match field
    case Power => 0
    case Brightness => 2
    case Color => 2
    case ColorTemp => 150
  }

  /** Two values of a field match exactly when they are no further apart than its tolerance; a missing one only
      matches another missing one. */
  lemma MatchesIff(field: Field, reported: Value, wanted: Value)
    requires Fits(field, reported) && Fits(field, wanted)
    ensures Matches(reported, wanted) <==>
      if reported.Missing? || wanted.Missing? then reported == wanted
      else Distance(field, reported, wanted) <= Tolerance(field)
  {
    assert BRIGHTNESS_TOLERANCE == 2 && COLOR_TOLERANCE == 2 && COLOR_TEMP_TOLERANCE == 150;
    match field
    case Power =>
    case Brightness =>
    case Color =>
    case ColorTemp =>
  }

  /** One report cannot confirm two commands for a field that lie further apart than twice the tolerance. */
  lemma OneReportOneWish(field: Field, reported: Value, a: Value, b: Value)
    requires Fits(field, reported) && Fits(field, a) && Fits(field, b) && !a.Missing? && !b.Missing?
    requires Matches(reported, a) && Matches(reported, b)
    ensures Distance(field, a, b) <= 2 * Tolerance(field)
  {
    MatchesIff(field, reported, a);
    MatchesIff(field, reported, b);
    hide Matches;
    match field
    case Power =>
    case Brightness =>
    case Color =>
    case ColorTemp =>
  }
}
