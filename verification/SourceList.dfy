/** The list of sources a node reads, checked in full: names, kinds, options with their defaults
    filled in, and the readings the board takes of itself.
  */
module SourceList {
  import opened Wrappers

  datatype Value = Flag(on: bool) | Whole(n: int) | Frac(x: real) | Text(text: string) | Nested(what: nat)

  type Table = map<string, Value>

  datatype Entry = NotATable | ATable(fields: Table)

  datatype Source = Source(id: string, kind: string, options: Table)

  datatype ConfigError =
    | NotAList | NotTable | MissingField | BadName | DeclaredTwice | UnknownKind | NotInProfile | NoDriver
    | UnknownOption | MissingOption | WrongType | BadValue | Conflict

  // -- names ---------------------------------------------------------------------------------

  predicate Lower(c: char) {
    'a' <= c <= 'z'
  }

  predicate Digit(c: char) {
    '0' <= c <= '9'
  }

  predicate NameChar(c: char) {
    Lower(c) || Digit(c) || c == '-'
  }

  /** 1 to 40 lowercase letters, digits and hyphens, with no hyphen at either end. */
  predicate IsName(s: string) {
    && 1 <= |s| <= 40
    && (forall i | 0 <= i < |s| :: NameChar(s[i]))
    && s[0] != '-' && s[|s| - 1] != '-'
  }

  function FirstDot(s: string): Option<nat> {
    if s == "" then None
    else if s[0] == '.' then Some(0)
    else match FirstDot(s[1..]) case None => None case Some(i) => Some(i + 1)
  }

  lemma {:induction false} FirstDotIs(s: string)
    ensures FirstDot(s).Some? ==> FirstDot(s).value < |s| && s[FirstDot(s).value] == '.'
    ensures FirstDot(s).None? ==> '.' !in s
    decreases s
  {
    if s != "" {
      FirstDotIs(s[1..]);
    }
  }

  /** The local half of a name that may be spelled out with its node. */
  function LocalName(s: string, node: string): Option<string> {
    FirstDotIs(s);
    match FirstDot(s)
    case None => if IsName(s) then Some(s) else None
    case Some(i) => if s[..i] == node && IsName(s[i + 1..]) then Some(s[i + 1..]) else None
  }

  // -- options ---------------------------------------------------------------------------------

  datatype ValueType = FlagType | WholeType | FracType | TextType

  datatype Check =
    | Anything
    | Between(low: real, high: real)
    | OneOfTexts(texts: set<string>)
    | OneOfNumbers(numbers: set<int>)
    | OnewireId
    | AlsaDevice
    | AdapterName
    | BleAddress
    | BeaconUuid
    | EventKind

  datatype Rule = Rule(name: string, valueType: ValueType, fallback: Option<Value>, check: Check)

  predicate HasType(v: Value, t: ValueType) {
    match t
    case FlagType => v.Flag?
    case WholeType => v.Whole?
    case FracType => v.Frac?
    case TextType => v.Text?
  }

  predicate HexLower(c: char) {
    Digit(c) || 'a' <= c <= 'f'
  }

  predicate HexUpper(c: char) {
    Digit(c) || 'A' <= c <= 'F'
  }

  predicate Word(c: char) {
    Lower(c) || Digit(c) || 'A' <= c <= 'Z' || c == '_'
  }

  predicate IsOnewireId(s: string) {
    |s| == 15 && s[..3] == "28-" && forall i | 3 <= i < 15 :: HexLower(s[i])
  }

  predicate IsAlsaDevice(s: string) {
    1 <= |s| <= 64 && Word(s[0]) && forall i | 1 <= i < |s| :: Word(s[i]) || s[i] in ":=,.-"
  }

  predicate IsAdapterName(s: string) {
    4 <= |s| <= 5 && s[..3] == "hci" && forall i | 3 <= i < |s| :: Digit(s[i])
  }

  predicate IsBleAddress(s: string) {
    |s| == 17 && forall i | 0 <= i < 17 :: if i % 3 == 2 then s[i] == ':' else HexUpper(s[i])
  }

  predicate IsBeaconUuid(s: string) {
    |s| == 36 && forall i | 0 <= i < 36 :: if i in {8, 13, 18, 23} then s[i] == '-' else HexLower(s[i])
  }

  predicate IsFamily(s: string) {
    s != "" && Lower(s[0]) && forall i | 0 < i < |s| :: Lower(s[i]) || Digit(s[i])
  }

  predicate IsWhat(s: string) {
    s != "" && Lower(s[0]) && forall i | 0 < i < |s| :: Lower(s[i]) || Digit(s[i]) || s[i] == '_'
  }

  /** A family and a name, as in sensor.motion. */
  predicate IsEventKind(s: string) {
    match FirstDot(s)
    case None => false
    case Some(i) => i < |s| && IsFamily(s[..i]) && IsWhat(s[i + 1..])
  }

  predicate Passes(check: Check, v: Value) {
    match check
    case Anything => true
    case Between(low, high) => (v.Whole? && low <= v.n as real <= high) || (v.Frac? && low <= v.x <= high)
    case OneOfTexts(texts) => v.Text? && v.text in texts
    case OneOfNumbers(numbers) => v.Whole? && v.n in numbers
    case OnewireId => v.Text? && IsOnewireId(v.text)
    case AlsaDevice => v.Text? && IsAlsaDevice(v.text)
    case AdapterName => v.Text? && IsAdapterName(v.text)
    case BleAddress => v.Text? && (v.text == "" || IsBleAddress(v.text))
    case BeaconUuid => v.Text? && (v.text == "" || IsBeaconUuid(v.text))
    case EventKind => v.Text? && IsEventKind(v.text)
  }

  const COMMON := Rule("enabled", FlagType, Some(Flag(true)), Anything)
  const INTERVAL := Rule("interval_seconds", FracType, Some(Frac(30.0)), Between(1.0, 3600.0))

  function KindRule(kind: string): Rule {
    Rule("event_kind", TextType, Some(Text(kind)), EventKind)
  }

  function Needed(name: string, valueType: ValueType, check: Check): Rule {
    Rule(name, valueType, None, check)
  }

  function WholeRule(name: string, fallback: int, check: Check): Rule {
    Rule(name, WholeType, Some(Whole(fallback)), check)
  }

  function FracRule(name: string, fallback: real, low: real, high: real): Rule {
    Rule(name, FracType, Some(Frac(fallback)), Between(low, high))
  }

  function TextRule(name: string, fallback: string, check: Check): Rule {
    Rule(name, TextType, Some(Text(fallback)), check)
  }

  function FlagRule(name: string, fallback: bool): Rule {
    Rule(name, FlagType, Some(Flag(fallback)), Anything)
  }

  const GPIO: seq<Rule> := [
    COMMON,
    TextRule("chip", "/dev/gpiochip0", Anything),
    Needed("line_numbering", TextType, OneOfTexts({"bcm"})),
    Needed("line", WholeType, Between(0.0, 53.0)),
    FlagRule("active_high", true),
    TextRule("bias", "disabled", OneOfTexts({"disabled", "pull_up", "pull_down", "as_is"})),
    WholeRule("debounce_ms", 50, Between(0.0, 5000.0)),
    FracRule("settle_seconds", 0.0, 0.0, 600.0),
    KindRule("sensor.motion")]

  const ONEWIRE: seq<Rule> := [
    COMMON,
    Needed("device", TextType, OnewireId),
    WholeRule("line", 4, Between(0.0, 53.0)),
    KindRule("climate.temperature"), INTERVAL]

  const BME280: seq<Rule> := [
    COMMON,
    WholeRule("bus", 1, Between(0.0, 20.0)),
    WholeRule("address", 0x76, OneOfNumbers({0x76, 0x77})),
    Needed("measure", TextType, OneOfTexts({"temperature", "humidity", "pressure"})), INTERVAL]

  const ADC: seq<Rule> := [
    COMMON,
    TextRule("chip", "ads1115", OneOfTexts({"ads1115"})),
    WholeRule("bus", 1, Between(0.0, 20.0)),
    WholeRule("address", 0x48, OneOfNumbers({0x48, 0x49, 0x4A, 0x4B})),
    Needed("channel", WholeType, Between(0.0, 3.0)),
    TextRule("output", "ratio", OneOfTexts({"ratio", "volts"})),
    FracRule("reference_volts", 3.3, 0.1, 4.096),
    KindRule("light.level"), INTERVAL]

  const BOARD: seq<Rule> := [
    COMMON,
    Needed("measure", TextType, OneOfTexts({"temperature", "cpu"})), INTERVAL]

  const DUMMY: seq<Rule> := [COMMON, FracRule("interval_seconds", 1.0, 0.01, 3600.0)]

  const CSI: seq<Rule> := [
    COMMON,
    TextRule("profile", "h264-tls", OneOfTexts({"h264-tls"})),
    WholeRule("width", 640, OneOfNumbers({320, 640, 1280})),
    WholeRule("height", 480, OneOfNumbers({240, 480, 720})),
    WholeRule("fps", 10, Between(1.0, 15.0)),
    WholeRule("bitrate_kbps", 1000, Between(100.0, 4000.0)),
    FracRule("keyframe_seconds", 2.0, 0.5, 10.0)]

  const MICROPHONE: seq<Rule> := [
    COMMON,
    TextRule("device", "default", AlsaDevice),
    TextRule("interface", "i2s", OneOfTexts({"i2s", "usb"})),
    FlagRule("activity", false),
    FracRule("activity_threshold_dbfs", -35.0, -90.0, -1.0),
    FracRule("activity_min_seconds", 0.3, 0.1, 10.0),
    FracRule("activity_hold_seconds", 3.0, 0.5, 120.0),
    KindRule("audio.activity")]

  const BLE: seq<Rule> := [
    COMMON,
    TextRule("adapter", "hci0", AdapterName),
    TextRule("address", "", BleAddress),
    TextRule("ibeacon_uuid", "", BeaconUuid),
    WholeRule("ibeacon_major", -1, Between(-1.0, 65535.0)),
    WholeRule("ibeacon_minor", -1, Between(-1.0, 65535.0)),
    WholeRule("rssi_min", -100, Between(-127.0, 0.0)),
    WholeRule("enter_sightings", 3, Between(1.0, 20.0)),
    FracRule("enter_window_seconds", 10.0, 1.0, 120.0),
    FracRule("absent_after_seconds", 120.0, 10.0, 3600.0),
    KindRule("presence.state")]

  /** What each kind of source takes, or nothing for a kind without a driver yet. */
  function Schema(kind: string): Option<seq<Rule>> {
    if kind == "gpio" then Some(GPIO)
    else if kind == "onewire" then Some(ONEWIRE)
    else if kind == "bme280" then Some(BME280)
    else if kind == "adc" then Some(ADC)
    else if kind == "board" then Some(BOARD)
    else if kind == "dummy" then Some(DUMMY)
    else if kind == "csi" then Some(CSI)
    else if kind == "microphone" then Some(MICROPHONE)
    else if kind == "ble" then Some(BLE)
    else None
  }

  function Names(rules: seq<Rule>): set<string> {
    set r | r in rules :: r.name
  }

  /** A whole number where a fraction is wanted is read as one. */
  function Widened(v: Value, t: ValueType): Value {
    if t.FracType? && v.Whole? then Frac(v.n as real) else v
  }

  function CheckOne(rule: Rule, options: Table): Result<Value, ConfigError> {
    if rule.name !in options then
      if rule.fallback.None? then Failure(MissingOption) else Success(rule.fallback.value)
    else
      var v := Widened(options[rule.name], rule.valueType);
      if !HasType(v, rule.valueType) then Failure(WrongType)
      else if !Passes(rule.check, v) then Failure(BadValue)
      else Success(v)
  }

  function CheckRules(rules: seq<Rule>, options: Table, done: Table): Result<Table, ConfigError>
    decreases rules
  {
    if rules == [] then Success(done)
    else
      match CheckOne(rules[0], options)
      case Failure(error) => Failure(error)
      case Success(v) => CheckRules(rules[1..], options, done[rules[0].name := v])
  }

  function CheckOptions(kind: string, options: Table): Result<Table, ConfigError> {
    match Schema(kind)
    case None =>
      var enabled := if "enabled" in options then options["enabled"] else Flag(true);
      if !enabled.Flag? then Failure(WrongType) else Success(options["enabled" := enabled])
    case Some(rules) =>
      if exists name | name in options :: name !in Names(rules) then Failure(UnknownOption)
      else CheckRules(rules, options, map[])
  }

  method CheckedOptions(kind: string, options: Table) returns (out: Result<Table, ConfigError>)
    ensures out == CheckOptions(kind, options)
  {
    var schema := Schema(kind);
    if schema.None? {
      var enabled := if "enabled" in options then options["enabled"] else Flag(true);
      if !enabled.Flag? {
        return Failure(WrongType);
      }
      return Success(options["enabled" := enabled]);
    }
    var rules := schema.value;
    if exists name | name in options :: name !in Names(rules) {
      return Failure(UnknownOption);
    }
    var checked: Table := map[];
    var i := 0;
    assert rules[0..] == rules;
    while i < |rules|
      invariant i <= |rules|
      invariant CheckRules(rules, options, map[]) == CheckRules(rules[i..], options, checked)
    {
      assert rules[i..][0] == rules[i] && rules[i..][1..] == rules[i + 1..];
      var one := CheckOne(rules[i], options);
      if one.Failure? {
        return Failure(one.error);
      }
      checked := checked[rules[i].name := one.value];
      i := i + 1;
    }
    return Success(checked);
  }

  // -- a checked table passes again as it is ------------------------------------------------------------

  predicate Meets(rule: Rule, v: Value) {
    HasType(v, rule.valueType) && Passes(rule.check, v)
  }

  /** Defaults pass their own checks, and no option is named twice. */
  ghost predicate SoundRules(rules: seq<Rule>) {
    && (forall i | 0 <= i < |rules| && rules[i].fallback.Some? :: Meets(rules[i], rules[i].fallback.value))
    && (forall i, j | 0 <= i < j < |rules| :: rules[i].name != rules[j].name)
    && (forall i | 0 <= i < |rules| :: rules[i].name != "id" && rules[i].name != "kind")
  }

  lemma {:induction false} FirstDotAt(s: string, i: nat)
    requires i < |s| && s[i] == '.' && forall j | 0 <= j < i :: s[j] != '.'
    ensures FirstDot(s) == Some(i)
    decreases i
  {
    if i > 0 {
      FirstDotAt(s[1..], i - 1);
    }
  }

  lemma DottedIsAKind(family: string, what: string)
    requires IsFamily(family) && IsWhat(what)
    ensures IsEventKind(family + "." + what)
  {
    var s := family + "." + what;
    FirstDotAt(s, |family|);
    assert s[..|family|] == family && s[|family| + 1..] == what;
  }

  lemma GpioKind()
    ensures IsEventKind("sensor.motion")
  {
    hide IsEventKind;
    DottedIsAKind("sensor", "motion");
    assert "sensor" + "." + "motion" == "sensor.motion";
  }

  lemma OnewireKind()
    ensures IsEventKind("climate.temperature")
  {
    hide IsEventKind;
    DottedIsAKind("climate", "temperature");
    assert "climate" + "." + "temperature" == "climate.temperature";
  }

  lemma AdcKind()
    ensures IsEventKind("light.level")
  {
    hide IsEventKind;
    DottedIsAKind("light", "level");
    assert "light" + "." + "level" == "light.level";
  }

  lemma MicrophoneKind()
    ensures IsEventKind("audio.activity")
  {
    hide IsEventKind;
    DottedIsAKind("audio", "activity");
    assert "audio" + "." + "activity" == "audio.activity";
  }

  lemma BleKind()
    ensures IsEventKind("presence.state")
  {
    hide IsEventKind;
    DottedIsAKind("presence", "state");
    assert "presence" + "." + "state" == "presence.state";
  }

  lemma DefaultDevice()
    ensures IsAlsaDevice("default") && IsAdapterName("hci0")
  {
  }

  lemma GpioIsSound()
    ensures SoundRules(GPIO)
  {
    hide IsEventKind, IsAlsaDevice, IsAdapterName, IsOnewireId, IsBleAddress, IsBeaconUuid;
    GpioKind();
  }

  lemma OnewireIsSound()
    ensures SoundRules(ONEWIRE)
  {
    hide IsEventKind, IsAlsaDevice, IsAdapterName, IsOnewireId, IsBleAddress, IsBeaconUuid;
    OnewireKind();
  }

  lemma Bme280IsSound()
    ensures SoundRules(BME280)
  {
  }

  lemma AdcIsSound()
    ensures SoundRules(ADC)
  {
    hide IsEventKind, IsAlsaDevice, IsAdapterName, IsOnewireId, IsBleAddress, IsBeaconUuid;
    AdcKind();
  }

  lemma BoardIsSound()
    ensures SoundRules(BOARD)
  {
  }

  lemma DummyIsSound()
    ensures SoundRules(DUMMY)
  {
  }

  lemma CsiIsSound()
    ensures SoundRules(CSI)
  {
  }

  lemma MicrophoneIsSound()
    ensures SoundRules(MICROPHONE)
  {
    hide IsEventKind, IsAlsaDevice, IsAdapterName, IsOnewireId, IsBleAddress, IsBeaconUuid;
    MicrophoneKind();
    DefaultDevice();
  }

  lemma BleIsSound()
    ensures SoundRules(BLE)
  {
    hide IsEventKind, IsAlsaDevice, IsAdapterName, IsOnewireId, IsBleAddress, IsBeaconUuid;
    BleKind();
    DefaultDevice();
  }

  lemma SchemasAreSound(kind: string)
    ensures Schema(kind).Some? ==> SoundRules(Schema(kind).value)
  {
    hide SoundRules;
    GpioIsSound();
    OnewireIsSound();
    Bme280IsSound();
    AdcIsSound();
    BoardIsSound();
    DummyIsSound();
    CsiIsSound();
    MicrophoneIsSound();
    BleIsSound();
  }

  lemma WidenedIsStable(rule: Rule, v: Value)
    requires HasType(v, rule.valueType)
    ensures Widened(v, rule.valueType) == v
  {
  }

  /** What checking leaves under each name, and that it leaves nothing else. */
  lemma {:induction false} CheckRulesGives(rules: seq<Rule>, options: Table, done: Table)
    requires SoundRules(rules) && CheckRules(rules, options, done).Success?
    requires forall i | 0 <= i < |rules| :: rules[i].name !in done
    ensures var out := CheckRules(rules, options, done).value;
            && out.Keys == done.Keys + Names(rules)
            && (forall name | name in done :: out[name] == done[name])
            && forall i | 0 <= i < |rules| :: rules[i].name in out && Meets(rules[i], out[rules[i].name])
    decreases rules
  {
    hide Passes, HasType;
    if rules != [] {
      var v := CheckOne(rules[0], options).value;
      assert Meets(rules[0], v);
      assert Names(rules) == {rules[0].name} + Names(rules[1..]);
      CheckRulesGives(rules[1..], options, done[rules[0].name := v]);
    }
  }

  lemma {:induction false} CheckRulesKeeps(rules: seq<Rule>, options: Table, done: Table)
    requires forall i | 0 <= i < |rules| :: rules[i].name in options && Meets(rules[i], options[rules[i].name])
    requires forall name | name in done :: name in options && done[name] == options[name]
    ensures CheckRules(rules, options, done).Success?
    ensures var out := CheckRules(rules, options, done).value;
            out.Keys == done.Keys + Names(rules) && forall name | name in out :: name in options && out[name] == options[name]
    decreases rules
  {
    hide Passes, HasType;
    if rules != [] {
      WidenedIsStable(rules[0], options[rules[0].name]);
      assert Names(rules) == {rules[0].name} + Names(rules[1..]);
      CheckRulesKeeps(rules[1..], options, done[rules[0].name := options[rules[0].name]]);
    }
  }

  predicate Bare(options: Table) {
    "id" !in options && "kind" !in options
  }

  /** Options that were checked pass again, and come out as they went in. */
  lemma CheckedPassesAgain(kind: string, options: Table)
    requires Bare(options) && CheckOptions(kind, options).Success?
    ensures var checked := CheckOptions(kind, options).value;
            Bare(checked) && CheckOptions(kind, checked) == Success(checked)
  {
    hide Schema;
    if Schema(kind).Some? {
      var rules := Schema(kind).value;
      SchemasAreSound(kind);
      CheckRulesGives(rules, options, map[]);
      var checked := CheckOptions(kind, options).value;
      assert checked.Keys == Names(rules);
      CheckRulesKeeps(rules, checked, map[]);
      var again := CheckRules(rules, checked, map[]).value;
      assert again == checked;
    } else {
      var checked := CheckOptions(kind, options).value;
      assert checked["enabled" := checked["enabled"]] == checked;
    }
  }

  /** What one rule makes of a table: the value given, widened if need be, or the default. */
  predicate Settles(rule: Rule, options: Table) {
    if rule.name in options then Meets(rule, Widened(options[rule.name], rule.valueType)) else rule.fallback.Some?
  }

  function Settled(rule: Rule, options: Table): Value
    requires Settles(rule, options)
  {
    if rule.name in options then Widened(options[rule.name], rule.valueType) else rule.fallback.value
  }

  lemma {:induction false} CheckRulesExactly(rules: seq<Rule>, options: Table, done: Table)
    requires SoundRules(rules) && forall i | 0 <= i < |rules| :: rules[i].name !in done
    ensures CheckRules(rules, options, done).Success? <==> forall i | 0 <= i < |rules| :: Settles(rules[i], options)
    ensures CheckRules(rules, options, done).Success? ==>
              forall i | 0 <= i < |rules| ::
                var out := CheckRules(rules, options, done).value;
                rules[i].name in out && out[rules[i].name] == Settled(rules[i], options)
    decreases rules
  {
    hide Passes, HasType, Widened;
    if rules != [] {
      var one := CheckOne(rules[0], options);
      assert one.Success? <==> Settles(rules[0], options);
      if one.Success? {
        var done' := done[rules[0].name := one.value];
        CheckRulesExactly(rules[1..], options, done');
        assert forall i | 1 <= i < |rules| :: rules[i] == rules[1..][i - 1];
        if CheckRules(rules, options, done).Success? {
          CheckRulesGives(rules[1..], options, done');
        }
      }
    }
  }

  /** A table is accepted exactly when it names no option its kind does not take and every option settles;
      then each option is there, under its own name, and nothing else is. */
  lemma AcceptedExactly(kind: string, options: Table)
    requires Schema(kind).Some?
    ensures var rules := Schema(kind).value;
            && (CheckOptions(kind, options).Success? <==>
                  options.Keys <= Names(rules) && forall i | 0 <= i < |rules| :: Settles(rules[i], options))
            && (CheckOptions(kind, options).Success? ==>
                  var out := CheckOptions(kind, options).value;
                  && out.Keys == Names(rules)
                  && forall i | 0 <= i < |rules| :: rules[i].name in out && out[rules[i].name] == Settled(rules[i], options))
  {
    hide Schema, Settles, Settled;
    var rules := Schema(kind).value;
    SchemasAreSound(kind);
    CheckRulesExactly(rules, options, map[]);
    if CheckRules(rules, options, map[]).Success? {
      CheckRulesGives(rules, options, map[]);
    }
  }

  // -- the list as a whole --------------------------------------------------------------------------------

  datatype Profile = CameraSensor | SensorPresence | AudioSensor

  const SOURCE_KINDS := {"gpio", "onewire", "bme280", "adc", "csi", "uvc", "microphone", "ble", "board", "dummy"}

  function KindsOf(profile: Profile): set<string> {
    match profile
    case CameraSensor => {"gpio", "onewire", "bme280", "adc", "csi", "uvc", "microphone", "board", "dummy"}
    case SensorPresence => {"gpio", "onewire", "bme280", "adc", "ble", "board", "dummy"}
    case AudioSensor => {"gpio", "onewire", "bme280", "adc", "microphone", "board", "dummy"}
  }

  /** Whose list it is, which kinds may be in it, and which sources cannot be together. */
  datatype Env = Env(node: string, profile: Profile, drivers: Option<set<string>>, conflict: seq<Source> -> bool)

  predicate Driven(env: Env, kind: string) {
    env.drivers.None? || kind in env.drivers.value
  }

  function Ids(sources: seq<Source>): set<string> {
    set s | s in sources :: s.id
  }

  function ParseEntry(env: Env, entry: Entry, seen: set<string>): Result<Source, ConfigError> {
    if entry.NotATable? then Failure(NotTable)
    else
      var fields := entry.fields;
      if "id" !in fields then Failure(MissingField)
      else if !fields["id"].Text? then Failure(WrongType)
      else
        match LocalName(fields["id"].text, env.node)
        case None => Failure(BadName)
        case Some(id) =>
          if id in seen then Failure(DeclaredTwice)
          else if "kind" !in fields then Failure(MissingField)
          else if !fields["kind"].Text? then Failure(WrongType)
          else
            var kind := fields["kind"].text;
            if kind !in SOURCE_KINDS then Failure(UnknownKind)
            else if kind !in KindsOf(env.profile) then Failure(NotInProfile)
            else if !Driven(env, kind) then Failure(NoDriver)
            else
              match CheckOptions(kind, fields - {"id", "kind"})
              case Failure(error) => Failure(error)
              case Success(options) => Success(Source(id, kind, options))
  }

  function ParseEntries(env: Env, entries: seq<Entry>, done: seq<Source>): Result<seq<Source>, ConfigError>
    decreases entries
  {
    if entries == [] then Success(done)
    else
      match ParseEntry(env, entries[0], Ids(done))
      case Failure(error) => Failure(error)
      case Success(source) => ParseEntries(env, entries[1..], done + [source])
  }

  predicate Measures(sources: seq<Source>, measure: string) {
    exists s | s in sources :: s.kind == "board" && "measure" in s.options && s.options["measure"] == Text(measure)
  }

  function BoardSource(id: string, measure: string): Source {
    Source(id, "board", map["enabled" := Flag(true), "measure" := Text(measure), "interval_seconds" := Frac(30.0)])
  }

  function OwnReading(declared: seq<Source>, id: string, measure: string): seq<Source> {
    if Measures(declared, measure) || id in Ids(declared) then [] else [BoardSource(id, measure)]
  }

  /** The readings every node takes of itself, where the list leaves them out. */
  function TheBoardItself(declared: seq<Source>): seq<Source> {
    OwnReading(declared, "board-temperature", "temperature") + OwnReading(declared, "board-cpu", "cpu")
  }

  function Parse(env: Env, entries: seq<Entry>): Result<seq<Source>, ConfigError> {
    match ParseEntries(env, entries, [])
    case Failure(error) => Failure(error)
    case Success(declared) =>
      var all := declared + TheBoardItself(declared);
      if env.conflict(all) then Failure(Conflict) else Success(all)
  }

  function AsEntry(s: Source): Entry {
    ATable(map["id" := Text(s.id), "kind" := Text(s.kind)] + s.options)
  }

  /** A list of sources as it is written down. */
  function AsEntries(sources: seq<Source>): (entries: seq<Entry>)
    ensures |entries| == |sources|
  {
    seq(|sources|, i requires 0 <= i < |sources| => AsEntry(sources[i]))
  }

  method ParseSources(env: Env, entries: seq<Entry>) returns (out: Result<seq<Source>, ConfigError>)
    ensures out == Parse(env, entries)
  {
    hide ParseEntry;
    var sources: seq<Source> := [];
    var seen: set<string> := {};
    var i := 0;
    assert entries[0..] == entries;
    while i < |entries|
      invariant i <= |entries| && seen == Ids(sources)
      invariant ParseEntries(env, entries, []) == ParseEntries(env, entries[i..], sources)
    {
      assert entries[i..][0] == entries[i] && entries[i..][1..] == entries[i + 1..];
      var one := ParseEntry(env, entries[i], seen);
      if one.Failure? {
        return Failure(one.error);
      }
      sources := sources + [one.value];
      seen := seen + {one.value.id};
      i := i + 1;
    }
    var own := OwnReadings(sources);
    if env.conflict(sources + own) {
      return Failure(Conflict);
    }
    return Success(sources + own);
  }

  method OwnReadings(declared: seq<Source>) returns (added: seq<Source>)
    ensures added == TheBoardItself(declared)
  {
    var board := [("board-temperature", "temperature"), ("board-cpu", "cpu")];
    added := [];
    for i := 0 to 2
      invariant added == (if i > 0 then OwnReading(declared, "board-temperature", "temperature") else [])
                         + (if i > 1 then OwnReading(declared, "board-cpu", "cpu") else [])
    {
      var (id, measure) := board[i];
      if !Measures(declared, measure) && id !in Ids(declared) {
        var options := CheckedOptions("board", map["measure" := Text(measure)]);
        BoardOptions(measure);
        added := added + [Source(id, "board", options.value)];
      }
    }
  }

  lemma BoardOptions(measure: string)
    requires measure in {"temperature", "cpu"}
    ensures CheckOptions("board", map["measure" := Text(measure)]) == Success(BoardSource("", measure).options)
  {
    var options := map["measure" := Text(measure)];
    var checked := BoardSource("", measure).options;
    BoardIsSound();
    assert Names(BOARD) == {"enabled", "measure", "interval_seconds"};
    assert BOARD[1..] == [BOARD[1], INTERVAL] && BOARD[1..][1..] == [INTERVAL] && [INTERVAL][1..] == [];
    assert CheckOne(COMMON, options) == Success(Flag(true));
    assert CheckOne(BOARD[1], options) == Success(Text(measure));
    assert CheckOne(INTERVAL, options) == Success(Frac(30.0));
    assert CheckRules([INTERVAL], options, map["enabled" := Flag(true), "measure" := Text(measure)]) == Success(checked);
    assert CheckRules(BOARD, options, map[]) == Success(checked);
  }

  /** The board reads its temperature and its load exactly where the list neither does so nor gives their names to
      something else, every thirty seconds. */
  lemma TheBoardAddsWhatIsMissing(declared: seq<Source>)
    ensures var missing := (id: string, measure: string) =>
              && (forall s | s in declared :: s.id != id)
              && (forall s | s in declared :: !(s.kind == "board" && "measure" in s.options && s.options["measure"] == Text(measure)));
            var reading := (id: string, measure: string) =>
              Source(id, "board", map["enabled" := Flag(true), "measure" := Text(measure), "interval_seconds" := Frac(30.0)]);
            TheBoardItself(declared) ==
              (if missing("board-temperature", "temperature") then [reading("board-temperature", "temperature")] else [])
              + (if missing("board-cpu", "cpu") then [reading("board-cpu", "cpu")] else [])
  {
  }

  // -- which lists are accepted ------------------------------------------------------------------------------

  /** What a name is read as: itself, or what follows the node it belongs to, if that is a name. */
  predicate Reads(text: string, node: string, id: string) {
    IsName(id) && (text == id || ('.' !in node && text == node + "." + id))
  }

  lemma LocalNameMeans(text: string, node: string, id: string)
    ensures LocalName(text, node) == Some(id) <==> Reads(text, node, id)
  {
    FirstDotIs(text);
    if IsName(id) {
      NamesHaveNoDot(id);
      if text == node + "." + id && '.' !in node {
        assert text[|node|] == '.';
        assert forall k | 0 <= k < |node| :: text[k] == node[k];
        FirstDotIsFirst(text, |node|);
        assert text[..|node|] == node && text[|node| + 1..] == id;
      }
    }
    if LocalName(text, node) == Some(id) && FirstDot(text).Some? {
      var i := FirstDot(text).value;
      FirstDotIsFirst(text, i);
      assert text == text[..i] + "." + text[i + 1..];
      forall k | 0 <= k < |node| ensures node[k] != '.' {
        assert node[k] == text[k];
      }
    }
  }

  lemma {:induction false} FirstDotIsFirst(s: string, i: nat)
    requires i < |s| && s[i] == '.'
    ensures FirstDot(s).Some? && FirstDot(s).value <= i
    ensures forall k | 0 <= k < FirstDot(s).value :: s[k] != '.'
    decreases s
  {
    if s[0] != '.' {
      FirstDotIsFirst(s[1..], i - 1);
      forall k | 0 <= k < FirstDot(s).value ensures s[k] != '.' {
        if k > 0 { assert s[1..][k - 1] == s[k]; }
      }
    }
  }

  /** An entry that says this source: its name, a kind of this profile that there is a driver for, and options that
      come out of the checks as these. */
  ghost predicate Says(env: Env, entry: Entry, s: Source) {
    && entry.ATable?
    && "id" in entry.fields && entry.fields["id"].Text? && Reads(entry.fields["id"].text, env.node, s.id)
    && "kind" in entry.fields && entry.fields["kind"] == Text(s.kind)
    && s.kind in SOURCE_KINDS && s.kind in KindsOf(env.profile) && (env.drivers.None? || s.kind in env.drivers.value)
    && CheckOptions(s.kind, entry.fields - {"id", "kind"}) == Success(s.options)
  }

  lemma EntryExactly(env: Env, entry: Entry, seen: set<string>, s: Source)
    ensures ParseEntry(env, entry, seen) == Success(s) <==> Says(env, entry, s) && s.id !in seen
  {
    hide LocalName, CheckOptions, IsName, Reads;
    if entry.ATable? && "id" in entry.fields && entry.fields["id"].Text? {
      var text := entry.fields["id"].text;
      LocalNameMeans(text, env.node, s.id);
      if LocalName(text, env.node).Some? {
        LocalNameMeans(text, env.node, LocalName(text, env.node).value);
      }
    }
  }

  ghost predicate AllSaid(env: Env, entries: seq<Entry>, sources: seq<Source>) {
    |sources| == |entries| && forall i | 0 <= i < |entries| :: Says(env, entries[i], sources[i])
  }

  lemma {:induction false} EntriesExactly(env: Env, entries: seq<Entry>, done: seq<Source>, sources: seq<Source>)
    requires Distinct(done)
    ensures ParseEntries(env, entries, done) == Success(done + sources) <==> AllSaid(env, entries, sources) && Distinct(done + sources)
    decreases entries
  {
    hide ParseEntry, Says;
    if entries == [] {
      assert done + [] == done;
      if sources != [] { assert |done + sources| > |done|; }
    } else {
      if ParseEntry(env, entries[0], Ids(done)).Success? {
        var first := ParseEntry(env, entries[0], Ids(done)).value;
        EntryExactly(env, entries[0], Ids(done), first);
        if sources == [] {
          assert done + [] == done;
          ParsingAdds(env, entries[1..], done + [first]);
        } else {
          EntryExactly(env, entries[0], Ids(done), sources[0]);
          DistinctMore(done, first);
          if first == sources[0] {
            EntriesExactly(env, entries[1..], done + [first], sources[1..]);
            assert done + [first] + sources[1..] == done + sources;
            AllSaidFirst(env, entries, sources);
          } else {
            ParsingAdds(env, entries[1..], done + [first]);
            assert (done + sources)[|done|] == sources[0];
            if AllSaid(env, entries, sources) && Distinct(done + sources) {
              NotSeen(done, sources);
            }
          }
        }
      } else if sources != [] && AllSaid(env, entries, sources) && Distinct(done + sources) {
        NotSeen(done, sources);
        EntryExactly(env, entries[0], Ids(done), sources[0]);
      }
    }
  }

  lemma AllSaidFirst(env: Env, entries: seq<Entry>, sources: seq<Source>)
    requires entries != [] && sources != []
    ensures AllSaid(env, entries, sources) <==> Says(env, entries[0], sources[0]) && AllSaid(env, entries[1..], sources[1..])
  {
    hide Says;
    if Says(env, entries[0], sources[0]) && AllSaid(env, entries[1..], sources[1..]) {
      forall i | 0 <= i < |entries| ensures Says(env, entries[i], sources[i]) {
        if i > 0 { assert entries[1..][i - 1] == entries[i] && sources[1..][i - 1] == sources[i]; }
      }
    }
    if AllSaid(env, entries, sources) {
      forall i | 0 <= i < |entries| - 1 ensures Says(env, entries[1..][i], sources[1..][i]) {
        assert Says(env, entries[i + 1], sources[i + 1]);
      }
    }
  }

  lemma NotSeen(done: seq<Source>, sources: seq<Source>)
    requires sources != [] && Distinct(done + sources)
    ensures sources[0].id !in Ids(done)
  {
    var all := done + sources;
    forall i | 0 <= i < |done| ensures done[i].id != sources[0].id {
      assert all[i].id != all[|done|].id;
    }
  }

  lemma DistinctMore(done: seq<Source>, s: Source)
    requires Distinct(done) && s.id !in Ids(done)
    ensures Distinct(done + [s])
  {
    assert forall i | 0 <= i < |done| :: done[i].id in Ids(done);
  }

  lemma {:induction false} ParsingAdds(env: Env, entries: seq<Entry>, done: seq<Source>)
    ensures ParseEntries(env, entries, done).Success? ==>
              var all := ParseEntries(env, entries, done).value; |all| >= |done| && all[..|done|] == done
    decreases entries
  {
    hide ParseEntry;
    if entries != [] && ParseEntry(env, entries[0], Ids(done)).Success? {
      ParsingAdds(env, entries[1..], done + [ParseEntry(env, entries[0], Ids(done)).value]);
    }
  }

  /** Exactly which lists are accepted, and as what: every entry says a source, no two the same name, and together with
      the board's own readings none is in the way of another. */
  lemma AcceptedExactlyAs(env: Env, entries: seq<Entry>, declared: seq<Source>)
    ensures AllSaid(env, entries, declared) && Distinct(declared) ==>
              var all := declared + TheBoardItself(declared);
              Parse(env, entries) == if env.conflict(all) then Failure(Conflict) else Success(all)
    ensures Parse(env, entries).Success? ==>
              exists sources :: AllSaid(env, entries, sources) && Distinct(sources) && !env.conflict(sources + TheBoardItself(sources))
                                && Parse(env, entries).value == sources + TheBoardItself(sources)
  {
    hide ParseEntries, TheBoardItself, Says;
    EntriesExactly(env, entries, [], declared);
    assert [] + declared == declared;
    if Parse(env, entries).Success? {
      var sources := ParseEntries(env, entries, []).value;
      EntriesExactly(env, entries, [], sources);
      assert [] + sources == sources;
    }
  }

  // -- a checked list reads back as it is --------------------------------------------------------------------

  /** A source that came out of the checks. */
  ghost predicate CheckedSource(env: Env, s: Source) {
    && IsName(s.id) && s.kind in SOURCE_KINDS && s.kind in KindsOf(env.profile)
    && Bare(s.options) && CheckOptions(s.kind, s.options) == Success(s.options)
  }

  ghost predicate Distinct(sources: seq<Source>) {
    forall i, j | 0 <= i < j < |sources| :: sources[i].id != sources[j].id
  }

  lemma NamesHaveNoDot(s: string)
    requires IsName(s)
    ensures FirstDot(s) == None
  {
    FirstDotIs(s);
  }

  lemma LocalNamesAreNames(s: string, node: string)
    ensures LocalName(s, node).Some? ==> IsName(LocalName(s, node).value)
    ensures IsName(s) ==> LocalName(s, node) == Some(s)
  {
    hide IsName;
    if IsName(s) {
      NamesHaveNoDot(s);
    }
  }

  lemma ParsedIsChecked(env: Env, entry: Entry, seen: set<string>)
    requires ParseEntry(env, entry, seen).Success?
    ensures var s := ParseEntry(env, entry, seen).value;
            CheckedSource(env, s) && s.id !in seen && Driven(env, s.kind)
  {
    hide IsName, CheckOptions, LocalName;
    var fields := entry.fields;
    LocalNamesAreNames(fields["id"].text, env.node);
    CheckedPassesAgain(fields["kind"].text, fields - {"id", "kind"});
  }

  /** A checked source, written down, is read back as it is if there is still a driver for it. */
  lemma WrittenReadsBack(env: Env, s: Source, seen: set<string>)
    requires CheckedSource(env, s) && s.id !in seen
    ensures Driven(env, s.kind) ==> ParseEntry(env, AsEntry(s), seen) == Success(s)
    ensures !Driven(env, s.kind) ==> ParseEntry(env, AsEntry(s), seen) == Failure(NoDriver)
  {
    hide IsName, CheckOptions, LocalName;
    LocalNamesAreNames(s.id, env.node);
    var fields := AsEntry(s).fields;
    assert fields["id"] == Text(s.id) && fields["kind"] == Text(s.kind);
    assert fields - {"id", "kind"} == s.options;
  }

  lemma {:induction false} ParsedListIsChecked(env: Env, entries: seq<Entry>, done: seq<Source>)
    requires ParseEntries(env, entries, done).Success? && Distinct(done)
    requires forall s | s in done :: CheckedSource(env, s) && Driven(env, s.kind)
    ensures var all := ParseEntries(env, entries, done).value;
            Distinct(all) && forall s | s in all :: CheckedSource(env, s) && Driven(env, s.kind)
    decreases entries
  {
    hide ParseEntry, CheckedSource, Driven;
    if entries != [] {
      ParsedIsChecked(env, entries[0], Ids(done));
      ParsedListIsChecked(env, entries[1..], done + [ParseEntry(env, entries[0], Ids(done)).value]);
    }
  }

  lemma {:induction false} WrittenListReadsBack(env: Env, sources: seq<Source>, i: nat)
    requires i <= |sources| && Distinct(sources) && forall s | s in sources :: CheckedSource(env, s)
    ensures (forall s | s in sources[i..] :: Driven(env, s.kind)) ==>
              ParseEntries(env, AsEntries(sources)[i..], sources[..i]) == Success(sources)
    ensures !(forall s | s in sources[i..] :: Driven(env, s.kind)) ==>
              ParseEntries(env, AsEntries(sources)[i..], sources[..i]) == Failure(NoDriver)
    decreases |sources| - i
  {
    hide ParseEntry, CheckedSource, Driven, AsEntry;
    if i == |sources| {
      assert sources[..i] == sources && AsEntries(sources)[i..] == [];
    } else {
      WrittenReadsBack(env, sources[i], Ids(sources[..i]));
      WrittenListReadsBack(env, sources, i + 1);
      assert sources[..i] + [sources[i]] == sources[..i + 1];
      assert AsEntries(sources)[i..][0] == AsEntry(sources[i]) && AsEntries(sources)[i..][1..] == AsEntries(sources)[i + 1..];
      assert sources[i..] == [sources[i]] + sources[i + 1..];
    }
  }

  lemma BoardNames()
    ensures IsName("board-temperature") && IsName("board-cpu")
    ensures forall profile :: "board" in KindsOf(profile)
  {
  }

  lemma BoardIsChecked(env: Env, id: string, measure: string)
    requires (id, measure) in {("board-temperature", "temperature"), ("board-cpu", "cpu")}
    ensures CheckedSource(env, BoardSource(id, measure))
    ensures var s := BoardSource(id, measure); "measure" in s.options && s.options["measure"] == Text(measure)
  {
    hide IsName, CheckOptions, KindsOf;
    BoardNames();
    BoardOptions(measure);
    var given := map["measure" := Text(measure)];
    assert Bare(given);
    CheckedPassesAgain("board", given);
    assert BoardSource(id, measure).options == BoardSource("", measure).options;
  }

  /** Once the board's own readings are in a list, or something wears their names, none is added. */
  lemma NothingIsAddedTwice(declared: seq<Source>)
    ensures TheBoardItself(declared + TheBoardItself(declared)) == []
  {
    var own := TheBoardItself(declared);
    var all := declared + own;
    hide BoardSource;
    StillMeasured(declared, all, "board-temperature", "temperature");
    StillMeasured(declared, all, "board-cpu", "cpu");
  }

  lemma StillMeasured(declared: seq<Source>, all: seq<Source>, id: string, measure: string)
    requires forall s | s in declared :: s in all
    requires forall s | s in OwnReading(declared, id, measure) :: s in all
    ensures OwnReading(all, id, measure) == []
  {
    if Measures(declared, measure) {
      var s :| s in declared && s.kind == "board" && "measure" in s.options && s.options["measure"] == Text(measure);
      assert s in all;
    } else if id in Ids(declared) {
      var s :| s in declared && s.id == id;
      assert s in all;
    } else {
      assert BoardSource(id, measure) in OwnReading(declared, id, measure);
      assert BoardSource(id, measure).id == id;
    }
  }

  lemma OwnReadingsAre(declared: seq<Source>)
    requires Distinct(declared)
    ensures forall s | s in TheBoardItself(declared) ::
              s in {BoardSource("board-temperature", "temperature"), BoardSource("board-cpu", "cpu")}
    ensures Distinct(declared + TheBoardItself(declared))
  {
    var own := TheBoardItself(declared);
    forall s | s in own ensures s.id !in Ids(declared) {
    }
    forall i, j | 0 <= i < j < |declared + own| ensures (declared + own)[i].id != (declared + own)[j].id {
      if i < |declared| && j >= |declared| {
        assert declared[i].id in Ids(declared);
        assert own[j - |declared|] in own;
      }
    }
  }

  lemma ParsedWholeIsChecked(env: Env, entries: seq<Entry>)
    requires Parse(env, entries).Success?
    ensures var all := Parse(env, entries).value;
            && Distinct(all) && (forall s | s in all :: CheckedSource(env, s))
            && TheBoardItself(all) == [] && !env.conflict(all)
            && (Driven(env, "board") ==> forall s | s in all :: Driven(env, s.kind))
  {
    hide ParseEntries, CheckedSource, TheBoardItself, Driven, Distinct;
    var declared := ParseEntries(env, entries, []).value;
    NothingParsed();
    ParsedListIsChecked(env, entries, []);
    BoardIsChecked(env, "board-temperature", "temperature");
    BoardIsChecked(env, "board-cpu", "cpu");
    OwnReadingsAre(declared);
    NothingIsAddedTwice(declared);
  }

  lemma NothingParsed()
    ensures Distinct([])
  {
  }

  /** Every accepted list reads both of the board's own measures, unless another source wears the name. */
  lemma TheBoardIsAlwaysRead(env: Env, entries: seq<Entry>)
    requires Parse(env, entries).Success?
    ensures var all := Parse(env, entries).value;
            && (Measures(all, "temperature") || "board-temperature" in Ids(all))
            && (Measures(all, "cpu") || "board-cpu" in Ids(all))
            && ParseEntries(env, entries, []).value <= all
  {
    hide ParseEntries;
    var declared := ParseEntries(env, entries, []).value;
    ReadOrWorn(declared, "board-temperature", "temperature");
    ReadOrWorn(declared, "board-cpu", "cpu");
  }

  lemma ReadOrWorn(declared: seq<Source>, id: string, measure: string)
    requires (id, measure) in {("board-temperature", "temperature"), ("board-cpu", "cpu")}
    ensures var all := declared + TheBoardItself(declared); Measures(all, measure) || id in Ids(all)
  {
    var all := declared + TheBoardItself(declared);
    if Measures(declared, measure) {
      var s :| s in declared && s.kind == "board" && "measure" in s.options && s.options["measure"] == Text(measure);
      assert s in all;
    } else if id in Ids(declared) {
      var s :| s in declared && s.id == id;
      assert s in all;
    } else {
      assert BoardSource(id, measure) in all;
      assert BoardSource(id, measure).id == id;
    }
  }

  /** Reading back what was written down gives the same list, exactly when there is a driver for every
      kind in it. */
  lemma ReloadIsTheIdentity(env: Env, entries: seq<Entry>)
    requires Parse(env, entries).Success?
    ensures var all := Parse(env, entries).value;
            Parse(env, AsEntries(all)) == Success(all) <==> forall s | s in all :: Driven(env, s.kind)
    ensures Driven(env, "board") ==>
              Parse(env, AsEntries(Parse(env, entries).value)) == Parse(env, entries)
  {
    hide CheckedSource, ParseEntries, AsEntries, TheBoardItself, Driven;
    ParsedWholeIsChecked(env, entries);
    var all := Parse(env, entries).value;
    WrittenListReadsBack(env, all, 0);
    assert AsEntries(all)[0..] == AsEntries(all) && all[..0] == [] && all[0..] == all;
    assert all + [] == all;
  }

  /** Without a driver for the board itself, an empty list is accepted and cannot be read back. */
  lemma NoBoardDriverNoReload(node: string, profile: Profile)
    ensures var env := Env(node, profile, Some({"gpio"}), _ => false);
            Parse(env, []).Success? && Parse(env, AsEntries(Parse(env, []).value)) != Parse(env, [])
  {
    var env := Env(node, profile, Some({"gpio"}), _ => false);
    var all := Parse(env, []).value;
    ReloadIsTheIdentity(env, []);
    assert all == TheBoardItself([]);
    assert BoardSource("board-cpu", "cpu") in all;
    assert !Driven(env, "board");
  }
}
