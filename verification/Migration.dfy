/** Moving a rules document between its first and second versions, losing nothing. */
module Migration {
  import opened Wrappers
  import opened RuleIds

  const PRIMARY_CAMERA := "legacy-primary"
  const PRIMARY_MICROPHONE := "legacy-microphone"

  datatype IfUnavailable = Fail | Skip | Stop

  /** What a rule does. `rest` is everything about a step both versions say in the same words. */
  datatype Action =
    | Photo(camera: string, ifUnavailable: IfUnavailable, rest: string)
    | Video(camera: string, sound: bool, named: Option<string>, ifUnavailable: IfUnavailable, rest: string)
    | Audio(microphone: string, rest: string)
    | Other(rest: string)

  datatype Sight = Sight(objectName: string, minConfidence: real, minCount: nat, consecutive: nat, rearmAfter: real,
                         region: Option<(real, real, real, real)>)

  datatype Trigger = Vision(camera: string, sight: Sight) | AnotherKind(kind: string)

  datatype RuleV1 = RuleV1(name: string, enabled: bool, sight: Sight, cooldown: real, actions: seq<Action>)

  datatype RuleV2 = RuleV2(id: string, name: string, enabled: bool, trigger: Trigger, cooldown: real, actions: seq<Action>)

  datatype FaultPolicy = Global | Isolated

  /** What both versions of the document hold beside the rules. */
  datatype Common = Common(detectionFps: real, testMode: bool, actionTtlSeconds: nat,
                           sshCommands: map<string, string>, telegram: string)

  datatype ConfigV1 = ConfigV1(common: Common, rules: seq<RuleV1>)

  datatype ConfigV2 = ConfigV2(common: Common, faultPolicy: FaultPolicy, rules: seq<RuleV2>)

  function NamesV1(rules: seq<RuleV1>): (names: seq<string>)
    ensures |names| == |rules|
  {
    seq(|rules|, i requires 0 <= i < |rules| => rules[i].name)
  }

  function NamesV2(rules: seq<RuleV2>): (names: seq<string>)
    ensures |names| == |rules|
  {
    seq(|rules|, i requires 0 <= i < |rules| => rules[i].name)
  }

  function IdsV2(rules: seq<RuleV2>): (ids: seq<string>)
    ensures |ids| == |rules|
  {
    seq(|rules|, i requires 0 <= i < |rules| => rules[i].id)
  }

  // -- going up ----------------------------------------------------------------------------------

  function UpRule(rule: RuleV1, id: string): RuleV2 {
    RuleV2(id, rule.name, rule.enabled, Vision(PRIMARY_CAMERA, rule.sight), rule.cooldown, rule.actions)
  }

  function Known(previous: Option<ConfigV2>): map<string, string> {
    if previous.None? then map[] else Zip(NamesV2(previous.value.rules), IdsV2(previous.value.rules))
  }

  function ToV2(config: ConfigV1, previous: Option<ConfigV2>, faultPolicy: FaultPolicy): ConfigV2 {
    var ids := AssignIds(NamesV1(config.rules), Known(previous));
    ConfigV2(config.common,
             if previous.Some? then previous.value.faultPolicy else faultPolicy,
             seq(|config.rules|, i requires 0 <= i < |config.rules| => UpRule(config.rules[i], ids[i])))
  }

  // -- going down ---------------------------------------------------------------------------------

  datatype Obstacle =
    | SetOffBy(rule: string, kind: string)
    | Watches(rule: string, camera: string)
    | RecordsFrom(rule: string, camera: string)
    | IfMissing(rule: string, what: IfUnavailable)
    | RecordsSoundFrom(rule: string, microphone: string)

  /** The microphone a clip records, or none for a silent one. */
  function MicrophoneOf(a: Action): Option<string>
    requires a.Video?
  {
    if !a.sound then None
    else if a.named.Some? then a.named
    else if a.camera == PRIMARY_CAMERA then Some(PRIMARY_MICROPHONE) else None
  }

  /** The microphone a step brings up, if it is a step that could. */
  function SoundOf(a: Action): Option<string> {
    match a
    case Audio(microphone, _) => Some(microphone)
    case Video(_, sound, named, _, _) =>
      var heard := if sound then MicrophoneOf(a) else named;
      Some(if heard.Some? && heard.value != "" then heard.value else PRIMARY_MICROPHONE)
    case _ => None
  }

  function If<T>(condition: bool, x: T): seq<T> {
    if condition then [x] else []
  }

  function ActionObstacles(rule: string, a: Action): seq<Obstacle> {
    var filmed := a.Photo? || a.Video?;
    If(filmed && a.camera != PRIMARY_CAMERA, RecordsFrom(rule, if filmed then a.camera else ""))
    + If(filmed && a.ifUnavailable != Fail, IfMissing(rule, if filmed then a.ifUnavailable else Fail))
    + If(SoundOf(a).Some? && SoundOf(a).value != PRIMARY_MICROPHONE,
         RecordsSoundFrom(rule, if SoundOf(a).Some? then SoundOf(a).value else ""))
  }

  function TriggerObstacles(rule: RuleV2): seq<Obstacle> {
    match rule.trigger
    case AnotherKind(kind) => [SetOffBy(rule.name, kind)]
    case Vision(camera, _) => If(camera != PRIMARY_CAMERA, Watches(rule.name, camera))
  }

  function ActionsObstacles(rule: string, actions: seq<Action>): seq<Obstacle>
    decreases actions
  {
    if actions == [] then []
    else ActionsObstacles(rule, actions[..|actions| - 1]) + ActionObstacles(rule, actions[|actions| - 1])
  }

  function Obstacles(rules: seq<RuleV2>): seq<Obstacle>
    decreases rules
  {
    if rules == [] then []
    else
      var rule := rules[|rules| - 1];
      Obstacles(rules[..|rules| - 1]) + (TriggerObstacles(rule) + ActionsObstacles(rule.name, rule.actions))
  }

  lemma OneStepMore(rule: string, actions: seq<Action>, j: nat)
    requires j < |actions|
    ensures ActionsObstacles(rule, actions[..j + 1]) == ActionsObstacles(rule, actions[..j]) + ActionObstacles(rule, actions[j])
  {
    hide ActionObstacles;
    assert actions[..j + 1][..j] == actions[..j];
  }

  lemma OneRuleMore(rules: seq<RuleV2>, i: nat)
    requires i < |rules|
    ensures Obstacles(rules[..i + 1])
         == Obstacles(rules[..i]) + (TriggerObstacles(rules[i]) + ActionsObstacles(rules[i].name, rules[i].actions))
  {
    hide ActionsObstacles, TriggerObstacles;
    assert rules[..i + 1][..i] == rules[..i];
  }

  lemma NothingHinders(rule: string)
    ensures ActionsObstacles(rule, []) == [] && Obstacles([]) == []
  {
  }

  method FindObstacles(rules: seq<RuleV2>) returns (found: seq<Obstacle>)
    ensures found == Obstacles(rules)
  {
    hide ActionObstacles, ActionsObstacles, Obstacles;
    found := [];
    NothingHinders("");
    assert rules[..0] == [];
    for i := 0 to |rules|
      invariant found == Obstacles(rules[..i])
    {
      var rule := rules[i];
      ghost var before := found;
      if rule.trigger.AnotherKind? {
        found := found + [SetOffBy(rule.name, rule.trigger.kind)];
      } else if rule.trigger.camera != PRIMARY_CAMERA {
        found := found + [Watches(rule.name, rule.trigger.camera)];
      }
      ghost var trigger := TriggerObstacles(rule);
      assert found == before + trigger;
      hide TriggerObstacles;
      NothingHinders(rule.name);
      assert rule.actions[..0] == [] && trigger + [] == trigger;
      for j := 0 to |rule.actions|
        invariant found == before + (trigger + ActionsObstacles(rule.name, rule.actions[..j]))
      {
        OneStepMore(rule.name, rule.actions, j);
        found := found + ActionObstacles(rule.name, rule.actions[j]);
      }
      assert rule.actions[..|rule.actions|] == rule.actions;
      OneRuleMore(rules, i);
    }
    assert rules[..|rules|] == rules;
  }

  /** What in one step the first version cannot say. */
  predicate StepHinders(rule: string, a: Action, o: Obstacle) {
    || ((a.Photo? || a.Video?) && a.camera != PRIMARY_CAMERA && o == RecordsFrom(rule, a.camera))
    || ((a.Photo? || a.Video?) && a.ifUnavailable != Fail && o == IfMissing(rule, a.ifUnavailable))
    || (SoundOf(a).Some? && SoundOf(a).value != PRIMARY_MICROPHONE && o == RecordsSoundFrom(rule, SoundOf(a).value))
  }

  /** And in one rule. */
  predicate RuleHinders(rule: RuleV2, o: Obstacle) {
    || (rule.trigger.AnotherKind? && o == SetOffBy(rule.name, rule.trigger.kind))
    || (rule.trigger.Vision? && rule.trigger.camera != PRIMARY_CAMERA && o == Watches(rule.name, rule.trigger.camera))
    || exists i | 0 <= i < |rule.actions| :: StepHinders(rule.name, rule.actions[i], o)
  }

  lemma {:induction false} StepsAreAllFound(rule: string, actions: seq<Action>, o: Obstacle)
    ensures o in ActionsObstacles(rule, actions) <==> exists i | 0 <= i < |actions| :: StepHinders(rule, actions[i], o)
    decreases actions
  {
    hide StepHinders, ActionObstacles;
    if actions != [] {
      var n := |actions| - 1;
      StepsAreAllFound(rule, actions[..n], o);
      StepIsFound(rule, actions[n], o);
      if i :| 0 <= i < |actions| && StepHinders(rule, actions[i], o) {
        if i < n { assert actions[..n][i] == actions[i]; }
      }
    }
  }

  lemma StepIsFound(rule: string, a: Action, o: Obstacle)
    ensures o in ActionObstacles(rule, a) <==> StepHinders(rule, a, o)
  {
    hide SoundOf;
  }

  /** Every obstacle is found, and nothing else is called one. */
  lemma {:induction false} ObstaclesAreAllFound(rules: seq<RuleV2>, o: Obstacle)
    ensures o in Obstacles(rules) <==> exists i | 0 <= i < |rules| :: RuleHinders(rules[i], o)
    decreases rules
  {
    hide RuleHinders, TriggerObstacles, ActionsObstacles;
    if rules != [] {
      var n := |rules| - 1;
      ObstaclesAreAllFound(rules[..n], o);
      RuleIsFound(rules[n], o);
      var last := TriggerObstacles(rules[n]) + ActionsObstacles(rules[n].name, rules[n].actions);
      assert o in Obstacles(rules) <==> o in Obstacles(rules[..n]) || o in last;
      assert forall i | 0 <= i < n :: rules[..n][i] == rules[i];
      hide Obstacles;
      if i :| 0 <= i < |rules| && RuleHinders(rules[i], o) {
        if i < n { assert RuleHinders(rules[..n][i], o); }
      }
    }
  }

  lemma RuleIsFound(rule: RuleV2, o: Obstacle)
    ensures o in TriggerObstacles(rule) + ActionsObstacles(rule.name, rule.actions) <==> RuleHinders(rule, o)
  {
    hide ActionsObstacles, StepHinders;
    StepsAreAllFound(rule.name, rule.actions, o);
  }

  function DownRule(rule: RuleV2): RuleV1
    requires rule.trigger.Vision?
  {
    RuleV1(rule.name, rule.enabled, rule.trigger.sight, rule.cooldown, rule.actions)
  }

  /** A rule the first version can say: set off by this node's camera, and its steps the ones it knows. */
  predicate OldStyle(a: Action) {
    match a
    case Photo(camera, ifUnavailable, _) => camera == PRIMARY_CAMERA && ifUnavailable == Fail
    case Video(camera, _, named, ifUnavailable, _) =>
      && camera == PRIMARY_CAMERA && ifUnavailable == Fail
      && (named.None? || named.value in {"", PRIMARY_MICROPHONE})
    case Audio(microphone, _) => microphone == PRIMARY_MICROPHONE
    case Other(_) => true
  }

  predicate OldRule(rule: RuleV2) {
    && rule.trigger.Vision? && rule.trigger.camera == PRIMARY_CAMERA
    && forall a | a in rule.actions :: OldStyle(a)
  }

  lemma ActionWithoutObstacles(rule: string, a: Action)
    ensures ActionObstacles(rule, a) == [] <==> OldStyle(a)
  {
  }

  lemma {:induction false} ActionsWithoutObstacles(rule: string, actions: seq<Action>)
    ensures ActionsObstacles(rule, actions) == [] <==> forall a | a in actions :: OldStyle(a)
    decreases actions
  {
    hide ActionObstacles, OldStyle;
    if actions != [] {
      var front, last := actions[..|actions| - 1], actions[|actions| - 1];
      ActionsWithoutObstacles(rule, front);
      ActionWithoutObstacles(rule, last);
      assert forall a :: a in actions <==> a in front || a == last;
    }
  }

  lemma RuleWithoutObstacles(rule: RuleV2)
    ensures |TriggerObstacles(rule) + ActionsObstacles(rule.name, rule.actions)| == 0 <==> OldRule(rule)
  {
    hide OldStyle;
    ActionsWithoutObstacles(rule.name, rule.actions);
  }

  /** Nothing is in the way exactly when every rule is one the first version can say. */
  lemma {:induction false} NoObstaclesMeans(rules: seq<RuleV2>)
    ensures Obstacles(rules) == [] <==> forall i | 0 <= i < |rules| :: OldRule(rules[i])
    decreases rules
  {
    hide ActionsObstacles, OldRule, TriggerObstacles;
    if rules != [] {
      var front, last := rules[..|rules| - 1], rules[|rules| - 1];
      NoObstaclesMeans(front);
      RuleWithoutObstacles(last);
      assert |Obstacles(rules)| == |Obstacles(front)| + |TriggerObstacles(last) + ActionsObstacles(last.name, last.actions)|;
      if forall i | 0 <= i < |rules| :: OldRule(rules[i]) {
        assert forall i | 0 <= i < |front| :: front[i] == rules[i];
      }
    }
  }

  function ToV1(config: ConfigV2): Result<ConfigV1, seq<Obstacle>> {
    var reasons := Obstacles(config.rules);
    if reasons != [] then Failure(reasons)
    else
      NoObstaclesMeans(config.rules);
      Success(ConfigV1(config.common, seq(|config.rules|, i requires 0 <= i < |config.rules| => DownRule(config.rules[i]))))
  }

  method Downgrade(config: ConfigV2) returns (out: Result<ConfigV1, seq<Obstacle>>)
    ensures out == ToV1(config)
  {
    hide Obstacles, OldStyle;
    var reasons := FindObstacles(config.rules);
    if reasons != [] {
      return Failure(reasons);
    }
    NoObstaclesMeans(config.rules);
    var rules: seq<RuleV1> := [];
    for i := 0 to |config.rules|
      invariant |rules| == i
      invariant forall j | 0 <= j < i :: config.rules[j].trigger.Vision? && rules[j] == DownRule(config.rules[j])
    {
      assert OldRule(config.rules[i]);
      rules := rules + [DownRule(config.rules[i])];
    }
    assert rules == ToV1(config).value.rules;
    return Success(ConfigV1(config.common, rules));
  }

  // -- there and back -------------------------------------------------------------------------------

  /** What every saved document is held to: names and identifiers are unique, and none is empty. */
  ghost predicate ValidV2(config: ConfigV2) {
    && AllDifferent(NamesV2(config.rules)) && AllDifferent(IdsV2(config.rules))
    && forall rule | rule in config.rules :: IsRuleId(rule.id)
  }

  /** Down and up again, knowing what was there: the document is as it was. */
  lemma DownAndUp(config: ConfigV2, faultPolicy: FaultPolicy)
    requires ValidV2(config) && Obstacles(config.rules) == []
    ensures ToV1(config).Success?
    ensures ToV2(ToV1(config).value, Some(config), faultPolicy) == config
  {
    hide AssignIds, Zip, OldStyle;
    NoObstaclesMeans(config.rules);
    var down := ToV1(config).value;
    var names, ids := NamesV2(config.rules), IdsV2(config.rules);
    assert NamesV1(down.rules) == names;
    ZipMaps(names, ids);
    KnownIdsAreKept(names, ids, Zip(names, ids));
    var up := ToV2(down, Some(config), faultPolicy);
    assert forall i | 0 <= i < |config.rules| :: config.rules[i] in config.rules && OldRule(config.rules[i]);
    assert up.rules == config.rules;
  }

  /** Up and down again: the document is as it was, exactly when its steps are ones the first version
      always took. */
  lemma UpAndDown(config: ConfigV1, previous: Option<ConfigV2>, faultPolicy: FaultPolicy)
    ensures ToV1(ToV2(config, previous, faultPolicy)) == Success(config)
       <==> forall rule, a | rule in config.rules && a in rule.actions :: OldStyle(a)
  {
    hide AssignIds, OldStyle, Obstacles, Zip;
    var up := ToV2(config, previous, faultPolicy);
    NoObstaclesMeans(up.rules);
    assert forall i | 0 <= i < |config.rules| :: up.rules[i].actions == config.rules[i].actions;
    assert forall rule | rule in config.rules :: exists i | 0 <= i < |config.rules| :: config.rules[i] == rule;
    if forall rule, a | rule in config.rules && a in rule.actions :: OldStyle(a) {
      forall i | 0 <= i < |up.rules| ensures OldRule(up.rules[i]) {
        assert config.rules[i] in config.rules;
      }
      assert ToV1(up).value.rules == config.rules;
    } else {
      var rule, a :| rule in config.rules && a in rule.actions && !OldStyle(a);
      var i :| 0 <= i < |config.rules| && config.rules[i] == rule;
      assert !OldRule(up.rules[i]);
    }
  }

  // -- a file in the first version --------------------------------------------------------------------

  /** A step as the first version's file shows it, without the fields it never had. */
  datatype Shown =
    | ShownPhoto(rest: string)
    | ShownVideo(sound: bool, rest: string)
    | ShownAudio(rest: string)
    | ShownOther(rest: string)

  function Show(a: Action): Shown {
    match a
    case Photo(_, _, rest) => ShownPhoto(rest)
    case Video(_, sound, _, _, rest) => ShownVideo(sound, rest)
    case Audio(_, rest) => ShownAudio(rest)
    case Other(rest) => ShownOther(rest)
  }

  /** Reading it fills in what those fields are when nothing is said. */
  function ReadShown(s: Shown): Action {
    match s
    case ShownPhoto(rest) => Photo(PRIMARY_CAMERA, Fail, rest)
    case ShownVideo(sound, rest) => Video(PRIMARY_CAMERA, sound, None, Fail, rest)
    case ShownAudio(rest) => Audio(PRIMARY_MICROPHONE, rest)
    case ShownOther(rest) => Other(rest)
  }

  /** The file holds each rule with its steps as shown. */
  datatype ShownRule = ShownRule(name: string, enabled: bool, sight: Sight, cooldown: real, actions: seq<Shown>)

  datatype LegacyFile = LegacyFile(common: Common, rules: seq<ShownRule>)

  function ShowAll(actions: seq<Action>): seq<Shown> {
    seq(|actions|, i requires 0 <= i < |actions| => Show(actions[i]))
  }

  function ReadAll(actions: seq<Shown>): seq<Action> {
    seq(|actions|, i requires 0 <= i < |actions| => ReadShown(actions[i]))
  }

  function Write(config: ConfigV1): LegacyFile {
    LegacyFile(config.common, seq(|config.rules|, i requires 0 <= i < |config.rules| =>
      var r := config.rules[i]; ShownRule(r.name, r.enabled, r.sight, r.cooldown, ShowAll(r.actions))))
  }

  function ReadLegacy(file: LegacyFile): ConfigV1 {
    ConfigV1(file.common, seq(|file.rules|, i requires 0 <= i < |file.rules| =>
      var r := file.rules[i]; RuleV1(r.name, r.enabled, r.sight, r.cooldown, ReadAll(r.actions))))
  }

  /** What a step does: which camera, which microphone, and what if the camera is missing. */
  datatype Meaning = Meaning(camera: Option<string>, microphone: Option<string>,
                             ifUnavailable: Option<IfUnavailable>, rest: string)

  function MeaningOf(a: Action): Meaning {
    match a
    case Photo(camera, ifUnavailable, rest) => Meaning(Some(camera), None, Some(ifUnavailable), rest)
    case Video(camera, _, _, ifUnavailable, rest) => Meaning(Some(camera), MicrophoneOf(a), Some(ifUnavailable), rest)
    case Audio(microphone, rest) => Meaning(None, Some(microphone), None, rest)
    case Other(rest) => Meaning(None, None, None, rest)
  }

  /** Source names are never empty. */
  predicate WellNamed(a: Action) {
    a.Video? ==> a.named != Some("")
  }

  /** Leaving the fields out changes no step the first version can say. */
  lemma HidingKeepsTheMeaning(a: Action)
    requires OldStyle(a) && WellNamed(a)
    ensures MeaningOf(ReadShown(Show(a))) == MeaningOf(a)
    ensures ReadShown(Show(a)) == a <==> !(a.Video? && a.named.Some?)
  {
  }

  predicate Unspoken(actions: seq<Action>) {
    forall i | 0 <= i < |actions| :: !(actions[i].Video? && actions[i].named.Some?)
  }

  lemma ActionsReadBack(actions: seq<Action>)
    requires forall a | a in actions :: OldStyle(a) && WellNamed(a)
    ensures ReadAll(ShowAll(actions)) == actions <==> Unspoken(actions)
  {
    var back := ReadAll(ShowAll(actions));
    forall i | 0 <= i < |actions| ensures back[i] == actions[i] <==> !(actions[i].Video? && actions[i].named.Some?) {
      HidingKeepsTheMeaning(actions[i]);
    }
    if Unspoken(actions) {
      assert back == actions;
    }
  }

  /** A document saved in a file of the first version and read again: it is as it was exactly when its
      identifiers are the ones its names give, its policy is the old one, and no clip names a microphone. */
  lemma LegacyFileReadsBack(config: ConfigV2)
    requires Obstacles(config.rules) == [] && forall rule, a | rule in config.rules && a in rule.actions :: WellNamed(a)
    ensures ToV1(config).Success?
    ensures ToV2(ReadLegacy(Write(ToV1(config).value)), None, Global) == config
       <==> && config.faultPolicy == Global
            && IdsV2(config.rules) == AssignIds(NamesV2(config.rules), map[])
            && forall i | 0 <= i < |config.rules| :: Unspoken(config.rules[i].actions)
  {
    hide AssignIds, OldStyle, WellNamed, Unspoken, ShowAll, ReadAll, Obstacles;
    NoObstaclesMeans(config.rules);
    var down := ToV1(config).value;
    var back := ReadLegacy(Write(down));
    var up := ToV2(back, None, Global);
    assert NamesV1(back.rules) == NamesV2(config.rules);
    var ids := AssignIds(NamesV2(config.rules), map[]);
    forall i | 0 <= i < |config.rules|
      ensures up.rules[i] == config.rules[i] <==> ids[i] == config.rules[i].id && Unspoken(config.rules[i].actions)
    {
      assert OldRule(config.rules[i]) && config.rules[i] in config.rules;
      ActionsReadBack(config.rules[i].actions);
    }
    assert up.rules == config.rules <==> forall i | 0 <= i < |config.rules| :: up.rules[i] == config.rules[i];
    assert IdsV2(config.rules) == ids <==> forall i | 0 <= i < |config.rules| :: config.rules[i].id == ids[i];
  }
}
