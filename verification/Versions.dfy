/**
 * Drafts, publication and rollback of one agent (core/internal/agent/service.go).  Every operation holds the agent's
 * row lock, so each is one step; a failing operation rolls back.
 */
module Versions {
  import opened Collections
  import opened AgentConfig
  import opened Pricing

  datatype Key = Key(scopes: set<int>, revoked: bool, expiresAt: Option<int>)

  datatype Connection = Connection(provider: string, endpoint: string, defaultModel: string, enabled: bool)

  datatype Draft = Draft(version: nat, config: StoredConfig)

  /** The agent's row (its configuration columns are `live`), its draft, its recorded versions, the chats it is a member
      of and its keys. */
  datatype State = State(profile: Profile, enabled: bool, live: StoredSettings, published: Option<nat>, draft: Option<Draft>,
                         versions: map<nat, VersionConfig>, members: seq<Id>, keys: map<Id, Key>, deleted: bool)

  /** What an operation reads from other tables. */
  datatype Env = Env(connections: map<Id, Connection>, hasCredential: bool, hasTrigger: bool, chatsExist: bool, now: int)

  /** Which fields an update gives, and what they do to the configuration it read. */
  datatype Edit = Edit(name: Option<string>, handle: Option<string>, config: RawConfig -> RawConfig,
                       givesConnection: bool, givesModel: bool, givesChats: bool, enabled: Option<bool>)

  datatype Step =
    | Update(edit: Edit, env: Env)
    | Publish(env: Env)
    | Rollback(version: nat, env: Env)
    | ResetRecipe(description: string, scopes: seq<int>, env: Env)
    | SetEnabled(enabled: bool, ready: bool)
    | CreateKey(id: Id, granted: set<int>, expiresAt: Option<int>)
    | RevokeKey(id: Id)
    | ChangeMembership(members: seq<Id>)
    | Delete

  /** The normalizations that the operations apply. */
  datatype Rules = Rules(profile: Profile -> Option<Profile>, config: (string, RawConfig) -> Option<VersionConfig>)

  function RulesOf(c: Checks): Rules {
    Rules((p: Profile) => NormalProfile(c, p), (kind: string, raw: RawConfig) => NormalConfig(c, kind, raw))
  }

  /** What a version keeps for itself: a connection says later what the provider, the endpoint and the model are. */
  function Kept(v: VersionConfig): VersionConfig {
    if v.settings.connection.None? then v else v.(settings := v.settings.(provider := "", endpoint := "", model := ""))
  }

  // What the state machine needs of them: idempotence, also after a trip through the database.

  ghost predicate ProfileLaw(rules: Rules, p: Profile, name: string, handle: string) {
    && (rules.profile(p).Some? ==> rules.profile(rules.profile(p).value) == rules.profile(p))
    && (rules.profile(p) == Some(p) ==>
          var q := rules.profile(Profile(name, handle, p.kind)); q.Some? ==> q.value.kind == p.kind && rules.profile(q.value) == q)
  }

  ghost predicate ConfigLaw(rules: Rules, kind: string, raw: RawConfig) {
    rules.config(kind, raw).Some? ==>
      var v := rules.config(kind, raw).value;
      && rules.config(kind, AsRaw(v)) == Some(v)
      && v.settings.connection == raw.settings.connection
      && rules.config(kind, AsRaw(Kept(v))) == Some(Kept(v))
  }

  ghost predicate RowLaw(rules: Rules, kind: string, v: VersionConfig) {
    Storable(v) && rules.config(kind, AsRaw(v)) == Some(v) ==>
      var w := Texts(Stored(v));
      rules.config(kind, AsRaw(w)) == Some(w) && Storable(w) && Stored(w) == Stored(v)
  }

  ghost predicate Lawful(rules: Rules) {
    && (forall p, name, handle :: ProfileLaw(rules, p, name, handle))
    && (forall kind, raw :: ConfigLaw(rules, kind, raw))
    && (forall kind, v :: RowLaw(rules, kind, v))
  }

  lemma KeptIsNormal(c: Checks, kind: string, v: VersionConfig)
    requires IsFilled(v) && Acceptable(c, kind, v)
    ensures NormalConfig(c, kind, AsRaw(Kept(v))) == Some(Kept(v))
  {
    assert RecipeOk(kind, Kept(v));
    assert IsFilled(Kept(v)) && Acceptable(c, kind, Kept(v));
    NormalIsAcceptable(c, kind, Kept(v));
  }

  /** Normalization as the service does it obeys the laws. */
  lemma NormalizationIsLawful(c: Checks)
    ensures Lawful(RulesOf(c))
  {
    var rules := RulesOf(c);
    forall p, name, handle ensures ProfileLaw(rules, p, name, handle) {
      ProfileIsIdempotent(c, p);
      ProfileIsIdempotent(c, Profile(name, handle, p.kind));
    }
    forall kind, raw ensures ConfigLaw(rules, kind, raw) {
      NormalizationIsIdempotent(c, kind, raw);
      if NormalConfig(c, kind, raw).Some? { KeptIsNormal(c, kind, NormalConfig(c, kind, raw).value); }
    }
    forall kind, v ensures RowLaw(rules, kind, v) {
      if Storable(v) && rules.config(kind, AsRaw(v)) == Some(v) {
        NormalizationIsIdempotent(c, kind, AsRaw(v));
        RowStaysNormal(c, kind, v);
      }
    }
  }

  function Latest(s: State): nat { if s.published.Some? then s.published.value else 0 }

  function DraftVersion(s: State): nat { if s.draft.Some? then s.draft.value.version else Latest(s) + 1 }

  // ---------- what an operation reads ----------

  /** The draft if there is one, otherwise the live columns with the memberships; a connection overrides the provider and
      the endpoint, and fills in an empty model. */
  function Row(s: State): StoredConfig { if s.draft.Some? then s.draft.value.config else Config(s.live, s.members) }

  function Connected(settings: Settings<Option<string>, int>, env: Env): Settings<Option<string>, int> {
    if settings.connection.Some? && settings.connection.value in env.connections then
      var c := env.connections[settings.connection.value];
      settings.(provider := c.provider, endpoint := c.endpoint, model := if settings.model != "" then settings.model else c.defaultModel)
    else settings
  }

  function View(s: State, env: Env): VersionConfig {
    var v := Texts(Row(s));
    v.(settings := Connected(v.settings, env))
  }

  // ---------- publishing ----------

  function ScopeSet(config: VersionConfig): set<int> { set i | 0 <= i < |config.settings.scopes| :: config.settings.scopes[i] }

  predicate HasActiveKey(s: State, scopes: set<int>, now: int) {
    exists id :: id in s.keys && !s.keys[id].revoked && (s.keys[id].expiresAt.None? || s.keys[id].expiresAt.value > now) && s.keys[id].scopes <= scopes
  }

  predicate Ready(s: State, config: VersionConfig, env: Env) {
    && config.chats != []
    && (s.profile.kind == "external" ==> HasActiveKey(s, ScopeSet(config), env.now))
    && (s.profile.kind == "builtin" ==>
          && config.settings.provider != "" && config.settings.model != ""
          && (config.settings.connection.Some? || env.hasCredential) && config.settings.shared)
    && (config.settings.recipe != "custom" ==> env.hasTrigger)
  }

  function RevokeBeyond(keys: map<Id, Key>, scopes: set<int>): map<Id, Key> {
    map id | id in keys :: if keys[id].scopes <= scopes then keys[id] else keys[id].(revoked := true)
  }

  /** The foreign key of an agent's row and of its draft. */
  predicate Linked(settings: Settings<Option<string>, int>, env: Env) {
    settings.connection.Some? ==> settings.connection.value in env.connections
  }

  /** Publishing: the live columns, the memberships, the keys, the recorded version and the draft change together. */
  function PublishConfig(s: State, config: VersionConfig, version: nat, env: Env): Option<State> {
    if !Ready(s, config, env) || !Storable(config) || !Linked(config.settings, env) || version in s.versions then None
    else
      Some(s.(enabled := true, live := Stored(config).settings, published := Some(version), members := config.chats,
              keys := RevokeBeyond(s.keys, ScopeSet(config)), versions := s.versions[version := config], draft := None))
  }

  // ---------- the operations ----------

  /** The configuration an update saves. */
  function Prospective(rules: Rules, s: State, edit: Edit, env: Env): Option<VersionConfig> {
    match rules.config(s.profile.kind, edit.config(AsRaw(View(s, env))))
    case None => None
    case Some(config) =>
      if config.settings.connection.Some? then
        if config.settings.connection.value !in env.connections || !env.connections[config.settings.connection.value].enabled then None
        else
          var connection := env.connections[config.settings.connection.value];
          var model := if edit.givesConnection && !edit.givesModel then connection.defaultModel else config.settings.model;
          if model == "" then None
          else Some(config.(settings := config.settings.(provider := connection.provider, endpoint := connection.endpoint, model := model)))
      else Some(config)
  }

  function EditedProfile(rules: Rules, s: State, edit: Edit): Option<Profile> {
    rules.profile(Profile(if edit.name.Some? then edit.name.value else s.profile.name,
                             if edit.handle.Some? then edit.handle.value else s.profile.handle, s.profile.kind))
  }

  /** The actor's name and handle, and the draft under the next version number. */
  function Save(s: State, profile: Profile, config: VersionConfig): State
    requires Storable(config)
  {
    s.(profile := profile, draft := Some(Draft(DraftVersion(s), Stored(config))))
  }

  function Finish(s: State, saved: State, config: VersionConfig, enabled: Option<bool>, env: Env): State {
    match enabled
    case None => saved
    case Some(false) => saved.(enabled := false)
    case Some(true) =>
      var published := PublishConfig(saved, config, DraftVersion(s), env);
      if published.Some? then published.value else s
  }

  function UpdateAgent(rules: Rules, s: State, edit: Edit, env: Env): State {
    var profile, config := EditedProfile(rules, s, edit), Prospective(rules, s, edit, env);
    if s.deleted || profile.None? || config.None? || !Storable(config.value) then s
    else if edit.givesChats && config.value.chats != [] && !env.chatsExist then s
    else Finish(s, Save(s, profile.value, config.value), config.value, edit.enabled, env)
  }

  /** An update is accepted with the profile and the configuration that it saves, with chats that exist, and, when it enables
      the agent, only if the saved draft can be published. */
  predicate Updatable(rules: Rules, s: State, edit: Edit, env: Env) {
    var profile, config := EditedProfile(rules, s, edit), Prospective(rules, s, edit, env);
    && !s.deleted && profile.Some? && config.Some? && Storable(config.value)
    && (edit.givesChats && config.value.chats != [] ==> env.chatsExist)
    && (edit.enabled == Some(true) ==> PublishConfig(Save(s, profile.value, config.value), config.value, DraftVersion(s), env).Some?)
  }

  function PublishAgent(rules: Rules, s: State, env: Env): State {
    if s.deleted || s.draft.None? then s
    else
      var profile, config := rules.profile(s.profile), rules.config(s.profile.kind, AsRaw(View(s, env)));
      if profile.None? || config.None? then s
      else
        var published := PublishConfig(s, config.value, s.draft.value.version, env);
        if published.Some? then published.value else s
  }

  /** What a rollback prepares from a recorded version. */
  function Prepared(rules: Rules, s: State, version: nat, env: Env): Option<VersionConfig> {
    if s.deleted || version !in s.versions || rules.profile(s.profile).None? then None
    else
      match rules.config(s.profile.kind, AsRaw(s.versions[version]))
      case None => None
      case Some(config) => if Storable(config) && Linked(config.settings, env) then Some(config) else None
  }

  /** A rollback prepares a draft; it does not publish it. */
  function RollbackAgent(rules: Rules, s: State, version: nat, env: Env): (t: State) {
    var config := Prepared(rules, s, version, env);
    if config.None? then s else s.(draft := Some(Draft(Latest(s) + 1, Stored(config.value))))
  }

  function Reset(s: State, description: string, scopes: seq<int>, env: Env): State {
    var view := View(s, env);
    if s.deleted || view.settings.recipe == "custom" || view.chats == [] || !Storable(view) then s
    else
      var settings := view.settings.(description := description, scopes := scopes, maxOutput := 2048, maxIterations := 8, maxDepth := 3,
                                     perChat := 1, rate := 60, providerRate := 300, timeout := 600);
      s.(draft := Some(Draft(DraftVersion(s), Stored(view.(settings := settings)))), enabled := false)
  }

  /** Also a deleted agent can be given a key. */
  function AddKey(s: State, id: Id, scopes: set<int>, expiresAt: Option<int>): State {
    if id in s.keys || !(forall x :: x in scopes ==> x in s.live.scopes) then s
    else s.(keys := s.keys[id := Key(scopes, false, expiresAt)])
  }

  function Next(rules: Rules, s: State, step: Step): State {
    match step
    case Update(edit, env) => UpdateAgent(rules, s, edit, env)
    case Publish(env) => PublishAgent(rules, s, env)
    case Rollback(version, env) => RollbackAgent(rules, s, version, env)
    case ResetRecipe(description, scopes, env) => Reset(s, description, scopes, env)
    case SetEnabled(enabled, ready) => if s.deleted || s.published.None? || (enabled && !ready) then s else s.(enabled := enabled)
    case CreateKey(id, granted, expiresAt) => AddKey(s, id, granted, expiresAt)
    case RevokeKey(id) => if id in s.keys then s.(keys := s.keys[id := s.keys[id].(revoked := true)]) else s
    case ChangeMembership(members) => if s.deleted then s else s.(members := SortedSet(members))
    case Delete => s.(deleted := true, enabled := false, members := [], keys := map id | id in s.keys :: s.keys[id].(revoked := true))
  }

  function Exec(rules: Rules, s: State, steps: seq<Step>): State
    decreases |steps|
  {
    if steps == [] then s else Exec(rules, Next(rules, s, steps[0]), steps[1..])
  }

  /** A new agent: its configuration is live and its first draft at once, and nothing is published. */
  function Created(profile: Profile, enabled: bool, config: VersionConfig): State
    requires Storable(config)
  {
    State(profile, enabled, Stored(config).settings, None, Some(Draft(1, Stored(config))), map[], config.chats, map[], false)
  }

  // ---------- invariants ----------

  ghost predicate VersionsAreGapless(s: State) { forall v :: v in s.versions <==> 1 <= v <= Latest(s) }

  ghost predicate DraftIsNext(s: State) {
    (s.published.None? ==> s.draft.Some?) && (s.draft.Some? ==> s.draft.value.version == Latest(s) + 1)
  }

  ghost predicate VersionsAreStorable(s: State) { forall v :: v in s.versions ==> Storable(s.versions[v]) }

  /** The live columns are those of the published version, its cost limits compared as numbers. */
  ghost predicate LiveIsPublished(s: State) {
    VersionsAreGapless(s) && VersionsAreStorable(s) && (Latest(s) > 0 ==> s.live == Stored(s.versions[Latest(s)]).settings)
  }

  ghost predicate KeysAreWithinScopes(s: State) {
    forall id :: id in s.keys && !s.keys[id].revoked ==> forall x :: x in s.keys[id].scopes ==> x in s.live.scopes
  }

  ghost predicate RowsFit(s: State) {
    && (s.draft.Some? ==> RowFits(s.draft.value.config)) && RowFits(Config(s.live, []))
  }

  /** What a recorded version keeps for itself, which without a connection is all of it, is a fixed point of normalization. */
  ghost predicate VersionsAreNormal(rules: Rules, s: State) {
    forall v :: v in s.versions ==> KeepsNormal(rules, s.profile.kind, s.versions[v])
  }

  ghost predicate KeepsNormal(rules: Rules, kind: string, v: VersionConfig) { rules.config(kind, AsRaw(Kept(v))) == Some(Kept(v)) }

  ghost predicate Inv(rules: Rules, s: State) {
    && Lawful(rules) && LiveIsPublished(s) && DraftIsNext(s) && KeysAreWithinScopes(s) && RowsFit(s) && VersionsAreNormal(rules, s)
    && rules.profile(s.profile) == Some(s.profile) && (s.published.Some? ==> s.published.value >= 1)
  }

  lemma StoredFits(v: VersionConfig)
    requires Storable(v)
    ensures RowFits(Stored(v)) && RowFits(Config(Stored(v).settings, []))
  {
  }

  lemma PublishKeepsInv(rules: Rules, s: State, config: VersionConfig, version: nat, env: Env)
    requires Lawful(rules) && LiveIsPublished(s) && VersionsAreNormal(rules, s) && version == Latest(s) + 1
    requires rules.profile(s.profile) == Some(s.profile)
    requires KeepsNormal(rules, s.profile.kind, config)
    ensures var t := PublishConfig(s, config, version, env);
            t.Some? ==>
              && Inv(rules, t.value) && Latest(t.value) == version && t.value.versions == s.versions[version := config]
              && t.value.live == Stored(config).settings && t.value.members == config.chats && t.value.enabled
  {
    var t := PublishConfig(s, config, version, env);
    if t.Some? {
      StoredFits(config);
      forall id | id in t.value.keys && !t.value.keys[id].revoked ensures forall x :: x in t.value.keys[id].scopes ==> x in t.value.live.scopes {
        assert t.value.keys[id].scopes <= ScopeSet(config);
      }
    }
  }

  lemma ProspectiveIsNormal(rules: Rules, s: State, edit: Edit, env: Env)
    requires Lawful(rules)
    ensures var p := Prospective(rules, s, edit, env);
            p.Some? ==> KeepsNormal(rules, s.profile.kind, p.value)
  {
    assert ConfigLaw(rules, s.profile.kind, edit.config(AsRaw(View(s, env))));
  }

  lemma EditedProfileIsNormal(rules: Rules, s: State, edit: Edit)
    requires Lawful(rules) && rules.profile(s.profile) == Some(s.profile)
    ensures var p := EditedProfile(rules, s, edit);
            p.Some? ==> p.value.kind == s.profile.kind && rules.profile(p.value) == p
  {
    assert ProfileLaw(rules, s.profile, if edit.name.Some? then edit.name.value else s.profile.name,
                      if edit.handle.Some? then edit.handle.value else s.profile.handle);
  }

  lemma SaveKeepsInv(rules: Rules, s: State, profile: Profile, config: VersionConfig)
    requires Inv(rules, s) && Storable(config) && rules.profile(profile) == Some(profile) && profile.kind == s.profile.kind
    ensures Inv(rules, Save(s, profile, config))
  {
    StoredFits(config);
  }

  lemma UpdateKeepsInv(rules: Rules, s: State, edit: Edit, env: Env)
    requires Inv(rules, s)
    ensures Inv(rules, UpdateAgent(rules, s, edit, env))
  {
    var profile, config := EditedProfile(rules, s, edit), Prospective(rules, s, edit, env);
    if !s.deleted && profile.Some? && config.Some? && Storable(config.value) {
      ProspectiveIsNormal(rules, s, edit, env);
      EditedProfileIsNormal(rules, s, edit);
      SaveKeepsInv(rules, s, profile.value, config.value);
      FinishKeepsInv(rules, s, Save(s, profile.value, config.value), config.value, edit.enabled, env);
    }
  }

  lemma FinishKeepsInv(rules: Rules, s: State, saved: State, config: VersionConfig, enabled: Option<bool>, env: Env)
    requires Inv(rules, s) && Inv(rules, saved) && DraftVersion(s) == Latest(saved) + 1
    requires KeepsNormal(rules, saved.profile.kind, config)
    ensures Inv(rules, Finish(s, saved, config, enabled, env))
  {
    PublishKeepsInv(rules, saved, config, DraftVersion(s), env);
  }

  lemma PublishAgentKeepsInv(rules: Rules, s: State, env: Env)
    requires Inv(rules, s)
    ensures Inv(rules, PublishAgent(rules, s, env))
  {
    var config := rules.config(s.profile.kind, AsRaw(View(s, env)));
    if !s.deleted && s.draft.Some? && config.Some? {
      assert ConfigLaw(rules, s.profile.kind, AsRaw(View(s, env)));
      PublishKeepsInv(rules, s, config.value, s.draft.value.version, env);
    }
  }

  /** A new draft under the next number leaves everything else in order. */
  lemma DraftKeepsInv(rules: Rules, s: State, config: VersionConfig, enabled: bool)
    requires Inv(rules, s) && Storable(config)
    ensures Inv(rules, s.(draft := Some(Draft(Latest(s) + 1, Stored(config))), enabled := enabled))
  {
    StoredFits(config);
  }

  lemma ResetKeepsInv(rules: Rules, s: State, description: string, scopes: seq<int>, env: Env)
    requires Inv(rules, s)
    ensures Inv(rules, Reset(s, description, scopes, env))
  {
    var view := View(s, env);
    if Storable(view) {
      var settings := view.settings.(description := description, scopes := scopes, maxOutput := 2048, maxIterations := 8, maxDepth := 3,
                                     perChat := 1, rate := 60, providerRate := 300, timeout := 600);
      DraftKeepsInv(rules, s, view.(settings := settings), false);
    }
  }

  lemma KeysKeepInv(rules: Rules, s: State, keys: map<Id, Key>)
    requires Inv(rules, s)
    requires forall id :: id in keys && !keys[id].revoked ==> forall x :: x in keys[id].scopes ==> x in s.live.scopes
    ensures Inv(rules, s.(keys := keys))
  {
  }

  lemma FlagsKeepInv(rules: Rules, s: State, enabled: bool, members: seq<Id>, deleted: bool)
    requires Inv(rules, s)
    ensures Inv(rules, s.(enabled := enabled, members := members, deleted := deleted))
  {
  }

  lemma OtherStepsKeepInv(rules: Rules, s: State, step: Step)
    requires Inv(rules, s) && !step.Update? && !step.Publish?
    ensures Inv(rules, Next(rules, s, step))
  {
    match step {
      case Rollback(version, env) =>
        var config := Prepared(rules, s, version, env);
        if config.Some? { DraftKeepsInv(rules, s, config.value, s.enabled); }
      case ResetRecipe(description, scopes, env) => ResetKeepsInv(rules, s, description, scopes, env);
      case SetEnabled(enabled, _) => FlagsKeepInv(rules, s, enabled, s.members, s.deleted);
      case ChangeMembership(members) => FlagsKeepInv(rules, s, s.enabled, SortedSet(members), s.deleted);
      case CreateKey(_, _, _) => KeysKeepInv(rules, s, Next(rules, s, step).keys);
      case RevokeKey(_) => KeysKeepInv(rules, s, Next(rules, s, step).keys);
      case Delete =>
        var t := s.(enabled := false, members := [], deleted := true);
        FlagsKeepInv(rules, s, false, [], true);
        KeysKeepInv(rules, t, Next(rules, s, step).keys);
    }
  }

  lemma StepKeepsInv(rules: Rules, s: State, step: Step)
    requires Inv(rules, s)
    ensures Inv(rules, Next(rules, s, step))
  {
    match step {
      case Update(edit, env) => UpdateKeepsInv(rules, s, edit, env);
      case Publish(env) => PublishAgentKeepsInv(rules, s, env);
      case _ => OtherStepsKeepInv(rules, s, step);
    }
  }

  lemma UpdateIsNext(rules: Rules, s: State, edit: Edit, env: Env)
    requires Inv(rules, s)
    ensures Inv(rules, UpdateAgent(rules, s, edit, env)) && Next(rules, s, Update(edit, env)) == UpdateAgent(rules, s, edit, env)
  {
    UpdateKeepsInv(rules, s, edit, env);
  }

  lemma PublishIsNext(rules: Rules, s: State, env: Env)
    requires Inv(rules, s)
    ensures Inv(rules, PublishAgent(rules, s, env)) && Next(rules, s, Publish(env)) == PublishAgent(rules, s, env)
    ensures s.draft.Some? ==> s.draft.value.version == Latest(s) + 1
  {
    PublishAgentKeepsInv(rules, s, env);
  }

  lemma {:induction false} ExecKeepsInv(rules: Rules, s: State, steps: seq<Step>)
    requires Inv(rules, s)
    ensures Inv(rules, Exec(rules, s, steps))
    decreases |steps|
  {
    if steps != [] {
      StepKeepsInv(rules, s, steps[0]);
      ExecKeepsInv(rules, Next(rules, s, steps[0]), steps[1..]);
    }
  }

  lemma CreatedInv(rules: Rules, profile: Profile, enabled: bool, config: VersionConfig)
    requires Lawful(rules) && Storable(config) && rules.profile(profile) == Some(profile)
    ensures Inv(rules, Created(profile, enabled, config))
  {
    StoredFits(config);
  }

  // ---------- the main results ----------

  /** Recorded versions stay as they are, and the published version does not go back. */
  ghost predicate Grows(s: State, t: State) {
    (forall v :: v in s.versions ==> v in t.versions && t.versions[v] == s.versions[v]) && Latest(s) <= Latest(t)
  }

  lemma PublishGrows(s: State, config: VersionConfig, version: nat, env: Env)
    requires version == Latest(s) + 1
    ensures var t := PublishConfig(s, config, version, env); t.Some? ==> Grows(s, t.value)
  {
  }

  lemma UpdateGrows(rules: Rules, s: State, edit: Edit, env: Env)
    requires DraftIsNext(s)
    ensures Grows(s, UpdateAgent(rules, s, edit, env))
  {
    var profile, config := EditedProfile(rules, s, edit), Prospective(rules, s, edit, env);
    if profile.Some? && config.Some? && Storable(config.value) {
      var saved := Save(s, profile.value, config.value);
      assert Grows(s, saved) && Latest(saved) == Latest(s);
      PublishGrows(saved, config.value, DraftVersion(s), env);
    }
  }

  lemma PublishAgentGrows(rules: Rules, s: State, env: Env)
    requires DraftIsNext(s)
    ensures Grows(s, PublishAgent(rules, s, env))
  {
    var config := rules.config(s.profile.kind, AsRaw(View(s, env)));
    if s.draft.Some? && config.Some? { PublishGrows(s, config.value, s.draft.value.version, env); }
  }

  lemma StepGrows(rules: Rules, s: State, step: Step)
    requires DraftIsNext(s)
    ensures Grows(s, Next(rules, s, step))
  {
    match step
    case Update(edit, env) => UpdateGrows(rules, s, edit, env);
    case Publish(env) => PublishAgentGrows(rules, s, env);
    case _ =>
  }

  lemma {:induction false} VersionsAreImmutable(rules: Rules, s: State, steps: seq<Step>)
    requires Inv(rules, s)
    ensures Grows(s, Exec(rules, s, steps))
    decreases |steps|
  {
    if steps != [] {
      StepGrows(rules, s, steps[0]);
      StepKeepsInv(rules, s, steps[0]);
      VersionsAreImmutable(rules, Next(rules, s, steps[0]), steps[1..]);
    }
  }

  lemma RollbackPrepares(rules: Rules, s: State, v: nat, env: Env)
    requires Inv(rules, s) && !s.deleted && v in s.versions && s.versions[v].settings.connection.None?
    ensures Storable(s.versions[v]) && Prepared(rules, s, v, env) == Some(s.versions[v])
    ensures RollbackAgent(rules, s, v, env) == s.(draft := Some(Draft(Latest(s) + 1, Stored(s.versions[v]))))
  {
    assert KeepsNormal(rules, s.profile.kind, s.versions[v]);
  }

  /** Publishing a draft without a connection. */
  lemma DraftIsPublished(rules: Rules, r: State, was: VersionConfig, env: Env)
    requires Lawful(rules) && !r.deleted && rules.profile(r.profile) == Some(r.profile) && Storable(was) && was.settings.connection.None?
    requires rules.config(r.profile.kind, AsRaw(was)) == Some(was)
    requires r.draft == Some(Draft(Latest(r) + 1, Stored(was))) && Latest(r) + 1 !in r.versions
    ensures var p := PublishAgent(rules, r, env);
            if Ready(r, Texts(Stored(was)), env) then
              && Latest(p) == Latest(r) + 1 && p.live == Stored(was).settings && p.members == was.chats && p.enabled && p.draft.None?
              && Latest(p) in p.versions && Storable(p.versions[Latest(p)]) && Stored(p.versions[Latest(p)]) == Stored(was)
            else p == r
  {
    assert RowLaw(rules, r.profile.kind, was);
    assert View(r, env) == Texts(Stored(was));
  }

  /** Rolling back to a version without a connection always prepares its configuration as the next draft, and publishing
      that draft, exactly when the agent is ready for it, makes the same configuration live again: the columns, the
      memberships and the new recorded version are those of the old one, cost limits compared as numbers. */
  lemma RollbackReproduces(rules: Rules, s: State, v: nat, env: Env)
    requires Inv(rules, s) && !s.deleted && v in s.versions && s.versions[v].settings.connection.None?
    ensures Storable(s.versions[v])
    ensures var was := s.versions[v];
            var r := RollbackAgent(rules, s, v, env);
            var p := PublishAgent(rules, r, env);
            && r == s.(draft := Some(Draft(Latest(s) + 1, Stored(was))))
            && (if Ready(r, Texts(Stored(was)), env) then
                  && Latest(p) == Latest(s) + 1 && p.live == Stored(was).settings && p.members == was.chats && p.enabled && p.draft.None?
                  && Latest(p) in p.versions && Storable(p.versions[Latest(p)]) && Stored(p.versions[Latest(p)]) == Stored(was)
                else p == r)
  {
    RollbackPrepares(rules, s, v, env);
    assert KeepsNormal(rules, s.profile.kind, s.versions[v]);
    DraftIsPublished(rules, RollbackAgent(rules, s, v, env), s.versions[v], env);
  }

  // ---------- rolling back a version with a connection ----------

  predicate Sized(settings: Settings<Option<string>, int>) {
    Utf8Length(TrimSpace(settings.provider)) <= 100 && Utf8Length(TrimSpace(settings.model)) <= 200
  }

  /** A recorded version with what its connection says now; the default model fills in an empty one. */
  function Refreshed(was: VersionConfig, c: Connection): VersionConfig {
    was.(settings := was.settings.(provider := TrimSpace(c.provider), endpoint := TrimSpace(c.endpoint),
                                   model := TrimSpace(if TrimSpace(was.settings.model) == "" then c.defaultModel else was.settings.model)))
  }

  /** The connection says now what the version recorded. */
  predicate Agrees(was: VersionConfig, c: Connection) {
    && TrimSpace(c.provider) == was.settings.provider && TrimSpace(c.endpoint) == was.settings.endpoint
    && TrimSpace(if TrimSpace(was.settings.model) == "" then c.defaultModel else was.settings.model) == was.settings.model
  }

  function Respaced(v: VersionConfig): VersionConfig {
    v.(settings := v.settings.(provider := TrimSpace(v.settings.provider), endpoint := TrimSpace(v.settings.endpoint),
                               model := TrimSpace(v.settings.model)))
  }

  ghost predicate KeptNormal(c: Checks, kind: string, v: VersionConfig) { NormalConfig(c, kind, AsRaw(Kept(v))) == Some(Kept(v)) }

  /** Normalizing a configuration with a connection touches only what the connection overrides. */
  lemma KeptIsFilled(c: Checks, kind: string, v: VersionConfig)
    requires KeptNormal(c, kind, v) && v.settings.connection.Some?
    ensures NormalConfig(c, kind, AsRaw(v)) == if Sized(v.settings) then Some(Respaced(v)) else None
    ensures Acceptable(c, kind, Kept(v)) && IsFilled(Kept(v))
  {
    NormalizationIsIdempotent(c, kind, AsRaw(Kept(v)));
    assert Filled(AsRaw(Kept(v))) == Kept(v);
    FilledWithConnection(v);
    AcceptedWithConnection(c, kind, v);
  }

  lemma FilledWithConnection(v: VersionConfig)
    requires v.settings.connection.Some? && Filled(AsRaw(Kept(v))) == Kept(v)
    ensures Filled(AsRaw(v)) == Respaced(v)
  {
  }

  lemma AcceptedWithConnection(c: Checks, kind: string, v: VersionConfig)
    requires v.settings.connection.Some? && Acceptable(c, kind, Kept(v))
    ensures Acceptable(c, kind, Respaced(v)) == Sized(v.settings)
  {
    assert RecipeOk(kind, Kept(v)) == RecipeOk(kind, Respaced(v));
    assert ProviderOk(c, kind, Kept(v).settings) == ProviderOk(c, kind, Respaced(v).settings);
  }

  lemma SameKept(c: Checks, kind: string, v: VersionConfig, w: VersionConfig)
    requires KeptNormal(c, kind, v) && Kept(v) == Kept(w)
    ensures KeptNormal(c, kind, w)
  {
  }

  /** What is kept stays normal after a trip through a row. */
  lemma RowKeepsNormal(c: Checks, kind: string, v: VersionConfig)
    requires KeptNormal(c, kind, v) && v.settings.connection.Some? && Storable(v)
    ensures KeptNormal(c, kind, Texts(Stored(v)))
  {
    KeptIsFilled(c, kind, v);
    RowStaysNormal(c, kind, Kept(v));
    assert Kept(Texts(Stored(v))) == Texts(Stored(Kept(v)));
  }

  /** What the publication after a rollback normalizes. */
  lemma ViewIsRefreshed(c: Checks, kind: string, was: VersionConfig, connection: Connection, env: Env)
    requires KeptNormal(c, kind, was) && was.settings.connection.Some? && Storable(was)
    requires was.settings.connection.value in env.connections && env.connections[was.settings.connection.value] == connection
    ensures var text := Texts(Stored(Respaced(was)));
            var view := text.(settings := Connected(text.settings, env));
            NormalConfig(c, kind, AsRaw(view)) == if Sized(Refreshed(was, connection).settings) then Some(Texts(Stored(Refreshed(was, connection)))) else None
  {
    var text := Texts(Stored(Respaced(was)));
    var view := text.(settings := Connected(text.settings, env));
    RowKeepsNormal(c, kind, was);
    SameKept(c, kind, Texts(Stored(was)), view);
    KeptIsFilled(c, kind, view);
    TrimSpaceTrims(was.settings.model);
    TrimSpaceTrims(connection.defaultModel);
    TrimSpaceTrims(connection.provider);
  }

  /** A configuration is published from a draft exactly when it is accepted and the agent is ready for it. */
  ghost predicate Published(r: State, config: VersionConfig, env: Env, p: State)
    requires Storable(config)
  {
    if Sized(config.settings) && Ready(r, config, env) then
      && Latest(p) == Latest(r) + 1 && p.live == Stored(config).settings && p.members == config.chats && p.draft.None?
      && p.versions == r.versions[Latest(p) := Texts(Stored(config))]
    else p == r
  }

  lemma DraftBecomes(rules: Rules, r: State, config: VersionConfig, env: Env)
    requires !r.deleted && rules.profile(r.profile) == Some(r.profile) && r.draft.Some? && r.draft.value.version !in r.versions
    requires rules.config(r.profile.kind, AsRaw(View(r, env))) == Some(config) && Storable(config) && Linked(config.settings, env)
    ensures var version, p := r.draft.value.version, PublishAgent(rules, r, env);
            if Ready(r, config, env) then
              && p.published == Some(version) && p.live == Stored(config).settings && p.members == config.chats && p.draft.None?
              && p.versions == r.versions[version := config]
            else p == r
  {
  }

  lemma RefreshedIsPublished(c: Checks, r: State, renewed: VersionConfig, env: Env)
    requires Storable(renewed) && Linked(renewed.settings, env) && !r.deleted && NormalProfile(c, r.profile) == Some(r.profile)
    requires r.draft.Some? && r.draft.value.version == Latest(r) + 1 && Latest(r) + 1 !in r.versions
    requires NormalConfig(c, r.profile.kind, AsRaw(View(r, env))) == if Sized(renewed.settings) then Some(Texts(Stored(renewed))) else None
    ensures Published(r, renewed, env, PublishAgent(RulesOf(c), r, env))
  {
    if Sized(renewed.settings) {
      StoredFits(renewed);
      StoredReadsBack(Stored(renewed));
      DraftBecomes(RulesOf(c), r, Texts(Stored(renewed)), env);
      SameReady(r, renewed, env);
    }
  }

  lemma SameReady(s: State, v: VersionConfig, env: Env)
    requires Storable(v)
    ensures Ready(s, Texts(Stored(v)), env) == Ready(s, v, env)
  {
    assert ScopeSet(Texts(Stored(v))) == ScopeSet(v);
  }

  lemma InvGives(c: Checks, s: State, v: nat)
    requires Inv(RulesOf(c), s) && v in s.versions
    ensures Storable(s.versions[v]) && KeptNormal(c, s.profile.kind, s.versions[v])
    ensures NormalProfile(c, s.profile) == Some(s.profile) && Latest(s) + 1 !in s.versions
  {
    assert KeepsNormal(RulesOf(c), s.profile.kind, s.versions[v]);
  }

  lemma PreparesRespaced(c: Checks, s: State, v: nat, env: Env)
    requires v in s.versions && !s.deleted && NormalProfile(c, s.profile) == Some(s.profile)
    requires s.versions[v].settings.connection.Some? && Storable(s.versions[v]) && KeptNormal(c, s.profile.kind, s.versions[v])
    ensures var was := s.versions[v];
            Prepared(RulesOf(c), s, v, env)
            == if Sized(was.settings) && was.settings.connection.value in env.connections then Some(Respaced(was)) else None
  {
    KeptIsFilled(c, s.profile.kind, s.versions[v]);
  }

  function WithDraft(s: State, config: VersionConfig): State
    requires Storable(config)
  {
    s.(draft := Some(Draft(Latest(s) + 1, Stored(config))))
  }

  lemma ViewOfDraft(s: State, config: VersionConfig, env: Env)
    requires Storable(config)
    ensures var text := Texts(Stored(config));
            View(WithDraft(s, config), env) == text.(settings := Connected(text.settings, env))
  {
  }

  lemma PublishesRefreshed(c: Checks, s: State, was: VersionConfig, env: Env)
    requires !s.deleted && NormalProfile(c, s.profile) == Some(s.profile) && Latest(s) + 1 !in s.versions
    requires was.settings.connection.Some? && was.settings.connection.value in env.connections
    requires Storable(was) && KeptNormal(c, s.profile.kind, was)
    ensures var r := WithDraft(s, Respaced(was));
            Published(r, Refreshed(was, env.connections[was.settings.connection.value]), env, PublishAgent(RulesOf(c), r, env))
  {
    var r, renewed := WithDraft(s, Respaced(was)), Refreshed(was, env.connections[was.settings.connection.value]);
    assert NormalConfig(c, s.profile.kind, AsRaw(View(r, env))) == if Sized(renewed.settings) then Some(Texts(Stored(renewed))) else None by {
      ViewOfDraft(s, Respaced(was), env);
      ViewIsRefreshed(c, s.profile.kind, was, env.connections[was.settings.connection.value], env);
    }
    RefreshedIsStorable(was, env.connections[was.settings.connection.value]);
    RefreshedIsPublished(c, r, renewed, env);
  }

  lemma RefreshedIsStorable(was: VersionConfig, connection: Connection)
    requires Storable(was)
    ensures Storable(Refreshed(was, connection)) && Storable(Respaced(was))
  {
  }

  /** Rolling back to a version with a connection and publishing records what the connection says now: the draft is
      prepared exactly when the version is still accepted and its connection exists, and it is published exactly when
      the agent is ready for the refreshed configuration. */
  lemma RollbackFollowsConnection(c: Checks, s: State, v: nat, env: Env)
    requires Inv(RulesOf(c), s) && !s.deleted && v in s.versions && s.versions[v].settings.connection.Some?
    ensures Storable(s.versions[v])
    ensures var was := s.versions[v];
            var id := was.settings.connection.value;
            var r := RollbackAgent(RulesOf(c), s, v, env);
            if !Sized(was.settings) || id !in env.connections then Prepared(RulesOf(c), s, v, env).None? && r == s
            else
              && Prepared(RulesOf(c), s, v, env).Some? && r == WithDraft(s, Respaced(was))
              && Published(r, Refreshed(was, env.connections[id]), env, PublishAgent(RulesOf(c), r, env))
  {
    InvGives(c, s, v);
    PreparesRespaced(c, s, v, env);
    var was := s.versions[v];
    if Sized(was.settings) && was.settings.connection.value in env.connections {
      PublishesRefreshed(c, s, was, env);
    }
  }

  /** The configuration of a recorded version is live and recorded again, under the next number. */
  ghost predicate Reproduces(s: State, was: VersionConfig, p: State)
    requires Storable(was)
  {
    && Latest(p) == Latest(s) + 1 && p.live == Stored(was).settings && p.members == was.chats
    && Latest(p) in p.versions && Storable(p.versions[Latest(p)]) && Stored(p.versions[Latest(p)]) == Stored(was)
  }

  lemma ReproducesWhenAgreed(r: State, was: VersionConfig, connection: Connection, env: Env, p: State)
    requires Storable(was) && Published(r, Refreshed(was, connection), env, p) && Sized(was.settings)
    ensures Reproduces(r, was, p) <==> Ready(r, was, env) && Agrees(was, connection)
  {
    var renewed := Refreshed(was, connection);
    StoredFits(renewed);
    StoredReadsBack(Stored(renewed));
    if Agrees(was, connection) {
      assert renewed == was;
    } else {
      assert Stored(renewed).settings != Stored(was).settings;
    }
  }

  lemma DraftsDoNotMatter(s: State, r: State, was: VersionConfig, env: Env, p: State)
    requires Storable(was) && r == s.(draft := r.draft)
    ensures Ready(r, was, env) == Ready(s, was, env) && Reproduces(r, was, p) == Reproduces(s, was, p)
  {
  }

  /** With a connection, rolling back and publishing reproduces a version if and only if it is still accepted, the agent is
      ready for it, and its connection exists and says what the version recorded. */
  lemma RollbackReproducesExactlyWhen(c: Checks, s: State, v: nat, env: Env)
    requires Inv(RulesOf(c), s) && !s.deleted && v in s.versions && s.versions[v].settings.connection.Some?
    ensures Storable(s.versions[v])
    ensures var was := s.versions[v];
            var id := was.settings.connection.value;
            Prepared(RulesOf(c), s, v, env).Some? && Reproduces(s, was, PublishAgent(RulesOf(c), RollbackAgent(RulesOf(c), s, v, env), env))
            <==>
              Sized(was.settings) && Ready(s, was, env) && id in env.connections && Agrees(was, env.connections[id])
  {
    RollbackFollowsConnection(c, s, v, env);
    var was := s.versions[v];
    var id := was.settings.connection.value;
    if Sized(was.settings) && id in env.connections {
      var r := RollbackAgent(RulesOf(c), s, v, env);
      var p := PublishAgent(RulesOf(c), r, env);
      ReproducesWhenAgreed(r, was, env.connections[id], env, p);
      DraftsDoNotMatter(s, r, was, env, p);
    }
  }

  // An agent is created and published with a connection, the connection changes its provider, and the version is rolled
  // back and published again.

  /** A provider's name as a connection has it. */
  predicate Word(s: string) { s != "" && TrimSpace(s) == s && Utf8Length(s) <= 100 }

  function Helper(): Profile { Profile("Helper", "helper", "builtin") }

  function HelperConfig(was: string): VersionConfig {
    Config(Settings("custom", "", [], Some(7), was, "m", "", true, None, None, 2048, 8, 3, 1, 60, 300, 600), [1])
  }

  function EnvWith(provider: string): Env { Env(map[7 := Connection(provider, "", "m", true)], false, false, true, 0) }

  function HelperPublished(was: string): State {
    State(Helper(), true, Stored(HelperConfig(was)).settings, Some(1), None, map[1 := HelperConfig(was)], [1], map[], false)
  }

  lemma TrimmedStays(s: string)
    requires Trimmed(s)
    ensures TrimSpace(s) == s
  {
  }

  lemma HelperIsFilled(was: string)
    requires Word(was)
    ensures IsFilled(HelperConfig(was))
  {
    CustomStays("custom");
    TrimmedStays("");
    TrimmedStays("m");
  }

  lemma HelperIsNormal(c: Checks, was: string)
    requires Word(was)
    ensures NormalConfig(c, "builtin", AsRaw(HelperConfig(was))) == Some(HelperConfig(was))
  {
    HelperIsFilled(was);
    var s := HelperConfig(was).settings;
    assert RangesOk(s) && ProviderOk(c, "builtin", s) && RecipeOk("builtin", HelperConfig(was));
    assert CostOk(s.daily) && CostOk(s.monthly) && s.scopes == [];
    assert Acceptable(c, "builtin", HelperConfig(was));
    NormalIsAcceptable(c, "builtin", HelperConfig(was));
  }

  lemma HelperIsHelper(c: Checks)
    requires c.handleOk("helper")
    ensures NormalProfile(c, Helper()) == Some(Helper())
  {
    TrimmedStays("Helper");
    TrimmedStays("builtin");
    CanonicalStays("helper");
  }

  lemma HelperReady(was: string)
    requires Word(was)
    ensures PublishConfig(Created(Helper(), false, HelperConfig(was)), HelperConfig(was), 1, EnvWith(was)) == Some(HelperPublished(was))
  {
    assert RevokeBeyond(map[], ScopeSet(HelperConfig(was))) == map[];
  }

  lemma HelperFirst(c: Checks, was: string)
    requires c.handleOk("helper") && Word(was)
    ensures PublishAgent(RulesOf(c), Created(Helper(), false, HelperConfig(was)), EnvWith(was)) == HelperPublished(was)
  {
    HelperIsNormal(c, was);
    HelperIsHelper(c);
    HelperReady(was);
    assert View(Created(Helper(), false, HelperConfig(was)), EnvWith(was)) == HelperConfig(was);
  }

  lemma HelperReachable(c: Checks, was: string)
    requires c.handleOk("helper") && Word(was)
    ensures Inv(RulesOf(c), HelperPublished(was))
  {
    HelperIsHelper(c);
    NormalizationIsLawful(c);
    CreatedInv(RulesOf(c), Helper(), false, HelperConfig(was));
    PublishIsNext(RulesOf(c), Created(Helper(), false, HelperConfig(was)), EnvWith(was));
    HelperFirst(c, was);
  }

  lemma OneStep(rules: Rules, s: State, step: Step, steps: seq<Step>)
    ensures Exec(rules, s, [step] + steps) == Exec(rules, Next(rules, s, step), steps)
    ensures Exec(rules, s, [step]) == Next(rules, s, step)
  {
    assert ([step] + steps)[1..] == steps && [step][1..] == [];
  }

  lemma HelperIsSized(was: string, now: string)
    requires Word(was) && Word(now)
    ensures Sized(HelperConfig(was).settings)
    ensures var renewed := Refreshed(HelperConfig(was), EnvWith(now).connections[7]);
            Sized(renewed.settings) && renewed.settings == HelperConfig(was).settings.(provider := now)
  {
    TrimmedStays("m");
    AsciiLength("m");
    TrimmedStays("");
  }

  lemma HelperRenewed(was: string, now: string)
    requires Word(was) && Word(now)
    ensures var env := EnvWith(now);
            var renewed := Refreshed(HelperConfig(was), env.connections[7]);
            && Sized(HelperConfig(was).settings) && Sized(renewed.settings) && Ready(HelperPublished(was), renewed, env)
            && Storable(renewed) && Texts(Stored(renewed)).settings.provider == now
  {
    HelperIsSized(was, now);
  }

  /** What a publication of a draft leaves of the earlier versions. */
  lemma PublishedKeeps(r: State, config: VersionConfig, env: Env, p: State)
    requires Storable(config) && Published(r, config, env, p) && Sized(config.settings) && Ready(r, config, env)
    ensures p.versions == r.versions[Latest(r) + 1 := Texts(Stored(config))]
    ensures p.published == Some(Latest(r) + 1)
  {
  }

  lemma HelperAgain(c: Checks, was: string, now: string)
    requires c.handleOk("helper") && Word(was) && Word(now)
    ensures var env := EnvWith(now);
            var t := PublishAgent(RulesOf(c), RollbackAgent(RulesOf(c), HelperPublished(was), 1, env), env);
            && t.published == Some(2) && 1 in t.versions && 2 in t.versions && t.versions[1] == HelperConfig(was)
            && t.versions[2].settings.provider == now
  {
    var env := EnvWith(now);
    var r := RollbackAgent(RulesOf(c), HelperPublished(was), 1, env);
    var renewed := Refreshed(HelperConfig(was), env.connections[7]);
    HelperRenewed(was, now);
    assert r == WithDraft(HelperPublished(was), Respaced(HelperConfig(was))) && Published(r, renewed, env, PublishAgent(RulesOf(c), r, env)) by {
      HelperReachable(c, was);
      RollbackFollowsConnection(c, HelperPublished(was), 1, env);
    }
    DraftsDoNotMatter(HelperPublished(was), r, renewed, env, r);
    PublishedKeeps(r, renewed, env, PublishAgent(RulesOf(c), r, env));
  }

  lemma ThreeSteps(rules: Rules, s: State, a: Step, b: Step, c: Step)
    ensures Exec(rules, s, [a, b, c]) == Next(rules, Next(rules, Next(rules, s, a), b), c)
  {
    assert [a, b, c] == [a] + [b, c] && [b, c] == [b] + [c];
    OneStep(rules, s, a, [b, c]);
    OneStep(rules, Next(rules, s, a), b, [c]);
    OneStep(rules, Next(rules, Next(rules, s, a), b), c, []);
  }

  lemma PublishRollbackPublish(rules: Rules, s: State, p: State, first: Env, second: Env)
    requires PublishAgent(rules, s, first) == p
    ensures Exec(rules, s, [Publish(first), Rollback(1, second), Publish(second)]) == PublishAgent(rules, RollbackAgent(rules, p, 1, second), second)
  {
    ThreeSteps(rules, s, Publish(first), Rollback(1, second), Publish(second));
  }

  /** The new version has the connection's new provider, and is not the one that was rolled back to. */
  lemma ChangedConnectionIsPublished(c: Checks, was: string, now: string)
    requires c.handleOk("helper") && Word(was) && Word(now) && was != now
    ensures var steps := [Publish(EnvWith(was)), Rollback(1, EnvWith(now)), Publish(EnvWith(now))];
            var t := Exec(RulesOf(c), Created(Helper(), false, HelperConfig(was)), steps);
            && t.published == Some(2) && 1 in t.versions && 2 in t.versions && t.versions[1] == HelperConfig(was)
            && t.versions[2].settings.provider == now && t.versions[2] != t.versions[1]
  {
    HelperFirst(c, was);
    HelperAgain(c, was, now);
    PublishRollbackPublish(RulesOf(c), Created(Helper(), false, HelperConfig(was)), HelperPublished(was), EnvWith(was), EnvWith(now));
    assert HelperConfig(was).settings.provider == was;
  }

  /** Every state that an agent can reach has all of this. */
  lemma ReachableStatesAreConsistent(c: Checks, profile: Profile, enabled: bool, config: VersionConfig, steps: seq<Step>)
    requires Storable(config) && NormalProfile(c, profile) == Some(profile)
    ensures Inv(RulesOf(c), Exec(RulesOf(c), Created(profile, enabled, config), steps))
  {
    NormalizationIsLawful(c);
    CreatedInv(RulesOf(c), profile, enabled, config);
    ExecKeepsInv(RulesOf(c), Created(profile, enabled, config), steps);
  }
}
