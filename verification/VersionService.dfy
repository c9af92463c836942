/** The operations on one agent's rows, statement by statement (core/internal/agent/service.go). */
module VersionService {
  import opened Collections
  import opened AgentConfig
  import opened Versions

  datatype Outcome = Succeeded | ErrInvalid | ErrConflict | ErrNotFound | ErrNotReady

  class AgentStore {
    const rules: Rules
    var profile: Profile
    var enabled: bool
    var live: StoredSettings
    var published: Option<nat>
    var draft: Option<Draft>
    var versions: map<nat, VersionConfig>
    var members: seq<Id>
    var keys: map<Id, Key>
    var deleted: bool

    function Table(): State reads this { State(profile, enabled, live, published, draft, versions, members, keys, deleted) }

    ghost predicate Valid() reads this { Inv(rules, Table()) }

    constructor (checks: Checks, profile: Profile, enabled: bool, config: VersionConfig)
      requires Storable(config) && NormalProfile(checks, profile) == Some(profile)
      ensures rules == RulesOf(checks) && Table() == Created(profile, enabled, config) && Valid()
    {
      rules, this.profile, this.enabled := RulesOf(checks), profile, enabled;
      live, published, draft := Stored(config).settings, None, Some(Draft(1, Stored(config)));
      versions, members, keys, deleted := map[], config.chats, map[], false;
      NormalizationIsLawful(checks);
      CreatedInv(RulesOf(checks), profile, enabled, config);
    }

    /** Everything a publication changes, in the order of the statements. */
    method PublishDraft(config: VersionConfig, version: nat, env: Env) returns (ok: bool)
      modifies this
      ensures ok == PublishConfig(old(Table()), config, version, env).Some?
      ensures Table() == if ok then PublishConfig(old(Table()), config, version, env).value else old(Table())
    {
      ok := Ready(Table(), config, env) && Storable(config) && Linked(config.settings, env) && version !in versions;
      if !ok {
        return;
      }
      live, enabled, published := Stored(config).settings, true, Some(version);
      members := config.chats;
      keys := RevokeBeyond(keys, ScopeSet(config));
      versions := versions[version := config];
      draft := None;
    }

    method Update(edit: Edit, env: Env) returns (outcome: Outcome)
      requires Valid()
      modifies this
      ensures Valid() && Table() == Next(rules, old(Table()), Step.Update(edit, env))
      ensures outcome == Succeeded <==> Updatable(rules, old(Table()), edit, env)
      ensures outcome != Succeeded ==> Table() == old(Table())
    {
      UpdateIsNext(rules, Table(), edit, env);
      outcome := UpdateNormalized(edit, env);
    }

    method UpdateNormalized(edit: Edit, env: Env) returns (outcome: Outcome)
      modifies this
      ensures Table() == UpdateAgent(rules, old(Table()), edit, env)
      ensures outcome == Succeeded <==> Updatable(rules, old(Table()), edit, env)
      ensures outcome != Succeeded ==> Table() == old(Table())
    {
      if deleted {
        return ErrNotFound;
      }
      var newProfile := EditedProfile(rules, Table(), edit);
      var config := Prospective(rules, Table(), edit, env);
      if newProfile.None? || config.None? || !Storable(config.value) {
        return ErrInvalid;
      }
      if edit.givesChats && config.value.chats != [] && !env.chatsExist {
        return ErrInvalid;
      }
      var oldProfile, oldDraft, version := profile, draft, DraftVersion(Table());
      profile := newProfile.value;
      draft := Some(Draft(version, Stored(config.value)));
      if edit.enabled == Some(true) {
        var ok := PublishDraft(config.value, version, env);
        if !ok {
          profile, draft := oldProfile, oldDraft;
          return ErrNotReady;
        }
      } else if edit.enabled == Some(false) {
        enabled := false;
      }
      outcome := Succeeded;
    }

    method Publish(env: Env) returns (outcome: Outcome)
      requires Valid()
      modifies this
      ensures Valid() && Table() == Next(rules, old(Table()), Step.Publish(env))
      ensures outcome == Succeeded ==> published == Some(Latest(old(Table())) + 1)
      ensures outcome != Succeeded ==> Table() == old(Table())
    {
      PublishIsNext(rules, Table(), env);
      outcome := PublishNormalized(env);
    }

    method PublishNormalized(env: Env) returns (outcome: Outcome)
      modifies this
      ensures Table() == PublishAgent(rules, old(Table()), env)
      ensures outcome == Succeeded ==> old(draft).Some? && published == Some(old(draft).value.version)
      ensures outcome != Succeeded ==> Table() == old(Table())
    {
      if deleted {
        return ErrNotFound;
      }
      if draft.None? {
        return ErrConflict;
      }
      var normalProfile := rules.profile(profile);
      var config := rules.config(profile.kind, AsRaw(View(Table(), env)));
      if normalProfile.None? || config.None? {
        return ErrInvalid;
      }
      var ok := PublishDraft(config.value, draft.value.version, env);
      outcome := if ok then Succeeded else ErrNotReady;
    }

    method Rollback(version: nat, env: Env) returns (outcome: Outcome)
      requires Valid()
      modifies this`draft
      ensures Valid() && Table() == Next(rules, old(Table()), Step.Rollback(version, env))
      ensures outcome == Succeeded <==> Prepared(rules, old(Table()), version, env).Some?
      ensures outcome != Succeeded ==> Table() == old(Table())
      ensures !deleted && version in versions && versions[version].settings.connection.None? ==> outcome == Succeeded
    {
      StepKeepsInv(rules, Table(), Step.Rollback(version, env));
      if !deleted && version in versions && versions[version].settings.connection.None? { RollbackPrepares(rules, Table(), version, env); }
      outcome := PrepareDraft(version, env);
    }

    method PrepareDraft(version: nat, env: Env) returns (outcome: Outcome)
      modifies this`draft
      ensures Table() == RollbackAgent(rules, old(Table()), version, env)
      ensures outcome == Succeeded <==> Prepared(rules, old(Table()), version, env).Some?
    {
      if deleted || version !in versions {
        return ErrNotFound;
      }
      var normalProfile := rules.profile(profile);
      var config := rules.config(profile.kind, AsRaw(versions[version]));
      if normalProfile.None? || config.None? || !Storable(config.value) {
        return ErrInvalid;
      }
      if !Linked(config.value.settings, env) {
        return ErrConflict;
      }
      draft := Some(Draft(Latest(Table()) + 1, Stored(config.value)));
      outcome := Succeeded;
    }

    /** The query that checks the scopes also finds a deleted agent. */
    method CreateKey(id: Id, granted: set<int>, expiresAt: Option<int>) returns (outcome: Outcome)
      requires Valid() && id !in keys
      modifies this`keys
      ensures Valid() && Table() == Next(rules, old(Table()), Step.CreateKey(id, granted, expiresAt))
      ensures outcome == Succeeded <==> forall x :: x in granted ==> x in live.scopes
    {
      StepKeepsInv(rules, Table(), Step.CreateKey(id, granted, expiresAt));
      if exists x :: x in granted && x !in live.scopes {
        return ErrInvalid;
      }
      keys := keys[id := Key(granted, false, expiresAt)];
      outcome := Succeeded;
    }
  }
}
