/** backEnd/services/integrations_service.py: third-party integration rows. */
module IntegrationsService {
  import opened Wrappers
  import opened Seqs
  import opened Database

  /** `get_integration_by_name`: the row with that name, if any (names are unique). */
  method GetIntegrationByName(db: Database, name: string) returns (r: Option<Integration>)
    requires db.Valid()
    ensures r.Some? <==> exists id :: id in db.integrations && db.integrations[id].name == name
    ensures r.Some? ==> r.value.name == name && r.value.id in db.integrations && db.integrations[r.value.id] == r.value
  {
    if exists id :: id in db.integrations && db.integrations[id].name == name {
      var id :| id in db.integrations && db.integrations[id].name == name;
      r := Some(db.integrations[id]);
    } else {
      r := None;
    }
  }

  /** Python truthiness of the nullable `enabled` column: NULL reads as false. */
  predicate Enabled(enabled: Option<bool>) {
    enabled == Some(true)
  }

  /**
   * The row after `enabled = not enabled`: the column becomes a boolean holding the negated
   * truthiness (so a NULL becomes true), and every other column is as it was.
   */
  function Toggled(i: Integration): (r: Integration)
    ensures r.enabled.Some?
    ensures Enabled(r.enabled) <==> !Enabled(i.enabled)
    ensures r == i.(enabled := r.enabled)
  {
    i.(enabled := Some(!Enabled(i.enabled)))
  }

  /** Toggling twice restores a boolean `enabled`; a NULL one comes back as false, not NULL. */
  lemma ToggleTwice(i: Integration)
    ensures i.enabled.Some? ==> Toggled(Toggled(i)) == i
    ensures i.enabled.None? ==> Toggled(Toggled(i)) == i.(enabled := Some(false))
  {
    var once := Toggled(i);
    if i.enabled.Some? {
      assert once.enabled == Some(!i.enabled.value);
      assert Toggled(once).enabled == Some(i.enabled.value);
    }
  }

  /** `toggle_integration`: `None` for an unknown id; otherwise negates `enabled` in place. */
  method ToggleIntegration(db: Database, id: int) returns (r: Option<Integration>)
    requires db.Valid()
    modifies db`integrations
    ensures db.Valid()
    ensures id !in old(db.integrations) ==> r == None && db.integrations == old(db.integrations)
    ensures id in old(db.integrations) ==>
      && db.integrations == old(db.integrations)[id := Toggled(old(db.integrations)[id])]
      && r == Some(db.integrations[id])
  {
    if id !in db.integrations {
      return None;
    }
    var enabled := db.integrations[id].enabled;
    db.integrations := db.integrations[id := db.integrations[id].(enabled := Some(!(enabled.Some? && enabled.value)))];
    r := Some(db.integrations[id]);
  }

  /**
   * Two successive toggles of one id leave the table as it was, except that a NULL `enabled`
   * comes back as false.
   */
  method ToggleIntegrationTwice(db: Database, id: int)
    requires db.Valid()
    modifies db`integrations
    ensures db.Valid()
    ensures id in old(db.integrations) && old(db.integrations)[id].enabled.None? ==>
              db.integrations == old(db.integrations)[id := old(db.integrations)[id].(enabled := Some(false))]
    ensures id !in old(db.integrations) || old(db.integrations)[id].enabled.Some? ==>
              db.integrations == old(db.integrations)
  {
    var first := ToggleIntegration(db, id);
    var second := ToggleIntegration(db, id);
    if id in old(db.integrations) {
      ToggleTwice(old(db.integrations)[id]);
      if old(db.integrations)[id].enabled.Some? {
        assert db.integrations == old(db.integrations)[id := old(db.integrations)[id]];
      }
    }
  }

  /** One supplied field of an `IntegrationUpdate`; an explicit null is `None` and is stored as NULL. */
  datatype IntegrationField =
    | SetEnabled(enabled: Option<bool>)
    | SetApiKey(apiKey: Option<string>)
    | SetWebhookUrl(webhookUrl: Option<string>)
    | SetSettings(settings: Option<string>)

  function EnabledOf(f: IntegrationField): Option<Option<bool>> { if f.SetEnabled? then Some(f.enabled) else None }
  function ApiKeyOf(f: IntegrationField): Option<Option<string>> { if f.SetApiKey? then Some(f.apiKey) else None }
  function WebhookUrlOf(f: IntegrationField): Option<Option<string>> { if f.SetWebhookUrl? then Some(f.webhookUrl) else None }
  function SettingsOf(f: IntegrationField): Option<Option<string>> { if f.SetSettings? then Some(f.settings) else None }

  function Assign(i: Integration, f: IntegrationField): Integration {
    match f
    case SetEnabled(v) => i.(enabled := v)
    case SetApiKey(v) => i.(apiKey := v)
    case SetWebhookUrl(v) => i.(webhookUrl := v)
    case SetSettings(v) => i.(settings := v)
  }

  /** The row after the update loop: supplied columns take their last value; id, name and display name never change. */
  function Patched(i: Integration, patch: seq<IntegrationField>): (r: Integration)
    ensures r.id == i.id && r.name == i.name && r.displayName == i.displayName
    ensures r.enabled == Last(patch, EnabledOf).GetOr(i.enabled)
    ensures r.apiKey == Last(patch, ApiKeyOf).GetOr(i.apiKey)
    ensures r.webhookUrl == Last(patch, WebhookUrlOf).GetOr(i.webhookUrl)
    ensures r.settings == Last(patch, SettingsOf).GetOr(i.settings)
  {
    if patch == [] then i else Assign(Patched(i, patch[..|patch| - 1]), patch[|patch| - 1])
  }

  /** Sending the same update twice leaves the row as sending it once. */
  lemma PatchedTwice(i: Integration, patch: seq<IntegrationField>)
    ensures Patched(Patched(i, patch), patch) == Patched(i, patch)
  {
  }

  /** `update_integration`: `None` for an unknown id; otherwise applies the supplied fields in place. */
  method UpdateIntegration(db: Database, id: int, patch: seq<IntegrationField>) returns (r: Option<Integration>)
    requires db.Valid()
    modifies db`integrations
    ensures db.Valid()
    ensures id !in old(db.integrations) ==> r == None && db.integrations == old(db.integrations)
    ensures id in old(db.integrations) ==>
      && db.integrations == old(db.integrations)[id := Patched(old(db.integrations)[id], patch)]
      && r == Some(db.integrations[id])
  {
    if id !in db.integrations {
      return None;
    }
    var i := 0;
    while i < |patch|
      invariant 0 <= i <= |patch|
      invariant db.integrations == old(db.integrations)[id := Patched(old(db.integrations)[id], patch[..i])]
    {
      assert patch[..i + 1][..i] == patch[..i];
      db.integrations := db.integrations[id := Assign(db.integrations[id], patch[i])];
      i := i + 1;
    }
    assert patch[..i] == patch;
    r := Some(db.integrations[id]);
  }

  /** `delete_integration`: `false` for an unknown id; otherwise the row is gone. */
  method DeleteIntegration(db: Database, id: int) returns (deleted: bool)
    requires db.Valid()
    modifies db`integrations
    ensures db.Valid()
    ensures deleted <==> id in old(db.integrations)
    ensures db.integrations == old(db.integrations) - {id}
  {
    if id !in db.integrations {
      return false;
    }
    db.integrations := db.integrations - {id};
    deleted := true;
  }
}
